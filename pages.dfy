/** The page of src/pages/Index.tsx: a three-way switch between the
    dashboard, the controller sheet and the fixture configuration screen,
    together with the controller handed to the sheet when one is edited. */
module Pages {
  import opened Seqs
  import opened Storage

  datatype View = DashboardView | EditorView | FixturesView

  /** The page's two pieces of state. */
  datatype PageState = PageState(view: View, editingController: Option<ControllerData>)

  /** On first render: the dashboard, nothing being edited. */
  const Initial: PageState := PageState(DashboardView, None)

  /** The four callbacks the page hands down. */
  datatype Event =
    | CreateNew
    | EditController(controller: ControllerData)
    | BackToDashboard
    | OpenFixtures

  /** The component the page renders. */
  datatype Screen =
    | DashboardScreen
    | SheetScreen(initialData: Option<ControllerData>)
    | FixtureScreen

  /** The handlers. */
  function Step(s: PageState, e: Event): PageState
  {
    match e
    case CreateNew => PageState(EditorView, None)
    case EditController(c) => PageState(EditorView, Some(c))
    case BackToDashboard => PageState(DashboardView, None)
    case OpenFixtures => s.(view := FixturesView)
  }

  /** Exactly one of the three screens, chosen by `view`; the sheet is
      given the controller being edited. */
  function Rendered(s: PageState): (r: Screen)
    ensures r.DashboardScreen? <==> s.view == DashboardView
    ensures r.FixtureScreen? <==> s.view == FixturesView
    ensures r.SheetScreen? <==> s.view == EditorView
    ensures r.SheetScreen? ==> r.initialData == s.editingController
  {
    match s.view
    case DashboardView => DashboardScreen
    case FixturesView => FixtureScreen
    case EditorView => SheetScreen(s.editingController)
  }

  /** The callbacks the rendered screen receives: the dashboard gets
      create, edit and open-fixtures; the other two screens get only back. */
  predicate Offered(v: View, e: Event)
  {
    match v
    case DashboardView => !e.BackToDashboard?
    case EditorView => e.BackToDashboard?
    case FixturesView => e.BackToDashboard?
  }

  /** The state after a sequence of callbacks, in order. */
  function Run(s: PageState, es: seq<Event>): PageState
    decreases |es|
  {
    if es == [] then s else Run(Step(s, es[0]), es[1..])
  }

  /** Every callback of `es` is one the screen rendered at that moment offers. */
  predicate OfferedTrace(s: PageState, es: seq<Event>)
    decreases |es|
  {
    es == [] || (Offered(s.view, es[0]) && OfferedTrace(Step(s, es[0]), es[1..]))
  }

  /** A controller is held only while the sheet is shown. */
  predicate Consistent(s: PageState)
  {
    s.view != EditorView ==> s.editingController.None?
  }

  /** Create opens an empty sheet, edit opens the sheet on the chosen
      controller, back returns to the initial state, from any state. */
  lemma NavigationTargets(s: PageState, c: ControllerData)
    ensures Rendered(Step(s, CreateNew)) == SheetScreen(None)
    ensures Rendered(Step(s, EditController(c))) == SheetScreen(Some(c))
    ensures Step(s, BackToDashboard) == Initial && Rendered(Initial) == DashboardScreen
    ensures Rendered(Step(s, OpenFixtures)) == FixtureScreen
  {
  }

  /** Opening the fixtures keeps `editingController`; only the wiring that
      offers it on the dashboard alone keeps a held controller out of the
      fixture screen. */
  lemma OpenFixturesKeepsController(c: ControllerData)
    ensures var s := Step(PageState(EditorView, Some(c)), OpenFixtures);
      s.view == FixturesView && s.editingController == Some(c) && !Consistent(s)
  {
  }

  lemma StepConsistent(s: PageState, e: Event)
    requires Consistent(s) && Offered(s.view, e)
    ensures Consistent(Step(s, e))
  {
  }

  /** Any sequence of callbacks the screens offer, started from a
      consistent state, ends in a consistent state; in particular from the
      initial state. */
  lemma {:induction false} RunConsistent(s: PageState, es: seq<Event>)
    requires Consistent(s) && OfferedTrace(s, es)
    ensures Consistent(Run(s, es))
    decreases |es|
  {
    if es != [] {
      StepConsistent(s, es[0]);
      RunConsistent(Step(s, es[0]), es[1..]);
    }
  }

  /** Whatever came before, back lands on the dashboard with nothing held. */
  lemma {:induction false} RunThenBack(s: PageState, es: seq<Event>)
    ensures Run(s, es + [BackToDashboard]) == Initial
    decreases |es|
  {
    if es != [] {
      assert (es + [BackToDashboard])[1..] == es[1..] + [BackToDashboard];
      RunThenBack(Step(s, es[0]), es[1..]);
    }
  }

  /** The page component with its two state hooks. */
  class Index {
    var view: View
    var editingController: Option<ControllerData>

    function State(): PageState
      reads this
    {
      PageState(view, editingController)
    }

    constructor ()
      ensures State() == Initial
    {
      view := DashboardView;
      editingController := None;
    }

    method HandleCreateNew()
      modifies this
      ensures State() == Step(old(State()), CreateNew)
    {
      editingController := None;
      view := EditorView;
    }

    method HandleEditController(controller: ControllerData)
      modifies this
      ensures State() == Step(old(State()), EditController(controller))
    {
      editingController := Some(controller);
      view := EditorView;
    }

    method HandleBackToDashboard()
      modifies this
      ensures State() == Step(old(State()), BackToDashboard)
    {
      editingController := None;
      view := DashboardView;
    }

    method HandleOpenFixtures()
      modifies this
      ensures State() == Step(old(State()), OpenFixtures)
    {
      view := FixturesView;
    }
  }
}
