/** The fixture configuration screen of src/components/FixtureConfigManager.tsx:
    a form of three text inputs that either adds a new fixture type or, while
    an existing one is being edited, overwrites it, plus a confirmed delete.
    The clock (`Date.now()` for new ids, `toISOString()` for `createdAt`) is
    passed in; toasts are modelled as the returned notice. */
module Fixtures {
  import opened Seqs
  import opened Storage

  /** The three inputs of the add / edit form, as typed. */
  datatype Form = Form(name: string, voltage: string, current: string)

  const EmptyForm: Form := Form("", "", "")

  /** Which input an `onChange` handler writes. */
  datatype Field = Name | Voltage | Current

  /** `{ ...newFixture, <field>: value }`: one input changes, the others stay. */
  function WithField(form: Form, field: Field, value: string): (r: Form)
    ensures field == Name ==> r.name == value && r.voltage == form.voltage && r.current == form.current
    ensures field == Voltage ==> r.voltage == value && r.name == form.name && r.current == form.current
    ensures field == Current ==> r.current == value && r.name == form.name && r.voltage == form.voltage
  {
    match field
    case Name => form.(name := value)
    case Voltage => form.(voltage := value)
    case Current => form.(current := value)
  }

  /** The toast shown by the Add / Update button. */
  datatype Notice = FillAllFields | FixtureAdded | FixtureUpdated

  /** The validation of `handleAddFixture`: no field is the empty string. */
  predicate Complete(form: Form)
  {
    form.name != "" && form.voltage != "" && form.current != ""
  }

  /** `editingId` is truthy: set, and not the empty string. */
  predicate Editing(editingId: Option<string>)
  {
    editingId.Some? && editingId.value != ""
  }

  /** The record `handleAddFixture` saves: the id is `editingId || freshId`
      and `createdAt` is stamped with the current time, edit or not. */
  function FixtureFromForm(form: Form, editingId: Option<string>, freshId: string, now: string): FixtureConfig
  {
    FixtureConfig(if Editing(editingId) then editingId.value else freshId,
                  form.name, form.voltage, form.current, now)
  }

  /** The store after the Add / Update button: unchanged when a field is
      empty, otherwise the record of the form upserted by its id. */
  function AddFixtureIn(st: Items, form: Form, editingId: Option<string>, freshId: string, now: string): Items
  {
    if Complete(form) then SaveFixtureIn(st, FixtureFromForm(form, editingId, freshId, now)) else st
  }

  /** The form shown after `handleEdit(fixture)`. */
  function FormOf(f: FixtureConfig): Form
  {
    Form(f.name, f.voltage, f.current)
  }

  /** Validation: an incomplete form never reaches the store, and the only
      other collections are never touched. */
  lemma AddLeavesOtherCollections(st: Items, form: Form, editingId: Option<string>, freshId: string, now: string)
    ensures var r := AddFixtureIn(st, form, editingId, freshId, now);
      ReadControllers(r) == ReadControllers(st) && ReadTemplates(r) == ReadTemplates(st)
      && (!Complete(form) ==> r == st)
  {
  }

  /** Adding while not editing, under an id not yet stored, appends exactly
      the record of the form to the fixture list. */
  lemma AddAppends(st: Items, form: Form, editingId: Option<string>, freshId: string, now: string)
    requires Complete(form) && !Editing(editingId)
    requires !HasId(ReadFixtures(st), FixtureId, freshId)
    ensures var after := ReadFixtures(AddFixtureIn(st, form, editingId, freshId, now));
      after == ReadFixtures(st) + [FixtureConfig(freshId, form.name, form.voltage, form.current, now)]
  {
    var f := FixtureFromForm(form, editingId, freshId, now);
    UpsertAbsent(ReadFixtures(st), FixtureId, f, f);
  }

  /** Saving while editing a stored fixture overwrites it where it stands:
      the list keeps its length, the first record with that id becomes the
      form's values (with a new `createdAt`), and no other record moves. */
  lemma UpdateReplacesInPlace(st: Items, form: Form, id: string, freshId: string, now: string, i: nat)
    requires Complete(form) && id != ""
    requires i < |ReadFixtures(st)| && ReadFixtures(st)[i].id == id
    requires forall j :: 0 <= j < i ==> ReadFixtures(st)[j].id != id
    ensures var before := ReadFixtures(st);
      var after := ReadFixtures(AddFixtureIn(st, form, Some(id), freshId, now));
      |after| == |before|
      && after[i] == FixtureConfig(id, form.name, form.voltage, form.current, now)
      && forall j :: 0 <= j < |before| && j != i ==> after[j] == before[j]
  {
    var f := FixtureFromForm(form, Some(id), freshId, now);
    UpsertPresent(ReadFixtures(st), FixtureId, f, f, i);
  }

  /** Whatever the branch, looking up the saved id afterwards finds the
      record of the form. */
  lemma SaveThenFind(st: Items, form: Form, editingId: Option<string>, freshId: string, now: string)
    requires Complete(form)
    ensures var f := FixtureFromForm(form, editingId, freshId, now);
      var after := ReadFixtures(AddFixtureIn(st, form, editingId, freshId, now));
      var k := FindIndex(after, FixtureId, f.id);
      0 <= k && FormOf(after[k]) == form && after[k].createdAt == now
  {
    var f := FixtureFromForm(form, editingId, freshId, now);
    UpsertThenFind(ReadFixtures(st), FixtureId, f, f);
  }

  /** Edit, then Update without touching the inputs: the list is the same
      but for the edited record's `createdAt`. */
  lemma EditThenSaveTouchesOnlyTimestamp(st: Items, i: nat, freshId: string, now: string)
    requires i < |ReadFixtures(st)|
    requires var fx := ReadFixtures(st)[i];
      fx.id != "" && Complete(FormOf(fx)) && forall j :: 0 <= j < i ==> ReadFixtures(st)[j].id != fx.id
    ensures var fx := ReadFixtures(st)[i];
      ReadFixtures(AddFixtureIn(st, FormOf(fx), Some(fx.id), freshId, now)) == ReadFixtures(st)[i := fx.(createdAt := now)]
  {
    var fx := ReadFixtures(st)[i];
    var before := ReadFixtures(st);
    var after := ReadFixtures(AddFixtureIn(st, FormOf(fx), Some(fx.id), freshId, now));
    UpdateReplacesInPlace(st, FormOf(fx), fx.id, freshId, now, i);
    assert after == before[i := fx.(createdAt := now)];
  }

  /** Adding a new fixture and then deleting it gives back the fixture list
      as it was. */
  lemma AddThenDeleteRestores(st: Items, form: Form, freshId: string, now: string)
    requires Complete(form)
    requires !HasId(ReadFixtures(st), FixtureId, freshId)
    ensures ReadFixtures(DeleteFixtureIn(AddFixtureIn(st, form, None, freshId, now), freshId)) == ReadFixtures(st)
  {
    var f := FixtureFromForm(form, None, freshId, now);
    UpsertAbsentThenRemove(ReadFixtures(st), FixtureId, f, f);
  }

  /** The screen's state: the loaded list, the form, the fixture being
      edited and the fixture awaiting delete confirmation. */
  class FixtureConfigManager {
    const store: LocalStore
    var fixtures: seq<FixtureConfig>
    var form: Form
    var editingId: Option<string>
    var deleteId: Option<string>

    /** Mounting the screen loads the saved fixtures with an empty form. */
    constructor (store: LocalStore)
      ensures this.store == store
      ensures fixtures == ReadFixtures(store.items)
      ensures form == EmptyForm && editingId == None && deleteId == None
    {
      this.store := store;
      fixtures := ReadFixtures(store.items);
      form := EmptyForm;
      editingId := None;
      deleteId := None;
    }

    method LoadFixtures()
      modifies this
      ensures fixtures == ReadFixtures(store.items)
      ensures form == old(form) && editingId == old(editingId) && deleteId == old(deleteId)
    {
      fixtures := store.GetFixtureConfigs();
    }

    /** An input's `onChange`. */
    method SetField(field: Field, value: string)
      modifies this
      ensures form == WithField(old(form), field, value)
      ensures fixtures == old(fixtures) && editingId == old(editingId) && deleteId == old(deleteId)
    {
      form := WithField(form, field, value);
    }

    /** `handleAddFixture`: validate; save the form under `editingId` or a
        fresh id; reload; clear the form and leave edit mode. The notice
        reflects whether an edit was in progress when the button was pressed. */
    method HandleAddFixture(freshId: string, now: string) returns (notice: Notice)
      requires store.Valid()
      modifies this, store
      ensures store.Valid()
      ensures store.items == AddFixtureIn(old(store.items), old(form), old(editingId), freshId, now)
      ensures deleteId == old(deleteId)
      ensures !Complete(old(form)) ==>
        notice == FillAllFields && fixtures == old(fixtures) && form == old(form) && editingId == old(editingId)
      ensures Complete(old(form)) ==>
        fixtures == ReadFixtures(store.items) && form == EmptyForm && editingId == None
        && notice == (if Editing(old(editingId)) then FixtureUpdated else FixtureAdded)
    {
      if form.name == "" || form.voltage == "" || form.current == "" {
        notice := FillAllFields;
        return;
      }
      var id := if editingId.Some? && editingId.value != "" then editingId.value else freshId;
      var fixture := FixtureConfig(id, form.name, form.voltage, form.current, now);
      store.SaveFixtureConfig(fixture);
      LoadFixtures();
      var wasEditing := editingId.Some? && editingId.value != "";
      form := EmptyForm;
      editingId := None;
      notice := if wasEditing then FixtureUpdated else FixtureAdded;
    }

    /** `handleEdit`: copy the fixture into the form and enter edit mode. */
    method HandleEdit(fixture: FixtureConfig)
      modifies this
      ensures form == FormOf(fixture) && editingId == Some(fixture.id)
      ensures fixtures == old(fixtures) && deleteId == old(deleteId)
    {
      form := Form(fixture.name, fixture.voltage, fixture.current);
      editingId := Some(fixture.id);
    }

    /** `handleCancel`: clear the form and leave edit mode. */
    method HandleCancel()
      modifies this
      ensures form == EmptyForm && editingId == None
      ensures fixtures == old(fixtures) && deleteId == old(deleteId)
    {
      form := EmptyForm;
      editingId := None;
    }

    /** `handleDelete`: delete from the store, reload, close the dialog. */
    method HandleDelete(id: string)
      requires store.Valid()
      modifies this, store
      ensures store.Valid()
      ensures store.items == DeleteFixtureIn(old(store.items), id)
      ensures fixtures == ReadFixtures(store.items) && deleteId == None
      ensures form == old(form) && editingId == old(editingId)
    {
      store.DeleteFixtureConfig(id);
      LoadFixtures();
      deleteId := None;
    }

    /** The trash button of a row opens the confirmation dialog. */
    method RequestDelete(id: string)
      modifies this
      ensures deleteId == Some(id)
      ensures fixtures == old(fixtures) && form == old(form) && editingId == old(editingId)
    {
      deleteId := Some(id);
    }

    /** Closing the dialog without confirming. */
    method DismissDelete()
      modifies this
      ensures deleteId == None
      ensures fixtures == old(fixtures) && form == old(form) && editingId == old(editingId)
    {
      deleteId := None;
    }

    /** The dialog is open while `deleteId` is truthy. */
    predicate DialogOpen()
      reads this
    {
      deleteId.Some? && deleteId.value != ""
    }

    /** The dialog's Delete button: `deleteId && handleDelete(deleteId)`. */
    method ConfirmDelete()
      requires store.Valid()
      modifies this, store
      ensures store.Valid() && form == old(form) && editingId == old(editingId)
      ensures old(DialogOpen()) ==>
        store.items == DeleteFixtureIn(old(store.items), old(deleteId).value)
        && fixtures == ReadFixtures(store.items) && deleteId == None
      ensures !old(DialogOpen()) ==>
        store.items == old(store.items) && fixtures == old(fixtures) && deleteId == old(deleteId)
    {
      if deleteId.Some? && deleteId.value != "" {
        HandleDelete(deleteId.value);
      }
    }
  }
}
