/** The dashboard of src/components/Dashboard.tsx: total power with the
    parallel-count factor, the near-limit warning, the search filter, the
    three stat cards, the campus / building / floor grouping with its
    counts and batch lists, and the delete handler. */
module Dash {
  import opened Seqs
  import opened Numbers
  import opened Storage

  // ---------------------------------------------------------------------
  // power and warning

  /** `channel.parallelCount || 1`. */
  function ParallelFactor(pc: real): real
  {
    if pc == 0.0 then 1.0 else pc
  }

  /** Voltage times current times the parallel factor, unparsable numbers read as 0. */
  function Load(voltage: string, current: string, pc: real): real
  {
    ParseNum(voltage) * ParseNum(current) * ParallelFactor(pc)
  }

  /** One channel's power as the dashboard computes it. */
  function ChannelLoad(ch: Channel): real
  {
    Load(ch.voltage, ch.current, ch.parallelCount)
  }

  /** `calculateTotalPower`. */
  function CalculateTotalPower(chs: seq<Channel>): real
  {
    Sum(chs, ChannelLoad)
  }

  lemma TotalPowerOrderIndependent(a: seq<Channel>, b: seq<Channel>)
    requires multiset(a) == multiset(b)
    ensures CalculateTotalPower(a) == CalculateTotalPower(b)
  {
    SumPermutation(a, b, ChannelLoad);
  }

  /** The warning test of `hasWarning` on a total and an optional limit:
      an absent or zero limit never warns. */
  function Warning(total: real, limit: Option<real>): bool
  {
    if limit.None? || limit.value == 0.0 then false else total >= limit.value * 0.8
  }

  /** `hasWarning`: "Near power limit" is shown for this controller. */
  function HasWarning(c: ControllerData): bool
  {
    Warning(CalculateTotalPower(c.channels), c.powerLimit)
  }

  /** With a non-zero limit the warning is on exactly from 80% of the limit. */
  lemma HasWarningIff(c: ControllerData)
    ensures (c.powerLimit.None? || c.powerLimit.value == 0.0) ==> !HasWarning(c)
    ensures c.powerLimit.Some? && c.powerLimit.value != 0.0 ==>
      (HasWarning(c) <==> CalculateTotalPower(c.channels) >= 0.8 * c.powerLimit.value)
  {
  }

  /** More power never clears a warning. */
  lemma WarningMonotone(t1: real, t2: real, limit: Option<real>)
    requires t1 <= t2 && Warning(t1, limit)
    ensures Warning(t2, limit)
  {
  }

  /** A smaller positive limit never clears a warning. */
  lemma WarningLimitAntitone(t: real, l1: real, l2: real)
    requires 0.0 < l2 <= l1 && Warning(t, Some(l1))
    ensures Warning(t, Some(l2))
  {
  }

  /** Reordering a controller's channels does not change its warning. */
  lemma HasWarningOrderIndependent(c: ControllerData, chs: seq<Channel>)
    requires multiset(chs) == multiset(c.channels)
    ensures HasWarning(c.(channels := chs)) == HasWarning(c)
  {
    TotalPowerOrderIndependent(chs, c.channels);
  }

  // ---------------------------------------------------------------------
  // search

  /** The search test: the lower-cased term occurs in one of the five
      lower-cased location fields. */
  function Matches(c: ControllerData, term: string): bool
  {
    var search := Lower(term);
    Contains(Lower(c.campus), search) || Contains(Lower(c.building), search)
    || Contains(Lower(c.floor), search) || Contains(Lower(c.zone), search)
    || Contains(Lower(c.controllerNumber), search)
  }

  function MatchesTerm(term: string): ControllerData -> bool
  {
    c => Matches(c, term)
  }

  /** `filteredControllers`. */
  function FilteredControllers(cs: seq<ControllerData>, term: string): seq<ControllerData>
  {
    Filter(cs, MatchesTerm(term))
  }

  /** The filter keeps exactly the matching controllers, in their order. */
  lemma FilteredSpec(cs: seq<ControllerData>, term: string)
    ensures var r := FilteredControllers(cs, term);
      IsSubsequence(r, cs) &&
      (forall j :: 0 <= j < |r| ==> r[j] in cs && Matches(r[j], term)) &&
      (forall j :: 0 <= j < |cs| && Matches(cs[j], term) ==> cs[j] in r)
  {
    FilterIsSubsequence(cs, MatchesTerm(term));
  }

  /** An empty search keeps every controller. */
  lemma EmptySearchKeepsAll(cs: seq<ControllerData>)
    ensures FilteredControllers(cs, "") == cs
  {
    forall j | 0 <= j < |cs| ensures MatchesTerm("")(cs[j]) {
      assert Lower("") == [];
      assert [] <= Lower(cs[j].campus);
    }
    FilterAll(cs, MatchesTerm(""));
  }

  // ---------------------------------------------------------------------
  // stats

  /** "Total Channels": `controllers.reduce((sum, c) => sum + c.channels.length, 0)`. */
  function TotalChannels(cs: seq<ControllerData>): nat
  {
    if cs == [] then 0 else TotalChannels(cs[..|cs| - 1]) + |cs[|cs| - 1].channels|
  }

  lemma {:induction false} TotalChannelsConcat(a: seq<ControllerData>, b: seq<ControllerData>)
    ensures TotalChannels(a + b) == TotalChannels(a) + TotalChannels(b)
  {
    if b == [] {
      assert a + b == a;
    } else {
      var c := a + b;
      assert c[..|c| - 1] == a + b[..|b| - 1];
      TotalChannelsConcat(a, b[..|b| - 1]);
    }
  }

  /** When every controller holds at least one channel, the channel total
      is at least the controller total. */
  lemma {:induction false} TotalChannelsAtLeastControllers(cs: seq<ControllerData>)
    requires forall j :: 0 <= j < |cs| ==> cs[j].channels != []
    ensures TotalChannels(cs) >= |cs|
  {
    if cs != [] {
      TotalChannelsAtLeastControllers(cs[..|cs| - 1]);
    }
  }

  /** The channel stat over a filtered list never exceeds the stat over the
      whole list. */
  lemma {:induction false} TotalChannelsOfFilter(cs: seq<ControllerData>, p: ControllerData -> bool)
    ensures TotalChannels(Filter(cs, p)) <= TotalChannels(cs)
    decreases |cs|
  {
    if cs != [] {
      var h, t := [cs[0]], cs[1..];
      TotalChannelsOfFilter(t, p);
      assert cs == h + t;
      TotalChannelsConcat(h, t);
      var kept := if p(cs[0]) then h else [];
      assert Filter(cs, p) == kept + Filter(t, p);
      TotalChannelsConcat(kept, Filter(t, p));
      assert h[..0] == [];
    }
  }

  /** "With Warnings": `controllers.filter(hasWarning).length`. */
  function WarningCount(cs: seq<ControllerData>): nat
  {
    |Filter(cs, HasWarning)|
  }

  /** The warning stat counts over all controllers, not over the search
      result, so it is at least the number of warnings among the matches. */
  lemma WarningCountBounds(cs: seq<ControllerData>, term: string)
    ensures WarningCount(FilteredControllers(cs, term)) <= WarningCount(cs) <= |cs|
  {
    FilterOfFilterShorter(cs, HasWarning, MatchesTerm(term));
  }

  // ---------------------------------------------------------------------
  // grouping

  function CampusOf(c: ControllerData): string
  {
    if c.campus == "" then "Unknown Campus" else c.campus
  }

  function BuildingOf(c: ControllerData): string
  {
    if c.building == "" then "Unknown Building" else c.building
  }

  function FloorOf(c: ControllerData): string
  {
    if c.floor == "" then "Unknown Floor" else c.floor
  }

  type Floors = map<string, seq<ControllerData>>
  type Buildings = map<string, Floors>
  type Groups = map<string, Buildings>

  function InCampus(ca: string): ControllerData -> bool
  {
    c => CampusOf(c) == ca
  }

  function InBuilding(ca: string, b: string): ControllerData -> bool
  {
    c => CampusOf(c) == ca && BuildingOf(c) == b
  }

  function AtFloor(ca: string, b: string, f: string): ControllerData -> bool
  {
    c => CampusOf(c) == ca && BuildingOf(c) == b && FloorOf(c) == f
  }

  /** One step of the `reduce` that builds `groupedControllers`. */
  function AddToGroups(g: Groups, c: ControllerData): Groups
  {
    var ca, b, f := CampusOf(c), BuildingOf(c), FloorOf(c);
    var bs := if ca in g then g[ca] else map[];
    var fs := if b in bs then bs[b] else map[];
    var leaf := if f in fs then fs[f] else [];
    g[ca := bs[b := fs[f := leaf + [c]]]]
  }

  /** `groupedControllers` of a list of controllers. */
  function Grouped(cs: seq<ControllerData>): Groups
  {
    if cs == [] then map[] else AddToGroups(Grouped(cs[..|cs| - 1]), cs[|cs| - 1])
  }

  /** A campus key is present exactly when some controller of `cs` is on that campus. */
  ghost predicate CampusKeys(g: Groups, cs: seq<ControllerData>)
  {
    forall ca :: ca in g <==> Filter(cs, InCampus(ca)) != []
  }

  ghost predicate BuildingKeys(g: Groups, cs: seq<ControllerData>)
  {
    forall ca, b :: ca in g ==> (b in g[ca] <==> Filter(cs, InBuilding(ca, b)) != [])
  }

  ghost predicate FloorKeys(g: Groups, cs: seq<ControllerData>)
  {
    forall ca, b, f :: ca in g && b in g[ca] ==>
      (f in g[ca][b] <==> Filter(cs, AtFloor(ca, b, f)) != [])
  }

  /** Each leaf lists the controllers at its location, in their order in `cs`. */
  ghost predicate Leaves(g: Groups, cs: seq<ControllerData>)
  {
    forall ca, b, f :: ca in g && b in g[ca] && f in g[ca][b] ==>
      g[ca][b][f] == Filter(cs, AtFloor(ca, b, f))
  }

  /** `g` groups `cs`: a campus, building or floor key is present exactly
      when some controller of `cs` has it, and each leaf is the list of the
      controllers at that location, in their order in `cs`. */
  ghost predicate GroupsOf(g: Groups, cs: seq<ControllerData>)
  {
    CampusKeys(g, cs) && BuildingKeys(g, cs) && FloorKeys(g, cs) && Leaves(g, cs)
  }

  lemma FilterSnoc<T>(s: seq<T>, x: T, p: T -> bool)
    ensures Filter(s + [x], p) == Filter(s, p) + if p(x) then [x] else []
  {
    FilterConcat(s, [x], p);
    assert [x][1..] == [];
  }

  /** Narrowing the predicate keeps an empty filter empty. */
  lemma FilterEmptyNarrow<T>(s: seq<T>, p: T -> bool, q: T -> bool)
    requires Filter(s, q) == []
    requires forall i :: 0 <= i < |s| && p(s[i]) ==> q(s[i])
    ensures Filter(s, p) == []
  {
  }

  lemma AddCampusKeys(g: Groups, cs: seq<ControllerData>, c: ControllerData)
    requires CampusKeys(g, cs)
    ensures CampusKeys(AddToGroups(g, c), cs + [c])
  {
    var g', cs' := AddToGroups(g, c), cs + [c];
    forall ca ensures ca in g' <==> Filter(cs', InCampus(ca)) != [] {
      FilterSnoc(cs, c, InCampus(ca));
    }
  }

  lemma AddBuildingKeys(g: Groups, cs: seq<ControllerData>, c: ControllerData)
    requires CampusKeys(g, cs) && BuildingKeys(g, cs)
    ensures BuildingKeys(AddToGroups(g, c), cs + [c])
  {
    var g', cs' := AddToGroups(g, c), cs + [c];
    forall ca, b | ca in g' ensures b in g'[ca] <==> Filter(cs', InBuilding(ca, b)) != [] {
      FilterSnoc(cs, c, InBuilding(ca, b));
      if ca !in g {
        FilterEmptyNarrow(cs, InBuilding(ca, b), InCampus(ca));
      }
    }
  }

  lemma AddFloorKeys(g: Groups, cs: seq<ControllerData>, c: ControllerData)
    requires CampusKeys(g, cs) && BuildingKeys(g, cs) && FloorKeys(g, cs)
    ensures FloorKeys(AddToGroups(g, c), cs + [c])
  {
    var g', cs' := AddToGroups(g, c), cs + [c];
    forall ca, b, f | ca in g' && b in g'[ca]
      ensures f in g'[ca][b] <==> Filter(cs', AtFloor(ca, b, f)) != []
    {
      AddFloorKey(g, cs, c, ca, b, f);
    }
  }

  /** One floor key of `AddFloorKeys`, from the key facts at that location alone. */
  lemma AddFloorKey(g: Groups, cs: seq<ControllerData>, c: ControllerData, ca: string, b: string, f: string)
    requires ca in g <==> Filter(cs, InCampus(ca)) != []
    requires ca in g ==> (b in g[ca] <==> Filter(cs, InBuilding(ca, b)) != [])
    requires ca in g && b in g[ca] ==> (f in g[ca][b] <==> Filter(cs, AtFloor(ca, b, f)) != [])
    requires var g' := AddToGroups(g, c); ca in g' && b in g'[ca]
    ensures f in AddToGroups(g, c)[ca][b] <==> Filter(cs + [c], AtFloor(ca, b, f)) != []
  {
    FilterSnoc(cs, c, AtFloor(ca, b, f));
    if ca !in g {
      FilterEmptyNarrow(cs, AtFloor(ca, b, f), InCampus(ca));
    } else if b !in g[ca] {
      FilterEmptyNarrow(cs, AtFloor(ca, b, f), InBuilding(ca, b));
    }
  }

  /** Adding `c` touches only the leaf of `c`'s own location. */
  lemma AddToGroupsOtherLeaf(g: Groups, c: ControllerData, ca: string, b: string, f: string)
    requires var g' := AddToGroups(g, c); ca in g' && b in g'[ca] && f in g'[ca][b]
    requires !AtFloor(ca, b, f)(c)
    ensures ca in g && b in g[ca] && f in g[ca][b]
    ensures AddToGroups(g, c)[ca][b][f] == g[ca][b][f]
  {
  }

  /** The leaf of `c`'s own location gains `c` at its end. */
  lemma AddToGroupsOwnLeaf(g: Groups, c: ControllerData)
    ensures var g', ca, b, f := AddToGroups(g, c), CampusOf(c), BuildingOf(c), FloorOf(c);
      ca in g' && b in g'[ca] && f in g'[ca][b] &&
      g'[ca][b][f] == (if ca in g && b in g[ca] && f in g[ca][b] then g[ca][b][f] else []) + [c]
  {
  }

  lemma AddLeaves(g: Groups, cs: seq<ControllerData>, c: ControllerData)
    requires CampusKeys(g, cs) && BuildingKeys(g, cs) && FloorKeys(g, cs) && Leaves(g, cs)
    ensures Leaves(AddToGroups(g, c), cs + [c])
  {
    var g', cs' := AddToGroups(g, c), cs + [c];
    forall ca, b, f | ca in g' && b in g'[ca] && f in g'[ca][b]
      ensures g'[ca][b][f] == Filter(cs', AtFloor(ca, b, f))
    {
      var p := AtFloor(ca, b, f);
      FilterSnoc(cs, c, p);
      if p(c) {
        AddToGroupsOwnLeaf(g, c);
        if ca !in g {
          FilterEmptyNarrow(cs, p, InCampus(ca));
        } else if b !in g[ca] {
          FilterEmptyNarrow(cs, p, InBuilding(ca, b));
        }
      } else {
        AddToGroupsOtherLeaf(g, c, ca, b, f);
      }
    }
  }

  lemma AddToGroupsStep(g: Groups, cs: seq<ControllerData>, c: ControllerData)
    requires GroupsOf(g, cs)
    ensures GroupsOf(AddToGroups(g, c), cs + [c])
  {
    AddCampusKeys(g, cs, c);
    AddBuildingKeys(g, cs, c);
    AddFloorKeys(g, cs, c);
    AddLeaves(g, cs, c);
  }

  lemma {:induction false} GroupedSpec(cs: seq<ControllerData>)
    ensures GroupsOf(Grouped(cs), cs)
  {
    if cs != [] {
      var init, last := cs[..|cs| - 1], cs[|cs| - 1];
      assert init + [last] == cs;
      GroupedSpec(init);
      AddToGroupsStep(Grouped(init), init, last);
    }
  }

  /** One call of the `reduce` callback: create the missing campus,
      building and floor entries of the accumulator, then push `c`. */
  method AddController(g0: Groups, c: ControllerData) returns (g: Groups)
    ensures g == AddToGroups(g0, c)
  {
    var campus, building, floor := CampusOf(c), BuildingOf(c), FloorOf(c);
    g := g0;
    ghost var bs := if campus in g0 then g0[campus] else map[];
    if campus !in g {
      g := g[campus := map[]];
    } else {
      assert g0[campus := bs] == g0;
    }
    assert g == g0[campus := bs];
    ghost var fs := if building in bs then bs[building] else map[];
    if building !in g[campus] {
      g := g[campus := g[campus][building := map[]]];
    } else {
      assert bs[building := fs] == bs;
    }
    assert g == g0[campus := bs[building := fs]];
    ghost var leaf := if floor in fs then fs[floor] else [];
    if floor !in g[campus][building] {
      assert g[campus][building] == fs && leaf == [];
      g := g[campus := g[campus][building := g[campus][building][floor := []]]];
      assert g[campus] == bs[building := fs[floor := leaf]];
    } else {
      assert fs[floor := leaf] == fs;
    }
    assert g == g0[campus := bs[building := fs[floor := leaf]]];
    assert g[campus][building][floor] == leaf;
    assert fs[floor := leaf][floor := leaf + [c]] == fs[floor := leaf + [c]];
    assert bs[building := fs[floor := leaf]][building := fs[floor := leaf + [c]]]
        == bs[building := fs[floor := leaf + [c]]];
    g := g[campus := g[campus][building := g[campus][building][floor := g[campus][building][floor] + [c]]]];
    assert g[campus] == bs[building := fs[floor := leaf + [c]]];
  }

  /** The `reduce` of `groupedControllers`, one callback per controller in order. */
  method GroupControllers(cs: seq<ControllerData>) returns (g: Groups)
    ensures g == Grouped(cs)
    ensures GroupsOf(g, cs)
  {
    g := map[];
    for i := 0 to |cs|
      invariant g == Grouped(cs[..i])
    {
      assert cs[..i + 1][..i] == cs[..i];
      g := AddController(g, cs[i]);
    }
    assert cs[..|cs|] == cs;
    GroupedSpec(cs);
  }

  /** A leaf of the grouping is the list of the controllers at its location. */
  lemma GroupedLeaf(cs: seq<ControllerData>, ca: string, b: string, f: string)
    requires ca in Grouped(cs) && b in Grouped(cs)[ca] && f in Grouped(cs)[ca][b]
    ensures Grouped(cs)[ca][b][f] == Filter(cs, AtFloor(ca, b, f))
  {
    GroupedSpec(cs);
  }

  /** The location keys of every controller are present in the grouping. */
  lemma GroupedKeys(cs: seq<ControllerData>, x: ControllerData)
    requires x in cs
    ensures var g := Grouped(cs);
      CampusOf(x) in g && BuildingOf(x) in g[CampusOf(x)] && FloorOf(x) in g[CampusOf(x)][BuildingOf(x)]
  {
    GroupedSpec(cs);
    var ca, b, f := CampusOf(x), BuildingOf(x), FloorOf(x);
    var i :| 0 <= i < |cs| && cs[i] == x;
    assert cs[i] in Filter(cs, InCampus(ca));
    assert cs[i] in Filter(cs, InBuilding(ca, b));
    assert cs[i] in Filter(cs, AtFloor(ca, b, f));
  }

  /** Every controller lies in the leaf of its own location and in no other. */
  lemma ExactlyOneLeaf(cs: seq<ControllerData>, x: ControllerData)
    requires x in cs
    ensures var g := Grouped(cs);
      && CampusOf(x) in g && BuildingOf(x) in g[CampusOf(x)]
      && FloorOf(x) in g[CampusOf(x)][BuildingOf(x)]
      && x in g[CampusOf(x)][BuildingOf(x)][FloorOf(x)]
      && forall ca, b, f :: ca in g && b in g[ca] && f in g[ca][b] && x in g[ca][b][f] ==>
           ca == CampusOf(x) && b == BuildingOf(x) && f == FloorOf(x)
  {
    var g := Grouped(cs);
    GroupedKeys(cs, x);
    GroupedLeaf(cs, CampusOf(x), BuildingOf(x), FloorOf(x));
    var i :| 0 <= i < |cs| && cs[i] == x;
    assert AtFloor(CampusOf(x), BuildingOf(x), FloorOf(x))(cs[i]);
    forall ca, b, f | ca in g && b in g[ca] && f in g[ca][b] && x in g[ca][b][f]
      ensures ca == CampusOf(x) && b == BuildingOf(x) && f == FloorOf(x)
    {
      GroupedLeaf(cs, ca, b, f);
      var leaf := g[ca][b][f];
      var k :| 0 <= k < |leaf| && leaf[k] == x;
      assert AtFloor(ca, b, f)(leaf[k]);
    }
  }

  // ---------------------------------------------------------------------
  // per-building and per-campus counts and batch lists

  /** The building's "Export" list `Object.values(floors).flat()`, taken in
      the key order `order`, holds exactly the building's controllers. */
  lemma BuildingBatch(cs: seq<ControllerData>, ca: string, b: string, order: seq<string>)
    requires ca in Grouped(cs) && b in Grouped(cs)[ca]
    requires IsKeyOrder(order, Grouped(cs)[ca][b].Keys)
    ensures var floors := Grouped(cs)[ca][b];
      multiset(Concat(floors, order)) == multiset(Filter(cs, InBuilding(ca, b)))
  {
    var floors := Grouped(cs)[ca][b];
    var base := multiset(Filter(cs, InBuilding(ca, b)));
    forall x ensures multiset(Concat(floors, order))[x] == base[x] {
      forall k | k in order
        ensures multiset(floors[k])[x] == if FloorOf(x) == k then base[x] else 0
      {
        GroupedLeaf(cs, ca, b, k);
        FilterCount(cs, AtFloor(ca, b, k), x);
        FilterCount(cs, InBuilding(ca, b), x);
      }
      ConcatCount(floors, order, FloorOf, base, x);
      FilterCount(cs, InBuilding(ca, b), x);
      if InBuilding(ca, b)(x) && x in cs {
        GroupedKeys(cs, x);
      }
    }
  }

  /** The building header's count, the floor sizes summed, is the number of
      controllers in the building. */
  lemma BuildingCount(cs: seq<ControllerData>, ca: string, b: string, order: seq<string>)
    requires ca in Grouped(cs) && b in Grouped(cs)[ca]
    requires IsKeyOrder(order, Grouped(cs)[ca][b].Keys)
    ensures SizeSum(Grouped(cs)[ca][b], order) == |Filter(cs, InBuilding(ca, b))|
  {
    BuildingBatch(cs, ca, b, order);
    SizeSumIsLength(Grouped(cs)[ca][b], order);
    var floors := Grouped(cs)[ca][b];
    assert |multiset(Concat(floors, order))| == |multiset(Filter(cs, InBuilding(ca, b)))|;
  }

  /** Floor key orders, one per building of a campus. */
  ghost predicate FloorOrders(bs: Buildings, forders: map<string, seq<string>>)
  {
    forall b :: b in bs ==> b in forders && IsKeyOrder(forders[b], bs[b].Keys)
  }

  /** Each building's controllers, floors concatenated. */
  function FlatBuildings(bs: Buildings, forders: map<string, seq<string>>): (m: map<string, seq<ControllerData>>)
    requires forall b :: b in bs ==> b in forders && forall k :: k in forders[b] ==> k in bs[b]
    ensures m.Keys == bs.Keys
  {
    map b | b in bs :: Concat(bs[b], forders[b])
  }

  /** The campus header's count: the building counts summed over `border`. */
  function CampusCount(bs: Buildings, border: seq<string>, forders: map<string, seq<string>>): nat
    requires forall b :: b in border ==> b in bs && b in forders && forall k :: k in forders[b] ==> k in bs[b]
  {
    if border == [] then 0
    else SizeSum(bs[border[0]], forders[border[0]]) + CampusCount(bs, border[1..], forders)
  }

  lemma {:induction false} CampusCountIsLength(bs: Buildings, border: seq<string>, forders: map<string, seq<string>>)
    requires forall b :: b in bs ==> b in forders && forall k :: k in forders[b] ==> k in bs[b]
    requires forall b :: b in border ==> b in bs
    ensures CampusCount(bs, border, forders) == |Concat(FlatBuildings(bs, forders), border)|
  {
    if border != [] {
      CampusCountIsLength(bs, border[1..], forders);
      SizeSumIsLength(bs[border[0]], forders[border[0]]);
    }
  }

  /** The campus's "Export All" list holds exactly the campus's controllers. */
  lemma CampusBatch(cs: seq<ControllerData>, ca: string, border: seq<string>, forders: map<string, seq<string>>)
    requires ca in Grouped(cs)
    requires IsKeyOrder(border, Grouped(cs)[ca].Keys)
    requires FloorOrders(Grouped(cs)[ca], forders)
    ensures var bs := Grouped(cs)[ca];
      multiset(Concat(FlatBuildings(bs, forders), border)) == multiset(Filter(cs, InCampus(ca)))
  {
    var bs := Grouped(cs)[ca];
    var m := FlatBuildings(bs, forders);
    var base := multiset(Filter(cs, InCampus(ca)));
    forall x ensures multiset(Concat(m, border))[x] == base[x] {
      forall k | k in border
        ensures multiset(m[k])[x] == if BuildingOf(x) == k then base[x] else 0
      {
        BuildingBatch(cs, ca, k, forders[k]);
        FilterCount(cs, InBuilding(ca, k), x);
        FilterCount(cs, InCampus(ca), x);
      }
      ConcatCount(m, border, BuildingOf, base, x);
      FilterCount(cs, InCampus(ca), x);
      if InCampus(ca)(x) && x in cs {
        GroupedKeys(cs, x);
      }
    }
  }

  /** The campus header's count is the number of controllers on the campus. */
  lemma CampusCountSpec(cs: seq<ControllerData>, ca: string, border: seq<string>, forders: map<string, seq<string>>)
    requires ca in Grouped(cs)
    requires IsKeyOrder(border, Grouped(cs)[ca].Keys)
    requires FloorOrders(Grouped(cs)[ca], forders)
    ensures CampusCount(Grouped(cs)[ca], border, forders) == |Filter(cs, InCampus(ca))|
  {
    var bs := Grouped(cs)[ca];
    CampusBatch(cs, ca, border, forders);
    CampusCountIsLength(bs, border, forders);
    assert |multiset(Concat(FlatBuildings(bs, forders), border))| == |multiset(Filter(cs, InCampus(ca)))|;
  }

  /** The campus counts summed over `corder`. */
  function CampusTotals(cs: seq<ControllerData>, corder: seq<string>): nat
  {
    if corder == [] then 0 else |Filter(cs, InCampus(corder[0]))| + CampusTotals(cs, corder[1..])
  }

  lemma {:induction false} CampusTotalsAsConcat(cs: seq<ControllerData>, corder: seq<string>, m: map<string, seq<ControllerData>>)
    requires forall k :: k in corder ==> k in m && m[k] == Filter(cs, InCampus(k))
    ensures CampusTotals(cs, corder) == |Concat(m, corder)|
  {
    if corder != [] {
      CampusTotalsAsConcat(cs, corder[1..], m);
    }
  }

  /** Over all campuses the counts add up to the number of controllers
      shown: every filtered controller is counted once. */
  lemma CampusTotalsSpec(cs: seq<ControllerData>, corder: seq<string>)
    requires IsKeyOrder(corder, Grouped(cs).Keys)
    ensures CampusTotals(cs, corder) == |cs|
  {
    var m := map k | k in corder :: Filter(cs, InCampus(k));
    forall x ensures multiset(Concat(m, corder))[x] == multiset(cs)[x] {
      CampusListsCount(cs, corder, m, x);
    }
    CampusTotalsAsConcat(cs, corder, m);
    assert multiset(Concat(m, corder)) == multiset(cs);
    assert |multiset(Concat(m, corder))| == |multiset(cs)|;
  }

  /** The campus lists, concatenated in key order, hold each controller as
      often as the list does. */
  lemma CampusListsCount(cs: seq<ControllerData>, corder: seq<string>, m: map<string, seq<ControllerData>>, x: ControllerData)
    requires IsKeyOrder(corder, Grouped(cs).Keys)
    requires forall k :: k in corder ==> k in m && m[k] == Filter(cs, InCampus(k))
    ensures multiset(Concat(m, corder))[x] == multiset(cs)[x]
  {
    forall k | k in corder
      ensures multiset(m[k])[x] == if CampusOf(x) == k then multiset(cs)[x] else 0
    {
      FilterCount(cs, InCampus(k), x);
    }
    ConcatCount(m, corder, CampusOf, multiset(cs), x);
    if x in cs {
      GroupedKeys(cs, x);
    }
  }

  // ---------------------------------------------------------------------
  // the dashboard's state

  class Dashboard {
    const store: LocalStore
    var controllers: seq<ControllerData>
    var searchTerm: string
    var deleteId: Option<string>

    /** Mounting the dashboard loads the saved controllers. */
    constructor (store: LocalStore)
      ensures this.store == store
      ensures controllers == ReadControllers(store.items) && searchTerm == "" && deleteId == None
    {
      this.store := store;
      controllers := ReadControllers(store.items);
      searchTerm := "";
      deleteId := None;
    }

    method LoadControllers()
      modifies this
      ensures controllers == ReadControllers(store.items)
      ensures searchTerm == old(searchTerm) && deleteId == old(deleteId)
    {
      controllers := store.GetControllers();
    }

    /** `handleDelete`: delete from the store, reload, close the dialog. */
    method HandleDelete(id: string)
      requires store.Valid()
      modifies this, store
      ensures store.Valid()
      ensures store.items == DeleteControllerIn(old(store.items), id)
      ensures controllers == ReadControllers(store.items)
      ensures searchTerm == old(searchTerm) && deleteId == None
    {
      store.DeleteController(id);
      LoadControllers();
      deleteId := None;
    }

    /** The trash button of a card opens the confirmation dialog. */
    method RequestDelete(id: string)
      modifies this
      ensures deleteId == Some(id)
      ensures controllers == old(controllers) && searchTerm == old(searchTerm)
    {
      deleteId := Some(id);
    }

    /** Closing the dialog without confirming. */
    method DismissDelete()
      modifies this
      ensures deleteId == None
      ensures controllers == old(controllers) && searchTerm == old(searchTerm)
    {
      deleteId := None;
    }

    /** The confirmation dialog is open while `deleteId` is truthy: set
        and not the empty string. */
    predicate DialogOpen()
      reads this
    {
      deleteId.Some? && deleteId.value != ""
    }

    /** The dialog's Delete button: `deleteId && handleDelete(deleteId)`,
        so an empty id deletes nothing and leaves `deleteId` as it was. */
    method ConfirmDelete()
      requires store.Valid()
      modifies this, store
      ensures store.Valid() && searchTerm == old(searchTerm)
      ensures old(DialogOpen()) ==>
        store.items == DeleteControllerIn(old(store.items), old(deleteId).value) &&
        controllers == ReadControllers(store.items) && deleteId == None
      ensures !old(DialogOpen()) ==>
        store.items == old(store.items) && controllers == old(controllers) && deleteId == old(deleteId)
    {
      if deleteId.Some? && deleteId.value != "" {
        HandleDelete(deleteId.value);
      }
    }

    method SetSearchTerm(term: string)
      modifies this
      ensures searchTerm == term
      ensures controllers == old(controllers) && deleteId == old(deleteId)
    {
      searchTerm := term;
    }

    function Filtered(): seq<ControllerData>
      reads this
    {
      FilteredControllers(controllers, searchTerm)
    }

    /** "Total Controllers": every saved controller, whatever the search. */
    function TotalControllersStat(): (n: nat)
      reads this
      ensures n >= |Filtered()|
    {
      |controllers|
    }

    /** "With Warnings": counted over all controllers, so never below the
        warnings among the matches and never above the controller total. */
    function WithWarningsStat(): (n: nat)
      reads this
      ensures WarningCount(Filtered()) <= n <= TotalControllersStat()
    {
      WarningCountBounds(controllers, searchTerm);
      WarningCount(controllers)
    }

    /** "Total Channels": counted over all controllers, so never below the
        channels of the matches. */
    function TotalChannelsStat(): (n: nat)
      reads this
      ensures n >= TotalChannels(Filtered())
    {
      TotalChannelsOfFilter(controllers, MatchesTerm(searchTerm));
      TotalChannels(controllers)
    }

    /** `groupedControllers`: the campus / building / floor tree is built
        from the controllers matching the search, not from all of them. */
    method GroupedControllers() returns (g: Groups)
      ensures g == Grouped(Filtered())
      ensures GroupsOf(g, Filtered())
    {
      g := GroupControllers(FilteredControllers(controllers, searchTerm));
    }
  }
}
