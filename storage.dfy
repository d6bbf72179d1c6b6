/** The record store of src/lib/controllerStorage.ts: three collections
    (controllers, templates, fixture presets), each kept as one JSON array
    under its own key of the browser's local key-value store. Here the
    key-value store is a map from key to the decoded array (JSON encoding
    and decoding are taken to be inverse), and the clock reading that a
    controller save stamps into `updatedAt` is a parameter. */
module Storage {
  import opened Seqs

  // ---------------------------------------------------------------------
  // records

  datatype Channel = Channel(
    id: string,
    channelNumber: int,
    fixtureType: string,
    voltage: string,
    current: string,
    parallelCount: real)

  datatype ControllerData = ControllerData(
    id: string,
    campus: string,
    building: string,
    floor: string,
    zone: string,
    controllerNumber: string,
    channels: seq<Channel>,
    powerLimit: Option<real>,
    createdAt: string,
    updatedAt: string)

  /** A channel of a template: a channel without its id. */
  datatype ChannelShape = ChannelShape(
    channelNumber: int,
    fixtureType: string,
    voltage: string,
    current: string,
    parallelCount: real)

  datatype ControllerTemplate = ControllerTemplate(
    id: string,
    name: string,
    description: string,
    campus: Option<string>,
    building: Option<string>,
    floor: Option<string>,
    zone: Option<string>,
    controllerNumber: Option<string>,
    powerLimit: Option<real>,
    channels: seq<ChannelShape>,
    createdAt: string)

  datatype FixtureConfig = FixtureConfig(
    id: string,
    name: string,
    voltage: string,
    current: string,
    createdAt: string)

  function ControllerId(c: ControllerData): string { c.id }
  function TemplateId(t: ControllerTemplate): string { t.id }
  function FixtureId(f: FixtureConfig): string { f.id }

  // ---------------------------------------------------------------------
  // the key-value store

  /** What a key of the store holds, once decoded. */
  datatype Blob =
    | ControllerList(controllers: seq<ControllerData>)
    | TemplateList(templates: seq<ControllerTemplate>)
    | FixtureList(fixtures: seq<FixtureConfig>)

  type Items = map<string, Blob>

  const ControllersKey: string := "controller_docs"
  const TemplatesKey: string := "controller_templates"
  const FixturesKey: string := "fixture_configs"

  /** Each of the three keys, when present, holds an array of its own kind. */
  ghost predicate WellFormed(st: Items)
  {
    && (ControllersKey in st ==> st[ControllersKey].ControllerList?)
    && (TemplatesKey in st ==> st[TemplatesKey].TemplateList?)
    && (FixturesKey in st ==> st[FixturesKey].FixtureList?)
  }

  /** Only `key` may differ between `st` and `r`. */
  ghost predicate OnlyKeyChanged(st: Items, r: Items, key: string)
  {
    forall k :: k != key ==> (k in r <==> k in st) && (k in st ==> r[k] == st[k])
  }

  /** `getControllers`: a key never written reads as the empty list. */
  function ReadControllers(st: Items): seq<ControllerData>
  {
    if ControllersKey in st && st[ControllersKey].ControllerList? then st[ControllersKey].controllers else []
  }

  function ReadTemplates(st: Items): seq<ControllerTemplate>
  {
    if TemplatesKey in st && st[TemplatesKey].TemplateList? then st[TemplatesKey].templates else []
  }

  function ReadFixtures(st: Items): seq<FixtureConfig>
  {
    if FixturesKey in st && st[FixturesKey].FixtureList? then st[FixturesKey].fixtures else []
  }

  /** A controller save: a record with a new id is appended as given; a
      record whose id is stored replaces the first stored match, with its
      `updatedAt` set to `now`. */
  function UpsertController(cs: seq<ControllerData>, c: ControllerData, now: string): seq<ControllerData>
  {
    Upsert(cs, ControllerId, c, c.(updatedAt := now))
  }

  // The store after each of the six mutations. Each rewrites its own key
  // and leaves every other key, and so the other two collections, as it was.

  function SaveControllerIn(st: Items, c: ControllerData, now: string): (r: Items)
    ensures ReadControllers(r) == UpsertController(ReadControllers(st), c, now)
    ensures ReadTemplates(r) == ReadTemplates(st) && ReadFixtures(r) == ReadFixtures(st)
    ensures OnlyKeyChanged(st, r, ControllersKey)
    ensures WellFormed(st) ==> WellFormed(r)
  {
    st[ControllersKey := ControllerList(UpsertController(ReadControllers(st), c, now))]
  }

  function DeleteControllerIn(st: Items, id: string): (r: Items)
    ensures ReadControllers(r) == RemoveId(ReadControllers(st), ControllerId, id)
    ensures ReadTemplates(r) == ReadTemplates(st) && ReadFixtures(r) == ReadFixtures(st)
    ensures OnlyKeyChanged(st, r, ControllersKey)
    ensures WellFormed(st) ==> WellFormed(r)
  {
    st[ControllersKey := ControllerList(RemoveId(ReadControllers(st), ControllerId, id))]
  }

  function SaveTemplateIn(st: Items, t: ControllerTemplate): (r: Items)
    ensures ReadTemplates(r) == Upsert(ReadTemplates(st), TemplateId, t, t)
    ensures ReadControllers(r) == ReadControllers(st) && ReadFixtures(r) == ReadFixtures(st)
    ensures OnlyKeyChanged(st, r, TemplatesKey)
    ensures WellFormed(st) ==> WellFormed(r)
  {
    st[TemplatesKey := TemplateList(Upsert(ReadTemplates(st), TemplateId, t, t))]
  }

  function DeleteTemplateIn(st: Items, id: string): (r: Items)
    ensures ReadTemplates(r) == RemoveId(ReadTemplates(st), TemplateId, id)
    ensures ReadControllers(r) == ReadControllers(st) && ReadFixtures(r) == ReadFixtures(st)
    ensures OnlyKeyChanged(st, r, TemplatesKey)
    ensures WellFormed(st) ==> WellFormed(r)
  {
    st[TemplatesKey := TemplateList(RemoveId(ReadTemplates(st), TemplateId, id))]
  }

  function SaveFixtureIn(st: Items, f: FixtureConfig): (r: Items)
    ensures ReadFixtures(r) == Upsert(ReadFixtures(st), FixtureId, f, f)
    ensures ReadControllers(r) == ReadControllers(st) && ReadTemplates(r) == ReadTemplates(st)
    ensures OnlyKeyChanged(st, r, FixturesKey)
    ensures WellFormed(st) ==> WellFormed(r)
  {
    st[FixturesKey := FixtureList(Upsert(ReadFixtures(st), FixtureId, f, f))]
  }

  function DeleteFixtureIn(st: Items, id: string): (r: Items)
    ensures ReadFixtures(r) == RemoveId(ReadFixtures(st), FixtureId, id)
    ensures ReadControllers(r) == ReadControllers(st) && ReadTemplates(r) == ReadTemplates(st)
    ensures OnlyKeyChanged(st, r, FixturesKey)
    ensures WellFormed(st) ==> WellFormed(r)
  {
    st[FixturesKey := FixtureList(RemoveId(ReadFixtures(st), FixtureId, id))]
  }

  // ---------------------------------------------------------------------
  // properties of the collections

  /** A store in which nothing was ever written reads as three empty lists. */
  lemma EmptyStoreReadsEmpty(st: Items)
    requires ControllersKey !in st && TemplatesKey !in st && FixturesKey !in st
    ensures ReadControllers(st) == [] && ReadTemplates(st) == [] && ReadFixtures(st) == []
  {
  }

  /** Saving a controller with a new id appends it, unchanged (no
      timestamp is written), after all earlier records. */
  lemma SaveNewController(st: Items, c: ControllerData, now: string)
    requires !HasId(ReadControllers(st), ControllerId, c.id)
    ensures var before, after := ReadControllers(st), ReadControllers(SaveControllerIn(st, c, now));
      |after| == |before| + 1 && after[..|before|] == before && after[|before|] == c
  {
    UpsertAbsent(ReadControllers(st), ControllerId, c, c.(updatedAt := now));
  }

  /** Saving a controller whose id is stored keeps the length and replaces
      only the first record with that id, by the input stamped with `now`. */
  lemma SaveExistingController(st: Items, c: ControllerData, now: string, i: nat)
    requires var cs := ReadControllers(st);
      i < |cs| && cs[i].id == c.id && forall j :: 0 <= j < i ==> cs[j].id != c.id
    ensures var before, after := ReadControllers(st), ReadControllers(SaveControllerIn(st, c, now));
      |after| == |before| && after[i] == c.(updatedAt := now) &&
      forall j :: 0 <= j < |before| && j != i ==> after[j] == before[j]
  {
    UpsertPresent(ReadControllers(st), ControllerId, c, c.(updatedAt := now), i);
  }

  /** Save-then-load: the reloaded collection holds a record with the saved
      id, and the first such record equals the input in every field except
      possibly `updatedAt`, which is `now` when the id was already stored. */
  lemma SaveThenLoadController(st: Items, c: ControllerData, now: string)
    ensures var after := ReadControllers(SaveControllerIn(st, c, now));
      var k := FindIndex(after, ControllerId, c.id);
      0 <= k && after[k].(updatedAt := c.updatedAt) == c &&
      (HasId(ReadControllers(st), ControllerId, c.id) ==> after[k].updatedAt == now)
  {
    UpsertThenFind(ReadControllers(st), ControllerId, c, c.(updatedAt := now));
  }

  /** Templates and fixture presets are saved verbatim: after a save the
      first record with the id is exactly the input, and saving it again
      changes nothing. */
  lemma SaveThenLoadVerbatim(st: Items, t: ControllerTemplate, f: FixtureConfig)
    ensures var ts := ReadTemplates(SaveTemplateIn(st, t));
      var k := FindIndex(ts, TemplateId, t.id);
      0 <= k && ts[k] == t
    ensures var fs := ReadFixtures(SaveFixtureIn(st, f));
      var k := FindIndex(fs, FixtureId, f.id);
      0 <= k && fs[k] == f
    ensures SaveTemplateIn(SaveTemplateIn(st, t), t) == SaveTemplateIn(st, t)
    ensures SaveFixtureIn(SaveFixtureIn(st, f), f) == SaveFixtureIn(st, f)
  {
    UpsertThenFind(ReadTemplates(st), TemplateId, t, t);
    UpsertThenFind(ReadFixtures(st), FixtureId, f, f);
    UpsertIdempotent(ReadTemplates(st), TemplateId, t);
    UpsertIdempotent(ReadFixtures(st), FixtureId, f);
  }

  /** `deleteController(id)` removes all records with that id, keeps the
      others in their order, and does nothing when the id is absent. */
  lemma DeleteControllerSpec(st: Items, id: string)
    ensures var before, after := ReadControllers(st), ReadControllers(DeleteControllerIn(st, id));
      (forall j :: 0 <= j < |after| ==> after[j].id != id) &&
      (forall c :: c in after <==> c in before && c.id != id) &&
      IsSubsequence(after, before) &&
      (!HasId(before, ControllerId, id) ==> after == before)
  {
    RemoveIdSpec(ReadControllers(st), ControllerId, id);
  }

  // ---------------------------------------------------------------------
  // the store object

  /** The browser's local store as the module sees it. Every operation
      reads the whole array under its key and writes the whole array back. */
  class LocalStore {
    var items: Items

    ghost predicate Valid()
      reads this
    {
      WellFormed(items)
    }

    constructor ()
      ensures Valid() && items == map[]
    {
      items := map[];
    }

    method GetControllers() returns (cs: seq<ControllerData>)
      ensures cs == ReadControllers(items)
      ensures ControllersKey !in items ==> cs == []
    {
      if ControllersKey in items && items[ControllersKey].ControllerList? {
        cs := items[ControllersKey].controllers;
      } else {
        cs := [];
      }
    }

    method GetTemplates() returns (ts: seq<ControllerTemplate>)
      ensures ts == ReadTemplates(items)
      ensures TemplatesKey !in items ==> ts == []
    {
      if TemplatesKey in items && items[TemplatesKey].TemplateList? {
        ts := items[TemplatesKey].templates;
      } else {
        ts := [];
      }
    }

    method GetFixtureConfigs() returns (fs: seq<FixtureConfig>)
      ensures fs == ReadFixtures(items)
      ensures FixturesKey !in items ==> fs == []
    {
      if FixturesKey in items && items[FixturesKey].FixtureList? {
        fs := items[FixturesKey].fixtures;
      } else {
        fs := [];
      }
    }

    method SaveController(c: ControllerData, now: string)
      requires Valid()
      modifies this
      ensures Valid()
      ensures items == SaveControllerIn(old(items), c, now)
    {
      var controllers := GetControllers();
      var existingIndex := FindIndex(controllers, ControllerId, c.id);
      if existingIndex >= 0 {
        controllers := controllers[existingIndex := c.(updatedAt := now)];
      } else {
        controllers := controllers + [c];
      }
      items := items[ControllersKey := ControllerList(controllers)];
    }

    method DeleteController(id: string)
      requires Valid()
      modifies this
      ensures Valid()
      ensures items == DeleteControllerIn(old(items), id)
    {
      var controllers := GetControllers();
      controllers := RemoveId(controllers, ControllerId, id);
      items := items[ControllersKey := ControllerList(controllers)];
    }

    method SaveTemplate(t: ControllerTemplate)
      requires Valid()
      modifies this
      ensures Valid()
      ensures items == SaveTemplateIn(old(items), t)
    {
      var templates := GetTemplates();
      var existingIndex := FindIndex(templates, TemplateId, t.id);
      if existingIndex >= 0 {
        templates := templates[existingIndex := t];
      } else {
        templates := templates + [t];
      }
      items := items[TemplatesKey := TemplateList(templates)];
    }

    method DeleteTemplate(id: string)
      requires Valid()
      modifies this
      ensures Valid()
      ensures items == DeleteTemplateIn(old(items), id)
    {
      var templates := GetTemplates();
      templates := RemoveId(templates, TemplateId, id);
      items := items[TemplatesKey := TemplateList(templates)];
    }

    method SaveFixtureConfig(f: FixtureConfig)
      requires Valid()
      modifies this
      ensures Valid()
      ensures items == SaveFixtureIn(old(items), f)
    {
      var fixtures := GetFixtureConfigs();
      var existingIndex := FindIndex(fixtures, FixtureId, f.id);
      if existingIndex >= 0 {
        fixtures := fixtures[existingIndex := f];
      } else {
        fixtures := fixtures + [f];
      }
      items := items[FixturesKey := FixtureList(fixtures)];
    }

    method DeleteFixtureConfig(id: string)
      requires Valid()
      modifies this
      ensures Valid()
      ensures items == DeleteFixtureIn(old(items), id)
    {
      var fixtures := GetFixtureConfigs();
      fixtures := RemoveId(fixtures, FixtureId, id);
      items := items[FixturesKey := FixtureList(fixtures)];
    }
  }
}
