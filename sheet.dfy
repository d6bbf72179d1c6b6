/** The channel editor of src/components/ControllerSheet.tsx: the location
    fields and the channel list of one controller sheet, the handlers that
    add, remove and edit channels, and the power figures shown under the
    table. The channel type here is the editor's own, which has no
    parallel count. */
module Sheet {
  import opened Seqs
  import opened Numbers

  datatype Channel = Channel(
    id: string,
    channelNumber: int,
    fixtureType: string,
    voltage: string,
    current: string)

  /** The fields the table's inputs edit through `updateChannel`. */
  datatype Field = FixtureType | Voltage | Current

  function ChannelId(c: Channel): string { c.id }

  function FieldValue(c: Channel, f: Field): string
  {
    match f
    case FixtureType => c.fixtureType
    case Voltage => c.voltage
    case Current => c.current
  }

  /** `{ ...channel, [field]: value }`. */
  function SetField(c: Channel, f: Field, v: string): (r: Channel)
    ensures r.id == c.id && r.channelNumber == c.channelNumber
    ensures FieldValue(r, f) == v
    ensures forall g :: g != f ==> FieldValue(r, g) == FieldValue(c, g)
  {
    match f
    case FixtureType => c.(fixtureType := v)
    case Voltage => c.(voltage := v)
    case Current => c.(current := v)
  }

  function BlankChannel(id: string, n: int): Channel
  {
    Channel(id, n, "", "", "")
  }

  // ---------------------------------------------------------------------
  // channel numbering

  /** `Math.max(...channels.map(c => c.channelNumber))` on a non-empty list. */
  function MaxNumber(chs: seq<Channel>): (m: int)
    requires chs != []
    ensures exists i :: 0 <= i < |chs| && chs[i].channelNumber == m
    ensures forall i :: 0 <= i < |chs| ==> chs[i].channelNumber <= m
  {
    if |chs| == 1 then chs[0].channelNumber
    else
      var rest := MaxNumber(chs[1..]);
      assert forall i :: 1 <= i < |chs| ==> chs[i] == chs[1..][i - 1];
      if chs[0].channelNumber >= rest then chs[0].channelNumber else rest
  }

  /** The number `addChannel` gives a new channel. */
  function NextChannelNumber(chs: seq<Channel>): int
  {
    if |chs| > 0 then MaxNumber(chs) + 1 else 1
  }

  /** The new number is 1 for an empty list and otherwise one more than
      the largest number in use, hence larger than every number in use. */
  lemma NextChannelNumberSpec(chs: seq<Channel>)
    ensures chs == [] ==> NextChannelNumber(chs) == 1
    ensures forall i :: 0 <= i < |chs| ==> chs[i].channelNumber < NextChannelNumber(chs)
    ensures chs != [] ==> exists i :: 0 <= i < |chs| && chs[i].channelNumber == NextChannelNumber(chs) - 1
  {
    if chs != [] {
      var i :| 0 <= i < |chs| && chs[i].channelNumber == MaxNumber(chs);
      assert chs[i].channelNumber == NextChannelNumber(chs) - 1;
    }
  }

  ghost predicate DistinctNumbers(chs: seq<Channel>)
  {
    forall i, j :: 0 <= i < j < |chs| ==> chs[i].channelNumber != chs[j].channelNumber
  }

  /** Channel numbers rise along the list. */
  ghost predicate Increasing(chs: seq<Channel>)
  {
    forall i, j :: 0 <= i < j < |chs| ==> chs[i].channelNumber < chs[j].channelNumber
  }

  /** Adding a channel never duplicates a channel number. */
  lemma AddKeepsDistinct(chs: seq<Channel>, id: string)
    requires DistinctNumbers(chs)
    ensures DistinctNumbers(chs + [BlankChannel(id, NextChannelNumber(chs))])
  {
    NextChannelNumberSpec(chs);
  }

  lemma AddKeepsIncreasing(chs: seq<Channel>, id: string)
    requires Increasing(chs)
    ensures Increasing(chs + [BlankChannel(id, NextChannelNumber(chs))])
  {
    NextChannelNumberSpec(chs);
  }

  lemma {:induction false} RemoveKeepsIncreasing(chs: seq<Channel>, id: string)
    requires Increasing(chs)
    ensures Increasing(RemoveId(chs, ChannelId, id))
  {
    if chs != [] {
      var rest := chs[1..];
      assert Increasing(rest) by {
        forall i, j | 0 <= i < j < |rest| ensures rest[i].channelNumber < rest[j].channelNumber {
          assert rest[i] == chs[i + 1] && rest[j] == chs[j + 1];
        }
      }
      RemoveKeepsIncreasing(rest, id);
      var tail := RemoveId(rest, ChannelId, id);
      RemoveIdCons(chs, ChannelId, id);
      forall j | 0 <= j < |tail| ensures chs[0].channelNumber < tail[j].channelNumber {
        assert tail[j] in rest;
      }
      if chs[0].id != id {
        IncreasingCons(chs[0], tail);
      } else {
        assert [] + tail == tail;
      }
    }
  }

  lemma IncreasingCons(head: Channel, tail: seq<Channel>)
    requires Increasing(tail)
    requires forall j :: 0 <= j < |tail| ==> head.channelNumber < tail[j].channelNumber
    ensures Increasing([head] + tail)
  {
    var s := [head] + tail;
    forall i, j | 0 <= i < j < |s| ensures s[i].channelNumber < s[j].channelNumber {
      assert s[j] == tail[j - 1];
      if i > 0 {
        assert s[i] == tail[i - 1];
      }
    }
  }

  // ---------------------------------------------------------------------
  // editing

  /** `channels.map(channel => channel.id === id ? { ...channel, [field]: value } : channel)`. */
  function UpdateChannels(chs: seq<Channel>, id: string, f: Field, v: string): (r: seq<Channel>)
    ensures |r| == |chs|
    ensures forall i :: 0 <= i < |chs| ==> r[i].id == chs[i].id && r[i].channelNumber == chs[i].channelNumber
  {
    if chs == [] then []
    else [if chs[0].id == id then SetField(chs[0], f, v) else chs[0]] + UpdateChannels(chs[1..], id, f, v)
  }

  /** Updating changes field `f` of exactly the channels with the id, and
      leaves every other channel, and every other field, as it was. */
  lemma {:induction false} UpdateChannelsAt(chs: seq<Channel>, id: string, f: Field, v: string, i: nat)
    requires i < |chs|
    ensures var r := UpdateChannels(chs, id, f, v);
      (chs[i].id == id ==> FieldValue(r[i], f) == v &&
                           forall g :: g != f ==> FieldValue(r[i], g) == FieldValue(chs[i], g)) &&
      (chs[i].id != id ==> r[i] == chs[i])
  {
    if i > 0 {
      UpdateChannelsAt(chs[1..], id, f, v, i - 1);
    }
  }

  lemma UpdateKeepsIncreasing(chs: seq<Channel>, id: string, f: Field, v: string)
    requires Increasing(chs)
    ensures Increasing(UpdateChannels(chs, id, f, v))
  {
  }

  /** With distinct ids, the remove button of a listed channel, enabled
      only while more than one channel is shown, never empties the list. */
  lemma GuardedRemoveKeepsAChannel(chs: seq<Channel>, id: string)
    requires |chs| != 1
    requires exists i :: 0 <= i < |chs| && chs[i].id == id
    requires forall i, j :: 0 <= i < j < |chs| ==> chs[i].id != chs[j].id
    ensures RemoveId(chs, ChannelId, id) != []
  {
    var i :| 0 <= i < |chs| && chs[i].id == id;
    var k := if i == 0 then 1 else 0;
    assert chs[k].id != id;
    RemoveIdSpec(chs, ChannelId, id);
    assert chs[k] in RemoveId(chs, ChannelId, id);
  }

  /** Ids are not guaranteed to be distinct (they come from the clock), and
      `removeChannel` drops every channel with the id: two channels that
      share an id are removed together, so the guard alone does not keep the
      list non-empty. */
  lemma SharedIdEmptiesList()
    ensures var chs := [BlankChannel("7", 1), BlankChannel("7", 2)];
      |chs| != 1 && RemoveId(chs, ChannelId, "7") == []
  {
    var chs := [BlankChannel("7", 1), BlankChannel("7", 2)];
    RemoveIdSpec(chs, ChannelId, "7");
  }

  // ---------------------------------------------------------------------
  // power

  /** `calculatePower`: the product of the parsed voltage and current. */
  function CalculatePower(voltage: string, current: string): real
  {
    ParseNum(voltage) * ParseNum(current)
  }

  function ChannelPower(c: Channel): real
  {
    CalculatePower(c.voltage, c.current)
  }

  /** `getTotalPower`. */
  function TotalPower(chs: seq<Channel>): real
  {
    Sum(chs, ChannelPower)
  }

  /** An unparsable voltage or current makes the channel's power 0. */
  lemma UnparsableGivesZero(voltage: string, current: string)
    requires NoMantissa(voltage) || NoMantissa(current)
    ensures CalculatePower(voltage, current) == 0.0
  {
    if NoMantissa(voltage) {
      NoMantissaParsesToZero(voltage);
    } else {
      NoMantissaParsesToZero(current);
    }
  }

  /** The total does not depend on the order of the channels. */
  lemma TotalPowerOrderIndependent(a: seq<Channel>, b: seq<Channel>)
    requires multiset(a) == multiset(b)
    ensures TotalPower(a) == TotalPower(b)
  {
    SumPermutation(a, b, ChannelPower);
  }

  /** A new blank channel draws no power, so adding one keeps the total. */
  lemma AddKeepsTotalPower(chs: seq<Channel>, id: string)
    ensures TotalPower(chs + [BlankChannel(id, NextChannelNumber(chs))]) == TotalPower(chs)
  {
    var c := BlankChannel(id, NextChannelNumber(chs));
    NoDigitsParsesToZero("");
    assert (chs + [c])[..|chs|] == chs;
  }

  /** Editing a fixture type leaves the total power unchanged. */
  lemma FixtureTypeEditKeepsTotalPower(chs: seq<Channel>, id: string, v: string)
    ensures TotalPower(UpdateChannels(chs, id, FixtureType, v)) == TotalPower(chs)
  {
    var r := UpdateChannels(chs, id, FixtureType, v);
    forall i | 0 <= i < |chs| ensures ChannelPower(r[i]) == ChannelPower(chs[i]) {
      UpdateChannelsAt(chs, id, FixtureType, v, i);
      assert FieldValue(r[i], Voltage) == FieldValue(chs[i], Voltage);
      assert FieldValue(r[i], Current) == FieldValue(chs[i], Current);
    }
    SumPointwise(r, chs, ChannelPower);
  }

  /** The placeholder of a cell without power, as ControllerSheet.tsx:251
      stores it: the UTF-8 bytes of an em dash read as Windows-1252, three
      characters. */
  const Placeholder: string := "\U{00E2}\U{20AC}\U{201D}"

  /** The power cell of a channel row: the power to two decimals when it
      is positive, otherwise `Placeholder`. */
  function PowerCell(c: Channel): string
  {
    var p := ChannelPower(c);
    if p > 0.0 then Fmt2(p) else Placeholder
  }

  /** A positive power reads back from its cell as the power rounded to
      hundredths; every other power shows the three-character placeholder,
      which holds no digit. */
  lemma PowerCellReadsBack(c: Channel)
    ensures ChannelPower(c) > 0.0 ==> ParseNum(PowerCell(c)) == Round2(ChannelPower(c))
    ensures ChannelPower(c) <= 0.0 ==>
      PowerCell(c) == Placeholder && |PowerCell(c)| == 3 && ParseNum(PowerCell(c)) == 0.0
  {
    if ChannelPower(c) > 0.0 {
      ParseFmt2(ChannelPower(c));
    } else {
      NoDigitsParsesToZero(PowerCell(c));
    }
  }

  /** The total under the table, `getTotalPower().toFixed(2)` and the unit. */
  function TotalCell(chs: seq<Channel>): string
  {
    Fmt2(TotalPower(chs)) + " W"
  }

  lemma TotalCellReadsBack(chs: seq<Channel>)
    ensures ParseNum(TotalCell(chs)) == Round2(TotalPower(chs))
    ensures -0.005 <= ParseNum(TotalCell(chs)) - TotalPower(chs) <= 0.005
  {
    ParseFmt2Then(TotalPower(chs), " W");
    Round2Close(TotalPower(chs));
  }

  // ---------------------------------------------------------------------
  // the editor's state

  class ControllerSheet {
    var campus: string
    var building: string
    var floor: string
    var zone: string
    var controllerNumber: string
    var channels: seq<Channel>

    /** Channel numbers rise along the list, so no two are equal. */
    ghost predicate Valid()
      reads this
    {
      Increasing(channels)
    }

    /** The initial state: empty location fields and one blank channel
        with id "1" and number 1. */
    constructor ()
      ensures Valid()
      ensures campus == "" && building == "" && floor == "" && zone == "" && controllerNumber == ""
      ensures channels == [BlankChannel("1", 1)]
    {
      campus, building, floor, zone, controllerNumber := "", "", "", "", "";
      channels := [BlankChannel("1", 1)];
    }

    /** `addChannel`; `newId` is the clock reading the source uses as id. */
    method AddChannel(newId: string)
      requires Valid()
      modifies this
      ensures Valid()
      ensures channels == old(channels) + [BlankChannel(newId, NextChannelNumber(old(channels)))]
      ensures unchanged(this`campus, this`building, this`floor, this`zone, this`controllerNumber)
    {
      var newChannelNumber := if |channels| > 0 then MaxNumber(channels) + 1 else 1;
      AddKeepsIncreasing(channels, newId);
      channels := channels + [BlankChannel(newId, newChannelNumber)];
    }

    method RemoveChannel(id: string)
      requires Valid()
      modifies this
      ensures Valid()
      ensures channels == RemoveId(old(channels), ChannelId, id)
      ensures unchanged(this`campus, this`building, this`floor, this`zone, this`controllerNumber)
    {
      RemoveKeepsIncreasing(channels, id);
      channels := RemoveId(channels, ChannelId, id);
    }

    method UpdateChannel(id: string, f: Field, v: string)
      requires Valid()
      modifies this
      ensures Valid()
      ensures channels == UpdateChannels(old(channels), id, f, v)
      ensures unchanged(this`campus, this`building, this`floor, this`zone, this`controllerNumber)
    {
      UpdateKeepsIncreasing(channels, id, f, v);
      channels := UpdateChannels(channels, id, f, v);
    }

    /** The remove buttons are disabled exactly when one channel is left. */
    function RemoveDisabled(): bool
      reads this
    {
      |channels| == 1
    }

    function GetTotalPower(): real
      reads this
    {
      TotalPower(channels)
    }
  }
}
