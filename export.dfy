/** The spreadsheet export of src/lib/exportUtils.ts (`exportToExcel`):
    the array of rows handed to the sheet writer and the file name. The
    sheet writer, the file download and the PDF exports are not modelled. */
module Export {
  import opened Seqs
  import opened Numbers
  import opened Storage
  import Dash

  /** One spreadsheet row; `[]` is an empty row. */
  type Row = seq<string>

  /** `(parseFloat(voltage) || 0) * (parseFloat(current) || 0)`. */
  function CellPower(voltage: string, current: string): real
  {
    ParseNum(voltage) * ParseNum(current)
  }

  /** A channel's power in the export: voltage times current, without the
      parallel-count factor the dashboard applies. */
  function ExportPower(ch: Channel): real
  {
    CellPower(ch.voltage, ch.current)
  }

  /** The `reduce` computing the total of the export. */
  function ExcelTotal(chs: seq<Channel>): real
  {
    Sum(chs, ExportPower)
  }

  lemma ExcelTotalStep(chs: seq<Channel>, i: nat)
    requires i < |chs|
    ensures ExcelTotal(chs[..i + 1]) == ExcelTotal(chs[..i]) + ExportPower(chs[i])
  {
    assert chs[..i + 1][..i] == chs[..i];
  }

  function HeaderRows(c: ControllerData): seq<Row>
  {
    [ ["Controller Documentation Sheet"],
      [],
      ["Campus", c.campus],
      ["Building", c.building],
      ["Floor", c.floor],
      ["Zone", c.zone],
      ["Controller Number", c.controllerNumber],
      [],
      ["Channel", "Fixture Type", "Voltage (V)", "Current (A)", "Power (W)"] ]
  }

  function ChannelRow(ch: Channel): Row
  {
    [IntToString(ch.channelNumber), ch.fixtureType, ch.voltage, ch.current, Fmt2(ExportPower(ch))]
  }

  function TotalRow(total: real): Row
  {
    ["", "", "", "Total Power:", Fmt2(total) + " W"]
  }

  /** The channel rows: row `i` is the row of channel `i`. */
  function RowsOf(chs: seq<Channel>): (rows: seq<Row>)
    ensures |rows| == |chs|
    ensures forall i :: 0 <= i < |chs| ==> rows[i] == ChannelRow(chs[i])
  {
    Map(chs, ChannelRow)
  }

  /** The `forEach` over the channels: one row per channel, in order. */
  method ChannelRows(chs: seq<Channel>) returns (rows: seq<Row>)
    ensures rows == RowsOf(chs)
  {
    rows := [];
    for i := 0 to |chs|
      invariant rows == Map(chs[..i], ChannelRow)
    {
      assert chs[..i + 1][..i] == chs[..i];
      rows := rows + [ChannelRow(chs[i])];
    }
    assert chs[..|chs|] == chs;
  }

  /** The `reduce` that sums the channel powers. */
  method TotalPower(chs: seq<Channel>) returns (total: real)
    ensures total == ExcelTotal(chs)
  {
    total := 0.0;
    for i := 0 to |chs|
      invariant total == ExcelTotal(chs[..i])
    {
      ExcelTotalStep(chs, i);
      total := total + ExportPower(chs[i]);
    }
    assert chs[..|chs|] == chs;
  }

  /** `worksheetData` as `exportToExcel` builds it: the nine header rows,
      one row per channel in channel order, an empty row, and the total. */
  method WorksheetData(c: ControllerData) returns (rows: seq<Row>)
    ensures |rows| == 9 + |c.channels| + 2
    ensures rows[..9] == HeaderRows(c)
    ensures rows[9..9 + |c.channels|] == RowsOf(c.channels)
    ensures rows[9 + |c.channels|] == []
    ensures rows[|rows| - 1] == TotalRow(ExcelTotal(c.channels))
  {
    var body := ChannelRows(c.channels);
    var total := TotalPower(c.channels);
    var last := TotalRow(total);
    rows := HeaderRows(c) + body + [[], last];
    Layout(HeaderRows(c), body, last);
  }

  /** Where the parts of `head + body + [[], last]` land. */
  lemma Layout(head: seq<Row>, body: seq<Row>, last: Row)
    ensures var rows := head + body + [[], last];
      |rows| == |head| + |body| + 2
      && rows[..|head|] == head
      && rows[|head|..|head| + |body|] == body
      && rows[|head| + |body|] == [] && rows[|rows| - 1] == last
  {
    var rows := head + body + [[], last];
    assert rows[..|head|] == head;
    assert rows[|head|..|head| + |body|] == body;
  }

  /** The cells of a channel row read back: the channel number exactly,
      the power rounded to hundredths, the text cells verbatim. */
  lemma ChannelRowReadsBack(ch: Channel)
    ensures var row := ChannelRow(ch);
      |row| == 5 && ParseNum(row[0]) == ch.channelNumber as real
      && row[1] == ch.fixtureType && row[2] == ch.voltage && row[3] == ch.current
      && ParseNum(row[4]) == Round2(ExportPower(ch))
      && -0.005 <= ParseNum(row[4]) - ExportPower(ch) <= 0.005
  {
    var p := ExportPower(ch);
    ParseIntToString(ch.channelNumber);
    ParseFmt2(p);
    Round2Close(p);
  }

  /** The total cell reads back as the total rounded to hundredths; the
      " W" unit does not disturb the reading. */
  lemma TotalRowReadsBack(total: real)
    ensures ParseNum(TotalRow(total)[4]) == Round2(total)
    ensures -0.005 <= ParseNum(TotalRow(total)[4]) - total <= 0.005
  {
    ParseFmt2Then(total, " W");
    Round2Close(total);
  }

  /** The export total is the sum of the unrounded channel powers, so the
      parallel count of a channel never changes it. */
  lemma ExcelTotalIgnoresParallelCount(a: seq<Channel>, b: seq<Channel>)
    requires |a| == |b|
    requires forall i :: 0 <= i < |a| ==> a[i].(parallelCount := 0.0) == b[i].(parallelCount := 0.0)
    ensures ExcelTotal(a) == ExcelTotal(b)
  {
    forall i | 0 <= i < |a| ensures ExportPower(a[i]) == ExportPower(b[i]) {
      assert a[i].voltage == a[i].(parallelCount := 0.0).voltage;
      assert b[i].voltage == b[i].(parallelCount := 0.0).voltage;
      assert a[i].current == a[i].(parallelCount := 0.0).current;
      assert b[i].current == b[i].(parallelCount := 0.0).current;
    }
    SumPointwise(a, b, ExportPower);
  }

  /** Without a parallel factor the dashboard's channel power is the export's. */
  lemma LoadWithoutParallel(voltage: string, current: string, pc: real)
    requires pc == 0.0 || pc == 1.0
    ensures Dash.Load(voltage, current, pc) == CellPower(voltage, current)
  {
  }

  /** The dashboard total and the export total agree when no channel has a
      parallel count other than unset (0) or 1. */
  lemma TotalsAgreeWithoutParallel(chs: seq<Channel>)
    requires forall i :: 0 <= i < |chs| ==> chs[i].parallelCount == 0.0 || chs[i].parallelCount == 1.0
    ensures Dash.CalculateTotalPower(chs) == ExcelTotal(chs)
  {
    forall i | 0 <= i < |chs| ensures Dash.ChannelLoad(chs[i]) == ExportPower(chs[i]) {
      LoadWithoutParallel(chs[i].voltage, chs[i].current, chs[i].parallelCount);
    }
    SumPointwiseFns(chs, Dash.ChannelLoad, ExportPower);
  }

  lemma {:induction false} SumPointwiseFns<T>(s: seq<T>, f: T -> real, g: T -> real)
    requires forall i :: 0 <= i < |s| ==> f(s[i]) == g(s[i])
    ensures Sum(s, f) == Sum(s, g)
  {
    if s != [] {
      SumPointwiseFns(s[..|s| - 1], f, g);
    }
  }

  lemma ParseSmallNumbers()
    ensures ParseNum("24") == 24.0 && ParseNum("2") == 2.0
  {
    assert AllDigits("24") && AllDigits("2");
    ParseUnsignedDigits("24");
    ParseUnsignedDigits("2");
    ParseNumSigned("24");
    ParseNumSigned("2");
  }

  /** A channel of four parallel fixtures at 24 V and 2 A: the dashboard
      counts 192 W, the export 48 W. */
  lemma ParallelChannelTotalsDiffer()
    ensures var ch := Channel("1", 1, "Downlight", "24", "2", 4.0);
      Dash.CalculateTotalPower([ch]) == 192.0 && ExcelTotal([ch]) == 48.0
  {
    var ch := Channel("1", 1, "Downlight", "24", "2", 4.0);
    ParseSmallNumbers();
    assert Dash.Load("24", "2", 4.0) == 192.0;
    assert CellPower("24", "2") == 48.0;
    assert [ch][..0] == [];
  }

  // ---------------------------------------------------------------------
  // file name

  /** `iso.split('T')[0]`: the text before the first 'T', or all of it. */
  function DatePart(iso: string): (r: string)
    ensures r <= iso && 'T' !in r
    ensures |r| < |iso| ==> iso[|r|] == 'T'
  {
    if iso == [] || iso[0] == 'T' then [] else [iso[0]] + DatePart(iso[1..])
  }

  /** `controller.controllerNumber || 'Doc'`. */
  function NumberOrDoc(c: ControllerData): string
  {
    if c.controllerNumber == "" then "Doc" else c.controllerNumber
  }

  /** The download's name; `iso` is the ISO form of the current time. */
  function FileName(c: ControllerData, iso: string): string
  {
    "Controller_" + NumberOrDoc(c) + "_" + c.building + "_" + DatePart(iso) + ".xlsx"
  }

  /** The name is "Controller_", the number (or "Doc"), the building and
      the date, separated by underscores, with the .xlsx extension. */
  lemma FileNameShape(c: ControllerData, iso: string)
    ensures var name := FileName(c, iso);
      "Controller_" <= name && name[|name| - 5..] == ".xlsx"
      && (c.controllerNumber == "" ==> "Controller_Doc_" <= name)
      && (c.controllerNumber != "" ==> "Controller_" + c.controllerNumber + "_" <= name)
  {
    var name := FileName(c, iso);
    var head := "Controller_" + NumberOrDoc(c) + "_";
    var tail := c.building + "_" + DatePart(iso) + ".xlsx";
    assert name == head + tail;
    assert name[|name| - 5..] == ".xlsx" by {
      assert name == (head + c.building + "_" + DatePart(iso)) + ".xlsx";
      PrefixOfConcat(head + c.building + "_" + DatePart(iso), ".xlsx");
    }
    assert head <= name by {
      PrefixOfConcat(head, tail);
    }
    assert "Controller_" <= head by {
      assert head == "Controller_" + (NumberOrDoc(c) + "_");
      PrefixOfConcat("Controller_", NumberOrDoc(c) + "_");
    }
  }

  /** `a` is a prefix of `a + b`, and `b` is what follows it. */
  lemma PrefixOfConcat(a: string, b: string)
    ensures a <= a + b && (a + b)[|a|..] == b
  {
    assert (a + b)[..|a|] == a;
  }

  /** For an ISO time stamp the date part is its calendar date. */
  lemma DatePartOfTimestamp(date: string, time: string)
    requires 'T' !in date
    ensures DatePart(date + "T" + time) == date
  {
    var s := date + "T" + time;
    var r := DatePart(s);
    assert s[|date|] == 'T';
    assert |r| <= |date|;
  }
}
