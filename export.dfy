/** `export_data` of src-tauri/src/commands/utils.rs: lay the measurement history out on a
    worksheet — a header row, then one row per entry with its timestamp, its temperatures and
    then its compositions — and save the workbook. */
module Export {
  import opened Wrappers
  import opened Text
  import DataManager

  type ColumnEntry = DataManager.ColumnEntry

  datatype Cell = Label(text: string) | Number(value: real)

  /** The rows and columns an xlsx worksheet holds; a write outside them is refused. */
  const MaxRows: nat := 1_048_576
  const MaxCols: nat := 16_384

  /** The spreadsheet library's error text for a write outside the worksheet. */
  const OutsideWorksheet := "Row or column exceeds Excel's allowed limits"

  const NoCurrentData := "No current data"
  const TimestampHeader := "Timestamp"

  /** Rust's truncating `as u16` and `as u32` casts. */
  function AsU16(x: nat): nat { x % 0x1_0000 }
  function AsU32(x: nat): nat { x % 0x1_0000_0000 }

  /** The worksheet: the cells written so far, by (row, column). */
  class Worksheet {
    var cells: map<(nat, nat), Cell>

    constructor ()
      ensures cells == map[]
    {
      cells := map[];
    }

    /** `worksheet.write(row, col, value)`: sets the cell, or fails outside the worksheet. */
    method Write(row: nat, col: nat, value: Cell) returns (r: Result<()>)
      modifies this
      ensures r.Ok? <==> row < MaxRows && col < MaxCols
      ensures r.Err? ==> r.error == OutsideWorksheet
      ensures cells == if r.Ok? then old(cells)[(row, col) := value] else old(cells)
    {
      if row < MaxRows && col < MaxCols {
        cells := cells[(row, col) := value];
        r := Ok(());
      } else {
        r := Err(OutsideWorksheet);
      }
    }
  }

  /** One cell write, in the order `export_data` issues them. */
  datatype CellWrite = CellWrite(row: nat, col: nat, value: Cell)
  {
    predicate InLimits() { row < MaxRows && col < MaxCols }
  }

  predicate AllInLimits(writes: seq<CellWrite>) { forall i :: 0 <= i < |writes| ==> writes[i].InLimits() }

  /** The worksheet after a sequence of writes: a later write to a cell replaces an earlier one. */
  function Apply(cells: map<(nat, nat), Cell>, writes: seq<CellWrite>): map<(nat, nat), Cell>
    decreases |writes|
  {
    if writes == [] then cells
    else
      var w := writes[|writes| - 1];
      Apply(cells, writes[..|writes| - 1])[(w.row, w.col) := w.value]
  }

  function TemperatureHeaders(n: nat): seq<CellWrite>
  {
    seq(n, i requires 0 <= i < n => CellWrite(0, AsU16(i + 1), Label("Temperature " + NatToString(i + 1))))
  }

  function CompositionHeaders(n: nat): seq<CellWrite>
  {
    seq(n, i requires 0 <= i < n => CellWrite(0, AsU16(n + i + 1), Label("Composition " + NatToString(i + 1))))
  }

  function TemperatureCells(row: nat, temps: seq<real>): seq<CellWrite>
  {
    seq(|temps|, i requires 0 <= i < |temps| => CellWrite(row, AsU16(i + 1), Number(temps[i])))
  }

  function CompositionCells(row: nat, n: nat, comps: seq<real>): seq<CellWrite>
  {
    seq(|comps|, i requires 0 <= i < |comps| => CellWrite(row, AsU16(n + i + 1), Number(comps[i])))
  }

  /** The writes for history entry `k`, which goes in row k+1; `n` is the column count taken from the first entry. */
  function RowWrites(k: nat, n: nat, entry: ColumnEntry): seq<CellWrite>
  {
    var row := AsU32(k + 1);
    [CellWrite(row, 0, Number(entry.timestamp as real))]
      + TemperatureCells(row, entry.temperatures)
      + CompositionCells(row, n, entry.compositions)
  }

  /** The writes for the history entries from index `from` on. */
  function Rows(history: seq<ColumnEntry>, n: nat, from: nat): seq<CellWrite>
    decreases |history| - from
  {
    if from >= |history| then [] else RowWrites(from, n, history[from]) + Rows(history, n, from + 1)
  }

  /** Every write `export_data` makes for a non-empty history, in order. */
  function ExportWrites(history: seq<ColumnEntry>): seq<CellWrite>
    requires history != []
  {
    var n := |history[0].temperatures|;
    [CellWrite(0, 0, Label(TimestampHeader))] + TemperatureHeaders(n) + CompositionHeaders(n) + Rows(history, n, 0)
  }

  lemma {:induction false} ApplyConcat(cells: map<(nat, nat), Cell>, a: seq<CellWrite>, b: seq<CellWrite>)
    ensures Apply(cells, a + b) == Apply(Apply(cells, a), b)
    decreases |b|
  {
    if b == [] {
      assert a + b == a;
    } else {
      var w := b[|b| - 1];
      assert (a + b)[..|a + b| - 1] == a + b[..|b| - 1];
      assert (a + b)[|a + b| - 1] == w;
      ApplyConcat(cells, a, b[..|b| - 1]);
      calc {
        Apply(cells, a + b);
        Apply(cells, a + b[..|b| - 1])[(w.row, w.col) := w.value];
        Apply(Apply(cells, a), b[..|b| - 1])[(w.row, w.col) := w.value];
        Apply(Apply(cells, a), b);
      }
    }
  }

  /** Write `j` is the last one to its cell. */
  predicate LastToCell(writes: seq<CellWrite>, j: nat)
    requires j < |writes|
  {
    forall k :: j < k < |writes| ==> !(writes[k].row == writes[j].row && writes[k].col == writes[j].col)
  }

  /** A cell holds the value of the last write to it. */
  lemma {:induction false} ApplyLastWrite(cells: map<(nat, nat), Cell>, writes: seq<CellWrite>, j: nat)
    requires j < |writes| && LastToCell(writes, j)
    ensures (writes[j].row, writes[j].col) in Apply(cells, writes)
    ensures Apply(cells, writes)[(writes[j].row, writes[j].col)] == writes[j].value
    decreases |writes|
  {
    var prefix := writes[..|writes| - 1];
    if j < |writes| - 1 {
      assert LastToCell(prefix, j) by {
        forall k | j < k < |prefix| ensures !(prefix[k].row == prefix[j].row && prefix[k].col == prefix[j].col) {
          assert prefix[k] == writes[k] && prefix[j] == writes[j];
        }
      }
      ApplyLastWrite(cells, prefix, j);
      assert prefix[j] == writes[j];
    }
  }

  /** Writes for entry `k` and later all land in rows k+1 up to the last entry's row. */
  lemma {:induction false} RowsBelow(history: seq<ColumnEntry>, n: nat, from: nat)
    requires |history| < 0x1_0000_0000
    ensures forall i :: 0 <= i < |Rows(history, n, from)| ==> from + 1 <= Rows(history, n, from)[i].row <= |history|
    decreases |history| - from
  {
    if from < |history| {
      RowsBelow(history, n, from + 1);
      assert AsU32(from + 1) == from + 1;
      var own, rest := RowWrites(from, n, history[from]), Rows(history, n, from + 1);
      var all: seq<CellWrite> := own + rest;
      assert Rows(history, n, from) == all;
      forall i | 0 <= i < |all| ensures from + 1 <= all[i].row <= |history| {
        if i >= |own| {
          assert all[i] == rest[i - |own|];
        }
      }
    }
  }

  /** The text of header column `col`: "Timestamp", then "Temperature 1".."Temperature n",
      then "Composition 1".."Composition n". */
  function HeaderText(n: nat, col: nat): string
  {
    if col == 0 then TimestampHeader
    else if col <= n then "Temperature " + NatToString(col)
    else "Composition " + NatToString(col - n)
  }

  /** The write `export_data` makes at position `j`, for a non-empty history: the first 2n+1
      go to row 0, column j, with the header text; every later one lands below row 0. */
  lemma ExportWriteAt(history: seq<ColumnEntry>, j: nat)
    requires history != [] && |history| < 0x1_0000_0000 && j < |ExportWrites(history)|
    requires 2 * |history[0].temperatures| < 0x1_0000
    ensures var n := |history[0].temperatures|;
      var w := ExportWrites(history)[j];
      && (j <= 2 * n ==> w == CellWrite(0, j, Label(HeaderText(n, j))))
      && (2 * n < j ==> w.row >= 1)
  {
    var n := |history[0].temperatures|;
    var head, rows := [CellWrite(0, 0, Label(TimestampHeader))] + TemperatureHeaders(n) + CompositionHeaders(n), Rows(history, n, 0);
    assert ExportWrites(history) == head + rows;
    IndexConcat(head, rows, j);
    if j <= 2 * n {
      HeaderWriteAt(n, j);
    } else {
      RowsBelow(history, n, 0);
    }
  }

  /** The write at position `j` of the header row. */
  lemma HeaderWriteAt(n: nat, j: nat)
    requires j <= 2 * n && 2 * n < 0x1_0000
    ensures ([CellWrite(0, 0, Label(TimestampHeader))] + TemperatureHeaders(n) + CompositionHeaders(n))[j]
      == CellWrite(0, j, Label(HeaderText(n, j)))
  {
    var head, temps, comps := [CellWrite(0, 0, Label(TimestampHeader))], TemperatureHeaders(n), CompositionHeaders(n);
    IndexConcat(head + temps, comps, j);
    if n < j {
      CompositionHeaderAt(n, j - n - 1);
    } else {
      IndexConcat(head, temps, j);
      if 1 <= j {
        TemperatureHeaderAt(n, j - 1);
      }
    }
  }

  lemma TemperatureHeaderAt(n: nat, i: nat)
    requires i < n < 0x1_0000
    ensures TemperatureHeaders(n)[i] == CellWrite(0, i + 1, Label("Temperature " + NatToString(i + 1)))
  {
    assert AsU16(i + 1) == i + 1;
  }

  lemma CompositionHeaderAt(n: nat, i: nat)
    requires i < n && 2 * n < 0x1_0000
    ensures CompositionHeaders(n)[i] == CellWrite(0, n + i + 1, Label("Composition " + NatToString(i + 1)))
  {
    assert AsU16(n + i + 1) == n + i + 1;
  }

  /** The header row: "Timestamp" in column 0, "Temperature 1".."Temperature n" in columns
      1..n and "Composition 1".."Composition n" in columns n+1..2n, where n is the first
      entry's temperature count. */
  lemma HeaderLayout(history: seq<ColumnEntry>)
    requires history != [] && |history| < 0x1_0000_0000
    requires 2 * |history[0].temperatures| < 0x1_0000
    ensures var sheet := Apply(map[], ExportWrites(history));
      var n := |history[0].temperatures|;
      && (0, 0) in sheet && sheet[(0, 0)] == Label(TimestampHeader)
      && (forall col :: 1 <= col <= n ==>
            (0, col) in sheet && sheet[(0, col)] == Label("Temperature " + NatToString(col)))
      && (forall col :: n < col <= 2 * n ==>
            (0, col) in sheet && sheet[(0, col)] == Label("Composition " + NatToString(col - n)))
  {
    var n := |history[0].temperatures|;
    var sheet := Apply(map[], ExportWrites(history));
    forall col | 0 <= col <= 2 * n
      ensures (0, col) in sheet && sheet[(0, col)] == Label(HeaderText(n, col))
    {
      HeaderCell(history, col);
    }
  }

  lemma HeaderCell(history: seq<ColumnEntry>, col: nat)
    requires history != [] && |history| < 0x1_0000_0000
    requires 2 * |history[0].temperatures| < 0x1_0000 && col <= 2 * |history[0].temperatures|
    ensures (0, col) in Apply(map[], ExportWrites(history))
    ensures Apply(map[], ExportWrites(history))[(0, col)] == Label(HeaderText(|history[0].temperatures|, col))
  {
    var writes := ExportWrites(history);
    ExportWriteAt(history, col);
    assert LastToCell(writes, col) by {
      forall k | col < k < |writes| ensures !(writes[k].row == writes[col].row && writes[k].col == writes[col].col) {
        ExportWriteAt(history, k);
      }
    }
    ApplyLastWrite(map[], writes, col);
  }

  /** Rows(history, n, 0) is the writes for the entries before `k` followed by Rows(history, n, k). */
  lemma {:induction false} RowsPrefix(history: seq<ColumnEntry>, n: nat, k: nat) returns (earlier: seq<CellWrite>)
    requires k <= |history|
    ensures Rows(history, n, 0) == earlier + Rows(history, n, k)
  {
    if k == 0 {
      earlier := [];
    } else {
      var shorter := RowsPrefix(history, n, k - 1);
      earlier := shorter + RowWrites(k - 1, n, history[k - 1]);
    }
  }

  /** The write at position `t` among the writes for one entry in row `row`. */
  lemma RowWriteAt(row: nat, n: nat, entry: ColumnEntry, t: nat)
    requires 1 <= row < 0x1_0000_0000 && t < |RowWrites(row - 1, n, entry)|
    requires |entry.temperatures| < 0x1_0000 && n + |entry.compositions| < 0x1_0000
    ensures var w := RowWrites(row - 1, n, entry)[t];
      var temps := |entry.temperatures|;
      && w.row == row
      && (t == 0 ==> w.col == 0 && w.value == Number(entry.timestamp as real))
      && (1 <= t <= temps ==> w.col == t && w.value == Number(entry.temperatures[t - 1]))
      && (temps < t ==> w.col == n + t - temps && w.value == Number(entry.compositions[t - temps - 1]))
  {
    var temps := |entry.temperatures|;
    var writes := RowWrites(row - 1, n, entry);
    var tc, cc := TemperatureCells(row, entry.temperatures), CompositionCells(row, n, entry.compositions);
    assert writes == [CellWrite(row, 0, Number(entry.timestamp as real))] + tc + cc;
    if 1 <= t <= temps {
      assert writes[t] == tc[t - 1];
      assert AsU16(t) == t;
    } else if temps < t {
      assert writes[t] == cc[t - temps - 1];
      assert AsU16(n + t - temps) == n + t - temps;
    }
  }

  /** Every entry of `history` has `n` temperatures and fits the column range. */
  predicate Uniform(history: seq<ColumnEntry>, n: nat)
  {
    forall k :: 0 <= k < |history| ==> |history[k].temperatures| == n && n + |history[k].compositions| < 0x1_0000
  }

  /** A write inside a block of writes is the last to its cell when no later write of the
      block and no write after the block reaches that cell. */
  lemma LastInBlock(writes: seq<CellWrite>, before: seq<CellWrite>, own: seq<CellWrite>, after: seq<CellWrite>, t: nat)
    requires writes == before + own + after && t < |own|
    requires forall s :: t < s < |own| ==> !(own[s].row == own[t].row && own[s].col == own[t].col)
    requires forall m :: 0 <= m < |after| ==> after[m].row != own[t].row
    ensures writes[|before| + t] == own[t]
    ensures LastToCell(writes, |before| + t)
  {
    forall m | |before| + t < m < |writes|
      ensures !(writes[m].row == writes[|before| + t].row && writes[m].col == writes[|before| + t].col)
    {
      if m < |before| + |own| {
        assert writes[m] == own[m - |before|];
      } else {
        assert writes[m] == after[m - |before| - |own|];
      }
    }
  }

  lemma RowCellsDistinct(row: nat, n: nat, entry: ColumnEntry, t: nat)
    requires 1 <= row < 0x1_0000_0000 && t < |RowWrites(row - 1, n, entry)|
    requires |entry.temperatures| == n && n + |entry.compositions| < 0x1_0000
    ensures var own := RowWrites(row - 1, n, entry);
      forall s :: t < s < |own| ==> !(own[s].row == own[t].row && own[s].col == own[t].col)
  {
    var own := RowWrites(row - 1, n, entry);
    RowWriteAt(row, n, entry, t);
    forall s | t < s < |own| ensures !(own[s].row == own[t].row && own[s].col == own[t].col) {
      RowWriteAt(row, n, entry, s);
    }
  }

  lemma RowCell(history: seq<ColumnEntry>, row: nat, t: nat) returns (j: nat)
    requires history != [] && |history| < 0x1_0000_0000 && 1 <= row <= |history|
    requires Uniform(history, |history[0].temperatures|)
    requires t < |RowWrites(row - 1, |history[0].temperatures|, history[row - 1])|
    ensures j < |ExportWrites(history)|
    ensures ExportWrites(history)[j] == RowWrites(row - 1, |history[0].temperatures|, history[row - 1])[t]
    ensures LastToCell(ExportWrites(history), j)
  {
    var n := |history[0].temperatures|;
    var entry := history[row - 1];
    var writes := ExportWrites(history);
    var before, own, later := ExportWritesAround(history, row - 1);
    j := |before| + t;
    RowWriteAt(row, n, entry, t);
    RowsBelow(history, n, row);
    RowCellsDistinct(row, n, entry, t);
    LastInBlock(writes, before, own, later, t);
  }

  /** The export's writes split around the block of entry `k`. */
  lemma ExportWritesAround(history: seq<ColumnEntry>, k: nat) returns (before: seq<CellWrite>, own: seq<CellWrite>, later: seq<CellWrite>)
    requires history != [] && k < |history|
    ensures own == RowWrites(k, |history[0].temperatures|, history[k])
    ensures later == Rows(history, |history[0].temperatures|, k + 1)
    ensures ExportWrites(history) == before + own + later
  {
    var n := |history[0].temperatures|;
    var head := [CellWrite(0, 0, Label(TimestampHeader))] + TemperatureHeaders(n) + CompositionHeaders(n);
    var earlier := RowsPrefix(history, n, k);
    own, later := RowWrites(k, n, history[k]), Rows(history, n, k + 1);
    assert Rows(history, n, k) == own + later;
    assert ExportWrites(history) == head + Rows(history, n, 0);
    before := head + earlier;
    ConcatAssoc(head, earlier, own, later);
  }

  lemma IndexConcat<T>(a: seq<T>, b: seq<T>, j: nat)
    requires j < |a + b|
    ensures (a + b)[j] == if j < |a| then a[j] else b[j - |a|]
  {
  }

  lemma ConcatAssoc<T>(a: seq<T>, b: seq<T>, c: seq<T>, d: seq<T>)
    ensures a + (b + (c + d)) == (a + b) + c + d
  {
  }

  /** Row `row` holds the timestamp of entry row-1 in column 0, its temperatures in columns
      1..n and its compositions from column n+1 on, when every entry has n temperatures. */
  lemma RowLayout(history: seq<ColumnEntry>, row: nat)
    requires history != [] && |history| < 0x1_0000_0000 && 1 <= row <= |history|
    requires Uniform(history, |history[0].temperatures|)
    ensures var sheet := Apply(map[], ExportWrites(history));
      var n := |history[0].temperatures|;
      var entry := history[row - 1];
      && (row, 0) in sheet && sheet[(row, 0)] == Number(entry.timestamp as real)
      && (forall col :: 1 <= col <= n ==>
            (row, col) in sheet && sheet[(row, col)] == Number(entry.temperatures[col - 1]))
      && (forall col :: n < col <= n + |entry.compositions| ==>
            (row, col) in sheet && sheet[(row, col)] == Number(entry.compositions[col - n - 1]))
  {
    var n := |history[0].temperatures|;
    var entry := history[row - 1];
    var writes := ExportWrites(history);
    forall t | 0 <= t <= n + |entry.compositions|
      ensures (row, t) in Apply(map[], writes)
      ensures t == 0 ==> Apply(map[], writes)[(row, t)] == Number(entry.timestamp as real)
      ensures 1 <= t <= n ==> Apply(map[], writes)[(row, t)] == Number(entry.temperatures[t - 1])
      ensures n < t ==> Apply(map[], writes)[(row, t)] == Number(entry.compositions[t - n - 1])
    {
      var j := RowCell(history, row, t);
      RowWriteAt(row, n, entry, t);
      ApplyLastWrite(map[], writes, j);
    }
  }

  /** The writes stay inside the worksheet when the history has fewer entries than the
      worksheet has rows and every entry fits the columns. */
  lemma {:induction false} RowsWithinLimits(history: seq<ColumnEntry>, n: nat, from: nat)
    requires |history| < MaxRows
    requires forall k :: 0 <= k < |history| ==> |history[k].temperatures| < MaxCols && n + |history[k].compositions| < MaxCols
    ensures AllInLimits(Rows(history, n, from))
    decreases |history| - from
  {
    if from < |history| {
      RowsWithinLimits(history, n, from + 1);
      var e := history[from];
      forall t | 0 <= t < |RowWrites(from, n, e)| ensures RowWrites(from, n, e)[t].InLimits() {
        RowWriteAt(from + 1, n, e, t);
      }
    }
  }

  lemma ExportWithinLimits(history: seq<ColumnEntry>)
    requires history != [] && |history| < MaxRows && 2 * |history[0].temperatures| < MaxCols
    requires forall k :: 0 <= k < |history| ==>
      |history[k].temperatures| < MaxCols && |history[0].temperatures| + |history[k].compositions| < MaxCols
    ensures AllInLimits(ExportWrites(history))
  {
    var n := |history[0].temperatures|;
    RowsWithinLimits(history, n, 0);
    forall j | 0 <= j < |ExportWrites(history)| ensures ExportWrites(history)[j].InLimits() {
      ExportWriteAt(history, j);
      if j > 2 * n {
        assert ExportWrites(history)[j] == Rows(history, n, 0)[j - 2 * n - 1];
      }
    }
  }

  function XlsxError(e: string): string { "Xlsx error: " + e }

  /** One `worksheet.write(..)` with its error mapped to the command's message. */
  method Put(sheet: Worksheet, w: CellWrite) returns (r: Result<()>)
    modifies sheet
    ensures r.Ok? <==> w.InLimits()
    ensures r.Err? ==> r.error == XlsxError(OutsideWorksheet)
    ensures sheet.cells == if r.Ok? then Apply(old(sheet.cells), [w]) else old(sheet.cells)
  {
    var written := sheet.Write(w.row, w.col, w.value);
    if written.Err? {
      return Err(XlsxError(written.error));
    }
    assert [w][..0] == [];
    r := Ok(());
  }

  /** One of the command's `for` loops: write the cells in order, stopping at the first failure. */
  method PutAll(sheet: Worksheet, writes: seq<CellWrite>) returns (r: Result<()>)
    modifies sheet
    ensures r.Ok? <==> AllInLimits(writes)
    ensures r.Err? ==> r.error == XlsxError(OutsideWorksheet)
    ensures r.Ok? ==> sheet.cells == Apply(old(sheet.cells), writes)
  {
    r := Ok(());
    for i := 0 to |writes|
      invariant r.Ok? && AllInLimits(writes[..i])
      invariant sheet.cells == Apply(old(sheet.cells), writes[..i])
    {
      r := Put(sheet, writes[i]);
      if r.Err? {
        return;
      }
      assert writes[..i + 1] == writes[..i] + [writes[i]];
      ApplyConcat(old(sheet.cells), writes[..i], [writes[i]]);
    }
    assert writes[..|writes|] == writes;
  }

  /** One iteration of the data loop: the timestamp, temperatures and compositions of entry `k`. */
  method WriteRow(sheet: Worksheet, k: nat, n: nat, entry: ColumnEntry) returns (r: Result<()>)
    modifies sheet
    ensures r.Ok? <==> AllInLimits(RowWrites(k, n, entry))
    ensures r.Err? ==> r.error == XlsxError(OutsideWorksheet)
    ensures r.Ok? ==> sheet.cells == Apply(old(sheet.cells), RowWrites(k, n, entry))
  {
    var row := AsU32(k + 1);
    var stamp := CellWrite(row, 0, Number(entry.timestamp as real));
    var temps := TemperatureCells(row, entry.temperatures);
    var comps := CompositionCells(row, n, entry.compositions);
    assert RowWrites(k, n, entry) == [stamp] + temps + comps;
    AllInLimitsConcat([stamp], temps);
    AllInLimitsConcat([stamp] + temps, comps);
    r := Put(sheet, stamp);
    if r.Err? {
      assert [stamp][0] == stamp;
      return;
    }
    r := PutAll(sheet, temps);
    if r.Err? {
      return;
    }
    r := PutAll(sheet, comps);
    if r.Ok? {
      ApplyConcat(old(sheet.cells), [stamp], temps);
      ApplyConcat(old(sheet.cells), [stamp] + temps, comps);
    }
  }

  lemma AllInLimitsConcat(a: seq<CellWrite>, b: seq<CellWrite>)
    ensures AllInLimits(a + b) <==> AllInLimits(a) && AllInLimits(b)
  {
    if AllInLimits(a) && AllInLimits(b) {
      forall i | 0 <= i < |a + b| ensures (a + b)[i].InLimits() {
        if i >= |a| {
          assert (a + b)[i] == b[i - |a|];
        }
      }
    }
    if AllInLimits(a + b) {
      forall i | 0 <= i < |a| ensures a[i].InLimits() {
        assert (a + b)[i] == a[i];
      }
      forall i | 0 <= i < |b| ensures b[i].InLimits() {
        assert (a + b)[|a| + i] == b[i];
      }
    }
  }

  /** The two header loops. */
  method WriteHeaders(sheet: Worksheet, n: nat) returns (r: Result<()>)
    modifies sheet
    ensures r.Ok? <==> AllInLimits(TemperatureHeaders(n) + CompositionHeaders(n))
    ensures r.Err? ==> r.error == XlsxError(OutsideWorksheet)
    ensures r.Ok? ==> sheet.cells == Apply(old(sheet.cells), TemperatureHeaders(n) + CompositionHeaders(n))
  {
    AllInLimitsConcat(TemperatureHeaders(n), CompositionHeaders(n));
    r := PutAll(sheet, TemperatureHeaders(n));
    if r.Err? {
      return;
    }
    r := PutAll(sheet, CompositionHeaders(n));
    ApplyConcat(old(sheet.cells), TemperatureHeaders(n), CompositionHeaders(n));
  }

  /** The data loop: one row per history entry. */
  method WriteRows(sheet: Worksheet, history: seq<ColumnEntry>, n: nat) returns (r: Result<()>)
    modifies sheet
    ensures r.Ok? <==> AllInLimits(Rows(history, n, 0))
    ensures r.Err? ==> r.error == XlsxError(OutsideWorksheet)
    ensures r.Ok? ==> sheet.cells == Apply(old(sheet.cells), Rows(history, n, 0))
  {
    r := Ok(());
    ghost var done: seq<CellWrite> := [];
    for k := 0 to |history|
      invariant r.Ok? && Rows(history, n, 0) == done + Rows(history, n, k)
      invariant AllInLimits(done) && sheet.cells == Apply(old(sheet.cells), done)
    {
      ghost var own, rest := RowWrites(k, n, history[k]), Rows(history, n, k + 1);
      RowsStep(history, n, k, done);
      r := WriteRow(sheet, k, n, history[k]);
      if r.Err? {
        FailedBlock(done, own, rest);
        return;
      }
      ApplyConcat(old(sheet.cells), done, own);
      AllInLimitsConcat(done, own);
      done := done + own;
    }
    assert done == Rows(history, n, 0);
  }

  /** One step of the data loop: the writes done so far are followed by entry `k`'s block. */
  lemma RowsStep(history: seq<ColumnEntry>, n: nat, k: nat, done: seq<CellWrite>)
    requires k < |history| && Rows(history, n, 0) == done + Rows(history, n, k)
    ensures Rows(history, n, 0) == (done + RowWrites(k, n, history[k])) + Rows(history, n, k + 1)
  {
    assert Rows(history, n, k) == RowWrites(k, n, history[k]) + Rows(history, n, k + 1);
  }

  /** A block with a write outside the worksheet spoils any sequence it is part of. */
  lemma FailedBlock(done: seq<CellWrite>, own: seq<CellWrite>, rest: seq<CellWrite>)
    requires !AllInLimits(own)
    ensures !AllInLimits(done + (own + rest))
  {
    AllInLimitsConcat(own, rest);
    AllInLimitsConcat(done, own + rest);
  }

  /** `export_data`: `save` is the outcome of writing the workbook file; `saved` says whether
      the command got as far as saving it. */
  method ExportData(history: seq<ColumnEntry>, save: Result<()>) returns (r: Result<()>, sheet: Worksheet, saved: bool)
    ensures fresh(sheet)
    ensures saved <==> history != [] && AllInLimits(ExportWrites(history))
    ensures history == [] ==> r == Err(NoCurrentData) && sheet.cells == map[(0, 0) := Label(TimestampHeader)]
    ensures history != [] && !AllInLimits(ExportWrites(history)) ==> r == Err(XlsxError(OutsideWorksheet))
    ensures history != [] && AllInLimits(ExportWrites(history)) ==>
      && sheet.cells == Apply(map[], ExportWrites(history))
      && r == (if save.Ok? then Ok(()) else Err(XlsxError(save.error)))
  {
    saved := false;
    sheet := new Worksheet();
    var stamp := CellWrite(0, 0, Label(TimestampHeader));
    r := Put(sheet, stamp);
    assert r.Ok?;
    if history == [] {
      return Err(NoCurrentData), sheet, saved;
    }
    var n := |history[0].temperatures|;
    var headers, rows := TemperatureHeaders(n) + CompositionHeaders(n), Rows(history, n, 0);
    assert ExportWrites(history) == [stamp] + headers + rows;
    AllInLimitsConcat([stamp], headers);
    AllInLimitsConcat([stamp] + headers, rows);
    r := WriteHeaders(sheet, n);
    if r.Err? {
      return;
    }
    ApplyConcat(map[], [stamp], headers);
    r := WriteRows(sheet, history, n);
    if r.Err? {
      return;
    }
    ApplyConcat(map[], [stamp] + headers, rows);
    saved := true;
    if save.Err? {
      return Err(XlsxError(save.error)), sheet, saved;
    }
    r := Ok(());
  }
}
