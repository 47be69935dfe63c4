/** src/components/temperatures-chart.tsx: the projection of the stored entries onto chart
    rows. Each row carries an elapsed-time label "MM:SS", measured from the first stored
    entry, and one `plateK` field per temperature. */
module TemperaturesChart {
  import opened Text
  import opened Wrappers
  import opened DataStore

  /** JavaScript's `%` on integers: the remainder takes the sign of the dividend. */
  function JsRem(a: int, d: int): (r: int)
    requires d > 0
    ensures a >= 0 ==> 0 <= r < d && r == a % d
    ensures a < 0 ==> -d < r <= 0
  {
    if a >= 0 then a % d else -((-a) % d)
  }

  /** `String(x).padStart(2, "0")`. */
  function Pad2(x: int): string
  {
    PadStart(IntToString(x), 2, '0')
  }

  /** The label of an entry `elapsed` seconds after the anchor: `Math.floor(e / 60)` minutes
      and `Math.floor(e % 60)` seconds, each padded to two characters. */
  function ElapsedLabel(elapsed: int): string
  {
    Pad2(elapsed / 60) + ":" + Pad2(JsRem(elapsed, 60))
  }

  /** The two digits of a number below 100, with a leading zero below 10. */
  lemma TwoDigits(x: nat)
    requires x < 100
    ensures Pad2(x) == [DigitChar(x / 10), DigitChar(x % 10)]
  {
    if x < 10 {
      assert IntToString(x) == [DigitChar(x)];
      assert Pad2(x) == ['0', DigitChar(x)];
      assert DigitChar(0) == '0';
    } else {
      assert NatToString(x / 10) == [DigitChar(x / 10)];
      assert IntToString(x) == [DigitChar(x / 10), DigitChar(x % 10)];
    }
  }

  /** For a non-negative elapsed time the label is the padded minutes, a colon and exactly
      two second digits in 00..59. */
  lemma ElapsedLabelFormat(elapsed: int)
    requires elapsed >= 0
    ensures var s := elapsed % 60;
      ElapsedLabel(elapsed) == Pad2(elapsed / 60) + ":" + [DigitChar(s / 10), DigitChar(s % 10)]
    ensures |ElapsedLabel(elapsed)| >= 5
  {
    SecondsDigits(elapsed);
    Pad2Length(elapsed / 60);
  }

  lemma SecondsDigits(elapsed: int)
    requires elapsed >= 0
    ensures var s := elapsed % 60;
      Pad2(JsRem(elapsed, 60)) == [DigitChar(s / 10), DigitChar(s % 10)]
  {
    TwoDigits(elapsed % 60);
  }

  lemma Pad2Length(x: int)
    ensures |Pad2(x)| >= 2
  {
  }

  /** Non-decreasing elapsed times give non-decreasing (minutes, seconds) pairs. */
  lemma MinutesSecondsMonotone(e1: int, e2: int)
    requires 0 <= e1 <= e2
    ensures e1 / 60 < e2 / 60 || (e1 / 60 == e2 / 60 && JsRem(e1, 60) <= JsRem(e2, 60))
  {
  }

  lemma NatToStringLeading(n: nat)
    requires n >= 10
    ensures NatToString(n)[0] != '0'
    decreases n
  {
    if n / 10 >= 10 {
      NatToStringLeading(n / 10);
    }
  }

  lemma {:induction false} Pad2Injective(a: nat, b: nat)
    requires Pad2(a) == Pad2(b)
    ensures a == b
  {
    var sa, sb := NatToString(a), NatToString(b);
    if a < 10 && b < 10 {
      assert Pad2(a)[1] == sa[0] && Pad2(b)[1] == sb[0];
      NatToStringInjective(a, b);
    } else if a < 10 {
      NatToStringLeading(b);
    } else if b < 10 {
      NatToStringLeading(a);
    } else {
      NatToStringInjective(a, b);
    }
  }

  /** The parts of a label `p:c1c2`. */
  lemma LabelParts(l: string, p: string, c1: char, c2: char)
    requires l == p + ":" + [c1, c2]
    ensures |l| == |p| + 3 && l[..|l| - 3] == p && l[|l| - 2] == c1 && l[|l| - 1] == c2
    ensures EndsWith(l, "00") <==> c1 == '0' && c2 == '0'
    ensures EndsWith(l, "30") <==> c1 == '3' && c2 == '0'
  {
    assert l[|l| - 2..] == [c1, c2];
  }

  lemma DigitCharInjective(a: nat, b: nat)
    requires a < 10 && b < 10 && DigitChar(a) == DigitChar(b)
    ensures a == b
  {
  }

  /** Distinct non-negative elapsed times get distinct labels. */
  lemma ElapsedLabelInjective(e1: int, e2: int)
    requires 0 <= e1 && 0 <= e2 && ElapsedLabel(e1) == ElapsedLabel(e2)
    ensures e1 == e2
  {
    var m1, s1, m2, s2 := e1 / 60, e1 % 60, e2 / 60, e2 % 60;
    ElapsedLabelFormat(e1);
    ElapsedLabelFormat(e2);
    LabelSplit(Pad2(m1), DigitChar(s1 / 10), DigitChar(s1 % 10), Pad2(m2), DigitChar(s2 / 10), DigitChar(s2 % 10));
    Pad2Injective(m1, m2);
    SecondsInjective(s1, s2);
    DivModUnique(e1, e2);
  }

  /** A label `p:c1c2` determines its minutes part and its two second digits. */
  lemma LabelSplit(p1: string, c1: char, c2: char, p2: string, d1: char, d2: char)
    requires p1 + ":" + [c1, c2] == p2 + ":" + [d1, d2]
    ensures p1 == p2 && c1 == d1 && c2 == d2
  {
    LabelParts(p1 + ":" + [c1, c2], p1, c1, c2);
    LabelParts(p2 + ":" + [d1, d2], p2, d1, d2);
  }

  lemma SecondsInjective(s1: nat, s2: nat)
    requires s1 < 60 && s2 < 60
    requires DigitChar(s1 / 10) == DigitChar(s2 / 10) && DigitChar(s1 % 10) == DigitChar(s2 % 10)
    ensures s1 == s2
  {
    DigitCharInjective(s1 / 10, s2 / 10);
    DigitCharInjective(s1 % 10, s2 % 10);
    assert s1 == 10 * (s1 / 10) + s1 % 10 && s2 == 10 * (s2 / 10) + s2 % 10;
  }

  lemma DivModUnique(e1: int, e2: int)
    requires e1 / 60 == e2 / 60 && e1 % 60 == e2 % 60
    ensures e1 == e2
  {
    assert e1 == 60 * (e1 / 60) + e1 % 60 && e2 == 60 * (e2 / 60) + e2 % 60;
  }

  /** The axis tick formatter: a label is shown only on whole and half minutes. */
  function TickFormatter(value: string): (shown: string)
    ensures shown == value || shown == ""
    ensures shown == value <==> EndsWith(value, "00") || EndsWith(value, "30") || value == ""
  {
    if EndsWith(value, "00") || EndsWith(value, "30") then value else ""
  }

  lemma TickFormatterIdempotent(value: string)
    ensures TickFormatter(TickFormatter(value)) == TickFormatter(value)
  {
  }

  /** Division by 30 is determined by its quotient and remainder. */
  lemma DivMod30(a: int, q: int, r: int)
    requires a == 30 * q + r && 0 <= r < 30
    ensures a % 30 == r
  {
  }

  /** A non-negative time is a multiple of 30 seconds exactly when its seconds part is 0 or 30. */
  lemma HalfMinuteSeconds(elapsed: int)
    requires elapsed >= 0
    ensures elapsed % 30 == 0 <==> elapsed % 60 == 0 || elapsed % 60 == 30
  {
    var q, s := elapsed / 60, elapsed % 60;
    assert elapsed == 60 * q + s;
    if s < 30 {
      DivMod30(elapsed, 2 * q, s);
    } else {
      DivMod30(elapsed, 2 * q + 1, s - 30);
    }
  }

  lemma SecondsSuffix(s: nat)
    requires s < 60
    ensures DigitChar(s / 10) == '0' && DigitChar(s % 10) == '0' <==> s == 0
    ensures DigitChar(s / 10) == '3' && DigitChar(s % 10) == '0' <==> s == 30
  {
    var t, u := s / 10, s % 10;
    assert s == 10 * t + u;
    assert DigitChar(0) == '0' && DigitChar(3) == '3';
    if DigitChar(t) == '0' { DigitCharInjective(t, 0); }
    if DigitChar(t) == '3' { DigitCharInjective(t, 3); }
    if DigitChar(u) == '0' { DigitCharInjective(u, 0); }
  }

  /** For a non-negative elapsed time the tick is shown exactly on multiples of 30 seconds. */
  lemma TickEveryHalfMinute(elapsed: int)
    requires elapsed >= 0
    ensures TickFormatter(ElapsedLabel(elapsed)) == ElapsedLabel(elapsed) <==> elapsed % 30 == 0
  {
    var s := elapsed % 60;
    ElapsedLabelFormat(elapsed);
    LabelParts(ElapsedLabel(elapsed), Pad2(elapsed / 60), DigitChar(s / 10), DigitChar(s % 10));
    SecondsSuffix(s);
    HalfMinuteSeconds(elapsed);
  }

  /** The key of plate `i` (counting from 0). */
  function PlateKey(i: nat): string
  {
    "plate" + NatToString(i + 1)
  }

  /** Plate keys are distinct and never collide with the `time` key. */
  lemma PlateKeysDistinct(i: nat, j: nat)
    ensures PlateKey(i) == PlateKey(j) <==> i == j
    ensures PlateKey(i) != "time"
  {
    if PlateKey(i) == PlateKey(j) {
      assert PlateKey(i)[5..] == NatToString(i + 1);
      assert PlateKey(j)[5..] == NatToString(j + 1);
      NatToStringInjective(i + 1, j + 1);
    }
    assert PlateKey(i)[0] == 'p';
  }

  /** A chart row: the time label, then the plate fields in insertion order. */
  datatype ChartRow = ChartRow(time: string, plates: seq<(string, real)>)
  {
    /** `Object.keys(row)`. */
    function Keys(): seq<string>
    {
      ["time"] + seq(|plates|, i requires 0 <= i < |plates| => plates[i].0)
    }
  }

  /** The reduce over `entry.temperatures`: `plate{i+1}` holds `temperatures[i]`. */
  function PlateFields(temperatures: seq<real>): (fields: seq<(string, real)>)
    ensures |fields| == |temperatures|
    ensures forall i :: 0 <= i < |fields| ==> fields[i] == (PlateKey(i), temperatures[i])
  {
    seq(|temperatures|, i requires 0 <= i < |temperatures| => (PlateKey(i), temperatures[i]))
  }

  function FormatRow(entry: ColumnDataEntry, anchor: int): ChartRow
  {
    ChartRow(ElapsedLabel(entry.timestamp - anchor), PlateFields(entry.temperatures))
  }

  /** `s.slice(-count)`: the last `count` elements, or all of them when `count` is 0 (as -0 is 0). */
  function SliceLast<T>(s: seq<T>, count: nat): (r: seq<T>)
    ensures count == 0 || |s| <= count ==> r == s
    ensures 0 < count <= |s| ==> |r| == count
    ensures s[|s| - |r|..] == r
  {
    if count == 0 || |s| <= count then s else s[|s| - count..]
  }

  /** `columnDataFormatted`: `columnData` is None when the store yields nothing. */
  function FormatColumnData(columnData: Option<seq<ColumnDataEntry>>, maxDataLength: nat): seq<ChartRow>
  {
    if columnData.None? || |columnData.value| == 0 then []
    else
      var anchor := columnData.value[0].timestamp;
      if anchor == 0 then []
      else
        WindowRows(columnData.value, maxDataLength, anchor)
  }

  /** The rows of the last `count` entries, each labelled from `anchor`. */
  function WindowRows(cd: seq<ColumnDataEntry>, count: nat, anchor: int): seq<ChartRow>
  {
    var window := SliceLast(cd, count);
    seq(|window|, j requires 0 <= j < |window| => FormatRow(window[j], anchor))
  }

  lemma WindowRowAt(cd: seq<ColumnDataEntry>, count: nat, anchor: int, j: nat)
    requires j < |WindowRows(cd, count, anchor)|
    ensures var rows := WindowRows(cd, count, anchor);
      |rows| <= |cd| && rows[j] == FormatRow(cd[|cd| - |rows| + j], anchor)
  {
    SliceLastAt(cd, count, j);
  }

  /** Element `j` of the last-elements slice, as an index into the whole sequence. */
  lemma SliceLastAt<T>(s: seq<T>, count: nat, j: nat)
    requires j < |SliceLast(s, count)|
    ensures |SliceLast(s, count)| <= |s|
    ensures SliceLast(s, count)[j] == s[|s| - |SliceLast(s, count)| + j]
  {
    var r := SliceLast(s, count);
    assert s[|s| - |r|..][j] == r[j];
  }

  /** The projection is empty without data or with the zero anchor of the initial placeholder;
      otherwise it holds the last `maxDataLength` entries, in order, each labelled by its
      distance from the first stored entry, which may lie outside the window. */
  lemma FormatWindow(columnData: Option<seq<ColumnDataEntry>>, maxDataLength: nat)
    ensures var rows := FormatColumnData(columnData, maxDataLength);
      (columnData.None? || |columnData.value| == 0 || columnData.value[0].timestamp == 0) ==> rows == []
    ensures columnData.Some? && |columnData.value| != 0 && columnData.value[0].timestamp != 0 ==>
      var cd := columnData.value;
      var rows := FormatColumnData(columnData, maxDataLength);
      && |rows| == (if maxDataLength == 0 then |cd| else Min(|cd|, maxDataLength))
      && forall j :: 0 <= j < |rows| ==> rows[j] == FormatRow(cd[|cd| - |rows| + j], cd[0].timestamp)
  {
    if columnData.Some? && |columnData.value| != 0 && columnData.value[0].timestamp != 0 {
      NonEmptyWindow(columnData.value, maxDataLength);
    }
  }

  lemma NonEmptyWindow(cd: seq<ColumnDataEntry>, maxDataLength: nat)
    requires |cd| != 0 && cd[0].timestamp != 0
    ensures var rows := FormatColumnData(Some(cd), maxDataLength);
      && |rows| == (if maxDataLength == 0 then |cd| else Min(|cd|, maxDataLength))
      && forall j :: 0 <= j < |rows| ==> rows[j] == FormatRow(cd[|cd| - |rows| + j], cd[0].timestamp)
  {
    var rows := FormatColumnData(Some(cd), maxDataLength);
    assert rows == WindowRows(cd, maxDataLength, cd[0].timestamp);
    forall j | 0 <= j < |rows| ensures rows[j] == FormatRow(cd[|cd| - |rows| + j], cd[0].timestamp) {
      WindowRowAt(cd, maxDataLength, cd[0].timestamp, j);
    }
  }

  lemma FormatRowAt(cd: seq<ColumnDataEntry>, maxDataLength: nat, j: nat)
    requires |cd| != 0 && cd[0].timestamp != 0 && j < |FormatColumnData(Some(cd), maxDataLength)|
    ensures var rows := FormatColumnData(Some(cd), maxDataLength);
      |rows| <= |cd| && rows[j] == FormatRow(cd[|cd| - |rows| + j], cd[0].timestamp)
  {
    var rows := FormatColumnData(Some(cd), maxDataLength);
    assert rows == WindowRows(cd, maxDataLength, cd[0].timestamp);
    WindowRowAt(cd, maxDataLength, cd[0].timestamp, j);
  }

  /** Non-decreasing timestamps from the anchor on give non-decreasing (minutes, seconds) in
      the rows: rows j <= k are the entries a and b seconds after the anchor, 0 <= a <= b. */
  lemma FormatRowsOrdered(cd: seq<ColumnDataEntry>, maxDataLength: nat, j: nat, k: nat)
    requires |cd| != 0 && cd[0].timestamp != 0
    requires forall a, b :: 0 <= a <= b < |cd| ==> cd[a].timestamp <= cd[b].timestamp
    requires j <= k < |FormatColumnData(Some(cd), maxDataLength)|
    ensures var rows := FormatColumnData(Some(cd), maxDataLength);
      var a, b := cd[|cd| - |rows| + j].timestamp - cd[0].timestamp, cd[|cd| - |rows| + k].timestamp - cd[0].timestamp;
      && rows[j] == FormatRow(cd[|cd| - |rows| + j], cd[0].timestamp)
      && rows[k] == FormatRow(cd[|cd| - |rows| + k], cd[0].timestamp)
      && 0 <= a <= b
      && (a / 60 < b / 60 || (a / 60 == b / 60 && a % 60 <= b % 60))
  {
    var rows := FormatColumnData(Some(cd), maxDataLength);
    var x, y := |cd| - |rows| + j, |cd| - |rows| + k;
    FormatRowAt(cd, maxDataLength, j);
    FormatRowAt(cd, maxDataLength, k);
    assert cd[0].timestamp <= cd[x].timestamp <= cd[y].timestamp;
    MinutesSecondsMonotone(cd[x].timestamp - cd[0].timestamp, cd[y].timestamp - cd[0].timestamp);
  }

  /** `keys.filter(key => key !== drop)`: the keys other than `drop`, in their order, duplicates kept. */
  function Filter(keys: seq<string>, drop: string): (r: seq<string>)
    ensures forall k :: k in r <==> k in keys && k != drop
    ensures |r| <= |keys|
    ensures (forall i :: 0 <= i < |keys| ==> keys[i] != drop) ==> r == keys
  {
    if keys == [] then []
    else (if keys[0] == drop then [] else [keys[0]]) + Filter(keys[1..], drop)
  }

  /** Filtering works piece by piece, so it keeps the keys' order and their repetitions. */
  lemma {:induction false} FilterConcat(a: seq<string>, b: seq<string>, drop: string)
    ensures Filter(a + b, drop) == Filter(a, drop) + Filter(b, drop)
    decreases |a|
  {
    if a == [] {
      assert a + b == b;
    } else {
      var head := if a[0] == drop then [] else [a[0]];
      var x, y := Filter(a[1..], drop), Filter(b, drop);
      FilterStep(a, b, drop);
      FilterConcat(a[1..], b, drop);
      assert head + (x + y) == (head + x) + y;
    }
  }

  /** Filtering `a + b` decides on the first key of `a` and goes on with the rest of `a` and `b`. */
  lemma FilterStep(a: seq<string>, b: seq<string>, drop: string)
    requires a != []
    ensures Filter(a + b, drop) == (if a[0] == drop then [] else [a[0]]) + Filter(a[1..] + b, drop)
  {
    var ab := a + b;
    assert ab[0] == a[0] && ab[1..] == a[1..] + b;
  }

  /** `plateKeys`: the keys of the first row other than `time`. */
  function PlateKeys(rows: seq<ChartRow>): seq<string>
  {
    if rows == [] then [] else Filter(rows[0].Keys(), "time")
  }

  /** The plate keys of a row are `plate1`..`plateN`, one per temperature, in order. */
  lemma {:induction false} RowPlateKeys(row: ChartRow)
    requires forall i :: 0 <= i < |row.plates| ==> row.plates[i].0 == PlateKey(i)
    ensures Filter(row.Keys(), "time") == seq(|row.plates|, i requires 0 <= i < |row.plates| => PlateKey(i))
  {
    var keys := seq(|row.plates|, i requires 0 <= i < |row.plates| => row.plates[i].0);
    assert row.Keys()[1..] == keys;
    FilterKeepsPlateKeys(keys);
  }

  lemma {:induction false} FilterKeepsPlateKeys(keys: seq<string>)
    requires forall i :: 0 <= i < |keys| ==> keys[i] == PlateKey(i)
    ensures Filter(keys, "time") == keys
  {
    if keys != [] {
      PlateKeysDistinct(0, 0);
      ShiftedPlateKeys(keys);
    }
  }

  lemma {:induction false} ShiftedPlateKeys(keys: seq<string>)
    requires keys != [] && forall i :: 0 <= i < |keys| ==> keys[i] == PlateKey(i)
    ensures Filter(keys[1..], "time") == keys[1..]
    decreases |keys|
  {
    var rest := keys[1..];
    if rest != [] {
      PlateKeysDistinct(1, 1);
      assert rest[0] == PlateKey(1);
      var shorter := rest[1..];
      forall i | 0 <= i < |shorter| ensures shorter[i] != "time" {
        PlateKeysDistinct(i + 2, i + 2);
      }
    }
  }

  /** The chart has one line per temperature of the first row's entry: `plate1`..`plateN`. */
  lemma PlateKeysOfProjection(columnData: Option<seq<ColumnDataEntry>>, maxDataLength: nat)
    ensures var rows := FormatColumnData(columnData, maxDataLength);
      rows != [] ==>
        PlateKeys(rows) == seq(|rows[0].plates|, i requires 0 <= i < |rows[0].plates| => PlateKey(i))
  {
    var rows := FormatColumnData(columnData, maxDataLength);
    if rows != [] {
      FormatWindow(columnData, maxDataLength);
      RowPlateKeys(rows[0]);
    }
  }
}
