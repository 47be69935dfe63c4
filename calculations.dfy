/** The older backend module src-tauri/src/commands/calculations.rs: reading the two column
    temperatures, interpolating one temperature per plate, the placeholder composition
    calculation, and the earlier single-shot versions of fetching and sending a column entry. */
module Calculations {
  import opened Wrappers
  import opened Text
  import opened Backend

  /** A 16-bit MODBUS holding-register value. */
  type Register = x: int | 0 <= x < 0x1_0000

  datatype TemperatureAddress = TemperatureAddress(top: Register, bottom: Register)

  /** The backend settings the column commands read; `numberPlates` is the plate count both
      versions of `get_column_data` take from them. */
  datatype Settings = Settings(
    usbPort: string,
    baudrate: nat,
    temperatureAddress: TemperatureAddress,
    count: Register,
    timeout: nat,
    unitId: nat,
    numberPlates: nat)

  /** The entry shape of this version: no completion percentage. */
  datatype ColumnEntry = ColumnEntry(timestamp: nat, temperatures: seq<real>, compositions: seq<real>)

  const NoSettingsToRead := "Error to get settings"
  const NoSettings := "No settings found"
  const TemperatureReadFailed := "Failed to read temperatures"

  /** `read_temperatures`: without settings it fails; otherwise the holding-register read
      (`registers`, its outcome) gives the bottom and top raw values, which are scaled down by
      100 into degrees, bottom first. */
  function ReadTemperatures(settings: Option<Settings>, registers: Result<seq<Register>>): (r: Result<seq<real>>)
    requires registers.Ok? ==> |registers.value| >= 2
    ensures r.Ok? <==> settings.Some? && registers.Ok?
    ensures settings.None? ==> r == Err(NoSettingsToRead)
    ensures settings.Some? && registers.Err? ==>
      r == Err("Error in read temperatures " + Debug(registers.error))
    ensures r.Ok? ==>
      |r.value| == 2
      && r.value[0] * 100.0 == registers.value[0] as real
      && r.value[1] * 100.0 == registers.value[1] as real
  {
    if settings.None? then Err(NoSettingsToRead)
    else if registers.Err? then Err("Error in read temperatures " + Debug(registers.error))
    else Ok([registers.value[0] as real / 100.0, registers.value[1] as real / 100.0])
  }

  /** The temperature of plate `i` of `n`, on the straight line from `t1` (plate 0) to `tn` (plate n-1). */
  function PlateTemperature(n: nat, i: nat, t1: real, tn: real): real
    requires n >= 2
  {
    t1 + (i as real) / ((n as real) - 1.0) * (tn - t1)
  }

  /** The last plate gets the top temperature. */
  lemma LastPlateTemperature(n: nat, t1: real, tn: real)
    requires n >= 2
    ensures PlateTemperature(n, n - 1, t1, tn) == tn
  {
    var d := (n as real) - 1.0;
    assert (n - 1) as real == d;
    QuotientSelf(d);
  }

  /** The first plate gets the bottom temperature. */
  lemma FirstPlateTemperature(n: nat, t1: real, tn: real)
    requires n >= 2
    ensures PlateTemperature(n, 0, t1, tn) == t1
  {
    QuotientZero((n as real) - 1.0);
  }

  lemma QuotientSelf(d: real)
    requires d != 0.0
    ensures d / d == 1.0
  {
  }

  lemma QuotientZero(d: real)
    requires d != 0.0
    ensures 0.0 / d == 0.0
  {
  }

  /** What `interpolate_temperatures` computes: just the two end temperatures for two plates or
      fewer (even for none or one), otherwise one evenly spaced temperature per plate. */
  function Interpolated(numPlates: nat, t1: real, tn: real): (r: seq<real>)
    ensures |r| == if numPlates <= 2 then 2 else numPlates
    ensures r[0] == t1 && r[|r| - 1] == tn
  {
    if numPlates <= 2 then [t1, tn]
    else
      LastPlateTemperature(numPlates, t1, tn);
      FirstPlateTemperature(numPlates, t1, tn);
      seq(numPlates, i requires 0 <= i < numPlates => PlateTemperature(numPlates, i, t1, tn))
  }

  lemma QuotientNonNeg(x: real, d: real)
    requires 0.0 <= x && 0.0 < d
    ensures 0.0 <= x / d
  {
  }

  lemma QuotientSub(i: real, j: real, d: real)
    requires 0.0 < d
    ensures j / d - i / d == (j - i) / d
  {
  }

  lemma FractionsOrdered(i: real, j: real, d: real)
    requires 0.0 <= i <= j <= d && 0.0 < d
    ensures 0.0 <= i / d <= j / d <= 1.0
  {
    QuotientNonNeg(i, d);
    QuotientSub(i, j, d);
    QuotientNonNeg(j - i, d);
    QuotientSub(j, d, d);
    QuotientNonNeg(d - j, d);
  }

  lemma ScaledOrdered(f: real, g: real, w: real)
    requires 0.0 <= f <= g <= 1.0 && 0.0 <= w
    ensures 0.0 <= f * w <= g * w <= w
  {
    ProductNonNeg(f, w);
    ProductSub(g, f, w);
    ProductNonNeg(g - f, w);
    ProductSub(1.0, g, w);
    ProductNonNeg(1.0 - g, w);
  }

  lemma ProductNonNeg(a: real, b: real)
    requires 0.0 <= a && 0.0 <= b
    ensures 0.0 <= a * b
  {
  }

  lemma ProductSub(a: real, b: real, w: real)
    ensures a * w - b * w == (a - b) * w
  {
  }

  /** Scaling by a non-positive width reverses the order of two fractions. */
  lemma ScaledOrderedDown(f: real, g: real, w: real)
    requires 0.0 <= f <= g <= 1.0 && w <= 0.0
    ensures w <= g * w <= f * w <= 0.0
  {
    ScaledOrdered(f, g, -w);
    ProductNegate(f, w);
    ProductNegate(g, w);
  }

  lemma ProductNegate(a: real, w: real)
    ensures a * -w == -(a * w)
  {
  }

  /** Plate temperatures run from the bottom reading to the top reading, rising when the top is
      the warmer end and falling when it is the cooler one. */
  lemma PlateTemperaturesOrdered(n: nat, i: nat, j: nat, t1: real, tn: real)
    requires i <= j < n && n >= 2
    ensures t1 <= tn ==> t1 <= PlateTemperature(n, i, t1, tn) <= PlateTemperature(n, j, t1, tn) <= tn
    ensures tn <= t1 ==> tn <= PlateTemperature(n, j, t1, tn) <= PlateTemperature(n, i, t1, tn) <= t1
  {
    var d := (n as real) - 1.0;
    var fi, fj := (i as real) / d, (j as real) / d;
    PlateFractions(n, i, j);
    if t1 <= tn {
      ScaledOrdered(fi, fj, tn - t1);
    } else {
      ScaledOrderedDown(fi, fj, tn - t1);
    }
  }

  /** Plates i ≤ j sit at fractions i/(n-1) ≤ j/(n-1) of the way up, both within [0, 1]. */
  lemma PlateFractions(n: nat, i: nat, j: nat)
    requires i <= j < n && n >= 2
    ensures var d := (n as real) - 1.0;
      0.0 <= (i as real) / d <= (j as real) / d <= 1.0
  {
    var d := (n as real) - 1.0;
    assert 0.0 <= i as real <= j as real <= d && 0.0 < d;
    FractionsOrdered(i as real, j as real, d);
  }

  /** Between the end temperatures, the interpolated profile is monotone and stays within them:
      non-decreasing from a cooler bottom, non-increasing from a warmer one. */
  lemma InterpolatedMonotone(numPlates: nat, t1: real, tn: real, i: nat, j: nat)
    requires i <= j < |Interpolated(numPlates, t1, tn)|
    ensures t1 <= tn ==> t1 <= Interpolated(numPlates, t1, tn)[i] <= Interpolated(numPlates, t1, tn)[j] <= tn
    ensures tn <= t1 ==> tn <= Interpolated(numPlates, t1, tn)[j] <= Interpolated(numPlates, t1, tn)[i] <= t1
  {
    if numPlates > 2 {
      PlateTemperaturesOrdered(numPlates, i, j, t1, tn);
    }
  }

  /** `interpolate_temperatures`, the loop that pushes one temperature per plate. */
  method InterpolateTemperatures(numPlates: nat, t1: real, tn: real) returns (temps: seq<real>)
    ensures temps == Interpolated(numPlates, t1, tn)
  {
    if numPlates <= 2 {
      return [t1, tn];
    }
    temps := [];
    var i := 0;
    while i < numPlates
      invariant 0 <= i <= numPlates
      invariant temps == Interpolated(numPlates, t1, tn)[..i]
    {
      assert Interpolated(numPlates, t1, tn)[i] == PlateTemperature(numPlates, i, t1, tn);
      temps := temps + [PlateTemperature(numPlates, i, t1, tn)];
      i := i + 1;
    }
  }

  /** `calculate_compositions`: a placeholder giving three zero compositions whatever the temperatures. */
  function CalculateCompositions(temperatures: seq<real>): (r: seq<real>)
    ensures |r| == 3 && forall i :: 0 <= i < |r| ==> r[i] == 0.0
  {
    [0.0, 0.0, 0.0]
  }

  /** The Live branch of this version's `get_column_data`. The temperatures are read first (with
      the settings that read sees, `settingsAtRead`, and the register read's outcome); the settings
      are then taken again (`settings`) for the plate count; the entry is stamped `now` and carries
      the interpolated temperatures and the placeholder compositions. */
  function LiveEntry(
    settingsAtRead: Option<Settings>,
    registers: Result<seq<Register>>,
    settings: Option<Settings>,
    now: nat): Result<ColumnEntry>
    requires registers.Ok? ==> |registers.value| >= 2
  {
    var temperatures := ReadTemperatures(settingsAtRead, registers);
    if temperatures.Err? then Err(TemperatureReadFailed)
    else if settings.None? then Err(NoSettings)
    else
      var t := temperatures.value;
      var interpolated := Interpolated(settings.value.numberPlates, t[0], t[1]);
      Ok(ColumnEntry(now, interpolated, CalculateCompositions(interpolated)))
  }

  /** A live entry exists only when the temperature read and the settings both succeed; it is
      stamped with the current time, runs from the bottom reading to the top reading (each a
      hundredth of its register) over one temperature per plate (two for two plates or fewer),
      and carries exactly three compositions, all zero. */
  lemma LiveEntryShape(
    settingsAtRead: Option<Settings>,
    registers: Result<seq<Register>>,
    settings: Option<Settings>,
    now: nat)
    requires registers.Ok? ==> |registers.value| >= 2
    ensures var r := LiveEntry(settingsAtRead, registers, settings, now);
      && (r.Ok? <==> settingsAtRead.Some? && registers.Ok? && settings.Some?)
      && (r.Err? ==> r.error == (if settingsAtRead.Some? && registers.Ok? then NoSettings else TemperatureReadFailed))
      && (r.Ok? ==>
        var n := settings.value.numberPlates;
        var temps := r.value.temperatures;
        && r.value.timestamp == now
        && |temps| == (if n <= 2 then 2 else n)
        && temps[0] * 100.0 == registers.value[0] as real
        && temps[|temps| - 1] * 100.0 == registers.value[1] as real
        && temps == Interpolated(n, registers.value[0] as real / 100.0, registers.value[1] as real / 100.0)
        && r.value.compositions == [0.0, 0.0, 0.0])
  {
  }

  /** One fetch from the data source: the outcome and the data source afterwards. */
  function Fetch(
    source: DataSource<ColumnEntry>,
    settingsAtRead: Option<Settings>,
    registers: Result<seq<Register>>,
    settings: Option<Settings>,
    now: nat): (Result<ColumnEntry>, DataSource<ColumnEntry>)
    requires registers.Ok? ==> |registers.value| >= 2
  {
    match source
    case Playback(index, data) =>
      var (r, next) := PlaybackNext(index, data);
      (r, Playback(next, data))
    case Live => (LiveEntry(settingsAtRead, registers, settings, now), Live)
  }

  /** `get_column_data` of this version: Playback reads through the cursor, Live builds a new entry. */
  method GetColumnData(
    cell: DataSourceState<ColumnEntry>,
    settingsAtRead: Option<Settings>,
    registers: Result<seq<Register>>,
    settings: Option<Settings>,
    now: nat)
    returns (r: Result<ColumnEntry>)
    requires registers.Ok? ==> |registers.value| >= 2
    modifies cell
    ensures (r, cell.source) == Fetch(old(cell.source), settingsAtRead, registers, settings, now)
  {
    if cell.source.Playback? {
      r := cell.NextPlayback();
      return;
    }
    var temperatures := ReadTemperatures(settingsAtRead, registers);
    if temperatures.Err? {
      return Err(TemperatureReadFailed);
    }
    if settings.None? {
      return Err(NoSettings);
    }
    var t := temperatures.value;
    var interpolated := InterpolateTemperatures(settings.value.numberPlates, t[0], t[1]);
    r := Ok(ColumnEntry(now, interpolated, CalculateCompositions(interpolated)));
  }

  /** This version's `send_column_data`: fetch one entry; on a fetch error return it and record
      nothing; otherwise append the entry to the history and only then emit it (`emit` is the
      emission's outcome, `emitted` the entry the frontend received). */
  method SendColumnData(
    cell: DataSourceState<ColumnEntry>,
    history: MeasurementHistory<ColumnEntry>,
    settingsAtRead: Option<Settings>,
    registers: Result<seq<Register>>,
    settings: Option<Settings>,
    now: nat,
    emit: Result<()>)
    returns (r: Result<()>, emitted: Option<ColumnEntry>)
    requires registers.Ok? ==> |registers.value| >= 2
    modifies cell, history
    ensures var (fetched, source) := Fetch(old(cell.source), settingsAtRead, registers, settings, now);
      && cell.source == source
      && (fetched.Err? ==> r == Err(fetched.error) && emitted.None? && history.history == old(history.history))
      && (fetched.Ok? ==> history.history == old(history.history) + [fetched.value])
      && (fetched.Ok? && emit.Ok? ==> r == Ok(()) && emitted == Some(fetched.value))
      && (fetched.Ok? && emit.Err? ==> r == Err("Failed to emit data: " + emit.error) && emitted.None?)
  {
    var fetched := GetColumnData(cell, settingsAtRead, registers, settings, now);
    if fetched.Err? {
      return Err(fetched.error), None;
    }
    history.Push(fetched.value);
    if emit.Err? {
      return Err("Failed to emit data: " + emit.error), None;
    }
    r, emitted := Ok(()), Some(fetched.value);
  }

  /** `active_column_data`: only switches the transmission flag on. */
  method ActiveColumnData(transmission: TransmissionState)
    modifies transmission
    ensures transmission.isRunning
  {
    transmission.isRunning := true;
  }

  /** This version's `cancel_column_data`: only switches the transmission flag off. */
  method CancelColumnData(transmission: TransmissionState)
    modifies transmission
    ensures !transmission.isRunning
  {
    transmission.isRunning := false;
  }
}
