/** src-tauri/src/commands/data_manager.rs: fetching the next column entry, from the playback
    cursor or live from the instrument, where the live entry gets one composition per
    interpolated plate temperature. */
module DataManager {
  import opened Wrappers
  import opened Text
  import opened Backend
  import Calculations

  /** The entry shape of this version, with the replay completion percentage. */
  datatype ColumnEntry = ColumnEntry(
    timestamp: nat,
    temperatures: seq<real>,
    compositions: seq<real>,
    percentageComplete: real)

  /** The composition solver `calculate_composition(0.5, temperature, 1e-6, 1000)`: a
      composition, or None when it fails. Its numerics are not part of this model. */
  type Solver = real -> Option<real>

  /** What one live fetch reads from outside: the settings seen by the temperature read and the
      outcome of its register read, the settings seen afterwards, and the clock. */
  datatype LiveRead = LiveRead(
    settingsAtRead: Option<Calculations.Settings>,
    registers: Result<seq<Calculations.Register>>,
    settings: Option<Calculations.Settings>,
    now: nat)
  {
    /** The register read gives the two values `read_temperatures` indexes. */
    predicate Readable() { registers.Ok? ==> |registers.value| >= 2 }
  }

  const NoSettings := "No settings found"

  /** The composition the fallback loop gives the last plate of `temps`: the solver's value
      there, else the value the plate before it got, and 0.0 at the first plate. */
  function Carried(temps: seq<real>, solver: Solver): real
    decreases |temps|
  {
    if temps == [] then 0.0
    else match solver(temps[|temps| - 1])
      case Some(x) => x
      case None => Carried(temps[..|temps| - 1], solver)
  }

  /** The compositions of a live entry, one per plate temperature. */
  function Compositions(temps: seq<real>, solver: Solver): (r: seq<real>)
    ensures |r| == |temps|
  {
    seq(|temps|, i requires 0 <= i < |temps| => Carried(temps[..i + 1], solver))
  }

  /** Each carried composition is a value the solver actually produced at the last plate, at or
      before this one, where it succeeded (`j`); when it succeeded nowhere (`j == -1`) it is 0.0. */
  lemma {:induction false} CarriedSource(temps: seq<real>, solver: Solver) returns (j: int)
    ensures -1 <= j < |temps|
    ensures forall k :: j < k < |temps| ==> solver(temps[k]).None?
    ensures j == -1 ==> Carried(temps, solver) == 0.0
    ensures 0 <= j ==> solver(temps[j]) == Some(Carried(temps, solver))
    decreases |temps|
  {
    if temps == [] {
      j := -1;
    } else if solver(temps[|temps| - 1]).Some? {
      j := |temps| - 1;
    } else {
      var prefix := temps[..|temps| - 1];
      j := CarriedSource(prefix, solver);
      forall k | j < k < |temps| ensures solver(temps[k]).None? {
        if k < |temps| - 1 {
          assert temps[k] == prefix[k];
        }
      }
    }
  }

  /** The composition loop of the Live branch: the solver's value at each plate; when it fails,
      0.0 at the first plate and the previous plate's composition at any other. */
  method ComputeCompositions(temps: seq<real>, solver: Solver) returns (compositions: seq<real>)
    ensures |compositions| == |temps|
    ensures forall i :: 0 <= i < |temps| && solver(temps[i]).Some? ==> compositions[i] == solver(temps[i]).value
    ensures |temps| > 0 && solver(temps[0]).None? ==> compositions[0] == 0.0
    ensures forall i :: 0 < i < |temps| && solver(temps[i]).None? ==> compositions[i] == compositions[i - 1]
    ensures compositions == Compositions(temps, solver)
  {
    compositions := [];
    for i := 0 to |temps|
      invariant |compositions| == i
      invariant forall k :: 0 <= k < i ==> compositions[k] == Carried(temps[..k + 1], solver)
      invariant forall k :: 0 <= k < i && solver(temps[k]).Some? ==> compositions[k] == solver(temps[k]).value
      invariant i > 0 && solver(temps[0]).None? ==> compositions[0] == 0.0
      invariant forall k :: 0 < k < i && solver(temps[k]).None? ==> compositions[k] == compositions[k - 1]
    {
      assert temps[..i + 1][..i] == temps[..i];
      var composition;
      match solver(temps[i]) {
        case Some(x) => composition := x;
        case None => composition := if i == 0 then 0.0 else compositions[i - 1];
      }
      compositions := compositions + [composition];
    }
  }

  /** The Live branch of `get_column_data`. */
  function LiveEntry(input: LiveRead, solver: Solver): Result<ColumnEntry>
    requires input.Readable()
  {
    var temperatures := Calculations.ReadTemperatures(input.settingsAtRead, input.registers);
    if temperatures.Err? then Err("Failed to read temperatures: " + Debug(temperatures.error))
    else if input.settings.None? then Err(NoSettings)
    else
      var t := temperatures.value;
      var interpolated := Calculations.Interpolated(input.settings.value.numberPlates, t[0], t[1]);
      Ok(ColumnEntry(input.now, interpolated, Compositions(interpolated, solver), 0.0))
  }

  /** A failed temperature read or missing settings give an error; otherwise the live entry is
      stamped with the current time, is not a replay (0% complete), holds exactly the interpolated
      profile from the bottom reading to the top reading, and the compositions the solver fallback
      gives for that profile. */
  lemma LiveEntryShape(input: LiveRead, solver: Solver)
    requires input.Readable()
    ensures var r := LiveEntry(input, solver);
      && (r.Ok? <==> input.settingsAtRead.Some? && input.registers.Ok? && input.settings.Some?)
      && (r.Err? ==>
            r.error == (if input.settingsAtRead.Some? && input.registers.Ok? then NoSettings
                        else "Failed to read temperatures: " + Debug(Calculations.ReadTemperatures(input.settingsAtRead, input.registers).error)))
      && (r.Ok? ==>
        var temps := r.value.temperatures;
        var n := input.settings.value.numberPlates;
        && r.value.timestamp == input.now
        && r.value.percentageComplete == 0.0
        && |temps| == (if n <= 2 then 2 else n)
        && |r.value.compositions| == |temps|
        && temps == Calculations.Interpolated(n, input.registers.value[0] as real / 100.0, input.registers.value[1] as real / 100.0)
        && r.value.compositions == Compositions(temps, solver)
        && temps[0] * 100.0 == input.registers.value[0] as real
        && temps[|temps| - 1] * 100.0 == input.registers.value[1] as real)
  {
  }

  /** One fetch from the data source: the outcome and the data source afterwards. */
  function Fetch(source: DataSource<ColumnEntry>, input: LiveRead, solver: Solver): (Result<ColumnEntry>, DataSource<ColumnEntry>)
    requires input.Readable()
  {
    match source
    case Playback(index, data) =>
      var (r, next) := PlaybackNext(index, data);
      (r, Playback(next, data))
    case Live => (LiveEntry(input, solver), Live)
  }

  /** `get_column_data`: Playback reads through the cursor (moving it on only when it returns an
      entry), Live builds a new entry and leaves the source as it is. */
  method GetColumnData(cell: DataSourceState<ColumnEntry>, input: LiveRead, solver: Solver)
    returns (r: Result<ColumnEntry>)
    requires input.Readable()
    modifies cell
    ensures (r, cell.source) == Fetch(old(cell.source), input, solver)
  {
    if cell.source.Playback? {
      r := cell.NextPlayback();
      return;
    }
    var temperatures := Calculations.ReadTemperatures(input.settingsAtRead, input.registers);
    if temperatures.Err? {
      return Err("Failed to read temperatures: " + Debug(temperatures.error));
    }
    if input.settings.None? {
      return Err(NoSettings);
    }
    var t := temperatures.value;
    var interpolated := Calculations.InterpolateTemperatures(input.settings.value.numberPlates, t[0], t[1]);
    var compositions := ComputeCompositions(interpolated, solver);
    r := Ok(ColumnEntry(input.now, interpolated, compositions, 0.0));
  }
}
