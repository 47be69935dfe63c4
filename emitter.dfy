/** src-tauri/src/commands/emitter.rs: the send loop that keeps fetching column entries,
    recording them in the measurement history and emitting them to the frontend while the
    transmission flag is set, and the pause and cancel commands that clear that flag.

    The loop runs concurrently with the other commands. Here that concurrency is a schedule:
    each iteration is a `Turn` that names the command (if any) another task ran just before
    the iteration takes the transmission lock, the command (if any) that ran after the flag
    check released that lock and before the fetch locked the data source, the inputs of that
    iteration's live fetch, and the outcome of its emission. A loop that has used up its schedule without stopping ends
    with the model-only outcome `Pending`. */
module Emitter {
  import opened Wrappers
  import opened Backend
  import opened DataManager

  /** A command run by another task while the send loop holds none of the locks it touches. */
  datatype Interleaved = NoCommand | Pause | Cancel

  /** `before` runs ahead of the flag check, `during` between the flag check and the fetch. */
  datatype Turn = Turn(before: Interleaved, during: Interleaved, input: LiveRead, emit: Result<()>)

  /** How `send_column_data` ended: `Ok(())` on seeing the flag cleared, an error, or (model only)
      still running when its schedule ran out. */
  datatype Outcome = Stopped | Failed(error: string) | Pending

  /** The shared state the send loop works on: the transmission flag, the data source and the history. */
  datatype Shared = Shared(running: bool, source: DataSource<ColumnEntry>, history: seq<ColumnEntry>)

  /** A turn in which nobody interferes and the emission succeeds. */
  predicate Quiet(turn: Turn) { turn.before == NoCommand && turn.during == NoCommand && turn.emit.Ok? }

  predicate Readable(turns: seq<Turn>) { forall k :: 0 <= k < |turns| ==> turns[k].input.Readable() }

  /** The data source after `cancel_column_data`: a recording is rewound and dropped; Live stays Live. */
  function CancelledSource(source: DataSource<ColumnEntry>): DataSource<ColumnEntry>
  {
    if source.Playback? then Playback(0, []) else Live
  }

  function AfterCommand(s: Shared, command: Interleaved): Shared
  {
    match command
    case NoCommand => s
    case Pause => s.(running := false)
    case Cancel => Shared(false, CancelledSource(s.source), s.history)
  }

  /** What a run of the loop leaves behind: the state afterwards, how it ended, and the entries
      it appended to the history, in order. */
  datatype RunResult = RunResult(after: Shared, outcome: Outcome, appended: seq<ColumnEntry>)
  {
    function Prepend(entries: seq<ColumnEntry>): RunResult { this.(appended := entries + appended) }
  }

  /** One iteration of the loop: either it ends the loop, or it appended `entry` and emitted it
      and the loop goes on from `next` (whose flag a command in the `during` slot may have cleared). */
  datatype Step = Continue(next: Shared, entry: ColumnEntry) | Finish(result: RunResult)

  function Iteration(s: Shared, turn: Turn, solver: Solver): Step
    requires turn.input.Readable()
  {
    var checked := AfterCommand(s, turn.before);
    if !checked.running then Finish(RunResult(checked, Stopped, []))
    else
      var s1 := AfterCommand(checked, turn.during);
      var fetch := Fetch(s1.source, turn.input, solver);
      var s2 := s1.(source := fetch.1);
      if fetch.0.Err? then Finish(RunResult(s2, Failed(fetch.0.error), []))
      else
        var s3 := s2.(history := s2.history + [fetch.0.value]);
        if turn.emit.Err? then Finish(RunResult(s3, Failed("Failed to emit data: " + turn.emit.error), [fetch.0.value]))
        else Continue(s3, fetch.0.value)
  }

  /** The loop of `send_column_data` from state `s` over a schedule. */
  function Run(s: Shared, turns: seq<Turn>, solver: Solver): RunResult
    requires Readable(turns)
    decreases |turns|
  {
    if turns == [] then RunResult(s, Pending, [])
    else match Iteration(s, turns[0], solver)
      case Finish(r) => r
      case Continue(next, entry) => Run(next, turns[1..], solver).Prepend([entry])
  }

  /** Some turn runs a pause or cancel in either slot. */
  predicate Interrupted(turns: seq<Turn>)
  {
    exists k :: 0 <= k < |turns| && (turns[k].before != NoCommand || turns[k].during != NoCommand)
  }

  /** Some turn runs a pause or cancel between its flag check and its fetch. */
  predicate InterruptedDuring(turns: seq<Turn>)
  {
    exists k :: 0 <= k < |turns| && turns[k].during != NoCommand
  }

  /** Once started, the loop only appends to the history (one entry per iteration, never
      evicting any); it stops with `Ok(())` only on finding the flag cleared, which only a pause
      or cancel can do; it ends otherwise (an error or an unfinished schedule) with the flag
      cleared only when a pause or cancel ran after some flag check and before its fetch. */
  lemma {:induction false} RunEffects(s: Shared, turns: seq<Turn>, solver: Solver)
    requires s.running && Readable(turns)
    ensures var r := Run(s, turns, solver);
      && r.after.history == s.history + r.appended
      && |r.appended| <= |turns|
      && (r.outcome == Stopped ==> !r.after.running && Interrupted(turns))
      && (r.outcome != Stopped && !r.after.running ==> InterruptedDuring(turns))
    decreases |turns|
  {
    if turns != [] {
      IterationEffects(s, turns[0], solver);
      match Iteration(s, turns[0], solver)
      case Finish(r) =>
        if r.outcome == Stopped {
          assert turns[0].before != NoCommand;
        } else if !r.after.running {
          assert turns[0].during != NoCommand;
        }
      case Continue(next, entry) =>
        var rest := turns[1..];
        var r := Run(next, rest, solver);
        assert Run(s, turns, solver) == r.Prepend([entry]);
        if next.running {
          RunEffects(next, rest, solver);
          assert s.history + ([entry] + r.appended) == next.history + r.appended;
          if r.outcome == Stopped {
            var k :| 0 <= k < |rest| && (rest[k].before != NoCommand || rest[k].during != NoCommand);
            assert turns[k + 1] == rest[k];
          } else if !r.after.running {
            var k :| 0 <= k < |rest| && rest[k].during != NoCommand;
            assert turns[k + 1] == rest[k];
          }
        } else {
          assert turns[0].during != NoCommand;
          HaltedRun(next, rest, solver);
        }
    }
  }

  /** A single iteration appends at most its own entry; it stops with `Ok(())` only on a flag a
      pause or cancel before it cleared, and it leaves the flag cleared otherwise only when a
      pause or cancel ran between its flag check and its fetch. A stop or a fetch error appends
      nothing; a failed emission ends the loop with the entry already in the history, so the
      history holds an entry the frontend never received. */
  lemma IterationEffects(s: Shared, turn: Turn, solver: Solver)
    requires s.running && turn.input.Readable()
    ensures var step := Iteration(s, turn, solver);
      && (step.Continue? ==>
            && step.next.history == s.history + [step.entry]
            && (!step.next.running ==> turn.during != NoCommand))
      && (step.Finish? ==>
            && step.result.after.history == s.history + step.result.appended
            && |step.result.appended| <= 1
            && (step.result.outcome == Stopped ==> !step.result.after.running && turn.before != NoCommand)
            && (step.result.outcome != Stopped && !step.result.after.running ==> turn.during != NoCommand)
            && (turn.emit.Ok? ==> step.result.appended == [])
            && (step.result.appended != [] ==>
                  step.result.outcome == Failed("Failed to emit data: " + turn.emit.error)))
  {
  }

  /** Once the flag is clear the loop appends nothing and keeps it clear: it stops at its next
      flag check, or is left pending if no iteration is scheduled. */
  lemma HaltedRun(s: Shared, turns: seq<Turn>, solver: Solver)
    requires !s.running && Readable(turns)
    ensures var r := Run(s, turns, solver);
      && r.appended == [] && r.after.history == s.history && !r.after.running
      && r.outcome == (if turns == [] then Pending else Stopped)
  {
  }

  /** A cancel that lands after a flag check and before the fetch locks the data source empties
      the recording under the loop: the fetch finds nothing to read and the loop returns the
      exhaustion error, having appended nothing, with the flag already cleared. */
  lemma CancelBeforeFetchFails(s: Shared, turns: seq<Turn>, solver: Solver)
    requires s.running && s.source.Playback? && Readable(turns) && turns != []
    requires turns[0].before == NoCommand && turns[0].during == Cancel
    ensures Run(s, turns, solver) == RunResult(Shared(false, Playback(0, []), s.history), Failed(NoMorePlayback), [])
  {
  }

  lemma PrependTwice(r: RunResult, a: seq<ColumnEntry>, b: seq<ColumnEntry>)
    ensures r.Prepend(b).Prepend(a) == r.Prepend(a + b)
  {
    assert a + (b + r.appended) == (a + b) + r.appended;
  }

  lemma ReadableSuffix(turns: seq<Turn>, k: nat)
    requires Readable(turns) && k <= |turns|
    ensures Readable(turns[k..])
  {
    forall t | 0 <= t < |turns[k..]| ensures turns[k..][t].input.Readable() {
      assert turns[k..][t] == turns[k + t];
    }
  }

  /** Quiet iterations over a recording return its entries one after another from the cursor. */
  lemma {:induction false} RunQuietPlayback(s: Shared, turns: seq<Turn>, solver: Solver, index: nat, data: seq<ColumnEntry>, k: nat)
    requires s.running && s.source == Playback(index, data) && Readable(turns)
    requires index + k <= |data| && k <= |turns|
    requires forall t :: 0 <= t < k ==> Quiet(turns[t])
    ensures Readable(turns[k..])
    ensures Run(s, turns, solver)
      == Run(Shared(true, Playback(index + k, data), s.history + data[index..index + k]), turns[k..], solver)
           .Prepend(data[index..index + k])
    decreases k
  {
    ReadableSuffix(turns, k);
    if k == 0 {
      assert turns[0..] == turns;
      assert s == Shared(true, Playback(index, data), s.history + []);
    } else {
      var d := data[index];
      var next := Shared(true, Playback(index + 1, data), s.history + [d]);
      var last := Shared(true, Playback(index + k, data), s.history + data[index..index + k]);
      var rest := data[index + 1..index + k];
      assert Readable(turns[1..]) && Run(s, turns, solver) == Run(next, turns[1..], solver).Prepend([d]) by {
        QuietPlaybackStep(s, turns, solver, index, data);
      }
      var r := Run(last, turns[k..], solver);
      assert Run(next, turns[1..], solver) == r.Prepend(rest) by {
        QuietSuffix(turns, k);
        RunQuietPlayback(next, turns[1..], solver, index + 1, data, k - 1);
        assert turns[1..][k - 1..] == turns[k..];
        PlaybackSplit(s.history, data, index, k);
      }
      PlaybackSplit(s.history, data, index, k);
      PrependTwice(r, [d], rest);
    }
  }

  lemma QuietSuffix(turns: seq<Turn>, k: nat)
    requires 0 < k <= |turns| && forall t :: 0 <= t < k ==> Quiet(turns[t])
    ensures forall t :: 0 <= t < k - 1 ==> Quiet(turns[1..][t])
  {
    forall t | 0 <= t < k - 1 ensures Quiet(turns[1..][t]) {
      assert turns[1..][t] == turns[t + 1];
    }
  }

  /** The next k entries of a recording are its next entry followed by the k-1 after it. */
  lemma PlaybackSplit(history: seq<ColumnEntry>, data: seq<ColumnEntry>, index: nat, k: nat)
    requires 0 < k && index + k <= |data|
    ensures data[index..index + k] == [data[index]] + data[index + 1..index + k]
    ensures (history + [data[index]]) + data[index + 1..index + k] == history + data[index..index + k]
  {
    assert data[index..index + k] == [data[index]] + data[index + 1..index + k];
  }

  /** A quiet iteration over a recording with an entry left appends that entry and moves the cursor on. */
  lemma QuietPlaybackStep(s: Shared, turns: seq<Turn>, solver: Solver, index: nat, data: seq<ColumnEntry>)
    requires s.running && s.source == Playback(index, data) && Readable(turns)
    requires index < |data| && turns != [] && Quiet(turns[0])
    ensures Readable(turns[1..])
    ensures Run(s, turns, solver)
      == Run(Shared(true, Playback(index + 1, data), s.history + [data[index]]), turns[1..], solver).Prepend([data[index]])
  {
    assert Iteration(s, turns[0], solver)
      == Continue(Shared(true, Playback(index + 1, data), s.history + [data[index]]), data[index]);
  }

  /** Left uninterrupted, sending a recording from cursor `index` appends and emits every
      remaining entry in order and then ends with the exhaustion error, flag still set. */
  lemma PlaybackDrains(s: Shared, turns: seq<Turn>, solver: Solver, index: nat, data: seq<ColumnEntry>)
    requires s.running && s.source == Playback(index, data) && index <= |data|
    requires Readable(turns) && |turns| > |data| - index
    requires forall t :: 0 <= t < |turns| ==> Quiet(turns[t])
    ensures Run(s, turns, solver)
      == RunResult(Shared(true, Playback(|data|, data), s.history + data[index..]), Failed(NoMorePlayback), data[index..])
  {
    var k := |data| - index;
    RunQuietPlayback(s, turns, solver, index, data, k);
    assert data[index..index + k] == data[index..];
    var rest := turns[k..];
    assert rest[0] == turns[k] && Quiet(rest[0]);
  }

  /** An iteration preceded by a pause ends the loop with `Ok(())` and changes nothing else. */
  lemma PauseStops(s: Shared, turns: seq<Turn>, solver: Solver)
    requires Readable(turns) && turns != [] && turns[0].before == Pause
    ensures Run(s, turns, solver) == RunResult(s.(running := false), Stopped, [])
  {
    assert Iteration(s, turns[0], solver) == Finish(RunResult(s.(running := false), Stopped, []));
  }

  /** Quiet iterations over a recording and then a pause: the loop stops with `Ok(())` after
      appending the next k entries, the cursor just past them. */
  lemma PausedRun(s: Shared, first: seq<Turn>, solver: Solver, index: nat, data: seq<ColumnEntry>, k: nat)
    requires s.running && s.source == Playback(index, data) && index + k <= |data|
    requires Readable(first) && |first| == k + 1 && first[k].before == Pause
    requires forall t :: 0 <= t < k ==> Quiet(first[t])
    ensures Run(s, first, solver)
      == RunResult(Shared(false, Playback(index + k, data), s.history + data[index..index + k]), Stopped, data[index..index + k])
  {
    RunQuietPlayback(s, first, solver, index, data, k);
    var before := Shared(true, Playback(index + k, data), s.history + data[index..index + k]);
    assert first[k..] == [first[k]];
    PauseStops(before, first[k..], solver);
    PrependTwice(RunResult(before.(running := false), Stopped, []), data[index..index + k], []);
  }

  /** Pausing a recording and sending again loses and repeats nothing: the two runs together
      append exactly the entries an uninterrupted run would. */
  lemma PauseResumes(
    s: Shared, first: seq<Turn>, second: seq<Turn>, solver: Solver,
    index: nat, data: seq<ColumnEntry>, k: nat)
    requires s.running && s.source == Playback(index, data) && index + k <= |data|
    requires Readable(first) && |first| == k + 1 && first[k].before == Pause
    requires forall t :: 0 <= t < k ==> Quiet(first[t])
    requires Readable(second) && |second| > |data| - index - k
    requires forall t :: 0 <= t < |second| ==> Quiet(second[t])
    ensures var paused := Run(s, first, solver);
      && paused.outcome == Stopped
      && paused.after.source == Playback(index + k, data)
      && var resumed := Run(paused.after.(running := true), second, solver);
      && paused.appended + resumed.appended == data[index..]
      && resumed.after.history == s.history + data[index..]
  {
    var before := Shared(true, Playback(index + k, data), s.history + data[index..index + k]);
    PausedRun(s, first, solver, index, data, k);
    PlaybackDrains(before, second, solver, index + k, data);
    ResumeCombine(s.history, Run(s, first, solver), Run(before, second, solver), index, data, k);
  }

  /** The bookkeeping of `PauseResumes`: the entries of the paused run and of the resumed one
      make up the rest of the recording. */
  lemma ResumeCombine(history: seq<ColumnEntry>, paused: RunResult, resumed: RunResult, index: nat, data: seq<ColumnEntry>, k: nat)
    requires index + k <= |data|
    requires paused == RunResult(Shared(false, Playback(index + k, data), history + data[index..index + k]), Stopped, data[index..index + k])
    requires resumed == RunResult(
      Shared(true, Playback(|data|, data), (history + data[index..index + k]) + data[index + k..]), Failed(NoMorePlayback), data[index + k..])
    ensures paused.after.(running := true) == Shared(true, Playback(index + k, data), history + data[index..index + k])
    ensures paused.appended + resumed.appended == data[index..]
    ensures resumed.after.history == history + data[index..]
  {
    assert data[index..index + k] + data[index + k..] == data[index..];
  }

  /** After a cancel, sending again from a recording finds it empty: it appends nothing and
      fails with the exhaustion error. */
  lemma CancelledPlaybackIsExhausted(s: Shared, turns: seq<Turn>, solver: Solver)
    requires s.source.Playback? && Readable(turns) && |turns| > 0 && turns[0].before == NoCommand
    requires turns[0].during == NoCommand
    ensures Run(AfterCommand(s, Cancel).(running := true), turns, solver)
      == RunResult(Shared(true, Playback(0, []), s.history), Failed(NoMorePlayback), [])
  {
  }

  /** `pause_column_data`: only clears the transmission flag. */
  method PauseColumnData(transmission: TransmissionState)
    modifies transmission
    ensures !transmission.isRunning
  {
    transmission.isRunning := false;
  }

  /** `cancel_column_data`: clears the transmission flag and rewinds and empties a recording. */
  method CancelColumnData(transmission: TransmissionState, cell: DataSourceState<ColumnEntry>)
    modifies transmission, cell
    ensures !transmission.isRunning
    ensures cell.source == CancelledSource(old(cell.source))
  {
    transmission.isRunning := false;
    match cell.source {
      case Playback(_, _) => cell.source := Playback(0, []);
      case Live =>
    }
  }

  /** One iteration of `send_column_data`'s loop, on the shared state. */
  method SendIteration(
    transmission: TransmissionState,
    history: MeasurementHistory<ColumnEntry>,
    cell: DataSourceState<ColumnEntry>,
    solver: Solver,
    turn: Turn)
    returns (finished: bool, outcome: Outcome, entry: Option<ColumnEntry>)
    requires turn.input.Readable()
    modifies transmission, history, cell
    ensures !finished ==> entry.Some?
    ensures var after := Shared(transmission.isRunning, cell.source, history.history);
      Iteration(Shared(old(transmission.isRunning), old(cell.source), old(history.history)), turn, solver)
        == if finished then Finish(RunResult(after, outcome, if entry.Some? then [entry.value] else []))
           else Continue(after, entry.value)
  {
    match turn.before {
      case NoCommand =>
      case Pause => PauseColumnData(transmission);
      case Cancel => CancelColumnData(transmission, cell);
    }
    if !transmission.isRunning {
      return true, Stopped, None;
    }
    match turn.during {
      case NoCommand =>
      case Pause => PauseColumnData(transmission);
      case Cancel => CancelColumnData(transmission, cell);
    }
    var fetched := GetColumnData(cell, turn.input, solver);
    if fetched.Err? {
      return true, Failed(fetched.error), None;
    }
    history.Push(fetched.value);
    if turn.emit.Err? {
      return true, Failed("Failed to emit data: " + turn.emit.error), Some(fetched.value);
    }
    finished, outcome, entry := false, Pending, Some(fetched.value);
  }

  /** `send_column_data`: set the flag, then loop — stop with `Ok(())` if the flag is clear, fetch
      (returning any fetch error), append to the history, emit (returning any emission error). */
  method SendColumnData(
    transmission: TransmissionState,
    history: MeasurementHistory<ColumnEntry>,
    cell: DataSourceState<ColumnEntry>,
    solver: Solver,
    turns: seq<Turn>)
    returns (outcome: Outcome, appended: seq<ColumnEntry>)
    requires Readable(turns)
    modifies transmission, history, cell
    ensures RunResult(Shared(transmission.isRunning, cell.source, history.history), outcome, appended)
      == Run(Shared(true, old(cell.source), old(history.history)), turns, solver)
  {
    transmission.isRunning := true;
    ghost var start := Shared(true, cell.source, history.history);
    appended := [];
    var k := 0;
    assert turns[k..] == turns;
    while k < |turns|
      invariant 0 <= k <= |turns|
      invariant Run(start, turns, solver)
        == Run(Shared(transmission.isRunning, cell.source, history.history), turns[k..], solver).Prepend(appended)
    {
      assert turns[k..][0] == turns[k] && turns[k..][1..] == turns[k + 1..];
      var finished, entry;
      finished, outcome, entry := SendIteration(transmission, history, cell, solver, turns[k]);
      if entry.Some? {
        appended := appended + [entry.value];
      }
      if finished {
        return;
      }
      k := k + 1;
    }
    outcome := Pending;
  }
}
