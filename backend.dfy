/** The state the backend registers at start-up and shares between its commands
    (src-tauri/src/lib.rs): where measurements come from, the transmission flag and the
    measurement history; and the playback cursor both versions of `get_column_data` use. */
module Backend {
  import opened Wrappers

  /** Where column entries come from: the instrument, or a loaded recording read through a cursor. */
  datatype DataSource<E> = Live | Playback(index: nat, data: seq<E>)

  const NoMorePlayback := "No more playback data available"

  /** One read of the playback cursor: the entry under the cursor and the advanced cursor,
      or the exhaustion error with the cursor where it was. */
  function PlaybackNext<E>(index: nat, data: seq<E>): (Result<E>, nat)
  {
    if index < |data| then (Ok(data[index]), index + 1) else (Err(NoMorePlayback), index)
  }

  /** The outcomes of `k` successive reads starting at cursor `index`, and the cursor after them. */
  function PlaybackReads<E>(index: nat, data: seq<E>, k: nat): (seq<Result<E>>, nat)
    decreases k
  {
    if k == 0 then ([], index)
    else
      var (r, next) := PlaybackNext(index, data);
      var (rs, last) := PlaybackReads(next, data, k - 1);
      ([r] + rs, last)
  }

  /** Reading a recording from cursor `index` yields its entries in order, one per read, and
      then only the exhaustion error; the cursor never passes the end of the recording. */
  lemma {:induction false} PlaybackReadsInOrder<E>(index: nat, data: seq<E>, k: nat)
    requires index <= |data|
    ensures |PlaybackReads(index, data, k).0| == k
    ensures PlaybackReads(index, data, k).1 == Min(index + k, |data|)
    ensures forall t :: 0 <= t < k ==>
      PlaybackReads(index, data, k).0[t] ==
        if index + t < |data| then Ok(data[index + t]) else Err(NoMorePlayback)
    decreases k
  {
    if k > 0 {
      var next := PlaybackNext(index, data).1;
      PlaybackReadsInOrder(next, data, k - 1);
      var rs := PlaybackReads(index, data, k).0;
      forall t | 0 <= t < k
        ensures rs[t] == if index + t < |data| then Ok(data[index + t]) else Err(NoMorePlayback)
      {
        if t > 0 {
          assert rs[t] == PlaybackReads(next, data, k - 1).0[t - 1];
        }
      }
    }
  }

  /** `TransmissionState`: whether the send loop should keep fetching and emitting. */
  class TransmissionState {
    var isRunning: bool

    constructor ()
      ensures !isRunning
    {
      isRunning := false;
    }
  }

  /** The shared, lock-protected `DataSource`. */
  class DataSourceState<E> {
    var source: DataSource<E>

    constructor ()
      ensures source == Live
    {
      source := Live;
    }

    /** The Playback branch of `get_column_data`: return the entry under the cursor and move
        the cursor on by one, or report exhaustion and leave the cursor alone. */
    method NextPlayback() returns (r: Result<E>)
      requires source.Playback?
      modifies this
      ensures source.Playback? && source.data == old(source.data)
      ensures (r, source.index) == PlaybackNext(old(source.index), old(source.data))
    {
      if source.index < |source.data| {
        r := Ok(source.data[source.index]);
        source := source.(index := source.index + 1);
      } else {
        r := Err(NoMorePlayback);
      }
    }
  }

  /** `MeasurementHistory`: every entry the send loop has fetched, oldest first, without bound. */
  class MeasurementHistory<E> {
    var history: seq<E>

    constructor ()
      ensures history == []
    {
      history := [];
    }

    method Push(entry: E)
      modifies this
      ensures history == old(history) + [entry]
    {
      history := history + [entry];
    }
  }
}
