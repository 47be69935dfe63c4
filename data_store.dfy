/** src/hooks/useData.ts: the frontend's store of measurement entries and link flags. Each
    setter merges its fields into the state and leaves every other field as it was. */
module DataStore {
  import opened Wrappers

  /** One measurement as the frontend receives it; timestamps are whole seconds. */
  datatype ColumnDataEntry = ColumnDataEntry(timestamp: int, temperatures: seq<real>, compositions: seq<real>)

  /** The placeholder entry the store starts with. */
  const InitialEntry := ColumnDataEntry(0, [], [])

  /** The whole store state, for stating properties of sequences of setter calls. */
  datatype State = State(columnData: seq<ColumnDataEntry>, connected: bool, isLoading: bool, temperatures: Option<seq<real>>)

  class Store {
    var columnData: seq<ColumnDataEntry>
    var connected: bool
    var isLoading: bool
    /** The `temperatures` key `clearData` adds to the state; the declared state has no such field. */
    var temperatures: Option<seq<real>>

    function Snapshot(): (s: State)
      reads this
      ensures s.columnData == columnData && s.connected == connected
      ensures s.isLoading == isLoading && s.temperatures == temperatures
    {
      State(columnData, connected, isLoading, temperatures)
    }

    constructor ()
      ensures columnData == [InitialEntry] && !connected && !isLoading && temperatures == None
    {
      columnData := [InitialEntry];
      connected := false;
      isLoading := false;
      temperatures := None;
    }

    method SetColumnData(entries: seq<ColumnDataEntry>)
      modifies this
      ensures Snapshot() == old(Snapshot()).(columnData := entries)
    {
      columnData := entries;
    }

    method SetConnected(value: bool)
      modifies this
      ensures Snapshot() == old(Snapshot()).(connected := value)
    {
      connected := value;
    }

    method SetLoading(value: bool)
      modifies this
      ensures Snapshot() == old(Snapshot()).(isLoading := value)
    {
      isLoading := value;
    }

    method ClearData()
      modifies this
      ensures Snapshot() == Cleared(old(Snapshot()))
    {
      temperatures := Some([]);
      connected := false;
      isLoading := false;
    }
  }

  /** The state after `clearData`. */
  function Cleared(s: State): (c: State)
    ensures c.columnData == s.columnData && !c.connected && !c.isLoading && c.temperatures == Some([])
  {
    s.(temperatures := Some([]), connected := false, isLoading := false)
  }

  /** Clearing twice is clearing once, and the entries survive a clear. */
  lemma ClearIdempotent(s: State)
    ensures Cleared(Cleared(s)) == Cleared(s)
    ensures Cleared(s).columnData == s.columnData
  {
  }
}
