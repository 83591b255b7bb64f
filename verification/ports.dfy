/**
 * The run-once port table, as pure state transitions.
 *
 * A cache is either not yet computed (`None`) or holds the snapshot taken
 * by the first call (`Some(table)`). Each call is given the table a scan
 * of the host would produce at that moment; only the first call uses it.
 */
module PortCache {
  import opened Wrappers

  /** The owning process of one open connection. */
  datatype Process = Process(pid: nat, name: string, port: nat, protocol: string)

  /** Connection identity to owning process. */
  type PortTable = map<string, Process>

  /** One call of the accessor: the new cache state and the table returned. */
  function Call(cache: Option<PortTable>, current: PortTable): (r: (Option<PortTable>, PortTable))
    ensures r.0 == Some(r.1)                  // afterwards the cache holds what was returned
    ensures cache.Some? ==> r.0 == cache      // a ready cache is never replaced
    ensures cache.None? ==> r.1 == current    // the first call takes the scan
  {
    match cache
    case Some(table) => (cache, table)
    case None => (Some(current), current)
  }

  /** The cache after a run of calls, every call's result, and how many scans ran. */
  datatype Trace = Trace(cache: Option<PortTable>, results: seq<PortTable>, scans: nat)

  /** A run of sequential calls; `tables[i]` is what a scan would return at call i. */
  function Replay(cache: Option<PortTable>, tables: seq<PortTable>): (t: Trace)
    ensures |t.results| == |tables|
    decreases |tables|
  {
    if tables == [] then Trace(cache, [], 0)
    else
      var (next, table) := Call(cache, tables[0]);
      var rest := Replay(next, tables[1..]);
      Trace(rest.cache, [table] + rest.results, rest.scans + if cache.None? then 1 else 0)
  }

  /** From a ready cache, no call scans and every call returns the stored table. */
  lemma {:induction false} ReplayReady(table: PortTable, tables: seq<PortTable>)
    ensures Replay(Some(table), tables).cache == Some(table)
    ensures Replay(Some(table), tables).scans == 0
    ensures forall i :: 0 <= i < |tables| ==> Replay(Some(table), tables).results[i] == table
    decreases |tables|
  {
    if tables != [] {
      ReplayReady(table, tables[1..]);
      var rest := Replay(Some(table), tables[1..]);
      assert Replay(Some(table), tables).results == [table] + rest.results;
    }
  }

  /**
   * Any non-empty run of calls scans at most once (exactly once when the
   * cache starts empty), and every call, first or later, returns the same
   * snapshot however the host changes in between.
   */
  lemma {:induction false} ReplayOnce(cache: Option<PortTable>, tables: seq<PortTable>)
    requires tables != []
    ensures var snapshot := if cache.Some? then cache.value else tables[0];
            var t := Replay(cache, tables);
            t.cache == Some(snapshot)
            && t.scans == (if cache.None? then 1 else 0)
            && forall i :: 0 <= i < |tables| ==> t.results[i] == snapshot
  {
    var snapshot := if cache.Some? then cache.value else tables[0];
    ReplayReady(snapshot, tables[1..]);
    var rest := Replay(Some(snapshot), tables[1..]);
    assert Replay(cache, tables).results == [snapshot] + rest.results;
  }
}
