/** The dashboard's revenue endpoints over the snapshot log the daily fetch
  * appends to. */
module Revenue {
  import opened Common
  import opened RevenueMetrics

  /** `_load_log`: the log's entries, or none when the file is missing or
    * does not parse. */
  function LoadLog(file: Option<string>, parse: string -> Option<seq<Snapshot>>): (r: seq<Snapshot>)
    ensures file.None? ==> r == []
    ensures file.Some? && parse(file.value).None? ==> r == []
    ensures file.Some? && parse(file.value).Some? ==> r == parse(file.value).value
  {
    if file.None? then []
    else
      var entries := parse(file.value);
      if entries.None? then [] else entries.value
  }

  /** What `/current` answers: 404 without data, otherwise the latest
    * snapshot and the one before it, if any. */
  datatype CurrentReply = NoData | Current(current: Snapshot, previous: Option<Snapshot>)

  /** `get_current_metrics` */
  function GetCurrentMetrics(entries: seq<Snapshot>): (r: CurrentReply)
    ensures r.NoData? <==> entries == []
    ensures r.Current? ==> r.current == entries[|entries| - 1]
    ensures r.Current? ==> (r.previous.Some? <==> |entries| >= 2)
    ensures r.Current? && r.previous.Some? ==> r.previous.value == entries[|entries| - 2]
  {
    if entries == [] then NoData
    else Current(entries[|entries| - 1], if |entries| >= 2 then Some(entries[|entries| - 2]) else None)
  }

  /** `get_metrics_history`: the whole log, unchanged. */
  function GetMetricsHistory(file: Option<string>, parse: string -> Option<seq<Snapshot>>): (r: seq<Snapshot>)
    ensures r == LoadLog(file, parse)
  {
    LoadLog(file, parse)
  }

  /** After the daily fetch has logged a snapshot, the dashboard shows it as
    * current, with the snapshot the fetch compared it with as previous. */
  lemma CurrentAfterFetch(file: Option<string>, snapshot: Snapshot,
                          parse: string -> Option<seq<Snapshot>>, dump: seq<Snapshot> -> string)
    requires RoundTrips(parse, dump)
    ensures GetCurrentMetrics(LoadLog(Some(WriteJsonLog(file, snapshot, parse, dump)), parse))
            == Current(snapshot, LoadPreviousSnapshot(file, parse))
  {
    WriteJsonLogAppends(file, snapshot, parse, dump);
    if file.Some? && parse(file.value).Some? {
      var before := parse(file.value).value;
      var es := before + [snapshot];
      assert es[|es| - 1] == snapshot;
      if before != [] {
        assert es[|es| - 2] == before[|before| - 1];
      }
    }
  }

  /** The history grows by exactly the logged snapshot. */
  lemma HistoryAfterFetch(file: Option<string>, snapshot: Snapshot,
                          parse: string -> Option<seq<Snapshot>>, dump: seq<Snapshot> -> string)
    requires RoundTrips(parse, dump)
    ensures GetMetricsHistory(Some(WriteJsonLog(file, snapshot, parse, dump)), parse)
            == LoadLog(file, parse) + [snapshot]
  {
    WriteJsonLogAppends(file, snapshot, parse, dump);
    assert [] + [snapshot] == [snapshot];
  }
}
