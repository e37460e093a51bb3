/**
  The monitor: reads the stats aggregate from the shared store and reports
  sent, failed and average time once per iteration. It never writes.
 */
module Monitor {
  import opened Wrappers
  import opened Json
  import opened StatsAggregate

  /** The single key the aggregate is stored under. */
  const StatsKey: string := "sms_simulator_stats"

  /**
    The store as one read sees it: whether the server answered, and the
    values it holds by key.
   */
  datatype Store = Store(reachable: bool, entries: map<string, Text>)

  /** `redis_client.get(key)`: `None` when the key is absent; a connection error when unreachable. */
  function Get(store: Store, key: string): (r: Result<Option<Text>, ()>)
    ensures r.Failure? <==> !store.reachable
    ensures r.Success? ==> (r.value.Some? <==> key in store.entries)
    ensures r.Success? && r.value.Some? ==> r.value.value == store.entries[key]
  {
    if !store.reachable then Failure(())
    else if key in store.entries then Success(Some(store.entries[key]))
    else Success(None)
  }

  /**
    `Monitor.get_stats`: a connection error yields the zero aggregate; an
    absent key yields it through `from_redis`; a stored value that does not
    decode is not caught and reaches the caller.
   */
  function GetStats(store: Store): (r: Result<Stats, DecodeError>)
    ensures !store.reachable ==> r == Success(Zero())
    ensures StatsKey !in store.entries ==> r == Success(Zero())
    ensures store.reachable && StatsKey in store.entries ==> r == FromRedis(Some(store.entries[StatsKey]))
    ensures r.Failure? ==> store.reachable && StatsKey in store.entries
  {
    match Get(store, StatsKey)
    case Failure(_) => Success(Zero())
    case Success(data) => FromRedis(data)
  }

  /** The line one iteration logs. */
  datatype Report = Report(sent: int, failed: int, avgTime: real)

  /** The report of a snapshot: its counts and its average time. */
  function ReportOf(s: Stats): (rep: Report)
    ensures rep.sent == s.sent && rep.failed == s.failed
    ensures s.sent > 0 ==> rep.avgTime * (s.sent as real) == s.totalTime
    ensures s.sent <= 0 ==> rep.avgTime == 0.0
  {
    Report(s.sent, s.failed, AvgTime(s))
  }

  /**
    One iteration of `Monitor.run`: read, then report. The truthiness guard
    on the snapshot always holds, so a zero snapshot is reported too.
   */
  function Iteration(store: Store): (r: Result<Report, DecodeError>)
    ensures r.Failure? <==> GetStats(store).Failure?
    ensures r.Success? ==> r.value == ReportOf(GetStats(store).value)
    ensures !store.reachable ==> r == Success(Report(0, 0, 0.0))
  {
    var stats :- GetStats(store);
    Success(ReportOf(stats))
  }

  /** Reads depend on the stats key alone: other keys never influence a report. */
  lemma GetStatsReadsOnlyStatsKey(a: Store, b: Store)
    requires a.reachable == b.reachable
    requires StatsKey in a.entries <==> StatsKey in b.entries
    requires StatsKey in a.entries ==> a.entries[StatsKey] == b.entries[StatsKey]
    ensures GetStats(a) == GetStats(b)
  {
  }

  /**
    `Monitor.run` over the store snapshots its successive iterations see:
    one report per snapshot, in order, until a stored value fails to decode,
    which ends the loop with that error.
   */
  method Run(snapshots: seq<Store>) returns (reports: seq<Report>, error: Option<DecodeError>)
    ensures |reports| <= |snapshots|
    ensures forall i :: 0 <= i < |reports| ==>
              GetStats(snapshots[i]).Success? && reports[i] == ReportOf(GetStats(snapshots[i]).value)
    ensures error.None? <==> |reports| == |snapshots|
    ensures error.Some? ==> GetStats(snapshots[|reports|]) == Failure(error.value)
  {
    reports := [];
    error := None;
    var k := 0;
    while k < |snapshots|
      invariant 0 <= k <= |snapshots| && |reports| == k
      invariant forall i :: 0 <= i < k ==>
                  GetStats(snapshots[i]).Success? && reports[i] == ReportOf(GetStats(snapshots[i]).value)
    {
      var r := Iteration(snapshots[k]);
      match r {
        case Failure(e) =>
          error := Some(e);
          return;
        case Success(rep) =>
          reports := reports + [rep];
      }
      k := k + 1;
    }
  }
}
