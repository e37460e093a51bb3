/**
  The stats aggregate: three additive counters (messages sent, messages
  failed, cumulative processing time), their flat field encoding for the
  shared store, an in-place style update and the derived average time.
 */
module StatsAggregate {
  import opened Wrappers
  import opened Json

  /** Field names of the stored encoding. */
  const SentKey: string := "sent"
  const FailedKey: string := "failed"
  const TotalTimeKey: string := "total_time"

  /** The aggregate record; `totalTime` is a Python float, modelled as `real`. */
  datatype Stats = Stats(sent: int, failed: int, totalTime: real)

  /** The aggregate's invariant: no counter is negative. */
  predicate Valid(s: Stats) {
    s.sent >= 0 && s.failed >= 0 && s.totalTime >= 0.0
  }

  /** The default-constructed aggregate, `Stats()`. */
  function Zero(): (z: Stats)
    ensures Valid(z)
    ensures z.sent == 0 && z.failed == 0 && z.totalTime == 0.0
  {
    Stats(0, 0, 0.0)
  }

  /** `data.get(key, 0)` for a count field. */
  function CountField(o: Object, key: string): (r: Result<int, DecodeError>)
    ensures key !in o ==> r == Success(0)
    ensures key in o ==> (r.Success? <==> o[key].Int?)
    ensures key in o && r.Success? ==> r.value == o[key].i
  {
    if key !in o then Success(0)
    else match o[key]
      case Int(i) => Success(i)
      case _ => Failure(WrongType(key))
  }

  /** `data.get(key, 0.0)` for the time field; a JSON integer is read as its real value. */
  function TimeField(o: Object, key: string): (r: Result<real, DecodeError>)
    ensures key !in o ==> r == Success(0.0)
    ensures key in o ==> (r.Success? <==> o[key].Int? || o[key].Real?)
    ensures key in o && r.Success? && o[key].Real? ==> r.value == o[key].r
    ensures key in o && r.Success? && o[key].Int? ==> r.value == o[key].i as real
  {
    if key !in o then Success(0.0)
    else match o[key]
      case Int(i) => Success(i as real)
      case Real(t) => Success(t)
      case _ => Failure(WrongType(key))
  }

  /**
    `Stats.from_redis`: an absent or empty stored value is the zero aggregate;
    otherwise the text is parsed and each field defaults to zero on its own.
    A text that does not parse, or parses to something that is not an object,
    is an error the caller sees.
   */
  function FromRedis(data: Option<Text>): (r: Result<Stats, DecodeError>)
    ensures data == None || data == Some(Empty) ==> r == Success(Zero())
    ensures data == Some(Unparsable) ==> r == Failure(Malformed)
    ensures data == Some(NotAnObject) ==> r == Failure(NoFields)
    ensures r.Success? && data.Some? && data.value.Doc? ==>
              var o := data.value.fields;
              && (SentKey !in o ==> r.value.sent == 0)
              && (FailedKey !in o ==> r.value.failed == 0)
              && (TotalTimeKey !in o ==> r.value.totalTime == 0.0)
  {
    match data
    case None => Success(Zero())
    case Some(Empty) => Success(Zero())
    case Some(Unparsable) => Failure(Malformed)
    case Some(NotAnObject) => Failure(NoFields)
    case Some(Doc(o)) =>
      var sent :- CountField(o, SentKey);
      var failed :- CountField(o, FailedKey);
      var totalTime :- TimeField(o, TotalTimeKey);
      Success(Stats(sent, failed, totalTime))
  }

  /** `Stats.to_json`: the three fields, and nothing else, as a JSON object. */
  function ToJson(s: Stats): (t: Text)
    ensures t.Doc? && t.fields.Keys == {SentKey, FailedKey, TotalTimeKey}
    ensures t.fields[SentKey] == Int(s.sent) && t.fields[FailedKey] == Int(s.failed)
    ensures t.fields[TotalTimeKey] == Real(s.totalTime)
  {
    Doc(map[SentKey := Int(s.sent), FailedKey := Int(s.failed), TotalTimeKey := Real(s.totalTime)])
  }

  /** `Stats.update`: adds each delta to its counter; omitted deltas are zero. */
  function Update(s: Stats, sent: int := 0, failed: int := 0, timeSpent: real := 0.0): (r: Stats)
  {
    Stats(s.sent + sent, s.failed + failed, s.totalTime + timeSpent)
  }

  /** `Stats.avg_time`: mean time per sent message, zero when nothing was sent. */
  function AvgTime(s: Stats): (avg: real)
    ensures s.sent <= 0 ==> avg == 0.0
    ensures s.sent > 0 ==> avg * (s.sent as real) == s.totalTime
    ensures s.totalTime >= 0.0 ==> avg >= 0.0
  {
    if s.sent > 0 then s.totalTime / (s.sent as real) else 0.0
  }

  // ---------------------------------------------------------------------
  // Properties of the aggregate
  // ---------------------------------------------------------------------

  /** Reading back what `to_json` wrote recovers the aggregate field for field. */
  lemma RoundTrip(s: Stats)
    ensures FromRedis(Some(ToJson(s))) == Success(s)
  {
  }

  /** Only the three known fields matter: extra fields in the stored object are ignored. */
  lemma FromRedisIgnoresExtraFields(o: Object, extra: Object)
    requires SentKey !in extra && FailedKey !in extra && TotalTimeKey !in extra
    ensures FromRedis(Some(Doc(o + extra))) == FromRedis(Some(Doc(o)))
  {
  }

  /** Each missing field defaults to zero independently of the others. */
  lemma FromRedisDefaultsMissingFields(o: Object)
    requires SentKey in o ==> o[SentKey].Int?
    requires FailedKey in o ==> o[FailedKey].Int?
    requires TotalTimeKey in o ==> o[TotalTimeKey].Int? || o[TotalTimeKey].Real?
    ensures FromRedis(Some(Doc(o))) == Success(Stats(
              if SentKey in o then o[SentKey].i else 0,
              if FailedKey in o then o[FailedKey].i else 0,
              if TotalTimeKey !in o then 0.0
              else if o[TotalTimeKey].Int? then o[TotalTimeKey].i as real
              else o[TotalTimeKey].r))
  {
  }

  /** An update changes each counter by exactly its delta; with only `sent` given the others stay put. */
  lemma UpdateAddsDeltas(s: Stats, ds: int, df: int, dt: real)
    ensures Update(s, ds, df, dt).sent - s.sent == ds
    ensures Update(s, ds, df, dt).failed - s.failed == df
    ensures Update(s, ds, df, dt).totalTime - s.totalTime == dt
    ensures Update(s, sent := ds).failed == s.failed
    ensures Update(s, sent := ds).totalTime == s.totalTime
    ensures Update(s) == s
  {
  }

  /** Two updates in sequence equal one update by the summed deltas, in either order. */
  lemma UpdatesCompose(s: Stats, s1: int, f1: int, t1: real, s2: int, f2: int, t2: real)
    ensures Update(Update(s, s1, f1, t1), s2, f2, t2) == Update(s, s1 + s2, f1 + f2, t1 + t2)
    ensures Update(Update(s, s1, f1, t1), s2, f2, t2) == Update(Update(s, s2, f2, t2), s1, f1, t1)
  {
  }

  /** Non-negative deltas keep the aggregate valid. */
  lemma UpdatePreservesValid(s: Stats, ds: int, df: int, dt: real)
    requires Valid(s) && ds >= 0 && df >= 0 && dt >= 0.0
    ensures Valid(Update(s, ds, df, dt))
  {
  }

  /** One worker's contribution to the aggregate: the arguments of a single `update` call. */
  datatype Delta = Delta(sent: int, failed: int, timeSpent: real)

  /** Applies the updates of `ds` one after another, first to last. */
  function ApplyAll(s: Stats, ds: seq<Delta>): Stats
    decreases |ds|
  {
    if ds == [] then s
    else ApplyAll(Update(s, ds[0].sent, ds[0].failed, ds[0].timeSpent), ds[1..])
  }

  /** Componentwise sum of a sequence of deltas. */
  function Sum(ds: seq<Delta>): Delta
    decreases |ds|
  {
    if ds == [] then Delta(0, 0, 0.0)
    else
      var rest := Sum(ds[1..]);
      Delta(ds[0].sent + rest.sent, ds[0].failed + rest.failed, ds[0].timeSpent + rest.timeSpent)
  }

  /** Any run of sequential updates equals one update by the summed deltas. */
  lemma {:induction false} ApplyAllIsSum(s: Stats, ds: seq<Delta>)
    ensures ApplyAll(s, ds) == Update(s, Sum(ds).sent, Sum(ds).failed, Sum(ds).timeSpent)
    decreases |ds|
  {
    if ds != [] {
      ApplyAllIsSum(Update(s, ds[0].sent, ds[0].failed, ds[0].timeSpent), ds[1..]);
    }
  }

  /** The sum of a concatenation is the sum of the parts. */
  lemma {:induction false} SumAppend(a: seq<Delta>, b: seq<Delta>)
    ensures Sum(a + b) == Delta(Sum(a).sent + Sum(b).sent, Sum(a).failed + Sum(b).failed,
                                Sum(a).timeSpent + Sum(b).timeSpent)
    decreases |a|
  {
    if a == [] {
      assert a + b == b;
    } else {
      assert (a + b)[1..] == a[1..] + b;
      SumAppend(a[1..], b);
    }
  }

  /** The order in which two batches of updates land does not change the final aggregate. */
  lemma ApplyAllCommutes(s: Stats, a: seq<Delta>, b: seq<Delta>)
    ensures ApplyAll(s, a + b) == ApplyAll(s, b + a)
  {
    ApplyAllIsSum(s, a + b);
    ApplyAllIsSum(s, b + a);
    SumAppend(a, b);
    SumAppend(b, a);
  }

  /** A success followed by a failure, from zero: `update(1, 0, 2.5)` then `update(0, 1, 0)`. */
  lemma SuccessThenFailureFromZero()
    ensures Update(Update(Zero(), 1, 0, 2.5), 0, 1, 0.0) == Stats(1, 1, 2.5)
  {
  }
}
