/** The in-memory metrics aggregator: all-time request counters, per-endpoint
    and per-status tallies, a sliding window of the last 1000 response times
    and a newest-first list of the last 100 CDC events. */
module Metrics {
  import opened JsValues

  const MAX_CDC_EVENTS: nat := 100
  const MAX_RESPONSE_TIMES: nat := 1000
  /** How many CDC events a snapshot shows. */
  const SNAPSHOT_CDC_EVENTS: nat := 20

  datatype EndpointStats = EndpointStats(total: nat, success: nat, error: nat)

  /** One entry of the response-time window. */
  datatype ResponseTime = ResponseTime(timestamp: int, endpoint: string, time: int, status: int)

  /** A CDC event as stored: the webhook body's own properties plus a
      generated `timestamp` when the body has none. */
  type CdcRecord = map<string, JsValue>

  predicate IsSuccess(status: int) { 200 <= status && status < 300 }
  predicate IsError(status: int) { status >= 400 }

  /** The key of `byEndpoint`: the HTTP method, one space, the path. */
  function EndpointKey(verb: string, path: string): (k: string)
    ensures |k| == |verb| + 1 + |path|
    ensures k[..|verb|] == verb && k[|verb|] == ' ' && k[|verb| + 1..] == path
  {
    verb + " " + path
  }

  /** In an endpoint key whose method has no space, the method ends at the
      first space. */
  lemma FirstSpace(k: string, verb: string, path: string)
    requires ' ' !in verb && k == EndpointKey(verb, path)
    ensures |verb| < |k| && k[|verb|] == ' '
    ensures forall i :: 0 <= i < |verb| ==> k[i] == verb[i] && k[i] != ' '
  {
  }

  /** The endpoint key is unambiguous as long as the method contains no space. */
  lemma {:induction false} EndpointKeyInjective(verb1: string, path1: string, verb2: string, path2: string)
    requires ' ' !in verb1 && ' ' !in verb2
    requires EndpointKey(verb1, path1) == EndpointKey(verb2, path2)
    ensures verb1 == verb2 && path1 == path2
  {
    var k := EndpointKey(verb1, path1);
    FirstSpace(k, verb1, path1);
    FirstSpace(k, verb2, path2);
    assert |verb1| == |verb2|;
    assert verb1 == k[..|verb1|] == verb2;
    assert path1 == k[|verb1| + 1..] == path2;
  }

  // ---------------------------------------------------------------------
  // Counting one request

  /** The endpoint entry after one more request with the given status. */
  function Outcome(stats: EndpointStats, status: int): (r: EndpointStats)
    ensures r.total == stats.total + 1
    ensures IsSuccess(status) ==> r.success == stats.success + 1 && r.error == stats.error
    ensures IsError(status) ==> r.error == stats.error + 1 && r.success == stats.success
    ensures !IsSuccess(status) && !IsError(status) ==> r.success == stats.success && r.error == stats.error
  {
    EndpointStats(stats.total + 1,
                  stats.success + (if IsSuccess(status) then 1 else 0),
                  stats.error + (if IsError(status) then 1 else 0))
  }

  /** `byEndpoint` after one more request: a missing entry starts at
      {0, 0, 0}; every other entry is left alone. */
  function CountRequest(byEndpoint: map<string, EndpointStats>, endpoint: string, status: int): map<string, EndpointStats>
  {
    var before := if endpoint in byEndpoint then byEndpoint[endpoint] else EndpointStats(0, 0, 0);
    byEndpoint[endpoint := Outcome(before, status)]
  }

  /** `byStatus` after one more request with this status. */
  function Bump(byStatus: map<int, nat>, status: int): map<int, nat>
  {
    byStatus[status := (if status in byStatus then byStatus[status] else 0) + 1]
  }

  // ---------------------------------------------------------------------
  // Reference definition: the counters as a fold over the request log

  /** The all-time request counters of `metrics.requests`. */
  datatype Counters = Counters(
    total: nat, success: nat, error: nat,
    byEndpoint: map<string, EndpointStats>,
    byStatus: map<int, nat>)

  const NoRequests: Counters := Counters(0, 0, 0, map[], map[])

  /** The counters after one more request. */
  function Count(c: Counters, r: ResponseTime): Counters
  {
    Counters(c.total + 1,
             c.success + (if IsSuccess(r.status) then 1 else 0),
             c.error + (if IsError(r.status) then 1 else 0),
             CountRequest(c.byEndpoint, r.endpoint, r.status),
             Bump(c.byStatus, r.status))
  }

  /** The counters of a request log, oldest request first. */
  function Tally(log: seq<ResponseTime>): Counters
  {
    if log == [] then NoRequests else Count(Tally(log[..|log| - 1]), log[|log| - 1])
  }

  lemma TallyStep(log: seq<ResponseTime>, r: ResponseTime)
    ensures Tally(log + [r]) == Count(Tally(log), r)
  {
    assert (log + [r])[..|log|] == log;
  }

  /** What one more request does to the counters: `total` goes up by one,
      `success` exactly for a 2xx status, `error` exactly for a status of
      400 or more; the request's endpoint entry (starting from {0, 0, 0}) and
      status tally go up, and every other entry stays as it was. */
  lemma TallyAppend(log: seq<ResponseTime>, r: ResponseTime)
    ensures Tally(log + [r]).total == Tally(log).total + 1
    ensures Tally(log + [r]).success == Tally(log).success + (if IsSuccess(r.status) then 1 else 0)
    ensures Tally(log + [r]).error == Tally(log).error + (if IsError(r.status) then 1 else 0)
    ensures var m := Tally(log).byEndpoint;
      Tally(log + [r]).byEndpoint[r.endpoint] == Outcome(if r.endpoint in m then m[r.endpoint] else EndpointStats(0, 0, 0), r.status)
    ensures var m := Tally(log).byStatus;
      Tally(log + [r]).byStatus[r.status] == (if r.status in m then m[r.status] else 0) + 1
    ensures forall e :: e != r.endpoint ==> (e in Tally(log + [r]).byEndpoint <==> e in Tally(log).byEndpoint)
    ensures forall e :: e in Tally(log).byEndpoint && e != r.endpoint ==> Tally(log + [r]).byEndpoint[e] == Tally(log).byEndpoint[e]
    ensures forall s :: s != r.status ==> (s in Tally(log + [r]).byStatus <==> s in Tally(log).byStatus)
    ensures forall s :: s in Tally(log).byStatus && s != r.status ==> Tally(log + [r]).byStatus[s] == Tally(log).byStatus[s]
  {
    TallyStep(log, r);
  }

  /** `total` counts every request. Only 2xx counts as success and only
      >= 400 as error, so 1xx and 3xx responses fall in neither and the two
      together never exceed the total. */
  lemma {:induction false} TallyBounds(log: seq<ResponseTime>)
    ensures Tally(log).total == |log|
    ensures Tally(log).success + Tally(log).error <= Tally(log).total
  {
    if log != [] {
      TallyBounds(log[..|log| - 1]);
    }
  }

  /** The same bound per endpoint; an entry exists only once it has counted
      a request. */
  lemma {:induction false} EndpointTallyBounded(log: seq<ResponseTime>, e: string)
    requires e in Tally(log).byEndpoint
    ensures Tally(log).byEndpoint[e].total > 0
    ensures Tally(log).byEndpoint[e].success + Tally(log).byEndpoint[e].error <= Tally(log).byEndpoint[e].total
  {
    var init := log[..|log| - 1];
    if e in Tally(init).byEndpoint {
      EndpointTallyBounded(init, e);
    }
  }

  /** A status appears in the tally exactly when some request had it, and
      no tally is zero. */
  lemma {:induction false} StatusTallyPositive(log: seq<ResponseTime>, s: int)
    ensures s in Tally(log).byStatus <==> exists i :: 0 <= i < |log| && log[i].status == s
    ensures s in Tally(log).byStatus ==> Tally(log).byStatus[s] > 0
  {
    if log != [] {
      var init := log[..|log| - 1];
      StatusTallyPositive(init, s);
      if exists i :: 0 <= i < |init| && init[i].status == s {
        var i :| 0 <= i < |init| && init[i].status == s;
        assert log[i].status == s;
      }
      if exists i :: 0 <= i < |log| && log[i].status == s {
        var i :| 0 <= i < |log| && log[i].status == s;
        if i < |init| { assert init[i].status == s; }
      }
    }
  }

  // ---------------------------------------------------------------------
  // Sums over maps

  ghost function Pick<K>(s: set<K>): (k: K)
    requires s != {}
    ensures k in s
  {
    var k :| k in s; k
  }

  /** The sum of a map's values. */
  ghost function MapSum<K>(m: map<K, nat>): nat
    decreases |m|
  {
    if m.Keys == {} then 0
    else
      var k := Pick(m.Keys);
      assert (m - {k}).Keys == m.Keys - {k};
      m[k] + MapSum(m - {k})
  }

  /** The sum does not depend on the key taken out first. */
  lemma {:induction false} MapSumRemove<K>(m: map<K, nat>, k: K)
    requires k in m
    ensures MapSum(m) == m[k] + MapSum(m - {k})
    decreases |m|
  {
    var j := Pick(m.Keys);
    if j != k {
      RemoveBoth(m, j, k);
      MapSumRemove(m - {j}, k);
      MapSumRemove(m - {k}, j);
    }
  }

  lemma RemoveBoth<K>(m: map<K, nat>, j: K, k: K)
    requires j in m && k in m && j != k
    ensures k in m - {j} && j in m - {k}
    ensures |m - {j}| < |m| && |m - {k}| < |m|
    ensures m - {j} - {k} == m - {k} - {j}
  {
    assert (m - {j}).Keys == m.Keys - {j};
    assert (m - {k}).Keys == m.Keys - {k};
  }

  lemma {:induction false} MapSumUpdate<K>(m: map<K, nat>, k: K, v: nat)
    ensures MapSum(m[k := v]) + (if k in m then m[k] else 0) == MapSum(m) + v
  {
    MapSumRemove(m[k := v], k);
    assert m[k := v] - {k} == m - {k};
    if k in m {
      MapSumRemove(m, k);
    } else {
      assert m - {k} == m;
    }
  }

  /** The request count of every endpoint. */
  function Totals(byEndpoint: map<string, EndpointStats>): (r: map<string, nat>)
    ensures r.Keys == byEndpoint.Keys
  {
    map e | e in byEndpoint :: byEndpoint[e].total
  }

  /** The per-status tallies add up to the number of requests. */
  lemma {:induction false} StatusTallySum(log: seq<ResponseTime>)
    ensures MapSum(Tally(log).byStatus) == |log|
  {
    if log != [] {
      var init := log[..|log| - 1];
      var s := log[|log| - 1].status;
      StatusTallySum(init);
      var m := Tally(init).byStatus;
      MapSumUpdate(m, s, (if s in m then m[s] else 0) + 1);
    }
  }

  /** The per-endpoint totals add up to the number of requests. */
  lemma {:induction false} EndpointTallySum(log: seq<ResponseTime>)
    ensures MapSum(Totals(Tally(log).byEndpoint)) == |log|
  {
    if log != [] {
      var init := log[..|log| - 1];
      var r := log[|log| - 1];
      EndpointTallySum(init);
      var m := Tally(init).byEndpoint;
      var t := Totals(m);
      var v := (if r.endpoint in m then m[r.endpoint].total else 0) + 1;
      assert Totals(Tally(log).byEndpoint) == t[r.endpoint := v];
      MapSumUpdate(t, r.endpoint, v);
    }
  }

  // ---------------------------------------------------------------------
  // Bounded buffers

  /** The last `n` elements: `slice(-n)` once the length exceeds `n`. */
  function KeepLast<T>(s: seq<T>, n: nat): seq<T>
  {
    if |s| <= n then s else s[|s| - n..]
  }

  /** The first `n` elements: `slice(0, n)`. */
  function KeepFirst<T>(s: seq<T>, n: nat): seq<T>
  {
    if |s| <= n then s else s[..n]
  }

  /** Appending to the window and trimming it gives the window of the longer
      history: trimming after every append loses nothing that matters. */
  lemma {:induction false} KeepLastAppend<T>(s: seq<T>, x: T, n: nat)
    ensures KeepLast(KeepLast(s, n) + [x], n) == KeepLast(s + [x], n)
  {
    if n < |s| {
      var w := s[|s| - n..];
      assert (w + [x])[1..] == (s + [x])[|s| + 1 - n..];
    }
  }

  /** The window holds the most recent min(N, n) entries in arrival order. */
  lemma {:induction false} KeepLastShape<T>(s: seq<T>, n: nat)
    ensures |KeepLast(s, n)| == if |s| <= n then |s| else n
    ensures forall i :: 0 <= i < |KeepLast(s, n)| ==> KeepLast(s, n)[i] == s[|s| - |KeepLast(s, n)| + i]
  {
  }

  /** Prepending to the newest-first list and truncating it gives the list
      of the longer history. */
  lemma {:induction false} KeepFirstPrepend<T>(x: T, s: seq<T>, n: nat)
    requires n > 0
    ensures KeepFirst([x] + KeepFirst(s, n), n) == KeepFirst([x] + s, n)
  {
    if n < |s| {
      assert ([x] + s[..n])[..n] == ([x] + s)[..n];
    }
  }

  /** A CDC event as `{ timestamp, ...event }`: the event's own properties
      win, so its own `timestamp` overrides the generated one. */
  function Stamped(event: CdcRecord, isoNow: string): (r: CdcRecord)
    ensures r.Keys == event.Keys + {"timestamp"}
    ensures forall k :: k in event ==> r[k] == event[k]
    ensures "timestamp" !in event ==> r["timestamp"] == JStr(isoNow)
  {
    map["timestamp" := JStr(isoNow)] + event
  }

  // ---------------------------------------------------------------------
  // Snapshot arithmetic

  /** `Math.round(p / q)` for q > 0, in exact arithmetic: the nearest integer,
      halves rounded up. */
  function RoundDiv(p: int, q: int): int
    requires q > 0
  {
    (2 * p + q) / (2 * q)
  }

  lemma MulMonotone(d: int, x: int, y: int)
    requires d > 0 && x <= y
    ensures d * x <= d * y
  {
    assert d * y - d * x == d * (y - x);
  }

  lemma DivLowerBound(a: int, d: int, lo: int)
    requires d > 0 && d * lo <= a
    ensures lo <= a / d
  {
    var qt, rm := a / d, a % d;
    assert a == d * qt + rm && 0 <= rm < d;
    assert d * (qt + 1) == d * qt + d;
    if qt + 1 <= lo {
      MulMonotone(d, qt + 1, lo);
      assert false;
    }
  }

  lemma DivUpperBound(a: int, d: int, hi: int)
    requires d > 0 && a < d * (hi + 1)
    ensures a / d <= hi
  {
    var qt, rm := a / d, a % d;
    assert a == d * qt + rm && 0 <= rm < d;
    assert d * (hi + 1) == d * hi + d;
    if hi + 1 <= qt {
      MulMonotone(d, hi + 1, qt);
      assert false;
    }
  }

  /** Rounding a quotient that lies between lo and hi stays between them. */
  lemma RoundDivBounds(p: int, q: int, lo: int, hi: int)
    requires q > 0 && q * lo <= p <= q * hi
    ensures lo <= RoundDiv(p, q) <= hi
  {
    assert (2 * q) * lo <= 2 * p + q;
    DivLowerBound(2 * p + q, 2 * q, lo);
    assert 2 * p + q < (2 * q) * (hi + 1);
    DivUpperBound(2 * p + q, 2 * q, hi);
  }

  function SumTimes(s: seq<ResponseTime>): int
  {
    if s == [] then 0 else SumTimes(s[..|s| - 1]) + s[|s| - 1].time
  }

  /** `Math.round` of the mean response time; 0 for an empty window. */
  function AverageTime(s: seq<ResponseTime>): (r: int)
    ensures s == [] ==> r == 0
  {
    if |s| > 0 then RoundDiv(SumTimes(s), |s|) else 0
  }

  lemma {:induction false} SumTimesBounds(s: seq<ResponseTime>, lo: int, hi: int)
    requires forall i :: 0 <= i < |s| ==> lo <= s[i].time <= hi
    ensures |s| * lo <= SumTimes(s) <= |s| * hi
  {
    if s != [] {
      var init := s[..|s| - 1];
      SumTimesBounds(init, lo, hi);
      assert |s| * lo == |init| * lo + lo;
      assert |s| * hi == |init| * hi + hi;
    }
  }

  /** The average lies between the smallest and the largest response time. */
  lemma AverageTimeBounds(s: seq<ResponseTime>, lo: int, hi: int)
    requires s != []
    requires forall i :: 0 <= i < |s| ==> lo <= s[i].time <= hi
    ensures lo <= AverageTime(s) <= hi
  {
    SumTimesBounds(s, lo, hi);
    RoundDivBounds(SumTimes(s), |s|, lo, hi);
  }

  /** `Math.round(success / total * 100)`, or 0 when there were no requests. */
  function SuccessRate(success: nat, total: nat): (r: int)
    ensures total == 0 ==> r == 0
  {
    if total > 0 then RoundDiv(100 * success, total) else 0
  }

  /** The success rate is a percentage: 0 with no successes, 100 when every
      request succeeded. */
  lemma SuccessRateBounds(success: nat, total: nat)
    requires success <= total
    ensures 0 <= SuccessRate(success, total) <= 100
    ensures success == 0 ==> SuccessRate(success, total) == 0
    ensures 0 < success == total ==> SuccessRate(success, total) == 100
  {
    if total > 0 {
      RoundDivBounds(100 * success, total, 0, 100);
      if success == 0 {
        RoundDivBounds(0, total, 0, 0);
      }
      if success == total {
        RoundDivBounds(100 * success, total, 100, 100);
      }
    }
  }

  datatype RequestsView = RequestsView(
    total: nat, success: nat, error: nat,
    byEndpoint: map<string, EndpointStats>,
    byStatus: map<int, nat>,
    responseTimes: seq<ResponseTime>,
    avgResponseTime: int,
    successRate: int)

  /** What `getMetrics` returns. */
  datatype Snapshot = Snapshot(requests: RequestsView, cdcEvents: seq<CdcRecord>)

  // ---------------------------------------------------------------------
  // The aggregator

  class Aggregator {
    var total: nat
    var success: nat
    var error: nat
    var byEndpoint: map<string, EndpointStats>
    var byStatus: map<int, nat>
    var responseTimes: seq<ResponseTime>
    var cdcEvents: seq<CdcRecord>

    /** Every request tracked since the last reset, in arrival order. */
    ghost var log: seq<ResponseTime>
    /** Every CDC event tracked since the last reset, newest first. */
    ghost var cdcLog: seq<CdcRecord>

    /** Every field is determined by the two histories. */
    ghost predicate Valid()
      reads this
    {
      && Counters(total, success, error, byEndpoint, byStatus) == Tally(log)
      && responseTimes == KeepLast(log, MAX_RESPONSE_TIMES)
      && cdcEvents == KeepFirst(cdcLog, MAX_CDC_EVENTS)
    }

    constructor ()
      ensures Valid() && log == [] && cdcLog == []
      ensures total == 0 && success == 0 && error == 0
      ensures byEndpoint == map[] && byStatus == map[]
      ensures responseTimes == [] && cdcEvents == []
    {
      total, success, error := 0, 0, 0;
      byEndpoint, byStatus := map[], map[];
      responseTimes, cdcEvents := [], [];
      log, cdcLog := [], [];
    }

    /** `trackRequest(req, res, responseTime)`; `now` is `Date.now()`. */
    method TrackRequest(verb: string, path: string, status: int, responseTime: int, now: int)
      requires Valid()
      modifies this
      ensures Valid()
      ensures log == old(log) + [ResponseTime(now, EndpointKey(verb, path), responseTime, status)]
      ensures cdcLog == old(cdcLog)
    {
      var endpoint := EndpointKey(verb, path);
      var entry := ResponseTime(now, endpoint, responseTime, status);
      CountIn(endpoint, status, entry);
      RecordTime(entry);
      log := log + [entry];
    }

    /** The counting half of `trackRequest`: the all-time total, the
        endpoint entry, the status tally and the success or error count. */
    method CountIn(endpoint: string, status: int, ghost entry: ResponseTime)
      requires Counters(total, success, error, byEndpoint, byStatus) == Tally(log)
      requires entry.endpoint == endpoint && entry.status == status
      modifies this`total, this`success, this`error, this`byEndpoint, this`byStatus
      ensures Counters(total, success, error, byEndpoint, byStatus) == Tally(log + [entry])
    {
      ghost var before := Counters(total, success, error, byEndpoint, byStatus);
      total := total + 1;
      byEndpoint := CountRequest(byEndpoint, endpoint, status);
      byStatus := Bump(byStatus, status);
      if status >= 200 && status < 300 {
        success := success + 1;
      } else if status >= 400 {
        error := error + 1;
      }
      assert Counters(total, success, error, byEndpoint, byStatus) == Count(before, entry);
      TallyStep(log, entry);
    }

    /** The response-time half of `trackRequest`: push the entry, then drop
        the oldest one once the window is over its bound. */
    method RecordTime(entry: ResponseTime)
      requires responseTimes == KeepLast(log, MAX_RESPONSE_TIMES)
      modifies this`responseTimes
      ensures responseTimes == KeepLast(log + [entry], MAX_RESPONSE_TIMES)
    {
      KeepLastAppend(log, entry, MAX_RESPONSE_TIMES);
      responseTimes := responseTimes + [entry];
      if |responseTimes| > MAX_RESPONSE_TIMES {
        responseTimes := responseTimes[|responseTimes| - MAX_RESPONSE_TIMES..];
      }
    }

    /** `trackCDCEvent(event)`; `isoNow` is `new Date().toISOString()`. */
    method TrackCDCEvent(event: CdcRecord, isoNow: string)
      requires Valid()
      modifies this
      ensures Valid()
      ensures cdcLog == [Stamped(event, isoNow)] + old(cdcLog)
      ensures log == old(log)
      ensures total == old(total) && success == old(success) && error == old(error)
      ensures byEndpoint == old(byEndpoint) && byStatus == old(byStatus)
      ensures responseTimes == old(responseTimes)
      ensures cdcEvents == KeepFirst([Stamped(event, isoNow)] + old(cdcEvents), MAX_CDC_EVENTS)
      ensures cdcEvents[0] == Stamped(event, isoNow)
      ensures |cdcEvents| == if |old(cdcEvents)| < MAX_CDC_EVENTS then |old(cdcEvents)| + 1 else MAX_CDC_EVENTS
      ensures cdcEvents[1..] == old(cdcEvents)[..|cdcEvents| - 1]
    {
      var stamped := Stamped(event, isoNow);
      cdcEvents := [stamped] + cdcEvents;
      if |cdcEvents| > MAX_CDC_EVENTS {
        cdcEvents := cdcEvents[..MAX_CDC_EVENTS];
      }
      KeepFirstPrepend(stamped, cdcLog, MAX_CDC_EVENTS);
      cdcLog := [stamped] + cdcLog;
    }

    /** `getMetrics()`: a read-only snapshot. */
    function GetMetrics(): (r: Snapshot)
      reads this
      requires Valid()
      ensures r.requests.total == total && r.requests.success == success && r.requests.error == error
      ensures r.requests.byEndpoint == byEndpoint && r.requests.byStatus == byStatus
      ensures r.requests.responseTimes == responseTimes
      ensures r.cdcEvents == KeepFirst(cdcEvents, SNAPSHOT_CDC_EVENTS)
      ensures |r.cdcEvents| == if |cdcEvents| < SNAPSHOT_CDC_EVENTS then |cdcEvents| else SNAPSHOT_CDC_EVENTS
      ensures responseTimes == [] ==> r.requests.avgResponseTime == 0
      ensures total == 0 ==> r.requests.successRate == 0
      ensures 0 <= r.requests.successRate <= 100
      ensures r.requests.avgResponseTime == AverageTime(responseTimes)
      ensures r.requests.successRate == SuccessRate(success, total)
    {
      TallyBounds(log);
      SuccessRateBounds(success, total);
      Snapshot(
        RequestsView(total, success, error, byEndpoint, byStatus, responseTimes,
                     AverageTime(responseTimes), SuccessRate(success, total)),
        KeepFirst(cdcEvents, SNAPSHOT_CDC_EVENTS))
    }

    /** `resetMetrics()`. */
    method ResetMetrics()
      requires Valid()
      modifies this
      ensures Valid() && log == [] && cdcLog == []
      ensures total == 0 && success == 0 && error == 0
      ensures byEndpoint == map[] && byStatus == map[]
      ensures responseTimes == [] && cdcEvents == []
    {
      total := 0;
      success := 0;
      error := 0;
      byEndpoint := map[];
      byStatus := map[];
      responseTimes := [];
      cdcEvents := [];
      log, cdcLog := [], [];
    }
  }

  /** Consequences of the aggregator invariant: the counter bounds and sums
      hold in every reachable state. */
  lemma AggregatorInvariants(a: Aggregator)
    requires a.Valid()
    ensures a.success + a.error <= a.total
    ensures MapSum(a.byStatus) == a.total
    ensures MapSum(Totals(a.byEndpoint)) == a.total
    ensures forall e :: e in a.byEndpoint ==> a.byEndpoint[e].success + a.byEndpoint[e].error <= a.byEndpoint[e].total
    ensures |a.responseTimes| <= MAX_RESPONSE_TIMES && |a.cdcEvents| <= MAX_CDC_EVENTS
  {
    TallyBounds(a.log);
    StatusTallySum(a.log);
    EndpointTallySum(a.log);
    forall e | e in a.byEndpoint
      ensures a.byEndpoint[e].success + a.byEndpoint[e].error <= a.byEndpoint[e].total
    {
      EndpointTallyBounded(a.log, e);
    }
  }

  /** After a reset, the snapshot is all zeros and empty collections. */
  lemma ResetSnapshot(a: Aggregator)
    requires a.Valid() && a.log == [] && a.cdcLog == []
    ensures a.GetMetrics() == Snapshot(RequestsView(0, 0, 0, map[], map[], [], 0, 0), [])
  {
  }
}
