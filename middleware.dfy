/** The request instrumentation: `metricsMiddleware` replaces `res.end` by a
    wrapper that tracks the completed request in the aggregator, announces
    it to the dashboard unless it is monitoring traffic of its own, and then
    runs the original `end`. */
module Middleware {
  import opened JsValues
  import opened Metrics
  import opened Broadcast

  /** The paths whose requests are not announced: the monitoring API and
      the socket endpoint, which would otherwise announce themselves. The
      test is a plain prefix test. */
  predicate ExcludedFromBroadcast(path: string)
  {
    StartsWith(path, "/api/monitoring") || StartsWith(path, "/ws/")
  }

  lemma PrefixExtends(s: string, prefix: string, more: string)
    requires StartsWith(s, prefix)
    ensures StartsWith(s + more, prefix)
  {
    assert (s + more)[..|prefix|] == s[..|prefix|];
  }

  /** Exclusion is closed under extension: a path below an excluded path is
      excluded as well. */
  lemma ExclusionExtends(path: string, more: string)
    requires ExcludedFromBroadcast(path)
    ensures ExcludedFromBroadcast(path + more)
  {
    if StartsWith(path, "/api/monitoring") {
      PrefixExtends(path, "/api/monitoring", more);
    } else {
      PrefixExtends(path, "/ws/", more);
    }
  }

  /** Being a prefix test, the exclusion also catches paths that merely
      begin like a monitoring path. */
  lemma ExclusionExamples()
    ensures ExcludedFromBroadcast("/api/monitoring/metrics")
    ensures ExcludedFromBroadcast("/api/monitoringX")
    ensures ExcludedFromBroadcast("/ws/monitoring")
    ensures !ExcludedFromBroadcast("/ws")
    ensures !ExcludedFromBroadcast("/api/users")
  {
    assert "/api/monitoring/metrics"[..15] == "/api/monitoring";
    assert "/api/monitoringX"[..15] == "/api/monitoring";
    assert "/ws/monitoring"[..4] == "/ws/";
    assert "/api/users"[..4][1] == 'a' != "/ws/"[1];
  }

  /** `req.path` is relative to the router's mount point when `end` runs, so
      the monitoring routes reach the test as `/metrics`, `/metrics/reset`,
      `/login`, `/logout`, `/status` and `/cdc-event`, none of which is
      excluded. */
  lemma RouterPathsAnnounced()
    ensures !ExcludedFromBroadcast("/metrics")
    ensures !ExcludedFromBroadcast("/metrics/reset")
    ensures !ExcludedFromBroadcast("/login")
    ensures !ExcludedFromBroadcast("/logout")
    ensures !ExcludedFromBroadcast("/status")
    ensures !ExcludedFromBroadcast("/cdc-event")
  {
    assert "/metrics/reset"[1] != "/ws/"[1];
    assert "/metrics"[1] != "/ws/"[1];
    assert "/login"[1] != "/ws/"[1];
    assert "/logout"[1] != "/ws/"[1];
    assert "/status"[1] != "/ws/"[1];
    assert "/cdc-event"[1] != "/ws/"[1];
  }

  /** The part of the Express response the middleware touches. */
  class Response {
    var statusCode: int
    /** The start time captured by `metricsMiddleware` once it has wrapped
        `end`; `None` while `end` is the original one. */
    var wrappedAt: Option<int>
    /** How many times the original `end` has run. */
    var ended: nat

    constructor (statusCode: int)
      ensures this.statusCode == statusCode && wrappedAt == None && ended == 0
    {
      this.statusCode := statusCode;
      wrappedAt := None;
      ended := 0;
    }
  }

  /** `metricsMiddleware(req, res, next)` at time `now`: capture the start
      time, wrap `end`, and pass the request on (the result says that
      `next` is called). The middleware is mounted once, so a response is
      wrapped at most once. */
  method MetricsMiddleware(res: Response, now: int) returns (callsNext: bool)
    requires res.wrappedAt == None
    modifies res`wrappedAt
    ensures res.wrappedAt == Some(now)
    ensures callsNext
  {
    res.wrappedAt := Some(now);
    callsNext := true;
  }

  /** `res.end(...)` called at time `now` on a request `verb path`. When
      the middleware has wrapped `end`, the request is tracked with the
      elapsed time since the start (`trackNow` is the aggregator's own
      clock reading), then announced with the same `verb path` key unless
      its path is excluded (`isoNow`, `open` and `throwing` describe the
      broadcast as in `Hub.Broadcast`); either way the original `end` runs
      exactly once. */
  method End(metrics: Aggregator, hub: Hub, res: Response, verb: string, path: string,
             now: int, trackNow: int, isoNow: string, open: set<ClientId>, throwing: set<ClientId>)
    returns (tracked: bool, announced: bool, sent: nat, failed: nat)
    requires metrics.Valid()
    modifies metrics, hub`clients, hub`inbox, res`ended
    ensures metrics.Valid()
    ensures tracked <==> res.wrappedAt.Some?
    ensures tracked ==>
      metrics.log == old(metrics.log) + [ResponseTime(trackNow, EndpointKey(verb, path), now - res.wrappedAt.value, res.statusCode)]
    ensures metrics.cdcLog == old(metrics.cdcLog)
    ensures !tracked ==> unchanged(metrics)
    ensures announced <==> tracked && !ExcludedFromBroadcast(path)
    ensures announced ==>
      hub.Broadcasted(ApiRequestFrame(EndpointKey(verb, path), res.statusCode, now - res.wrappedAt.value, isoNow),
                      open, throwing, sent, failed)
    ensures !announced ==> hub.clients == old(hub.clients) && hub.inbox == old(hub.inbox) && sent == 0 && failed == 0
    ensures res.ended == old(res.ended) + 1
  {
    tracked, announced, sent, failed := false, false, 0, 0;
    if res.wrappedAt.Some? {
      var responseTime := now - res.wrappedAt.value;
      var endpoint := EndpointKey(verb, path);
      var statusCode := res.statusCode;
      metrics.TrackRequest(verb, path, statusCode, responseTime, trackNow);
      tracked := true;
      if !ExcludedFromBroadcast(path) {
        sent, failed := hub.BroadcastApiRequest(endpoint, statusCode, responseTime, isoNow, open, throwing);
        announced := true;
      }
    }
    res.ended := res.ended + 1;
  }
}
