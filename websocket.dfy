/** The WebSocket broadcast hub behind `/ws/monitoring`: the set of connected
    dashboard clients and the frames pushed to them. The transport is
    abstract: a client is an id; a broadcast is told which clients have
    `readyState === OPEN` when it visits them (`open`) and whose `send`
    throws (`throwing`); every frame handed to a `send` that did not throw is
    appended to that client's `inbox`. */
module Broadcast {
  import opened JsValues

  type ClientId = nat

  // ---------------------------------------------------------------------
  // Frames

  /** `{ type, data, timestamp }`: the shape every `broadcast*` wrapper sends. */
  function Envelope(kind: string, data: JsValue, timestamp: string): JsValue
  {
    JObject(map["type" := JStr(kind), "data" := data, "timestamp" := JStr(timestamp)])
  }

  function CdcEventFrame(event: JsValue, timestamp: string): JsValue
  {
    Envelope("cdc_event", event, timestamp)
  }

  function MetricsUpdateFrame(metrics: JsValue, timestamp: string): JsValue
  {
    Envelope("metrics_update", metrics, timestamp)
  }

  function ApiRequestFrame(endpoint: string, statusCode: int, responseTime: int, timestamp: string): JsValue
  {
    Envelope("api_request",
             JObject(map["endpoint" := JStr(endpoint), "statusCode" := JNum(statusCode),
                         "responseTime" := JNum(responseTime)]),
             timestamp)
  }

  /** The greeting a new connection receives; it carries a `message`, not
      a `data` property. */
  function ConnectedFrame(timestamp: string): JsValue
  {
    JObject(map["type" := JStr("connected"), "message" := JStr("WebSocket connection established"),
                "timestamp" := JStr(timestamp)])
  }

  datatype FrameView = FrameView(kind: string, data: JsValue, timestamp: string)

  /** What a receiver reads back from an envelope frame: its `type`, `data`
      and `timestamp`; `None` for anything that is not one. */
  function ReadFrame(frame: JsValue): (r: Option<FrameView>)
    ensures r.Some? ==> frame.JObject? && Get(frame, "type") == JStr(r.value.kind)
    ensures r.Some? ==> Get(frame, "data") == r.value.data && r.value.data != JUndefined
    ensures r.Some? ==> Get(frame, "timestamp") == JStr(r.value.timestamp)
  {
    match (Get(frame, "type"), Get(frame, "data"), Get(frame, "timestamp"))
    case (JStr(k), d, JStr(t)) => if d == JUndefined then None else Some(FrameView(k, d, t))
    case _ => None
  }

  /** Every envelope reads back as the kind, payload and timestamp it was
      built from: the payload is passed through unchanged. */
  lemma EnvelopeRoundTrip(kind: string, data: JsValue, timestamp: string)
    requires data != JUndefined
    ensures ReadFrame(Envelope(kind, data, timestamp)) == Some(FrameView(kind, data, timestamp))
  {
    var m := Envelope(kind, data, timestamp).fields;
    assert m["type"] == JStr(kind) && m["data"] == data && m["timestamp"] == JStr(timestamp);
  }

  /** The three wrappers build distinguishable frames around their payloads. */
  lemma WrapperFrames(payload: JsValue, endpoint: string, statusCode: int, responseTime: int, timestamp: string)
    requires payload != JUndefined
    ensures ReadFrame(CdcEventFrame(payload, timestamp)) == Some(FrameView("cdc_event", payload, timestamp))
    ensures ReadFrame(MetricsUpdateFrame(payload, timestamp)) == Some(FrameView("metrics_update", payload, timestamp))
    ensures var f := ReadFrame(ApiRequestFrame(endpoint, statusCode, responseTime, timestamp));
      && f.Some? && f.value.kind == "api_request" && f.value.timestamp == timestamp
      && Get(f.value.data, "endpoint") == JStr(endpoint)
      && Get(f.value.data, "statusCode") == JNum(statusCode)
      && Get(f.value.data, "responseTime") == JNum(responseTime)
      && f.value.data.fields.Keys == {"endpoint", "statusCode", "responseTime"}
  {
    EnvelopeRoundTrip("cdc_event", payload, timestamp);
    EnvelopeRoundTrip("metrics_update", payload, timestamp);
    var data := JObject(map["endpoint" := JStr(endpoint), "statusCode" := JNum(statusCode),
                            "responseTime" := JNum(responseTime)]);
    EnvelopeRoundTrip("api_request", data, timestamp);
  }

  /** The greeting is not an envelope: it has no `data`. */
  lemma ConnectedFrameShape(timestamp: string)
    ensures Get(ConnectedFrame(timestamp), "type") == JStr("connected")
    ensures Get(ConnectedFrame(timestamp), "data") == JUndefined
    ensures ReadFrame(ConnectedFrame(timestamp)) == None
  {
    assert "data" !in ConnectedFrame(timestamp).fields;
  }

  // ---------------------------------------------------------------------
  // One broadcast pass, as sets

  /** The members a pass keeps: OPEN at their visit and `send` did not throw. */
  function Survivors(members: set<ClientId>, open: set<ClientId>, throwing: set<ClientId>): set<ClientId>
  {
    members * open - throwing
  }

  /** The OPEN members whose `send` threw. */
  function Failures(members: set<ClientId>, open: set<ClientId>, throwing: set<ClientId>): set<ClientId>
  {
    members * open * throwing
  }

  lemma {:induction false} SubsetCard<T>(a: set<T>, b: set<T>)
    requires a <= b
    ensures |a| <= |b|
    decreases |b|
  {
    if a != {} {
      var x :| x in a;
      SubsetCard(a - {x}, b - {x});
    }
  }

  /** A pass only removes: survivors are members, a member stays exactly
      when it was OPEN and its send succeeded, the sends that succeeded and
      those that failed are disjoint and together number at most the
      members, and a second pass under the same conditions removes nothing
      more. */
  lemma PassProperties(members: set<ClientId>, open: set<ClientId>, throwing: set<ClientId>)
    ensures Survivors(members, open, throwing) <= members
    ensures forall c :: c in members ==> (c in Survivors(members, open, throwing) <==> c in open && c !in throwing)
    ensures Survivors(members, open, throwing) !! Failures(members, open, throwing)
    ensures |Survivors(members, open, throwing)| + |Failures(members, open, throwing)| <= |members|
    ensures Survivors(Survivors(members, open, throwing), open, throwing) == Survivors(members, open, throwing)
  {
    var s, f := Survivors(members, open, throwing), Failures(members, open, throwing);
    SubsetCard(s + f, members);
  }

  /** The frames a client has been sent, oldest first. */
  function Received(inbox: map<ClientId, seq<JsValue>>, c: ClientId): seq<JsValue>
  {
    if c in inbox then inbox[c] else []
  }

  /** `inbox` is `before` with one more `message` for each of `targets` and
      nothing else. */
  ghost predicate DeliveredTo(before: map<ClientId, seq<JsValue>>, inbox: map<ClientId, seq<JsValue>>,
                              targets: set<ClientId>, message: JsValue)
  {
    forall c :: Received(inbox, c) == Received(before, c) + (if c in targets then [message] else [])
  }

  /** The members outside `pending` have been visited: `kept` are the
      survivors and `lost` the failures among them. */
  ghost predicate Visited(members: set<ClientId>, pending: set<ClientId>, kept: set<ClientId>, lost: set<ClientId>,
                          open: set<ClientId>, throwing: set<ClientId>)
  {
    && pending <= members
    && kept == Survivors(members - pending, open, throwing)
    && lost == Failures(members - pending, open, throwing)
  }

  /** Visiting a pending member that is OPEN and whose `send` succeeds
      makes it one more survivor. */
  lemma VisitKeeps(members: set<ClientId>, pending: set<ClientId>, kept: set<ClientId>, lost: set<ClientId>,
                   open: set<ClientId>, throwing: set<ClientId>, c: ClientId)
    requires Visited(members, pending, kept, lost, open, throwing)
    requires c in pending && c in open && c !in throwing
    ensures c !in kept
    ensures Visited(members, pending - {c}, kept + {c}, lost, open, throwing)
  {
    assert members - (pending - {c}) == (members - pending) + {c};
  }

  /** Visiting a pending member that is OPEN and whose `send` throws makes
      it one more failure. */
  lemma VisitFails(members: set<ClientId>, pending: set<ClientId>, kept: set<ClientId>, lost: set<ClientId>,
                   open: set<ClientId>, throwing: set<ClientId>, c: ClientId)
    requires Visited(members, pending, kept, lost, open, throwing)
    requires c in pending && c in open && c in throwing
    ensures c !in kept && c !in lost
    ensures Visited(members, pending - {c}, kept, lost + {c}, open, throwing)
  {
    assert members - (pending - {c}) == (members - pending) + {c};
  }

  /** Visiting a pending member that is not OPEN adds it to neither. */
  lemma VisitSkips(members: set<ClientId>, pending: set<ClientId>, kept: set<ClientId>, lost: set<ClientId>,
                   open: set<ClientId>, throwing: set<ClientId>, c: ClientId)
    requires Visited(members, pending, kept, lost, open, throwing)
    requires c in pending && c !in open
    ensures c !in kept
    ensures Visited(members, pending - {c}, kept, lost, open, throwing)
  {
    assert members - (pending - {c}) == (members - pending) + {c};
  }

  /** Moving a visited member from the pending part of the member set to
      the kept part leaves the member set as it is. */
  lemma HandOver(pending: set<ClientId>, kept: set<ClientId>, c: ClientId)
    requires c in pending
    ensures pending + kept == (pending - {c}) + (kept + {c})
  {
  }

  /** Deleting a visited member that was not kept. */
  lemma DropOne(pending: set<ClientId>, kept: set<ClientId>, c: ClientId)
    requires c in pending && c !in kept
    ensures (pending + kept) - {c} == (pending - {c}) + kept
  {
  }

  /** Sending the message to one more member. */
  lemma InboxAdvance(start: map<ClientId, seq<JsValue>>, inbox: map<ClientId, seq<JsValue>>, kept: set<ClientId>,
                     message: JsValue, c: ClientId)
    requires DeliveredTo(start, inbox, kept, message) && c !in kept
    ensures DeliveredTo(start, inbox[c := Received(inbox, c) + [message]], kept + {c}, message)
  {
    var inbox' := inbox[c := Received(inbox, c) + [message]];
    forall x
      ensures Received(inbox', x) == Received(start, x) + (if x in kept + {c} then [message] else [])
    {
      if x == c {
        assert Received(inbox, c) == Received(start, c);
      } else {
        assert Received(inbox', x) == Received(inbox, x);
      }
    }
  }

  // ---------------------------------------------------------------------
  // The hub

  class Hub {
    /** Whether `initWebSocketServer` has run (`wss` is not null). */
    var initialised: bool
    var clients: set<ClientId>
    /** Per client, every frame handed to a `send` that did not throw. */
    var inbox: map<ClientId, seq<JsValue>>

    constructor ()
      ensures !initialised && clients == {} && inbox == map[]
    {
      initialised, clients, inbox := false, {}, map[];
    }

    /** `initWebSocketServer(server)`: create the server; from now on
        connections arrive and broadcasts are no longer no-ops. */
    method Init()
      modifies this`initialised
      ensures initialised
    {
      initialised := true;
    }

    /** The `connection` handler: add the client, then greet it. */
    method OnConnection(c: ClientId, timestamp: string)
      requires initialised
      modifies this`clients, this`inbox
      ensures clients == old(clients) + {c}
      ensures Received(inbox, c) == Received(old(inbox), c) + [ConnectedFrame(timestamp)]
      ensures forall d :: d != c ==> Received(inbox, d) == Received(old(inbox), d)
      ensures ConnectedClients() == old(ConnectedClients()) + (if c in old(clients) then 0 else 1)
    {
      ghost var before := clients;
      clients := clients + {c};
      if c in before {
        assert clients == before;
      }
      inbox := inbox[c := Received(inbox, c) + [ConnectedFrame(timestamp)]];
    }

    /** The `close` and the `error` handler, which do the same: remove
        exactly that client. */
    method Disconnect(c: ClientId)
      modifies this`clients
      ensures clients == old(clients) - {c}
    {
      clients := clients - {c};
    }

    /** The outcome of `broadcast(message)` when members OPEN at their
        visit are `open` and the sends to `throwing` throw: without a
        server nothing changes and nothing is counted; otherwise the
        survivors remain, each of them was sent `message` once and no one
        else was sent anything, and the counters count the successful and
        the failed sends. */
    twostate predicate Broadcasted(message: JsValue, open: set<ClientId>, throwing: set<ClientId>, sent: nat, failed: nat)
      reads this
    {
      && initialised == old(initialised)
      && (!initialised ==> clients == old(clients) && inbox == old(inbox) && sent == 0 && failed == 0)
      && (initialised ==> clients == Survivors(old(clients), open, throwing))
      && (initialised ==> sent == |clients| && failed == |Failures(old(clients), open, throwing)|)
      && (initialised ==> DeliveredTo(old(inbox), inbox, clients, message))
    }

    /** `broadcast(message)`: one pass over the members. A member that is
        not OPEN is removed; an OPEN member is sent the message and counted
        in `sent`, or, when its `send` throws, counted in `failed` and
        removed. Without a server the call does nothing. */
    method Broadcast(message: JsValue, open: set<ClientId>, throwing: set<ClientId>) returns (sent: nat, failed: nat)
      modifies this`clients, this`inbox
      ensures Broadcasted(message, open, throwing, sent, failed)
    {
      sent, failed := 0, 0;
      if !initialised {
        return;
      }
      ghost var members := clients;
      ghost var start := inbox;
      var pending := clients;
      ghost var kept, lost := {}, {};
      while pending != {}
        invariant Visited(members, pending, kept, lost, open, throwing)
        invariant clients == pending + kept
        invariant sent == |kept| && failed == |lost|
        invariant DeliveredTo(start, inbox, kept, message)
        decreases |pending|
      {
        var c :| c in pending;
        ghost var inbox0 := inbox;
        var delivered, threw := Visit(c, message, open, throwing);
        if delivered {
          VisitKeeps(members, pending, kept, lost, open, throwing, c);
          HandOver(pending, kept, c);
          InboxAdvance(start, inbox0, kept, message, c);
          assert |kept + {c}| == |kept| + 1;
          sent, kept := sent + 1, kept + {c};
        } else if threw {
          VisitFails(members, pending, kept, lost, open, throwing, c);
          DropOne(pending, kept, c);
          assert |lost + {c}| == |lost| + 1;
          failed, lost := failed + 1, lost + {c};
        } else {
          VisitSkips(members, pending, kept, lost, open, throwing, c);
          DropOne(pending, kept, c);
        }
        pending := pending - {c};
      }
    }

    /** One step of the pass: the member `c` is sent the message when it is
        OPEN and its `send` does not throw, and deleted otherwise. */
    method Visit(c: ClientId, message: JsValue, open: set<ClientId>, throwing: set<ClientId>)
      returns (delivered: bool, threw: bool)
      modifies this`clients, this`inbox
      ensures delivered <==> c in open && c !in throwing
      ensures threw <==> c in open && c in throwing
      ensures clients == if delivered then old(clients) else old(clients) - {c}
      ensures inbox == if delivered then old(inbox)[c := Received(old(inbox), c) + [message]] else old(inbox)
    {
      delivered, threw := false, false;
      if c in open {
        if c !in throwing {
          inbox := inbox[c := Received(inbox, c) + [message]];
          delivered := true;
        } else {
          clients := clients - {c};
          threw := true;
        }
      } else {
        clients := clients - {c};
      }
    }

    /** `broadcastCDCEvent(event)`; `timestamp` is the ISO time of the call. */
    method BroadcastCdcEvent(event: JsValue, timestamp: string, open: set<ClientId>, throwing: set<ClientId>)
      returns (sent: nat, failed: nat)
      modifies this`clients, this`inbox
      ensures Broadcasted(CdcEventFrame(event, timestamp), open, throwing, sent, failed)
    {
      sent, failed := Broadcast(CdcEventFrame(event, timestamp), open, throwing);
    }

    /** `broadcastMetricsUpdate(metrics)`. */
    method BroadcastMetricsUpdate(metrics: JsValue, timestamp: string, open: set<ClientId>, throwing: set<ClientId>)
      returns (sent: nat, failed: nat)
      modifies this`clients, this`inbox
      ensures Broadcasted(MetricsUpdateFrame(metrics, timestamp), open, throwing, sent, failed)
    {
      sent, failed := Broadcast(MetricsUpdateFrame(metrics, timestamp), open, throwing);
    }

    /** `broadcastAPIRequest(endpoint, statusCode, responseTime)`. */
    method BroadcastApiRequest(endpoint: string, statusCode: int, responseTime: int, timestamp: string,
                               open: set<ClientId>, throwing: set<ClientId>)
      returns (sent: nat, failed: nat)
      modifies this`clients, this`inbox
      ensures Broadcasted(ApiRequestFrame(endpoint, statusCode, responseTime, timestamp), open, throwing, sent, failed)
    {
      sent, failed := Broadcast(ApiRequestFrame(endpoint, statusCode, responseTime, timestamp), open, throwing);
    }

    /** `getConnectedClients()`. */
    function ConnectedClients(): (n: nat)
      reads this
      ensures n == 0 <==> clients == {}
    {
      |clients|
    }
  }
}
