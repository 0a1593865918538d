/**
 * The coordination hub of backend/main.py, without the web framework: the
 * connection managers that fan messages out to dashboards and to agent
 * workers, the JSON value transform applied to every payload, the answers
 * the two websocket endpoints give to inbound frames, one pass of the
 * timeout sweeper, and the broadcasts made by the create, resolve and
 * add-knowledge endpoints.
 *
 * A connection handle is an opaque number.  Whether a send to a handle
 * fails is an oracle `failed` passed in; the clock reading `now` and the
 * ISO 8601 rendering `iso` of an instant are parameters.
 */
module Server {
  import opened Models
  import opened Store

  type Handle = nat

  /** What goes over a websocket: a JSON message (`send_json`) or a text frame (`send_text`). */
  datatype Frame = JsonFrame(payload: Value) | TextFrame(text: string)

  /** A broadcast made by a handler, to the dashboard hub or to the agent hub. */
  datatype Event = ToDashboards(message: Value) | ToAgents(message: Value)

  /** The handles of `hs` whose sends fail. */
  function Failing(hs: set<Handle>, failed: Handle -> bool): set<Handle>
  {
    set h | h in hs && failed(h)
  }

  /**
   * `ConnectionManager` and `AgentConnectionManager`: the two classes are the
   * same code over a set of live connections (`active_connections`,
   * `active_agents`); the dashboard hub and the agent hub are two instances.
   * `sent` records every frame sent to each handle through this manager.
   */
  class ConnectionManager {
    var active: set<Handle>
    var sent: map<Handle, seq<Frame>>

    /** The frames handle `h` has received so far. */
    function Received(h: Handle): seq<Frame>
      reads this
    {
      if h in sent then sent[h] else []
    }

    constructor ()
      ensures active == {} && sent == map[]
    {
      active, sent := {}, map[];
    }

    /** `connect`: the accepted handle joins the set. */
    method Connect(h: Handle)
      modifies this
      ensures active == old(active) + {h}
      ensures sent == old(sent)
    {
      active := active + {h};
    }

    /** `disconnect`: `set.discard`, so removing an absent handle is a no-op. */
    method Disconnect(h: Handle)
      modifies this
      ensures active == old(active) - {h}
      ensures sent == old(sent)
    {
      active := active - {h};
    }

    /** A direct `send_json` or `send_text` on one connection that did not fail. */
    method Deliver(h: Handle, f: Frame)
      modifies this
      ensures active == old(active)
      ensures Received(h) == old(Received(h)) + [f]
      ensures forall g :: g != h ==> Received(g) == old(Received(g))
    {
      sent := sent[h := Received(h) + [f]];
    }

    /** Direct sends of `frames`, in order, on one connection that did not fail. */
    method DeliverAll(h: Handle, frames: seq<Frame>)
      modifies this
      ensures active == old(active)
      ensures Received(h) == old(Received(h)) + frames
      ensures forall g :: g != h ==> Received(g) == old(Received(g))
    {
      var i := 0;
      while i < |frames|
        invariant 0 <= i <= |frames|
        invariant active == old(active)
        invariant Received(h) == old(Received(h)) + frames[..i]
        invariant forall g :: g != h ==> Received(g) == old(Received(g))
      {
        Deliver(h, frames[i]);
        assert frames[..i + 1] == frames[..i] + [frames[i]];
        i := i + 1;
      }
      assert frames[..i] == frames;
    }

    /**
     * `broadcast` / `broadcast_to_agents`: every live handle is tried once; a
     * handle whose send fails is remembered and, after the loop, disconnected.
     * Every other handle receives the message exactly once, so one dead
     * connection costs nobody else the message.
     */
    method Broadcast(message: Value, failed: Handle -> bool)
      modifies this
      ensures active == old(active) - Failing(old(active), failed)
      ensures forall h :: h in old(active) && !failed(h) ==> Received(h) == old(Received(h)) + [JsonFrame(message)]
      ensures forall h :: !(h in old(active) && !failed(h)) ==> Received(h) == old(Received(h))
    {
      if active == {} {
        return;
      }
      var disconnected := TrySend(message, failed);
      Evict(disconnected);
    }

    /** The first loop of a broadcast: one send per live handle, collecting the handles whose send failed. */
    method TrySend(message: Value, failed: Handle -> bool) returns (disconnected: set<Handle>)
      modifies this
      ensures active == old(active)
      ensures disconnected == Failing(old(active), failed)
      ensures forall h :: Received(h) == old(Received(h)) + (if h in old(active) && !failed(h) then [JsonFrame(message)] else [])
    {
      disconnected := {};
      var remaining := active;
      while remaining != {}
        invariant remaining <= active && active == old(active)
        invariant disconnected == Failing(old(active) - remaining, failed)
        invariant forall h :: Received(h) == old(Received(h)) + (if h in old(active) - remaining && !failed(h) then [JsonFrame(message)] else [])
        decreases remaining
      {
        var h :| h in remaining;
        if failed(h) {
          disconnected := disconnected + {h};
        } else {
          Deliver(h, JsonFrame(message));
        }
        remaining := remaining - {h};
      }
    }

    /** The second loop of a broadcast: every collected handle is disconnected. */
    method Evict(hs: set<Handle>)
      modifies this
      ensures active == old(active) - hs
      ensures sent == old(sent)
    {
      var evicting := hs;
      while evicting != {}
        invariant evicting <= hs
        invariant active == old(active) - (hs - evicting)
        invariant sent == old(sent)
        decreases evicting
      {
        var h :| h in evicting;
        Disconnect(h);
        evicting := evicting - {h};
      }
    }
  }

  /** A failing handle is dropped once; a second broadcast with the same failures drops nothing more. */
  lemma EvictionIsStable(hs: set<Handle>, failed: Handle -> bool)
    ensures Failing(hs - Failing(hs, failed), failed) == {}
    ensures (hs - Failing(hs, failed)) - Failing(hs - Failing(hs, failed), failed) == hs - Failing(hs, failed)
  {
  }

  // ---------------------------------------------------------------------
  // make_json_serializable

  /** A value with no datetime left anywhere inside it. */
  predicate NoDatetimes(v: Value)
  {
    match v
    case Time(_) => false
    case List(items) => forall i :: 0 <= i < |items| ==> NoDatetimes(items[i])
    case Dict(fields) => forall k :: k in fields ==> NoDatetimes(fields[k])
    case _ => true
  }

  /**
   * Dictionaries keep their keys and lists their length, each member
   * transformed; a datetime becomes its ISO 8601 text; anything else is kept.
   * No datetime is left in the result.
   */
  function MakeJsonSerializable(v: Value, iso: Instant -> string): (r: Value)
    ensures v.Dict? ==> r.Dict? && r.fields.Keys == v.fields.Keys
    ensures v.Dict? ==> forall k :: k in v.fields ==> r.fields[k] == MakeJsonSerializable(v.fields[k], iso)
    ensures v.List? ==> r.List? && |r.items| == |v.items|
    ensures v.List? ==> forall i :: 0 <= i < |v.items| ==> r.items[i] == MakeJsonSerializable(v.items[i], iso)
    ensures v.Time? ==> r == Str(iso(v.t))
    ensures !v.Dict? && !v.List? && !v.Time? ==> r == v
    ensures NoDatetimes(r)
  {
    match v
    case Dict(fields) => Dict(map k | k in fields :: MakeJsonSerializable(fields[k], iso))
    case List(items) => List(seq(|items|, i requires 0 <= i < |items| => MakeJsonSerializable(items[i], iso)))
    case Time(t) => Str(iso(t))
    case _ => v
  }

  /** A value with no datetime inside passes through unchanged. */
  lemma {:induction false} SerializableUnchanged(v: Value, iso: Instant -> string)
    requires NoDatetimes(v)
    ensures MakeJsonSerializable(v, iso) == v
  {
    match v
    case Dict(fields) =>
      forall k | k in fields ensures MakeJsonSerializable(fields[k], iso) == fields[k] {
        SerializableUnchanged(fields[k], iso);
      }
      assert MakeJsonSerializable(v, iso).fields == fields;
    case List(items) =>
      forall i | 0 <= i < |items| ensures MakeJsonSerializable(items[i], iso) == items[i] {
        SerializableUnchanged(items[i], iso);
      }
      assert MakeJsonSerializable(v, iso).items == items;
    case _ =>
  }

  /** Serializing twice is serializing once. */
  lemma SerializeIdempotent(v: Value, iso: Instant -> string)
    ensures MakeJsonSerializable(MakeJsonSerializable(v, iso), iso) == MakeJsonSerializable(v, iso)
  {
    SerializableUnchanged(MakeJsonSerializable(v, iso), iso);
  }

  // ---------------------------------------------------------------------
  // Messages

  function Message(kind: string, fields: map<string, Value>): Value
  {
    Dict(fields["type" := Str(kind)])
  }

  function RequestList(rs: seq<HelpRequest>): seq<Value>
  {
    seq(|rs|, i requires 0 <= i < |rs| => Dict(HelpRequestToDict(rs[i])))
  }

  function EntryList(es: seq<KnowledgeBaseEntry>): seq<Value>
  {
    seq(|es|, i requires 0 <= i < |es| => Dict(EntryToDict(es[i])))
  }

  const PingMessage: Value := Message("ping", map[])

  function StatsUpdateMessage(stats: RequestStats): Value
  {
    Message("stats_update", map["data" := Dict(StatsToDict(stats))])
  }

  /** Statistics hold no datetime, so serializing them first or not sends the same message. */
  lemma StatsNeedNoSerialization(stats: RequestStats, iso: Instant -> string)
    ensures MakeJsonSerializable(Dict(StatsToDict(stats)), iso) == Dict(StatsToDict(stats))
  {
    SerializableUnchanged(Dict(StatsToDict(stats)), iso);
  }

  /** The snapshot the agent endpoint sends: every entry, serialized, and their count. */
  function KnowledgeBaseFull(entries: seq<KnowledgeBaseEntry>, iso: Instant -> string): (m: Value)
    ensures m.Dict? && "data" in m.fields && "count" in m.fields && "type" in m.fields
    ensures m.fields["type"] == Str("knowledge_base_full")
    ensures m.fields["data"].List? && m.fields["count"] == Int(|m.fields["data"].items|)
    ensures |m.fields["data"].items| == |entries|
    ensures NoDatetimes(m.fields["data"])
  {
    var data := MakeJsonSerializable(List(EntryList(entries)), iso);
    Message("knowledge_base_full", map["data" := data, "count" := Int(|entries|)])
  }

  /** What one `receive_text` with an idle timeout produced. */
  datatype Inbound = Text(text: string) | IdleTimeout

  /** The dashboard endpoint answers only "ping" (with "pong"), and pings an idle connection. */
  function DashboardReply(inbound: Inbound): (r: Option<Frame>)
    ensures inbound == Text("ping") ==> r == Some(TextFrame("pong"))
    ensures inbound.Text? && inbound.text != "ping" ==> r == None
    ensures inbound == IdleTimeout ==> r == Some(JsonFrame(PingMessage))
  {
    match inbound
    case IdleTimeout => Some(JsonFrame(PingMessage))
    case Text(t) => if t == "ping" then Some(TextFrame("pong")) else None
  }

  /**
   * The agent endpoint answers "ping" with "pong" and "refresh_kb" with a full
   * snapshot of the current entries; any other text gets no answer.
   */
  function AgentReply(inbound: Inbound, entries: seq<KnowledgeBaseEntry>, iso: Instant -> string): (r: Option<Frame>)
    ensures inbound == Text("ping") ==> r == Some(TextFrame("pong"))
    ensures inbound == Text("refresh_kb") ==> r == Some(JsonFrame(KnowledgeBaseFull(entries, iso)))
    ensures inbound.Text? && inbound.text != "ping" && inbound.text != "refresh_kb" ==> r == None
    ensures inbound == IdleTimeout ==> r == Some(JsonFrame(PingMessage))
  {
    match inbound
    case IdleTimeout => Some(JsonFrame(PingMessage))
    case Text(t) =>
      if t == "ping" then Some(TextFrame("pong"))
      else if t == "refresh_kb" then Some(JsonFrame(KnowledgeBaseFull(entries, iso)))
      else None
  }

  /** What a dashboard receives on connecting: a greeting, the statistics, and the pending requests. */
  function DashboardGreeting(stats: RequestStats, pending: seq<HelpRequest>, iso: Instant -> string): seq<Frame>
  {
    [ JsonFrame(Message("connected", map["message" := Str("Connected to admin dashboard")])),
      JsonFrame(Message("stats_update", map["data" := MakeJsonSerializable(Dict(StatsToDict(stats)), iso)])),
      JsonFrame(Message("pending_requests", map["data" := MakeJsonSerializable(List(RequestList(pending)), iso)])) ]
  }

  /** What an agent worker receives on connecting: a greeting and the full snapshot. */
  function AgentGreeting(entries: seq<KnowledgeBaseEntry>, iso: Instant -> string): seq<Frame>
  {
    [ JsonFrame(Message("connected", map["message" := Str("Agent WebSocket connected")])),
      JsonFrame(KnowledgeBaseFull(entries, iso)) ]
  }

  /**
   * Accepting a dashboard connection: the handle joins the hub and is sent the
   * greeting; if that send fails the endpoint's error handler disconnects it.
   */
  method OpenDashboard(hub: ConnectionManager, db: FirebaseDB, h: Handle, iso: Instant -> string, failed: Handle -> bool)
    modifies hub
    ensures hub.active == if failed(h) then old(hub.active) - {h} else old(hub.active) + {h}
    ensures !failed(h) ==> hub.Received(h) == old(hub.Received(h)) + DashboardGreeting(StatsOf(db.helpRequests), SortNewestFirst(PendingOf(db.helpRequests), CreatedAt), iso)
    ensures failed(h) ==> hub.Received(h) == old(hub.Received(h))
    ensures forall g :: g != h ==> hub.Received(g) == old(hub.Received(g))
  {
    hub.Connect(h);
    if failed(h) {
      hub.Disconnect(h);
      return;
    }
    var stats := db.GetRequestStats();
    var pending := db.GetPendingRequests();
    hub.DeliverAll(h, DashboardGreeting(stats, pending, iso));
  }

  /** Accepting an agent connection: the handle joins the hub and is sent the full snapshot. */
  method OpenAgent(hub: ConnectionManager, db: FirebaseDB, h: Handle, iso: Instant -> string, failed: Handle -> bool)
    modifies hub
    ensures hub.active == if failed(h) then old(hub.active) - {h} else old(hub.active) + {h}
    ensures !failed(h) ==> hub.Received(h) == old(hub.Received(h)) + AgentGreeting(SortNewestFirst(db.knowledgeBase, EntryCreatedAt), iso)
    ensures failed(h) ==> hub.Received(h) == old(hub.Received(h))
    ensures forall g :: g != h ==> hub.Received(g) == old(hub.Received(g))
  {
    hub.Connect(h);
    if failed(h) {
      hub.Disconnect(h);
      return;
    }
    var entries := db.GetAllKnowledgeBase();
    hub.DeliverAll(h, AgentGreeting(entries, iso));
  }

  /**
   * One inbound frame on an open agent connection: "refresh_kb" reads the
   * store's newest-first listing, and the reply `AgentReply` gives is sent;
   * a reply that fails to send ends the connection.
   */
  method AnswerAgent(hub: ConnectionManager, db: FirebaseDB, h: Handle, inbound: Inbound,
                     iso: Instant -> string, failed: Handle -> bool)
    modifies hub
    ensures var reply := AgentReply(inbound, SortNewestFirst(db.knowledgeBase, EntryCreatedAt), iso);
      && hub.active == (if reply.Some? && failed(h) then old(hub.active) - {h} else old(hub.active))
      && hub.Received(h) == old(hub.Received(h)) + (if reply.Some? && !failed(h) then [reply.value] else [])
    ensures forall g :: g != h ==> hub.Received(g) == old(hub.Received(g))
  {
    var entries: seq<KnowledgeBaseEntry> := [];
    if inbound == Text("refresh_kb") {
      entries := db.GetAllKnowledgeBase();
    }
    var reply := AgentReply(inbound, entries, iso);
    if reply.Some? {
      if failed(h) {
        hub.Disconnect(h);
      } else {
        hub.Deliver(h, reply.value);
      }
    }
  }

  // ---------------------------------------------------------------------
  // Broadcast sequences made by the HTTP handlers and the sweeper

  /** The messages of `events` addressed to the dashboard hub, in order. */
  function DashboardFrames(events: seq<Event>): seq<Frame>
  {
    if events == [] then []
    else (if events[0].ToDashboards? then [JsonFrame(events[0].message)] else []) + DashboardFrames(events[1..])
  }

  /** The messages of `events` addressed to the agent hub, in order. */
  function AgentFrames(events: seq<Event>): seq<Frame>
  {
    if events == [] then []
    else (if events[0].ToAgents? then [JsonFrame(events[0].message)] else []) + AgentFrames(events[1..])
  }

  /** One more event adds its message, if any, at the end of its hub's frames. */
  lemma {:induction false} FramesSnoc(events: seq<Event>, e: Event)
    ensures DashboardFrames(events + [e]) == DashboardFrames(events) + (if e.ToDashboards? then [JsonFrame(e.message)] else [])
    ensures AgentFrames(events + [e]) == AgentFrames(events) + (if e.ToAgents? then [JsonFrame(e.message)] else [])
  {
    if events != [] {
      assert (events + [e])[1..] == events[1..] + [e];
      FramesSnoc(events[1..], e);
    }
  }

  /** A hub that some event is addressed to gets at least one message. */
  lemma {:induction false} AddressedHubGetsFrames(events: seq<Event>, i: nat)
    requires i < |events|
    ensures events[i].ToDashboards? ==> DashboardFrames(events) != []
    ensures events[i].ToAgents? ==> AgentFrames(events) != []
  {
    if i > 0 {
      AddressedHubGetsFrames(events[1..], i - 1);
    }
  }

  lemma FramesPrefix(events: seq<Event>, i: nat)
    requires i < |events|
    ensures DashboardFrames(events[..i + 1]) == DashboardFrames(events[..i]) + (if events[i].ToDashboards? then [JsonFrame(events[i].message)] else [])
    ensures AgentFrames(events[..i + 1]) == AgentFrames(events[..i]) + (if events[i].ToAgents? then [JsonFrame(events[i].message)] else [])
  {
    assert events[..i + 1] == events[..i] + [events[i]];
    FramesSnoc(events[..i], events[i]);
  }

  /**
   * Hub `hub`, which held `a0` with outboxes `s0`, has since broadcast
   * `frames`: the failing handles are gone once anything was broadcast, and
   * each surviving handle has received `frames` in order.
   */
  ghost predicate Reached(hub: ConnectionManager, a0: set<Handle>, s0: map<Handle, seq<Frame>>, frames: seq<Frame>, failed: Handle -> bool)
    reads hub
  {
    && hub.active == (if frames == [] then a0 else a0 - Failing(a0, failed))
    && forall h :: hub.Received(h) == (if h in s0 then s0[h] else []) + (if h in a0 && !failed(h) then frames else [])
  }

  /** Before any broadcast a hub has reached nothing. */
  lemma ReachedStart(hub: ConnectionManager, failed: Handle -> bool)
    ensures Reached(hub, hub.active, hub.sent, [], failed)
  {
  }

  /** One more broadcast on a hub extends what it has reached by that message. */
  method BroadcastNext(hub: ConnectionManager, message: Value, failed: Handle -> bool,
                       ghost a0: set<Handle>, ghost s0: map<Handle, seq<Frame>>, ghost frames: seq<Frame>)
    requires Reached(hub, a0, s0, frames, failed)
    modifies hub
    ensures Reached(hub, a0, s0, frames + [JsonFrame(message)], failed)
  {
    EvictionIsStable(a0, failed);
    hub.Broadcast(message, failed);
  }

  /**
   * Makes the broadcasts of `events` one after the other.  A handle whose
   * sends fail is dropped by the first broadcast to its hub; every other
   * handle of a hub receives that hub's messages in order.
   */
  method Dispatch(dashboard: ConnectionManager, agents: ConnectionManager, events: seq<Event>, failed: Handle -> bool)
    requires dashboard != agents
    modifies dashboard, agents
    ensures dashboard.active == if DashboardFrames(events) == [] then old(dashboard.active)
                                else old(dashboard.active) - Failing(old(dashboard.active), failed)
    ensures agents.active == if AgentFrames(events) == [] then old(agents.active)
                             else old(agents.active) - Failing(old(agents.active), failed)
    ensures forall h :: dashboard.Received(h) == old(dashboard.Received(h)) +
              (if h in old(dashboard.active) && !failed(h) then DashboardFrames(events) else [])
    ensures forall h :: agents.Received(h) == old(agents.Received(h)) +
              (if h in old(agents.active) && !failed(h) then AgentFrames(events) else [])
  {
    DispatchEach(dashboard, agents, events, failed);
  }

  /** The loop of `Dispatch`: each hub has reached its own messages of `events`. */
  method DispatchEach(dashboard: ConnectionManager, agents: ConnectionManager, events: seq<Event>, failed: Handle -> bool)
    requires dashboard != agents
    modifies dashboard, agents
    ensures Reached(dashboard, old(dashboard.active), old(dashboard.sent), DashboardFrames(events), failed)
    ensures Reached(agents, old(agents.active), old(agents.sent), AgentFrames(events), failed)
  {
    ghost var dashboards0, dashboardSent0 := dashboard.active, dashboard.sent;
    ghost var agents0, agentSent0 := agents.active, agents.sent;
    assert events[..0] == [];
    ReachedStart(dashboard, failed);
    ReachedStart(agents, failed);
    var i := 0;
    while i < |events|
      invariant 0 <= i <= |events|
      invariant Reached(dashboard, dashboards0, dashboardSent0, DashboardFrames(events[..i]), failed)
      invariant Reached(agents, agents0, agentSent0, AgentFrames(events[..i]), failed)
    {
      DispatchOne(dashboard, agents, events, i, failed, dashboards0, dashboardSent0, agents0, agentSent0);
      i := i + 1;
    }
    assert events[..i] == events;
  }

  /** The broadcast of event `i`, on the hub it is addressed to. */
  method DispatchOne(dashboard: ConnectionManager, agents: ConnectionManager, events: seq<Event>, i: nat, failed: Handle -> bool,
                     ghost d0: set<Handle>, ghost ds0: map<Handle, seq<Frame>>,
                     ghost a0: set<Handle>, ghost as0: map<Handle, seq<Frame>>)
    requires dashboard != agents && i < |events|
    requires Reached(dashboard, d0, ds0, DashboardFrames(events[..i]), failed)
    requires Reached(agents, a0, as0, AgentFrames(events[..i]), failed)
    modifies dashboard, agents
    ensures Reached(dashboard, d0, ds0, DashboardFrames(events[..i + 1]), failed)
    ensures Reached(agents, a0, as0, AgentFrames(events[..i + 1]), failed)
  {
    FramesPrefix(events, i);
    match events[i] {
      case ToDashboards(m) =>
        assert AgentFrames(events[..i + 1]) == AgentFrames(events[..i]);
        BroadcastNext(dashboard, m, failed, d0, ds0, DashboardFrames(events[..i]));
      case ToAgents(m) =>
        assert DashboardFrames(events[..i + 1]) == DashboardFrames(events[..i]);
        BroadcastNext(agents, m, failed, a0, as0, AgentFrames(events[..i]));
    }
  }

  /** `{"type": "knowledge_base_updated", "message": text}`, with a timestamp when one is given. */
  function KnowledgeUpdated(text: string, timestamp: Option<string>): Value
  {
    match timestamp
    case None => Message("knowledge_base_updated", map["message" := Str(text)])
    case Some(t) => Message("knowledge_base_updated", map["message" := Str(text), "timestamp" := Str(t)])
  }

  /** The `new_request` announcement: the new request's id, phone, question, status and creation time, serialized. */
  function NewRequestMessage(id: string, phone: string, question: string, now: Instant, iso: Instant -> string): (m: Value)
    ensures m.Dict? && "data" in m.fields && m.fields["data"].Dict?
    ensures m.fields["data"].fields == map["id" := Str(id), "customer_phone" := Str(phone), "question" := Str(question),
                                           "status" := Str("pending"), "created_at" := Str(iso(now))]
  {
    var data := Dict(map["id" := Str(id), "customer_phone" := Str(phone), "question" := Str(question),
                         "status" := Str(StatusValue(Pending)), "created_at" := Time(now)]);
    SerializedNewRequest(id, phone, question, now, iso);
    Message("new_request", map["data" := MakeJsonSerializable(data, iso)])
  }

  /** Serializing the `new_request` data renders its creation time and keeps its four strings. */
  lemma SerializedNewRequest(id: string, phone: string, question: string, now: Instant, iso: Instant -> string)
    ensures MakeJsonSerializable(Dict(map["id" := Str(id), "customer_phone" := Str(phone), "question" := Str(question),
                                          "status" := Str(StatusValue(Pending)), "created_at" := Time(now)]), iso)
            == Dict(map["id" := Str(id), "customer_phone" := Str(phone), "question" := Str(question),
                        "status" := Str("pending"), "created_at" := Str(iso(now))])
  {
    var fields := map["id" := Str(id), "customer_phone" := Str(phone), "question" := Str(question),
                      "status" := Str(StatusValue(Pending)), "created_at" := Time(now)];
    var r := MakeJsonSerializable(Dict(fields), iso);
    assert r.fields.Keys == fields.Keys;
    assert r.fields["created_at"] == Str(iso(now));
  }

  /** The `request_resolved` announcement: which request and with what response. */
  function RequestResolvedMessage(requestId: string, response: string, iso: Instant -> string): (m: Value)
    ensures m == Message("request_resolved", map["data" := Dict(map["request_id" := Str(requestId), "response" := Str(response)])])
  {
    var data := Dict(map["request_id" := Str(requestId), "response" := Str(response)]);
    SerializableUnchanged(data, iso);
    Message("request_resolved", map["data" := MakeJsonSerializable(data, iso)])
  }

  /** The `stats_update` the HTTP handlers build, serializing the statistics first: it is the plain one. */
  function SerializedStatsUpdate(stats: RequestStats, iso: Instant -> string): (m: Value)
    ensures m == StatsUpdateMessage(stats)
  {
    StatsNeedNoSerialization(stats, iso);
    Message("stats_update", map["data" := MakeJsonSerializable(Dict(StatsToDict(stats)), iso)])
  }

  /** The `request_timeout` announcement, carrying the request's id (null when it has none). */
  function RequestTimeoutMessage(id: Option<string>): Value
  {
    Message("request_timeout", map["data" := Dict(map["request_id" := OptionalStrValue(id)])])
  }

  /**
   * `POST /api/help-requests`: stores the request, announces it to the
   * dashboards, then sends them the new statistics.
   */
  method CreateHelpRequestHandler(db: FirebaseDB, dashboard: ConnectionManager, agents: ConnectionManager,
                                  phone: string, question: string, context: Option<map<string, Value>>,
                                  newId: string, now: Instant, iso: Instant -> string, failed: Handle -> bool)
    returns (requestId: string, events: seq<Event>)
    requires db.Valid() && Absent(db.helpRequests, RequestId, newId)
    requires dashboard != agents
    modifies db, dashboard, agents
    ensures db.Valid()
    ensures requestId == newId
    ensures db.helpRequests == old(db.helpRequests) + [NewHelpRequest(phone, question, ContextOrEmpty(context), now).(id := Some(newId))]
    ensures db.knowledgeBase == old(db.knowledgeBase) && db.conversations == old(db.conversations)
    ensures events == [ToDashboards(NewRequestMessage(newId, phone, question, now, iso)),
                       ToDashboards(StatsUpdateMessage(StatsOf(db.helpRequests)))]
    ensures dashboard.active == old(dashboard.active) - Failing(old(dashboard.active), failed)
    ensures agents.active == old(agents.active)
    ensures forall h :: dashboard.Received(h) == old(dashboard.Received(h)) +
              (if h in old(dashboard.active) && !failed(h) then DashboardFrames(events) else [])
    ensures forall h :: agents.Received(h) == old(agents.Received(h))
  {
    requestId := db.CreateHelpRequest(phone, question, context, newId, now);
    var stats := db.GetRequestStats();
    events := [ToDashboards(NewRequestMessage(requestId, phone, question, now, iso)),
               ToDashboards(SerializedStatsUpdate(stats, iso))];
    AddressedHubGetsFrames(events, 0);
    AllToDashboards(events);
    Dispatch(dashboard, agents, events, failed);
  }

  /** The four broadcasts that follow a successful resolution, in the handler's order. */
  function ResolvedEvents(requestId: string, response: string, stats: RequestStats, now: Instant, iso: Instant -> string): seq<Event>
  {
    [ ToDashboards(RequestResolvedMessage(requestId, response, iso)),
      ToDashboards(StatsUpdateMessage(stats)),
      ToAgents(KnowledgeUpdated("New knowledge base entry added", Some(iso(now)))),
      ToDashboards(KnowledgeUpdated("Knowledge base has been updated", None)) ]
  }

  /**
   * `POST /api/help-requests/resolve`.  When the store resolves the request
   * the handler answers 200 after four broadcasts, in this order: the
   * resolution and the new statistics to the dashboards, a knowledge-base
   * update to the agents, a knowledge-base update to the dashboards.  An
   * unknown id broadcasts nothing; its 400 is raised inside the handler's own
   * catch-all and so reaches the client as 500.  `supervisorId` is the
   * body's optional `supervisor_id` as parsed: `Some("admin")` when the field
   * is omitted, `None` for an explicit null, which is stored as a null
   * `assigned_to`.
   */
  method ResolveHandler(db: FirebaseDB, dashboard: ConnectionManager, agents: ConnectionManager,
                        requestId: string, response: string, supervisorId: Option<string>, newEntryId: string,
                        now: Instant, iso: Instant -> string, failed: Handle -> bool)
    returns (status: int, events: seq<Event>)
    requires db.Valid() && Absent(db.knowledgeBase, EntryId, newEntryId)
    requires dashboard != agents
    modifies db, dashboard, agents
    ensures db.Valid()
    ensures status == 200 <==> IndexOf(old(db.helpRequests), RequestId, requestId).Some?
    ensures status == 200 || status == 500
    ensures status == 500 ==> events == [] && db.helpRequests == old(db.helpRequests) && db.knowledgeBase == old(db.knowledgeBase)
    ensures status == 200 ==> events == ResolvedEvents(requestId, response, StatsOf(db.helpRequests), now, iso)
    ensures status == 200 ==>
      var i := IndexOf(old(db.helpRequests), RequestId, requestId).value;
      var r := old(db.helpRequests)[i];
      && db.helpRequests == old(db.helpRequests)[i := ApplyResolve(r, response, supervisorId, now)]
      && db.knowledgeBase == old(db.knowledgeBase) +
           (if r.question != "" then [NewEntry(r.question, response, Some(requestId), now).(id := Some(newEntryId))] else [])
    ensures db.conversations == old(db.conversations)
    ensures dashboard.active == if status == 200 then old(dashboard.active) - Failing(old(dashboard.active), failed) else old(dashboard.active)
    ensures agents.active == if status == 200 then old(agents.active) - Failing(old(agents.active), failed) else old(agents.active)
    ensures forall h :: dashboard.Received(h) == old(dashboard.Received(h)) +
              (if h in old(dashboard.active) && !failed(h) then DashboardFrames(events) else [])
    ensures forall h :: agents.Received(h) == old(agents.Received(h)) +
              (if h in old(agents.active) && !failed(h) then AgentFrames(events) else [])
  {
    var ok := db.ResolveRequest(requestId, response, supervisorId, newEntryId, now);
    if !ok {
      return 500, [];
    }
    events := AnnounceResolution(db, dashboard, agents, requestId, response, now, iso, failed);
    status := 200;
  }

  /** The broadcasts of the resolve handler once the store has resolved the request. */
  method AnnounceResolution(db: FirebaseDB, dashboard: ConnectionManager, agents: ConnectionManager,
                            requestId: string, response: string, now: Instant, iso: Instant -> string, failed: Handle -> bool)
    returns (events: seq<Event>)
    requires dashboard != agents
    modifies dashboard, agents
    ensures events == ResolvedEvents(requestId, response, StatsOf(db.helpRequests), now, iso)
    ensures dashboard.active == old(dashboard.active) - Failing(old(dashboard.active), failed)
    ensures agents.active == old(agents.active) - Failing(old(agents.active), failed)
    ensures forall h :: dashboard.Received(h) == old(dashboard.Received(h)) +
              (if h in old(dashboard.active) && !failed(h) then DashboardFrames(events) else [])
    ensures forall h :: agents.Received(h) == old(agents.Received(h)) +
              (if h in old(agents.active) && !failed(h) then AgentFrames(events) else [])
  {
    var stats := db.GetRequestStats();
    events := [ ToDashboards(RequestResolvedMessage(requestId, response, iso)),
                ToDashboards(SerializedStatsUpdate(stats, iso)),
                ToAgents(KnowledgeUpdated("New knowledge base entry added", Some(iso(now)))),
                ToDashboards(KnowledgeUpdated("Knowledge base has been updated", None)) ];
    AddressedHubGetsFrames(events, 0);
    AddressedHubGetsFrames(events, 2);
    Dispatch(dashboard, agents, events, failed);
  }

  /**
   * `POST /api/knowledge-base`: adds the entry (never merging with an equal
   * question), then tells the agents, then the dashboards.
   */
  method AddKnowledgeBaseEntryHandler(db: FirebaseDB, dashboard: ConnectionManager, agents: ConnectionManager,
                                      question: string, answer: string, newId: string,
                                      now: Instant, iso: Instant -> string, failed: Handle -> bool)
    returns (entryId: string, events: seq<Event>)
    requires db.Valid() && Absent(db.knowledgeBase, EntryId, newId)
    requires dashboard != agents
    modifies db, dashboard, agents
    ensures db.Valid()
    ensures entryId == newId
    ensures db.knowledgeBase == old(db.knowledgeBase) + [NewEntry(question, answer, None, now).(id := Some(newId))]
    ensures db.helpRequests == old(db.helpRequests) && db.conversations == old(db.conversations)
    ensures events == [ ToAgents(KnowledgeUpdated("Knowledge base entry added", Some(iso(now)))),
                        ToDashboards(KnowledgeUpdated("New entry added to knowledge base", None)) ]
    ensures dashboard.active == old(dashboard.active) - Failing(old(dashboard.active), failed)
    ensures agents.active == old(agents.active) - Failing(old(agents.active), failed)
    ensures forall h :: dashboard.Received(h) == old(dashboard.Received(h)) +
              (if h in old(dashboard.active) && !failed(h) then DashboardFrames(events) else [])
    ensures forall h :: agents.Received(h) == old(agents.Received(h)) +
              (if h in old(agents.active) && !failed(h) then AgentFrames(events) else [])
  {
    entryId := db.AddToKnowledgeBase(question, answer, None, newId, now);
    events := [ ToAgents(KnowledgeUpdated("Knowledge base entry added", Some(iso(now)))),
                ToDashboards(KnowledgeUpdated("New entry added to knowledge base", None)) ];
    AddressedHubGetsFrames(events, 0);
    AddressedHubGetsFrames(events, 1);
    Dispatch(dashboard, agents, events, failed);
  }

  // ---------------------------------------------------------------------
  // One pass of check_timeout_requests

  /** Older than the threshold: strictly more than `hours` hours between creation and `now`. */
  predicate Expired(r: HelpRequest, now: Instant, hours: int)
  {
    now - r.createdAt > hours * MicrosPerHour
  }

  /**
   * The sweep over the listing it read at the start, one request after the
   * other: each expired request is timed out in the store by id (the same
   * `TimeoutById` that `FirebaseDB.TimeoutRequest` performs), then its
   * timeout and the statistics of the store at that moment are announced.
   * Gives the store afterwards and the broadcasts in order.
   */
  function Sweep(rs: seq<HelpRequest>, listing: seq<HelpRequest>, now: Instant, hours: int): (r: (seq<HelpRequest>, seq<Event>))
    ensures |r.0| == |rs|
    ensures forall k :: 0 <= k < |rs| ==> r.0[k].id == rs[k].id
  {
    if listing == [] then (rs, [])
    else
      var (store, events) := Sweep(rs, listing[..|listing| - 1], now, hours);
      var last := listing[|listing| - 1];
      if Expired(last, now, hours) then
        var store' := TimeoutById(store, last.id, now);
        (store', events + [ToDashboards(RequestTimeoutMessage(last.id)), ToDashboards(StatsUpdateMessage(StatsOf(store')))])
      else (store, events)
  }

  /** Some expired request of the listing carries `id`. */
  predicate Hit(listing: seq<HelpRequest>, id: Option<string>, now: Instant, hours: int)
  {
    exists j :: 0 <= j < |listing| && listing[j].id == id && Expired(listing[j], now, hours)
  }

  /** Adding one request at the end of a listing adds a hit exactly for its id, if it expired. */
  lemma HitSnoc(listing: seq<HelpRequest>, r: HelpRequest, id: Option<string>, now: Instant, hours: int)
    ensures Hit(listing + [r], id, now, hours) <==> Hit(listing, id, now, hours) || (r.id == id && Expired(r, now, hours))
  {
    if Hit(listing, id, now, hours) {
      var j :| 0 <= j < |listing| && listing[j].id == id && Expired(listing[j], now, hours);
      assert (listing + [r])[j] == listing[j];
    }
    if r.id == id && Expired(r, now, hours) {
      assert (listing + [r])[|listing|] == r;
    }
  }

  /** One step of the sweep on a single stored request. */
  lemma SweepStep(store: seq<HelpRequest>, rs: seq<HelpRequest>, r: HelpRequest, now: Instant, k: nat)
    requires DistinctIds(store, RequestId) && |store| == |rs| && k < |rs| && store[k].id == rs[k].id
    requires store[k] == rs[k] || store[k] == ApplyTimeout(rs[k], now)
    ensures TimeoutById(store, r.id, now)[k] == if r.id == rs[k].id then ApplyTimeout(rs[k], now) else store[k]
  {
    if r.id == rs[k].id {
      IndexOfUnique(store, RequestId, k);
    } else if r.id.Some? {
      var found := IndexOf(store, RequestId, r.id.value);
      if found.Some? {
        assert store[found.value].id == r.id;
      }
    }
  }

  /**
   * Whatever the listing, the sweep times out exactly the stored requests
   * whose id belongs to an expired request of the listing, and leaves every
   * other request as it was.
   */
  lemma {:induction false} SweepOutcome(rs: seq<HelpRequest>, listing: seq<HelpRequest>, now: Instant, hours: int)
    requires DistinctIds(rs, RequestId)
    ensures forall k :: 0 <= k < |rs| ==>
      Sweep(rs, listing, now, hours).0[k] == if Hit(listing, rs[k].id, now, hours) then ApplyTimeout(rs[k], now) else rs[k]
  {
    if listing != [] {
      var front := listing[..|listing| - 1];
      var last := listing[|listing| - 1];
      assert listing == front + [last];
      SweepOutcome(rs, front, now, hours);
      var store := Sweep(rs, front, now, hours).0;
      assert DistinctIds(store, RequestId);
      forall k | 0 <= k < |rs|
        ensures Sweep(rs, listing, now, hours).0[k] == if Hit(listing, rs[k].id, now, hours) then ApplyTimeout(rs[k], now) else rs[k]
      {
        HitSnoc(front, last, rs[k].id, now, hours);
        if Expired(last, now, hours) {
          SweepStep(store, rs, last, now, k);
        }
      }
    }
  }

  /** Every announcement of a sweep is addressed to the dashboards, two per expired request. */
  lemma {:induction false} SweepEventCount(rs: seq<HelpRequest>, listing: seq<HelpRequest>, now: Instant, hours: int)
    ensures |Sweep(rs, listing, now, hours).1| == 2 * |set j | 0 <= j < |listing| && Expired(listing[j], now, hours)|
    ensures forall e :: e in Sweep(rs, listing, now, hours).1 ==> e.ToDashboards?
  {
    if listing != [] {
      var n := |listing| - 1;
      SweepEventCount(rs, listing[..n], now, hours);
      var before := set j | 0 <= j < n && Expired(listing[..n][j], now, hours);
      var after := set j | 0 <= j < |listing| && Expired(listing[j], now, hours);
      assert before == set j | 0 <= j < n && Expired(listing[j], now, hours);
      if Expired(listing[n], now, hours) {
        assert after == before + {n};
      } else {
        assert after == before;
      }
    }
  }

  /** Events all addressed to the dashboards reach no agent. */
  lemma {:induction false} AllToDashboards(events: seq<Event>)
    requires forall e :: e in events ==> e.ToDashboards?
    ensures AgentFrames(events) == []
  {
    if events != [] {
      assert events[0] in events;
      AllToDashboards(events[1..]);
    }
  }

  /**
   * The loop of the sweeper over the listing: for each request older than
   * `timeoutHours` it calls `timeout_request` (whatever that returns) and
   * records `request_timeout` and `stats_update`.
   */
  method TimeoutExpired(db: FirebaseDB, listing: seq<HelpRequest>, now: Instant, timeoutHours: int)
    returns (events: seq<Event>)
    requires db.Valid()
    modifies db
    ensures db.Valid()
    ensures (db.helpRequests, events) == Sweep(old(db.helpRequests), listing, now, timeoutHours)
    ensures db.knowledgeBase == old(db.knowledgeBase) && db.conversations == old(db.conversations)
  {
    events := [];
    var i := 0;
    while i < |listing|
      invariant 0 <= i <= |listing|
      invariant db.Valid()
      invariant (db.helpRequests, events) == Sweep(old(db.helpRequests), listing[..i], now, timeoutHours)
      invariant db.knowledgeBase == old(db.knowledgeBase) && db.conversations == old(db.conversations)
    {
      assert listing[..i + 1][..i] == listing[..i];
      var r := listing[i];
      if Expired(r, now, timeoutHours) {
        if r.id.Some? {
          var _ := db.TimeoutRequest(r.id.value, now);
        }
        var stats := db.GetRequestStats();
        events := events + [ToDashboards(RequestTimeoutMessage(r.id)), ToDashboards(StatsUpdateMessage(stats))];
      }
      i := i + 1;
    }
    assert listing[..i] == listing;
  }

  /**
   * One pass of the sweeper: reads the pending listing once, times out the
   * expired requests in listing order, and broadcasts two announcements per
   * expired request to the dashboards only.
   */
  method SweepPass(db: FirebaseDB, dashboard: ConnectionManager, agents: ConnectionManager,
                   now: Instant, timeoutHours: int, failed: Handle -> bool)
    returns (events: seq<Event>)
    requires db.Valid() && dashboard != agents
    modifies db, dashboard, agents
    ensures db.Valid()
    ensures (db.helpRequests, events) == Sweep(old(db.helpRequests), SortNewestFirst(PendingOf(old(db.helpRequests)), CreatedAt), now, timeoutHours)
    ensures db.knowledgeBase == old(db.knowledgeBase) && db.conversations == old(db.conversations)
    ensures dashboard.active == if DashboardFrames(events) == [] then old(dashboard.active)
                                else old(dashboard.active) - Failing(old(dashboard.active), failed)
    ensures agents.active == old(agents.active)
    ensures forall h :: agents.Received(h) == old(agents.Received(h))
    ensures forall h :: dashboard.Received(h) == old(dashboard.Received(h)) +
              (if h in old(dashboard.active) && !failed(h) then DashboardFrames(events) else [])
  {
    var listing := db.GetPendingRequests();
    events := TimeoutExpired(db, listing, now, timeoutHours);
    SweepEventCount(old(db.helpRequests), listing, now, timeoutHours);
    AllToDashboards(events);
    Dispatch(dashboard, agents, events, failed);
  }

  /** A stored request is hit by the pending listing exactly when it is pending and expired. */
  lemma PendingHit(rs: seq<HelpRequest>, now: Instant, hours: int, k: nat)
    requires DistinctIds(rs, RequestId) && k < |rs|
    ensures Hit(SortNewestFirst(PendingOf(rs), CreatedAt), rs[k].id, now, hours) <==> rs[k].status == Pending && Expired(rs[k], now, hours)
  {
    var listing := SortNewestFirst(PendingOf(rs), CreatedAt);
    PendingListing(rs);
    if rs[k].status == Pending && Expired(rs[k], now, hours) {
      assert rs[k] in listing;
      var j :| 0 <= j < |listing| && listing[j] == rs[k];
    }
    if Hit(listing, rs[k].id, now, hours) {
      var j :| 0 <= j < |listing| && listing[j].id == rs[k].id && Expired(listing[j], now, hours);
      assert listing[j] in rs;
      var m :| 0 <= m < |rs| && rs[m] == listing[j];
      IndexOfUnique(rs, RequestId, m);
      IndexOfUnique(rs, RequestId, k);
    }
  }

  /**
   * The sweep run on the store's own pending listing times out exactly the
   * pending requests older than the threshold and changes nothing else.
   */
  lemma SweepTimesOutExpiredPending(rs: seq<HelpRequest>, now: Instant, hours: int)
    requires DistinctIds(rs, RequestId)
    ensures forall k :: 0 <= k < |rs| ==>
      Sweep(rs, SortNewestFirst(PendingOf(rs), CreatedAt), now, hours).0[k] ==
        if rs[k].status == Pending && Expired(rs[k], now, hours) then ApplyTimeout(rs[k], now) else rs[k]
  {
    SweepOutcome(rs, SortNewestFirst(PendingOf(rs), CreatedAt), now, hours);
    forall k | 0 <= k < |rs| {
      PendingHit(rs, now, hours, k);
    }
  }

  // ---------------------------------------------------------------------
  // The clocks the sweeper compares

  /**
   * The sweep as backend/main.py:445 runs it.  `datetime.now()` is a naive
   * clock reading, while a `created_at` read back from Firestore carries the
   * UTC time zone (`storedAware`).  Subtracting one kind from the other raises
   * TypeError at the first listed request; the `except` of the pass swallows
   * it, so nothing is timed out and nothing is announced.  With both instants
   * of one kind the pass is `Sweep`.
   */
  function SweepAsWritten(rs: seq<HelpRequest>, listing: seq<HelpRequest>, now: Instant, hours: int, storedAware: bool)
    : (seq<HelpRequest>, seq<Event>)
  {
    if storedAware && listing != [] then (rs, []) else Sweep(rs, listing, now, hours)
  }

  /** A pending request created at instant 0. */
  const StaleRequest: HelpRequest := HelpRequest(Some("r1"), "555-0100", "Do you sell gift cards?", map[], Pending, 0, None, None, None)

  /**
   * Twenty-five hours later, with a 24-hour threshold, the request is expired
   * and pending: the sweep as written leaves it pending and announces
   * nothing, while the sweep over one clock times it out.
   */
  lemma NaiveClockMissesExpired()
    ensures SweepAsWritten([StaleRequest], SortNewestFirst(PendingOf([StaleRequest]), CreatedAt), 25 * MicrosPerHour, 24, true)
            == ([StaleRequest], [])
    ensures Sweep([StaleRequest], SortNewestFirst(PendingOf([StaleRequest]), CreatedAt), 25 * MicrosPerHour, 24).0
            == [ApplyTimeout(StaleRequest, 25 * MicrosPerHour)]
  {
    var rs := [StaleRequest];
    var now := 25 * MicrosPerHour;
    PendingListing(rs);
    assert StaleRequest in SortNewestFirst(PendingOf(rs), CreatedAt);
    SweepTimesOutExpiredPending(rs, now, 24);
    var after := Sweep(rs, SortNewestFirst(PendingOf(rs), CreatedAt), now, 24).0;
    assert after[0] == ApplyTimeout(StaleRequest, now);
  }
}
