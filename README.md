# AI Supervisor escalation hub — a Dafny model

This project models the core of a human-in-the-loop escalation service for a
voice receptionist. When the voice agent cannot answer a caller, it files a
help request. A supervisor answers the request from a dashboard. The answer is
then stored as a knowledge-base entry, and every connected agent worker
refreshes its copy.

The model has five modules:

- `Models` (models.dfy) — the entities of `backend/models/firebase_models.py`:
  - the three-valued request status and its wire strings;
  - help requests, knowledge-base entries, conversation messages, conversations and statistics, with their declared defaults;
  - their `to_dict`/`from_dict` conversions over a JSON-like `Value`. Validation failure is `None`.
- `Text` (text.dfy) — the string operations the code relies on: ASCII `lower`, substring containment, `str.replace`, and decimal rendering.
- `Store` (store.dfy) — `FirebaseDB` from `backend/config/firebase_connect.py`:
  - a class holding the three collections as sequences in stream order;
  - one method per store operation, each specified against pure functions (newest-first sort, pending filter, status counts, first match), with lemmas about those functions.
- `Server` (server.dfy) — `backend/main.py`:
  - the connection managers of the dashboard and agent hubs. Send failure is an oracle `failed`.
  - `make_json_serializable`;
  - the answers of the two websocket endpoints to inbound frames;
  - the broadcasts of the create, resolve and add-knowledge handlers;
  - one pass of the timeout sweeper.
- `Agent` (agent.dfy) — the worker side in `backend/agents/blown_agent.py`:
  - the cached knowledge base and how it follows websocket messages (reload on `knowledge_base_updated`, upsert by id on `knowledge_base_entry`);
  - the prompt built from the cache;
  - the websocket address derived from the HTTP base address.

The following outside values are parameters of the model:

- The clock reading `now`, an integer count of microseconds.
- The ISO 8601 rendering of an instant, `iso`.
- Firestore's fresh document ids (`newId`, with a requirement that they are unused).
- The HTTP fetch of the agent (`FetchResult`).
- The send-failure oracle of the hubs.

A Firestore `update` of a missing document raises NotFound. Every updating store method catches that and returns false. So `timeout_request`, `update_conversation` and `mark_conversation_escalated` on an unknown id return false and change nothing, as does `resolve_request`, which checks explicitly.

The resolve handler raises HTTP 400 when the store reports failure. It raises it inside its own `try`, so the generic `except Exception` turns it into 500. The model returns 500, as the code does.

## Model

| member | source | states |
|---|---|---|
| Models.StatusWireStrings | backend/models/firebase_models.py:7-10 | exactly "pending", "resolved" and "timeout" parse to a status; each status parses back from its own string, and distinct statuses have distinct strings |
| Models.HelpRequestRoundTrip | backend/models/firebase_models.py:28-38 | `from_dict(to_dict(r))` gives back `r` for every request, whatever the clock reads |
| Models.HelpRequestRequiresPhoneAndQuestion | backend/models/firebase_models.py:15-16 | a dictionary without `customer_phone` or without `question` fails validation |
| Models.HelpRequestToDict | backend/models/firebase_models.py:28-34 | definition of `to_dict`: every field under its own key, timestamps kept as instants; its meaning is the round trip stated by Models.HelpRequestRoundTrip |
| Models.HelpRequestFromDict | backend/models/firebase_models.py:13-38 | definition of `from_dict`: `customer_phone` and `question` required, the declared defaults for the rest, `None` on validation failure; stated by Models.HelpRequestRoundTrip and Models.HelpRequestRequiresPhoneAndQuestion |
| Models.NewHelpRequest | backend/models/firebase_models.py:13-22 | a request built from phone, question and context has no id, status pending, `created_at` = now, and no resolution time, response or assignee |
| Models.EntryRoundTrip | backend/models/firebase_models.py:56-66 | `from_dict(to_dict(e))` gives back `e` for every knowledge-base entry |
| Models.EntryToDict | backend/models/firebase_models.py:56-62 | definition of the entry's `to_dict`; stated by Models.EntryRoundTrip |
| Models.EntryFromDict | backend/models/firebase_models.py:41-66 | definition of the entry's `from_dict` with its defaults; stated by Models.EntryRoundTrip |
| Models.NewEntry | backend/models/firebase_models.py:41-51 | a new entry has category "general", `usage_count` 0, the given source request, no id, and both timestamps at now |
| Models.MessageRoundTrip | backend/models/firebase_models.py:69-81 | a conversation message survives `to_dict` then validation |
| Models.MessageFromDict | backend/models/firebase_models.py:69-72 | definition of `ConversationMessage(**msg)`: `role` and `content` required, `timestamp` defaulting to now; stated by Models.MessageRoundTrip |
| Models.ConvertTranscript | backend/models/firebase_models.py:105-109 | a converted transcript has one message per item |
| Models.TranscriptConversion | backend/models/firebase_models.py:103-110 | the transcript converts exactly when every item converts; message objects are kept as they are and dictionaries become the messages they describe |
| Models.TranscriptRoundTrip | backend/models/firebase_models.py:99-109 | converting the dictionaries written for a transcript gives back that transcript |
| Models.ConversationRoundTrip | backend/models/firebase_models.py:95-110 | `from_dict(to_dict(c))` gives back `c` for every conversation |
| Models.ConversationToDict | backend/models/firebase_models.py:95-101 | definition of the conversation's `to_dict`, each message written by its own `to_dict`; stated by Models.ConversationRoundTrip |
| Models.ConversationFromDict | backend/models/firebase_models.py:103-110 | definition of the conversation's `from_dict`, converting the transcript first; stated by Models.ConversationRoundTrip and Models.TranscriptConversion |
| Models.NewConversation | backend/models/firebase_models.py:84-90 | a new conversation has an empty transcript and is neither escalated nor resolved |
| Text.Lower | backend/config/firebase_connect.py:199-200 | `lower()` keeps the length and folds each character on its own |
| Text.LowerIdempotent | backend/config/firebase_connect.py:199-200 | lower-casing twice is lower-casing once |
| Text.NatToString | backend/agents/blown_agent.py:79-80 | the item number is rendered as a non-empty run of decimal digits that denotes exactly that number (`DecimalValue(r) == n`), with no leading zero |
| Text.DecimalValue | backend/agents/blown_agent.py:79-80 | definition of the number a digit string denotes, the partner against which Text.NatToString is stated |
| Text.ReplaceAll | backend/agents/blown_agent.py:19 | definition of `str.replace`: left to right, every non-overlapping occurrence replaced; stated by Text.ReplaceAbsent, Text.ReplaceAtFront and Agent.WsUrlSchemes |
| Text.ReplaceAbsent | backend/agents/blown_agent.py:19 | `replace` of a pattern that does not occur leaves the text unchanged |
| Text.ReplaceAtFront | backend/agents/blown_agent.py:19 | `replace` of a pattern that occurs only at the front substitutes that one occurrence |
| Store.IndexOf | backend/config/firebase_connect.py:79-84 | the document lookup finds a document with the requested id, and finds none exactly when no document has that id |
| Store.IndexOfUnique | backend/config/firebase_connect.py:79-84 | with distinct ids, looking up a stored document's id finds that document |
| Store.SortNewestFirst | backend/config/firebase_connect.py:71 | definition of the newest-first sort by `created_at` (an insertion sort); stated by Store.SortNewestFirstSpec |
| Store.SortNewestFirstSpec | backend/config/firebase_connect.py:71 | the newest-first sort yields a listing ordered by `created_at`, descending, that is a permutation of its input |
| Store.PendingOf | backend/config/firebase_connect.py:57-61 | the `status == pending` query holds a request iff it is stored and pending |
| Store.PendingListing | backend/config/firebase_connect.py:56-73 | the pending listing is newest first and holds exactly the stored requests whose status is pending |
| Store.ApplyResolve | backend/config/firebase_connect.py:86-92 | definition of the fields `resolve_request` writes (status, response, resolution time, and the assignee exactly as given, null included); stated by Store.FirebaseDB.ResolveRequest and Store.LastWriteWins |
| Store.ApplyTimeout | backend/config/firebase_connect.py:111-115 | definition of the fields `timeout_request` writes (status and resolution time); stated by Store.FirebaseDB.TimeoutRequest and Store.LastWriteWins |
| Store.TimeoutById | backend/config/firebase_connect.py:107-122 | `timeout_request(id)` keeps the store's length and every id; it is the store's new state in Store.FirebaseDB.TimeoutRequest and the step of Server.Sweep |
| Store.LastWriteWins | backend/config/firebase_connect.py:86-115 | neither update checks the status it overwrites: resolving a timed-out request leaves it resolved at the new time, and timing out a resolved one leaves it timed out while it keeps its response and assignee |
| Store.CountStatus | backend/config/firebase_connect.py:147-159 | the count of one status is at most the collection's size |
| Store.StatsOf | backend/config/firebase_connect.py:141-160 | definition of the statistics (size and the count per status); stated by Store.StatsPartition and Store.FirebaseDB.GetRequestStats |
| Store.StatsPartition | backend/config/firebase_connect.py:152-159 | total = pending + resolved + timeout |
| Store.Matches | backend/config/firebase_connect.py:198-201 | definition of the search test: either lower-cased text contains the other; stated by Store.MatchIgnoresCase and Store.MondayExample |
| Store.FirstMatch | backend/config/firebase_connect.py:190-211 | the chosen entry matches, no earlier entry matches, and there is no choice exactly when no entry matches |
| Store.MatchIgnoresCase | backend/config/firebase_connect.py:199-200 | lower-casing the query or the question does not change whether they match |
| Store.MondayExample | backend/config/firebase_connect.py:199-200 | the stored question "open on Monday" answers the query "Do you open on Monday?" |
| Store.ArrayUnion | backend/config/firebase_connect.py:248 | the message is in the new transcript, the old transcript is its prefix, and at most one item is added |
| Store.ArrayUnionIdempotent | backend/config/firebase_connect.py:248 | adding the same message twice equals adding it once |
| Store.FirebaseDB.constructor | backend/config/firebase_connect.py:22-39 | the store starts with three empty collections |
| Store.FirebaseDB.CreateHelpRequest | backend/config/firebase_connect.py:41-54 | appends a pending request with context `{}` when none is given, under the fresh id it returns; lookup of that id finds the new request |
| Store.FirebaseDB.GetPendingRequests | backend/config/firebase_connect.py:56-73 | the listing is the newest-first sort of the pending requests |
| Store.FirebaseDB.ResolveRequest | backend/config/firebase_connect.py:75-105 | true iff the id exists; then that request alone is resolved with response, assignee (possibly null) and time, whatever its status was. A non-empty question also adds exactly one entry sourced from the request. An unknown id changes nothing |
| Store.FirebaseDB.TimeoutRequest | backend/config/firebase_connect.py:107-122 | true iff the id exists; then that request alone gets status timeout and `resolved_at`, whatever its status was. An unknown id changes nothing. The new collection is `TimeoutById` of the old one |
| Store.FirebaseDB.GetAllRequests | backend/config/firebase_connect.py:124-139 | every request, as a permutation sorted newest first |
| Store.FirebaseDB.GetRequestStats | backend/config/firebase_connect.py:141-173 | the counts are the collection's size and the number in each status, and they partition the total |
| Store.FirebaseDB.AddToKnowledgeBase | backend/config/firebase_connect.py:175-188 | always appends exactly one new entry under the fresh id, even for a question already stored |
| Store.FirebaseDB.SearchKnowledgeBase | backend/config/firebase_connect.py:190-211 | returns the first matching entry as it was before the call and raises only its `usage_count`, by one; no match returns None and changes nothing |
| Store.FirebaseDB.GetAllKnowledgeBase | backend/config/firebase_connect.py:213-228 | every entry, as a permutation sorted newest first |
| Store.FirebaseDB.CreateConversation | backend/config/firebase_connect.py:230-239 | appends a new, empty, unescalated conversation under the fresh id |
| Store.FirebaseDB.UpdateConversation | backend/config/firebase_connect.py:241-254 | true iff the message validates and the conversation exists; then only that transcript changes, by array-union with the message |
| Store.FirebaseDB.MarkConversationEscalated | backend/config/firebase_connect.py:256-268 | true iff the conversation exists; then only its `escalated` flag is set |
| Server.ConnectionManager.constructor | backend/main.py:40-41 | a hub starts with no connections |
| Server.ConnectionManager.Connect | backend/main.py:43-48 | connecting adds the handle |
| Server.ConnectionManager.Disconnect | backend/main.py:50-54 | disconnecting removes the handle; an absent handle is a no-op, so twice equals once |
| Server.ConnectionManager.Deliver | backend/main.py:164-165 | a direct `send_json` on a live connection appends the frame to that connection's log only, and the set of connections is unchanged |
| Server.ConnectionManager.DeliverAll | backend/main.py:158-165 | the frames, in order, are appended to that connection's log only, and the set of connections is unchanged |
| Server.ConnectionManager.Broadcast | backend/main.py:56-73 | afterwards the set is the old set minus exactly the failing handles; each surviving handle received the message once and no other handle received anything (an empty hub gets nothing). The agent hub's `broadcast_to_agents` (lines 89-107) is the same code |
| Server.ConnectionManager.TrySend | backend/main.py:64-70 | every live handle is tried once: the collected set is exactly the failing handles, each other live handle received the message, and the set of connections is unchanged |
| Server.ConnectionManager.Evict | backend/main.py:72-73 | the collected handles, and only they, leave the set; nothing is sent |
| Server.EvictionIsStable | backend/main.py:64-73 | after one eviction, no remaining handle fails, so a later broadcast evicts no one |
| Server.MakeJsonSerializable | backend/main.py:114-124 | dictionaries keep their keys and lists their length, each member transformed; a datetime becomes its ISO text; other leaves are unchanged; no datetime remains |
| Server.SerializableUnchanged | backend/main.py:114-124 | a value without datetimes is returned unchanged |
| Server.SerializeIdempotent | backend/main.py:114-124 | serializing twice equals serializing once |
| Server.StatsNeedNoSerialization | backend/main.py:457-459 | statistics hold no datetime, so the sweeper's raw `stats_update` equals the handlers' serialized one |
| Server.KnowledgeBaseFull | backend/main.py:190-199 | the full snapshot is typed `knowledge_base_full`, its `count` equals the length of its `data`, which has one item per entry and no datetime |
| Server.DashboardReply | backend/main.py:166-173 | the dashboard endpoint answers "ping" with "pong" and nothing else, and pings an idle connection |
| Server.AgentReply | backend/main.py:200-218 | the agent endpoint answers "ping" with "pong" and "refresh_kb" with a full snapshot of the entries it is given (Server.AnswerAgent gives it the store's listing), nothing else, and pings an idle connection |
| Server.OpenDashboard | backend/main.py:148-179 | a new dashboard joins the hub and receives the greeting, the statistics and the newest-first pending list; if its sends fail it is disconnected |
| Server.OpenAgent | backend/main.py:182-224 | a new agent joins the hub and receives the greeting and the full snapshot; if its sends fail it is disconnected |
| Server.AnswerAgent | backend/main.py:202-224 | one inbound frame on an agent connection gets exactly the reply `AgentReply` gives over the store's newest-first knowledge-base listing; a reply that fails to send disconnects the handle; no other handle receives anything |
| Server.Dispatch | backend/main.py:56-73 | a sequence of broadcasts drops a hub's failing handles once and delivers that hub's messages, in order, to every other handle of it |
| Server.NewRequestMessage | backend/main.py:258-271 | `new_request` carries id, phone, question, status "pending" and the creation time as ISO text |
| Server.RequestResolvedMessage | backend/main.py:316-326 | `request_resolved` carries the request id and the response |
| Server.SerializedStatsUpdate | backend/main.py:328-331 | the serialized `stats_update` equals the plain one |
| Server.CreateHelpRequestHandler | backend/main.py:246-285 | appends the new pending request under the fresh id and leaves the knowledge base and the conversations unchanged; then broadcasts `new_request` and then the statistics after the insert, to the dashboards only; failing dashboards are dropped and the agent hub is untouched |
| Server.ResolveHandler | backend/main.py:297-358 | 200 iff the request id exists; on 200 that request alone gets the resolution fields, with `assigned_to` the body's optional `supervisor_id` (`"admin"` when omitted, null when sent as null), and a non-empty question appends exactly one entry sourced from it, followed by four broadcasts in order: dashboard `request_resolved`, dashboard `stats_update`, agent `knowledge_base_updated`, dashboard `knowledge_base_updated`. Otherwise 500, no store change and no broadcast. The conversations are unchanged on every path |
| Server.AnnounceResolution | backend/main.py:316-348 | the four broadcasts after a resolution, in order, each hub losing its failing handles |
| Server.AddKnowledgeBaseEntryHandler | backend/main.py:382-412 | appends one entry under the fresh id and leaves the requests and the conversations unchanged, then tells the agents and then the dashboards, each hub losing its failing handles |
| Server.Sweep | backend/main.py:442-459 | a sweep keeps the store's length and every id |
| Server.SweepOutcome | backend/main.py:442-459 | after a sweep over any listing, a stored request is timed out iff an expired request of the listing carries its id, and every other request is unchanged |
| Server.SweepEventCount | backend/main.py:442-459 | a sweep broadcasts two messages per expired listed request, whatever `timeout_request` returned, all to the dashboards |
| Server.Expired | backend/main.py:442-445 | definition of the age test: now minus `created_at` strictly exceeds the threshold in hours; stated by Server.PendingHit and Server.SweepTimesOutExpiredPending |
| Server.PendingHit | backend/main.py:442-446 | a stored request is selected by the sweep iff it is pending and older than the threshold |
| Server.SweepTimesOutExpiredPending | backend/main.py:436-459 | one pass times out exactly the pending requests whose age strictly exceeds the threshold, and leaves every other request unchanged |
| Server.TimeoutExpired | backend/main.py:442-459 | the sweeper's loop leaves the store and the broadcast list as the sweep defines |
| Server.SweepPass | backend/main.py:436-464 | one pass reads the pending listing once, times out as the sweep defines, leaves the knowledge base and the conversations unchanged, and delivers its broadcasts to the surviving dashboards only; the dashboard set loses its failing handles exactly when something was broadcast |
| Server.SweepAsWritten | backend/main.py:442-446 | the pass as written: when the stored timestamps carry a zone and the listing is not empty, the first age test raises, the `except` swallows it and nothing changes; otherwise it is Server.Sweep |
| Server.NaiveClockMissesExpired | backend/main.py:442-462 | a pending request 25 hours old with a 24-hour threshold stays pending and nothing is announced under the pass as written, while the one-clock sweep times it out |
| Agent.GetOrNull | backend/agents/blown_agent.py:172 | `e.get("id")` of an entry without an id is null |
| Agent.Reloaded | backend/agents/blown_agent.py:108-122 | a 200 replaces the cache with the fetched entries (none when the body has no `entries`); a non-200 or failed fetch keeps the old cache |
| Agent.FirstWithId | backend/agents/blown_agent.py:168-175 | the chosen entry has the id, no earlier entry has it, and there is no choice exactly when no entry has it |
| Agent.Upsert | backend/agents/blown_agent.py:168-182 | the received entry is in the new cache, which is as long as the old one or one longer |
| Agent.UpsertPlacement | backend/agents/blown_agent.py:168-182 | a known id keeps the length and puts the entry at the first entry with that id; a new id appends it and the length grows by one |
| Agent.UpsertKeepsOthers | backend/agents/blown_agent.py:168-182 | entries with other ids stay in place, in order, and the new entry is present |
| Agent.UpsertIdempotent | backend/agents/blown_agent.py:168-182 | receiving the same entry twice equals receiving it once |
| Agent.EntryOf | backend/agents/blown_agent.py:163-166 | a usable `knowledge_base_entry` payload has a question |
| Agent.ItemText | backend/agents/blown_agent.py:80-81 | an item renders iff the entry has a question and an answer, and then starts with its number, ". Q: " and the question |
| Agent.Items | backend/agents/blown_agent.py:79-81 | definition of the numbered items of the cache; stated by Agent.ItemsSnoc, Agent.ItemsConcat and Agent.ItemNumbering |
| Agent.ItemsSnoc | backend/agents/blown_agent.py:79-81 | one more cached entry adds its item, numbered after the others |
| Agent.ItemsConcat | backend/agents/blown_agent.py:79-81 | numbering continues across any split of the cache |
| Agent.ItemNumbering | backend/agents/blown_agent.py:79-81 | the k-th cached entry is rendered as item k + 1, between the items before and after it |
| Agent.FullInstructions | backend/agents/blown_agent.py:70-95 | definition of `_build_full_instructions`; stated by Agent.PromptShape and Agent.SalonAssistant.BuildFullInstructions |
| Agent.PromptShape | backend/agents/blown_agent.py:70-95 | a prompt begins with the base text and ends with the closing block; the learned header follows the base exactly when the cache is not empty; an empty cache gives base plus closing block |
| Agent.RendersWhenFieldsPresent | backend/agents/blown_agent.py:79-81 | the items render exactly when every entry has a question and an answer |
| Agent.WsUrl | backend/agents/blown_agent.py:18-19 | definition of `WS_URL` from the base address; stated by Agent.WsUrlSchemes |
| Agent.WsUrlSchemes | backend/agents/blown_agent.py:19 | an `http://` base becomes `ws://` and an `https://` base becomes `wss://`, the rest unchanged (section 3 of RFC 6455) |
| Agent.SalonAssistant.constructor | backend/agents/blown_agent.py:55-62 | the cache starts empty |
| Agent.SalonAssistant.LoadKnowledgeBase | backend/agents/blown_agent.py:97-122 | true iff the fetch returned 200; the cache becomes what `Reloaded` says |
| Agent.SalonAssistant.HandleWsMessage | backend/agents/blown_agent.py:154-187 | `knowledge_base_updated` reloads the cache; a usable `knowledge_base_entry` is upserted; a missing or unusable entry, `ping`, any other type and a non-object message leave the cache unchanged |
| Agent.SalonAssistant.BuildFullInstructions | backend/agents/blown_agent.py:70-95 | the loop builds exactly the prompt `FullInstructions` defines for the current cache |

## Left out

- Firebase credentials and the Firestore client. The store is in memory: each collection is a sequence in stream order, with new documents appended at the end. Firestore streams in document-id order, which depends on the random auto-ids.
- Firestore errors other than NotFound on `update`, such as network failures. They would make the updating methods return false at any point.
- Documents that fail validation. The store holds only well-formed records, so the fallbacks of the listings (append the raw dictionary) and of the statistics scan (skip the document) never run.
- The FastAPI app, CORS, pydantic request-body parsing and the HTTP response bodies. The handlers take the parsed fields; optional fields keep their null (`context` and `supervisor_id` are `Option`s). The handlers return only their status or id and the broadcasts they make.
- The read-only endpoints (`/`, `/api/stats`, the pending, history and knowledge-base listings, and the search endpoint). Each is one call to a modelled store method wrapped in a response body.
- Websocket I/O, the 30 and 60 second idle timeouts, the hourly sleep of the sweeper and the agent's reconnect loop. The model has one reply step, one greeting and one sweep pass.
- Concurrency. Operations run one at a time, and the failure oracle is fixed for the duration of one handler.
- `datetime.now()`. Each operation reads the clock once, as the parameter `now`. The sweeper reads the clock once per pass rather than once per request.
- Time zones. An instant is a plain integer, so every comparison in the model is between instants of one kind. In the code, `datetime.now()` is naive while Firestore hands back zone-aware timestamps; backend/main.py:445 subtracts one from the other. Server.Sweep and everything built on it model the intended one-clock comparison; the pass as written is Server.SweepAsWritten (see Findings).
- The float `avg_resolution_time` and its rounding encoder, and pydantic's type coercions (for example, a numeric string accepted as an integer).
- Unicode case folding. `lower()` folds ASCII letters only.
- `SUPERVISOR_TIMEOUT_HOURS` is a parameter. A non-numeric value would make `int()` raise, which is not modelled.
- The sweep's `if created_at:` test always holds for parsed requests, so the model has no branch for it.
- The LiveKit/OpenAI session, `escalate_to_supervisor`, `notify_customer`, logging and printing. These are foreign calls.
- backend/agents/salon_agent.py is not part of this model (legacy wiring over the same store calls).
- Agent.SalonAssistant.LoadKnowledgeBase: a 200 body that is not an object, or whose `entries` is not a list of objects, is not modelled.
- Agent.Show: f-string rendering of list, object or datetime values in the prompt is not modelled. Such values give None, just as a missing `question` or `answer` (KeyError) does.
- Agent.FirstWithId: ids are compared as JSON values, so Python's `1 == True` and `1 == 1.0` equalities are not modelled.
- Models.ConvertTranscript: its own contract gives only the length; the item-by-item facts are in Models.TranscriptConversion.
- Server.KnowledgeBaseFull and Server.OpenDashboard: records are sent in their `to_dict` form, which holds the same fields and values as pydantic's `.dict()`.

## Findings

| source | as written | input that shows it | evidently intended | confidence | as-written member | corrected member |
|---|---|---|---|---|---|---|
| backend/main.py:445 | `datetime.now() - created_at` subtracts a zone-aware Firestore timestamp from a naive local time; that raises TypeError, which the `except` at line 462 swallows, so a pass with any pending request times out nothing and announces nothing | a pending request created at instant 0, a pass 25 hours later with a 24-hour threshold | compare both instants in one zone (for example `datetime.now(timezone.utc)`), so the request is timed out and announced | medium, not executed; relies on the Firestore client returning zone-aware timestamps | Server.NaiveClockMissesExpired (over Server.SweepAsWritten) | Server.SweepTimesOutExpiredPending (over Server.Sweep, which Server.SweepPass uses) |
