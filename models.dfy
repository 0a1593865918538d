/**
 * The entity data model of the escalation hub (backend/models/firebase_models.py):
 * the request status enumeration, the four stored or reported records, their
 * default field values, and the conversions between a record and the
 * dictionary that is written to, and read back from, the document store.
 *
 * A dictionary is a `Doc`, a finite map from key to `Value`; `Value` is the
 * closed set of things the store and the JSON channels carry.  A record's
 * `from_dict` is pydantic's `cls(**data)`: required keys must be present with
 * the right type, absent optional keys take their declared default, and
 * unknown keys are ignored.
 */
module Models {

  /** An instant on the service clock, in whole microseconds (the resolution of a Python datetime). */
  type Instant = int

  const MicrosPerHour: int := 3_600_000_000

  datatype Option<T> = None | Some(value: T) {
    predicate IsFailure() { None? }
    function PropagateFailure<U>(): Option<U> requires None? { None }
    function Extract(): T requires Some? { value }
  }

  /** One utterance of a call transcript. */
  datatype ConversationMessage = ConversationMessage(role: string, content: string, timestamp: Instant)

  /**
   * A value held in a document or a JSON payload.  `Time` is a datetime object
   * (not yet rendered as text); `MessageObject` is an already-constructed
   * ConversationMessage object sitting inside a dictionary.
   */
  datatype Value =
    | Null
    | Bool(b: bool)
    | Int(i: int)
    | Str(s: string)
    | Time(t: Instant)
    | List(items: seq<Value>)
    | Dict(fields: map<string, Value>)
    | MessageObject(msg: ConversationMessage)

  type Doc = map<string, Value>

  /** Names of the three store collections. */
  const HelpRequestsCollection: string := "help_requests"
  const KnowledgeBaseCollection: string := "knowledge_base"
  const ConversationsCollection: string := "conversations"

  // ---------------------------------------------------------------------
  // RequestStatus

  datatype RequestStatus = Pending | Resolved | Timeout

  /** The string a status is stored and sent as. */
  function StatusValue(s: RequestStatus): string
  {
    match s
    case Pending => "pending"
    case Resolved => "resolved"
    case Timeout => "timeout"
  }

  /** Validation of a stored status string back into the enumeration. */
  function ParseStatus(w: string): Option<RequestStatus>
  {
    if w == "pending" then Some(Pending)
    else if w == "resolved" then Some(Resolved)
    else if w == "timeout" then Some(Timeout)
    else None
  }

  /** The three wire strings are exactly the statuses, each parsing back to the status it came from. */
  lemma StatusWireStrings(w: string)
    ensures ParseStatus(w).Some? <==> w in {"pending", "resolved", "timeout"}
    ensures ParseStatus(w).Some? ==> StatusValue(ParseStatus(w).value) == w
    ensures forall s :: ParseStatus(StatusValue(s)) == Some(s)
    ensures forall s, t :: StatusValue(s) == StatusValue(t) ==> s == t
  {
  }

  // ---------------------------------------------------------------------
  // Field validation, one helper per declared field type

  /** A required `str` field. */
  function RequiredStr(d: Doc, key: string): Option<string>
  {
    if key in d && d[key].Str? then Some(d[key].s) else None
  }

  /** A `str` field with a default. */
  function StrOr(d: Doc, key: string, default: string): Option<string>
  {
    if key !in d then Some(default)
    else if d[key].Str? then Some(d[key].s)
    else None
  }

  /** An `Optional[str]` field, default None. */
  function OptionalStr(d: Doc, key: string): Option<Option<string>>
  {
    if key !in d || d[key].Null? then Some(None)
    else if d[key].Str? then Some(Some(d[key].s))
    else None
  }

  /** A `datetime` field whose default is the clock reading `now`. */
  function TimeOr(d: Doc, key: string, now: Instant): Option<Instant>
  {
    if key !in d then Some(now)
    else if d[key].Time? then Some(d[key].t)
    else None
  }

  /** An `Optional[datetime]` field, default None. */
  function OptionalTime(d: Doc, key: string): Option<Option<Instant>>
  {
    if key !in d || d[key].Null? then Some(None)
    else if d[key].Time? then Some(Some(d[key].t))
    else None
  }

  function IntOr(d: Doc, key: string, default: int): Option<int>
  {
    if key !in d then Some(default)
    else if d[key].Int? then Some(d[key].i)
    else None
  }

  function BoolOr(d: Doc, key: string, default: bool): Option<bool>
  {
    if key !in d then Some(default)
    else if d[key].Bool? then Some(d[key].b)
    else None
  }

  /** A `Dict` field whose default is the empty dictionary. */
  function DictOr(d: Doc, key: string): Option<map<string, Value>>
  {
    if key !in d then Some(map[])
    else if d[key].Dict? then Some(d[key].fields)
    else None
  }

  /** A `RequestStatus` field, default pending, given as its wire string. */
  function StatusOr(d: Doc, key: string): Option<RequestStatus>
  {
    if key !in d then Some(Pending)
    else if d[key].Str? then ParseStatus(d[key].s)
    else None
  }

  function OptionalStrValue(o: Option<string>): Value
  {
    match o
    case None => Null
    case Some(s) => Str(s)
  }

  function OptionalTimeValue(o: Option<Instant>): Value
  {
    match o
    case None => Null
    case Some(t) => Time(t)
  }

  // ---------------------------------------------------------------------
  // HelpRequest

  datatype HelpRequest = HelpRequest(
    id: Option<string>,
    customerPhone: string,
    question: string,
    context: map<string, Value>,
    status: RequestStatus,
    createdAt: Instant,
    resolvedAt: Option<Instant>,
    supervisorResponse: Option<string>,
    assignedTo: Option<string>)

  /** `to_dict`: every field under its key; the status as its wire string, datetimes kept as datetimes. */
  function HelpRequestToDict(r: HelpRequest): Doc
  {
    map[
      "id" := OptionalStrValue(r.id),
      "customer_phone" := Str(r.customerPhone),
      "question" := Str(r.question),
      "context" := Dict(r.context),
      "status" := Str(StatusValue(r.status)),
      "created_at" := Time(r.createdAt),
      "resolved_at" := OptionalTimeValue(r.resolvedAt),
      "supervisor_response" := OptionalStrValue(r.supervisorResponse),
      "assigned_to" := OptionalStrValue(r.assignedTo)
    ]
  }

  /** `from_dict`, i.e. `HelpRequest(**data)`; None is a validation error. */
  function HelpRequestFromDict(d: Doc, now: Instant): Option<HelpRequest>
  {
    var id :- OptionalStr(d, "id");
    var phone :- RequiredStr(d, "customer_phone");
    var question :- RequiredStr(d, "question");
    var context :- DictOr(d, "context");
    var status :- StatusOr(d, "status");
    var createdAt :- TimeOr(d, "created_at", now);
    var resolvedAt :- OptionalTime(d, "resolved_at");
    var response :- OptionalStr(d, "supervisor_response");
    var assignedTo :- OptionalStr(d, "assigned_to");
    Some(HelpRequest(id, phone, question, context, status, createdAt, resolvedAt, response, assignedTo))
  }

  /** Reading back what `to_dict` wrote reconstructs the request, whatever the clock says. */
  lemma HelpRequestRoundTrip(r: HelpRequest, now: Instant)
    ensures HelpRequestFromDict(HelpRequestToDict(r), now) == Some(r)
  {
    var d := HelpRequestToDict(r);
    assert OptionalStr(d, "id") == Some(r.id);
    assert RequiredStr(d, "customer_phone") == Some(r.customerPhone);
    assert RequiredStr(d, "question") == Some(r.question);
    assert DictOr(d, "context") == Some(r.context);
    assert StatusOr(d, "status") == Some(r.status);
    assert TimeOr(d, "created_at", now) == Some(r.createdAt);
    assert OptionalTime(d, "resolved_at") == Some(r.resolvedAt);
    assert OptionalStr(d, "supervisor_response") == Some(r.supervisorResponse);
    assert OptionalStr(d, "assigned_to") == Some(r.assignedTo);
  }

  /** Without the two required keys there is no request. */
  lemma HelpRequestRequiresPhoneAndQuestion(d: Doc, now: Instant)
    requires "customer_phone" !in d || "question" !in d
    ensures HelpRequestFromDict(d, now) == None
  {
  }

  /**
   * `HelpRequest(customer_phone=..., question=..., context=...)`: the record the
   * store creates, with every other field at its declared default.
   */
  function NewHelpRequest(phone: string, question: string, context: map<string, Value>, now: Instant): (r: HelpRequest)
    ensures r.customerPhone == phone && r.question == question && r.context == context
    ensures r.id == None && r.status == Pending && r.createdAt == now
    ensures r.resolvedAt == None && r.supervisorResponse == None && r.assignedTo == None
  {
    var parsed := HelpRequestFromDict(map["customer_phone" := Str(phone), "question" := Str(question), "context" := Dict(context)], now);
    parsed.value
  }

  // ---------------------------------------------------------------------
  // KnowledgeBaseEntry

  datatype KnowledgeBaseEntry = KnowledgeBaseEntry(
    id: Option<string>,
    question: string,
    answer: string,
    category: string,
    createdFromRequest: Option<string>,
    usageCount: int,
    createdAt: Instant,
    updatedAt: Instant)

  function EntryToDict(e: KnowledgeBaseEntry): Doc
  {
    map[
      "id" := OptionalStrValue(e.id),
      "question" := Str(e.question),
      "answer" := Str(e.answer),
      "category" := Str(e.category),
      "created_from_request" := OptionalStrValue(e.createdFromRequest),
      "usage_count" := Int(e.usageCount),
      "created_at" := Time(e.createdAt),
      "updated_at" := Time(e.updatedAt)
    ]
  }

  function EntryFromDict(d: Doc, now: Instant): Option<KnowledgeBaseEntry>
  {
    var id :- OptionalStr(d, "id");
    var question :- RequiredStr(d, "question");
    var answer :- RequiredStr(d, "answer");
    var category :- StrOr(d, "category", "general");
    var source :- OptionalStr(d, "created_from_request");
    var usage :- IntOr(d, "usage_count", 0);
    var createdAt :- TimeOr(d, "created_at", now);
    var updatedAt :- TimeOr(d, "updated_at", now);
    Some(KnowledgeBaseEntry(id, question, answer, category, source, usage, createdAt, updatedAt))
  }

  lemma EntryRoundTrip(e: KnowledgeBaseEntry, now: Instant)
    ensures EntryFromDict(EntryToDict(e), now) == Some(e)
  {
    var d := EntryToDict(e);
    assert OptionalStr(d, "id") == Some(e.id);
    assert RequiredStr(d, "question") == Some(e.question);
    assert RequiredStr(d, "answer") == Some(e.answer);
    assert StrOr(d, "category", "general") == Some(e.category);
    assert OptionalStr(d, "created_from_request") == Some(e.createdFromRequest);
    assert IntOr(d, "usage_count", 0) == Some(e.usageCount);
    assert TimeOr(d, "created_at", now) == Some(e.createdAt);
    assert TimeOr(d, "updated_at", now) == Some(e.updatedAt);
  }

  /**
   * `KnowledgeBaseEntry(question=..., answer=..., created_from_request=...)`:
   * category "general", never used, stamped with the clock reading.
   */
  function NewEntry(question: string, answer: string, source: Option<string>, now: Instant): (e: KnowledgeBaseEntry)
    ensures e.question == question && e.answer == answer && e.createdFromRequest == source
    ensures e.id == None && e.category == "general" && e.usageCount == 0
    ensures e.createdAt == now && e.updatedAt == now
  {
    var parsed := EntryFromDict(map["question" := Str(question), "answer" := Str(answer),
                                    "created_from_request" := OptionalStrValue(source)], now);
    parsed.value
  }

  // ---------------------------------------------------------------------
  // ConversationMessage and Conversation

  function MessageToDict(m: ConversationMessage): Doc
  {
    map["role" := Str(m.role), "content" := Str(m.content), "timestamp" := Time(m.timestamp)]
  }

  /** `ConversationMessage(**msg)`: role and content are required, the timestamp defaults to now. */
  function MessageFromDict(d: Doc, now: Instant): Option<ConversationMessage>
  {
    var role :- RequiredStr(d, "role");
    var content :- RequiredStr(d, "content");
    var timestamp :- TimeOr(d, "timestamp", now);
    Some(ConversationMessage(role, content, timestamp))
  }

  lemma MessageRoundTrip(m: ConversationMessage, now: Instant)
    ensures MessageFromDict(MessageToDict(m), now) == Some(m)
  {
  }

  datatype Conversation = Conversation(
    id: Option<string>,
    customerPhone: string,
    transcript: seq<ConversationMessage>,
    escalated: bool,
    resolved: bool,
    createdAt: Instant)

  function TranscriptToList(t: seq<ConversationMessage>): (r: seq<Value>)
    ensures |r| == |t|
  {
    if t == [] then [] else TranscriptToList(t[..|t| - 1]) + [Dict(MessageToDict(t[|t| - 1]))]
  }

  function ConversationToDict(c: Conversation): Doc
  {
    map[
      "id" := OptionalStrValue(c.id),
      "customer_phone" := Str(c.customerPhone),
      "transcript" := List(TranscriptToList(c.transcript)),
      "escalated" := Bool(c.escalated),
      "resolved" := Bool(c.resolved),
      "created_at" := Time(c.createdAt)
    ]
  }

  /** How one transcript item turns into a message: a dictionary is validated, a message object is kept. */
  function ItemMessage(item: Value, now: Instant): Option<ConversationMessage>
  {
    match item
    case Dict(fields) => MessageFromDict(fields, now)
    case MessageObject(m) => Some(m)
    case _ => None
  }

  /**
   * The list comprehension of `Conversation.from_dict` followed by the
   * validation of the `transcript` field: every item converts, in order, or
   * the whole conversion fails.
   */
  function ConvertTranscript(items: seq<Value>, now: Instant): (r: Option<seq<ConversationMessage>>)
    ensures r.Some? ==> |r.value| == |items|
  {
    if items == [] then Some([])
    else
      var front :- ConvertTranscript(items[..|items| - 1], now);
      var last :- ItemMessage(items[|items| - 1], now);
      Some(front + [last])
  }

  /**
   * The conversion succeeds exactly when every item converts; then
   * already-typed items pass through unchanged and dictionary items become
   * the messages they describe.
   */
  lemma {:induction false} TranscriptConversion(items: seq<Value>, now: Instant)
    ensures ConvertTranscript(items, now).Some? <==> forall i :: 0 <= i < |items| ==> ItemMessage(items[i], now).Some?
    ensures ConvertTranscript(items, now).Some? ==>
      forall i :: 0 <= i < |items| && items[i].MessageObject? ==> ConvertTranscript(items, now).value[i] == items[i].msg
    ensures ConvertTranscript(items, now).Some? ==>
      forall i :: 0 <= i < |items| && items[i].Dict? ==> Some(ConvertTranscript(items, now).value[i]) == MessageFromDict(items[i].fields, now)
  {
    if items != [] {
      var front, last := items[..|items| - 1], items[|items| - 1];
      TranscriptConversion(front, now);
      var r := ConvertTranscript(items, now);
      if r.Some? {
        var f := ConvertTranscript(front, now).value;
        assert r.value == f + [ItemMessage(last, now).value];
        forall i | 0 <= i < |items|
          ensures Some(r.value[i]) == ItemMessage(items[i], now)
        {
          if i < |items| - 1 {
            assert items[i] == front[i];
            assert items[i].MessageObject? ==> f[i] == items[i].msg;
            assert items[i].Dict? ==> Some(f[i]) == MessageFromDict(items[i].fields, now);
          }
        }
      } else if ConvertTranscript(front, now).Some? {
        assert ItemMessage(items[|items| - 1], now).None?;
      } else {
        var j :| 0 <= j < |front| && ItemMessage(front[j], now).None?;
        assert items[j] == front[j];
      }
    }
  }

  /** The `transcript` field: absent means empty, a list is converted item by item, anything else is invalid. */
  function TranscriptField(d: Doc, now: Instant): Option<seq<ConversationMessage>>
  {
    if "transcript" !in d then Some([])
    else if d["transcript"].List? then ConvertTranscript(d["transcript"].items, now)
    else None
  }

  function ConversationFromDict(d: Doc, now: Instant): Option<Conversation>
  {
    var id :- OptionalStr(d, "id");
    var phone :- RequiredStr(d, "customer_phone");
    var transcript :- TranscriptField(d, now);
    var escalated :- BoolOr(d, "escalated", false);
    var resolved :- BoolOr(d, "resolved", false);
    var createdAt :- TimeOr(d, "created_at", now);
    Some(Conversation(id, phone, transcript, escalated, resolved, createdAt))
  }

  lemma {:induction false} TranscriptRoundTrip(t: seq<ConversationMessage>, now: Instant)
    ensures ConvertTranscript(TranscriptToList(t), now) == Some(t)
  {
    if t != [] {
      var front, last := t[..|t| - 1], t[|t| - 1];
      TranscriptRoundTrip(front, now);
      MessageRoundTrip(last, now);
      var items := TranscriptToList(t);
      assert items == TranscriptToList(front) + [Dict(MessageToDict(last))];
      assert items[..|items| - 1] == TranscriptToList(front);
      assert ItemMessage(items[|items| - 1], now) == Some(last);
      assert ConvertTranscript(items, now) == Some(front + [last]);
      assert front + [last] == t;
    }
  }

  lemma ConversationFromValidFields(d: Doc, now: Instant, c: Conversation)
    requires OptionalStr(d, "id") == Some(c.id)
    requires RequiredStr(d, "customer_phone") == Some(c.customerPhone)
    requires TranscriptField(d, now) == Some(c.transcript)
    requires BoolOr(d, "escalated", false) == Some(c.escalated)
    requires BoolOr(d, "resolved", false) == Some(c.resolved)
    requires TimeOr(d, "created_at", now) == Some(c.createdAt)
    ensures ConversationFromDict(d, now) == Some(c)
  {
  }

  lemma ConversationDictFields(c: Conversation)
    ensures var d := ConversationToDict(c);
      && "id" in d && d["id"] == OptionalStrValue(c.id)
      && "customer_phone" in d && d["customer_phone"] == Str(c.customerPhone)
      && "transcript" in d && d["transcript"] == List(TranscriptToList(c.transcript))
      && "escalated" in d && d["escalated"] == Bool(c.escalated)
      && "resolved" in d && d["resolved"] == Bool(c.resolved)
      && "created_at" in d && d["created_at"] == Time(c.createdAt)
  {
  }

  lemma ConversationRoundTrip(c: Conversation, now: Instant)
    ensures ConversationFromDict(ConversationToDict(c), now) == Some(c)
  {
    var d := ConversationToDict(c);
    ConversationDictFields(c);
    TranscriptRoundTrip(c.transcript, now);
    ConversationFromValidFields(d, now, c);
  }

  /** `Conversation(customer_phone=...)`: an empty transcript, neither escalated nor resolved. */
  function NewConversation(phone: string, now: Instant): (c: Conversation)
    ensures c.customerPhone == phone && c.id == None && c.createdAt == now
    ensures c.transcript == [] && !c.escalated && !c.resolved
  {
    var parsed := ConversationFromDict(map["customer_phone" := Str(phone)], now);
    parsed.value
  }

  // ---------------------------------------------------------------------
  // RequestStats

  /**
   * The counters of the statistics report.  The float `avg_resolution_time`
   * is not part of this model.
   */
  datatype RequestStats = RequestStats(total: nat, pending: nat, resolved: nat, timeout: nat)

  const ZeroStats: RequestStats := RequestStats(0, 0, 0, 0)

  function StatsToDict(s: RequestStats): Doc
  {
    map["total" := Int(s.total), "pending" := Int(s.pending), "resolved" := Int(s.resolved), "timeout" := Int(s.timeout)]
  }
}
