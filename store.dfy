/**
 * The store service of backend/config/firebase_connect.py: the escalation
 * lifecycle (create, resolve, timeout), the statistics scan, the knowledge
 * base (add, match, list) and the conversation log, over an in-memory store.
 *
 * Each Firestore collection is a sequence of records in the order the
 * collection streams them; a document's id is its record's `id`.  A new
 * document's auto-generated id and the clock reading are parameters.  A
 * Firestore `update` of a document that does not exist raises NotFound,
 * which every updating method here catches and reports as `false`.
 */
module Store {
  import opened Models
  import opened Text

  // ---------------------------------------------------------------------
  // Document ids

  function RequestId(r: HelpRequest): Option<string> { r.id }
  function EntryId(e: KnowledgeBaseEntry): Option<string> { e.id }
  function ConversationId(c: Conversation): Option<string> { c.id }

  /** Every document carries an id and no two documents of a collection share one. */
  ghost predicate DistinctIds<T>(s: seq<T>, id: T -> Option<string>)
  {
    && (forall i :: 0 <= i < |s| ==> id(s[i]).Some?)
    && (forall i, j :: 0 <= i < j < |s| ==> id(s[i]) != id(s[j]))
  }

  /** No document of the collection has id `key`. */
  predicate Absent<T>(s: seq<T>, id: T -> Option<string>, key: string)
  {
    forall i :: 0 <= i < |s| ==> id(s[i]) != Some(key)
  }

  /** `collection.document(key)`: the position of the document with that id, if it exists. */
  function IndexOf<T>(s: seq<T>, id: T -> Option<string>, key: string): (r: Option<nat>)
    ensures r.Some? ==> r.value < |s| && id(s[r.value]) == Some(key)
    ensures r.None? <==> Absent(s, id, key)
  {
    if s == [] then None
    else if id(s[0]) == Some(key) then Some(0)
    else match IndexOf(s[1..], id, key)
      case None => None
      case Some(k) => Some(k + 1)
  }

  /** Under distinct ids a document is found exactly where its id is. */
  lemma IndexOfUnique<T>(s: seq<T>, id: T -> Option<string>, k: nat)
    requires DistinctIds(s, id) && k < |s|
    ensures IndexOf(s, id, id(s[k]).value) == Some(k)
  {
    var r := IndexOf(s, id, id(s[k]).value);
    assert r.Some?;
    assert id(s[r.value]) == id(s[k]);
  }

  lemma AppendKeepsDistinct<T>(s: seq<T>, id: T -> Option<string>, x: T, key: string)
    requires DistinctIds(s, id) && Absent(s, id, key) && id(x) == Some(key)
    ensures DistinctIds(s + [x], id)
  {
  }

  lemma UpdateKeepsDistinct<T>(s: seq<T>, id: T -> Option<string>, k: nat, x: T)
    requires DistinctIds(s, id) && k < |s| && id(x) == id(s[k])
    ensures DistinctIds(s[k := x], id)
  {
  }

  // ---------------------------------------------------------------------
  // Newest-first ordering: `list.sort(key=created_at, reverse=True)`

  ghost predicate SortedNewestFirst<T>(s: seq<T>, key: T -> Instant)
  {
    forall i, j :: 0 <= i < j < |s| ==> key(s[i]) >= key(s[j])
  }

  /** Puts `x` in front of the first element that is not newer than it, so ties keep their order. */
  function Insert<T>(x: T, s: seq<T>, key: T -> Instant): seq<T>
  {
    if s == [] then [x]
    else if key(s[0]) <= key(x) then [x] + s
    else [s[0]] + Insert(x, s[1..], key)
  }

  function SortNewestFirst<T>(s: seq<T>, key: T -> Instant): seq<T>
  {
    if s == [] then [] else Insert(s[0], SortNewestFirst(s[1..], key), key)
  }

  lemma {:induction false} InsertPermutation<T>(x: T, s: seq<T>, key: T -> Instant)
    ensures multiset(Insert(x, s, key)) == multiset(s) + multiset{x}
  {
    if s != [] && key(s[0]) > key(x) {
      InsertPermutation(x, s[1..], key);
      assert s == [s[0]] + s[1..];
    }
  }

  lemma {:induction false} InsertSorted<T>(x: T, s: seq<T>, key: T -> Instant)
    requires SortedNewestFirst(s, key)
    ensures SortedNewestFirst(Insert(x, s, key), key)
  {
    if s != [] && key(s[0]) > key(x) {
      InsertSorted(x, s[1..], key);
      InsertPermutation(x, s[1..], key);
      var t := Insert(x, s[1..], key);
      forall j | 0 <= j < |t| ensures key(s[0]) >= key(t[j]) {
        assert t[j] in multiset(s[1..]) + multiset{x};
        if t[j] != x {
          var k :| 0 <= k < |s[1..]| && s[1..][k] == t[j];
          assert s[k + 1] == t[j];
        }
      }
      assert Insert(x, s, key) == [s[0]] + t;
    }
  }

  /** The listing is newest first and holds exactly the listed records. */
  lemma {:induction false} SortNewestFirstSpec<T>(s: seq<T>, key: T -> Instant)
    ensures SortedNewestFirst(SortNewestFirst(s, key), key)
    ensures multiset(SortNewestFirst(s, key)) == multiset(s)
  {
    if s != [] {
      SortNewestFirstSpec(s[1..], key);
      InsertSorted(s[0], SortNewestFirst(s[1..], key), key);
      InsertPermutation(s[0], SortNewestFirst(s[1..], key), key);
      assert s == [s[0]] + s[1..];
    }
  }

  function CreatedAt(r: HelpRequest): Instant { r.createdAt }
  function EntryCreatedAt(e: KnowledgeBaseEntry): Instant { e.createdAt }

  // ---------------------------------------------------------------------
  // Pure pieces of the lifecycle

  /** The `where("status", "==", "pending")` query, in stream order. */
  function PendingOf(rs: seq<HelpRequest>): (r: seq<HelpRequest>)
    ensures forall x :: x in r ==> x in rs && x.status == Pending
    ensures forall x :: x in rs && x.status == Pending ==> x in r
  {
    if rs == [] then []
    else
      var front := rs[..|rs| - 1];
      assert forall x :: x in rs ==> x in front || x == rs[|rs| - 1];
      PendingOf(front) + (if rs[|rs| - 1].status == Pending then [rs[|rs| - 1]] else [])
  }

  /** `get_pending_requests` lists exactly the pending requests, newest first. */
  lemma PendingListing(rs: seq<HelpRequest>)
    ensures SortedNewestFirst(SortNewestFirst(PendingOf(rs), CreatedAt), CreatedAt)
    ensures forall x :: x in SortNewestFirst(PendingOf(rs), CreatedAt) <==> x in rs && x.status == Pending
  {
    SortNewestFirstSpec(PendingOf(rs), CreatedAt);
    var l := SortNewestFirst(PendingOf(rs), CreatedAt);
    forall x ensures x in l <==> x in PendingOf(rs) {
      assert x in l <==> x in multiset(l);
    }
  }

  /** `context or {}`. */
  function ContextOrEmpty(context: Option<map<string, Value>>): map<string, Value>
  {
    match context
    case None => map[]
    case Some(c) => c
  }

  /** The fields `resolve_request` writes. */
  function ApplyResolve(r: HelpRequest, response: string, supervisorId: Option<string>, now: Instant): HelpRequest
  {
    r.(status := Resolved, supervisorResponse := Some(response), resolvedAt := Some(now), assignedTo := supervisorId)
  }

  /** The fields `timeout_request` writes. */
  function ApplyTimeout(r: HelpRequest, now: Instant): HelpRequest
  {
    r.(status := Timeout, resolvedAt := Some(now))
  }

  /**
   * The store after `timeout_request(id)`: the request with that id, if any,
   * gets the fields `ApplyTimeout` writes; an unknown id, or a request without
   * an id (which names no document), leaves the store as it was.
   */
  function TimeoutById(rs: seq<HelpRequest>, id: Option<string>, now: Instant): (r: seq<HelpRequest>)
    ensures |r| == |rs|
    ensures forall k :: 0 <= k < |rs| ==> r[k].id == rs[k].id
  {
    if id.None? then rs
    else match IndexOf(rs, RequestId, id.value)
      case None => rs
      case Some(i) => rs[i := ApplyTimeout(rs[i], now)]
  }

  /**
   * Neither update looks at the status it overwrites: a timed-out request that
   * is resolved reads as resolved, and a resolved request that is then timed out
   * reads as timed out while keeping its supervisor response and assignee.
   */
  lemma LastWriteWins(r: HelpRequest, response: string, supervisorId: Option<string>, t1: Instant, t2: Instant)
    ensures ApplyResolve(ApplyTimeout(r, t1), response, supervisorId, t2).status == Resolved
    ensures ApplyResolve(ApplyTimeout(r, t1), response, supervisorId, t2).resolvedAt == Some(t2)
    ensures ApplyTimeout(ApplyResolve(r, response, supervisorId, t1), t2).status == Timeout
    ensures ApplyTimeout(ApplyResolve(r, response, supervisorId, t1), t2).supervisorResponse == Some(response)
    ensures ApplyTimeout(ApplyResolve(r, response, supervisorId, t1), t2).assignedTo == supervisorId
  {
  }

  /** The number of requests in status `st`. */
  function CountStatus(rs: seq<HelpRequest>, st: RequestStatus): (n: nat)
    ensures n <= |rs|
  {
    if rs == [] then 0
    else CountStatus(rs[..|rs| - 1], st) + (if rs[|rs| - 1].status == st then 1 else 0)
  }

  /** The statistics of a collection: its size and the count in each status. */
  function StatsOf(rs: seq<HelpRequest>): RequestStats
  {
    RequestStats(|rs|, CountStatus(rs, Pending), CountStatus(rs, Resolved), CountStatus(rs, Timeout))
  }

  /** Every request is in exactly one of the three statuses. */
  lemma {:induction false} StatsPartition(rs: seq<HelpRequest>)
    ensures StatsOf(rs).total == StatsOf(rs).pending + StatsOf(rs).resolved + StatsOf(rs).timeout
  {
    if rs != [] {
      StatsPartition(rs[..|rs| - 1]);
    }
  }

  // ---------------------------------------------------------------------
  // Knowledge-base matching

  /** Case-insensitive containment in either direction. */
  predicate Matches(query: string, question: string)
  {
    Contains(Lower(question), Lower(query)) || Contains(Lower(query), Lower(question))
  }

  /** The position of the first entry, in stream order, whose question matches. */
  function FirstMatch(kb: seq<KnowledgeBaseEntry>, query: string): (r: Option<nat>)
    ensures r.Some? ==> r.value < |kb| && Matches(query, kb[r.value].question)
    ensures r.Some? ==> forall j :: 0 <= j < r.value ==> !Matches(query, kb[j].question)
    ensures r.None? <==> forall j :: 0 <= j < |kb| ==> !Matches(query, kb[j].question)
  {
    if kb == [] then None
    else if Matches(query, kb[0].question) then Some(0)
    else match FirstMatch(kb[1..], query)
      case None => None
      case Some(k) => Some(k + 1)
  }

  /** The match does not depend on letter case in either string. */
  lemma MatchIgnoresCase(query: string, question: string)
    ensures Matches(Lower(query), question) == Matches(query, question)
    ensures Matches(query, Lower(question)) == Matches(query, question)
  {
    LowerIdempotent(query);
    LowerIdempotent(question);
  }

  /** The entry "open on Monday" answers "Do you open on Monday?". */
  lemma MondayExample()
    ensures Matches("Do you open on Monday?", "open on Monday")
  {
    var q := Lower("Do you open on Monday?");
    var e := Lower("open on Monday");
    assert q[7..7 + |e|] == e;
    assert OccursAt(q, e, 7);
  }

  /** Firestore's `ArrayUnion([x])`: add `x` unless an equal element is already there. */
  function ArrayUnion<T(==)>(arr: seq<T>, x: T): (r: seq<T>)
    ensures x in r
    ensures arr <= r && |r| <= |arr| + 1
  {
    if x in arr then arr else arr + [x]
  }

  lemma ArrayUnionIdempotent<T>(arr: seq<T>, x: T)
    ensures ArrayUnion(ArrayUnion(arr, x), x) == ArrayUnion(arr, x)
  {
  }

  // ---------------------------------------------------------------------
  // The store

  class FirebaseDB {
    var helpRequests: seq<HelpRequest>
    var knowledgeBase: seq<KnowledgeBaseEntry>
    var conversations: seq<Conversation>

    ghost predicate Valid()
      reads this
    {
      && DistinctIds(helpRequests, RequestId)
      && DistinctIds(knowledgeBase, EntryId)
      && DistinctIds(conversations, ConversationId)
    }

    constructor ()
      ensures Valid()
      ensures helpRequests == [] && knowledgeBase == [] && conversations == []
    {
      helpRequests, knowledgeBase, conversations := [], [], [];
    }

    /** Stores a new pending request under the fresh id `newId` and returns that id. */
    method CreateHelpRequest(phone: string, question: string, context: Option<map<string, Value>>, newId: string, now: Instant)
      returns (id: string)
      requires Valid() && Absent(helpRequests, RequestId, newId)
      modifies this
      ensures Valid()
      ensures id == newId
      ensures helpRequests == old(helpRequests) + [NewHelpRequest(phone, question, ContextOrEmpty(context), now).(id := Some(newId))]
      ensures IndexOf(helpRequests, RequestId, id) == Some(|old(helpRequests)|)
      ensures knowledgeBase == old(knowledgeBase) && conversations == old(conversations)
    {
      var request := NewHelpRequest(phone, question, ContextOrEmpty(context), now);
      request := request.(id := Some(newId));
      AppendKeepsDistinct(helpRequests, RequestId, request, newId);
      helpRequests := helpRequests + [request];
      IndexOfUnique(helpRequests, RequestId, |helpRequests| - 1);
      id := newId;
    }

    /** The pending requests, newest first. */
    method GetPendingRequests() returns (list: seq<HelpRequest>)
      ensures list == SortNewestFirst(PendingOf(helpRequests), CreatedAt)
    {
      list := [];
      var i := 0;
      while i < |helpRequests|
        invariant 0 <= i <= |helpRequests|
        invariant list == PendingOf(helpRequests[..i])
      {
        assert helpRequests[..i + 1][..i] == helpRequests[..i];
        if helpRequests[i].status == Pending {
          list := list + [helpRequests[i]];
        }
        i := i + 1;
      }
      assert helpRequests[..i] == helpRequests;
      list := SortNewestFirst(list, CreatedAt);
    }

    /**
     * Marks an existing request resolved, whatever its status was, and adds its
     * question with the response to the knowledge base under `newEntryId`
     * when the question is not empty.  An unknown id changes nothing.
     */
    method ResolveRequest(requestId: string, response: string, supervisorId: Option<string>, newEntryId: string, now: Instant)
      returns (ok: bool)
      requires Valid() && Absent(knowledgeBase, EntryId, newEntryId)
      modifies this
      ensures Valid()
      ensures ok <==> IndexOf(old(helpRequests), RequestId, requestId).Some?
      ensures !ok ==> helpRequests == old(helpRequests) && knowledgeBase == old(knowledgeBase)
      ensures ok ==>
        var i := IndexOf(old(helpRequests), RequestId, requestId).value;
        var r := old(helpRequests)[i];
        && helpRequests == old(helpRequests)[i := ApplyResolve(r, response, supervisorId, now)]
        && knowledgeBase == old(knowledgeBase) +
             (if r.question != "" then [NewEntry(r.question, response, Some(requestId), now).(id := Some(newEntryId))] else [])
      ensures conversations == old(conversations)
    {
      var found := IndexOf(helpRequests, RequestId, requestId);
      if found.None? {
        return false;
      }
      var i := found.value;
      var before := helpRequests[i];
      UpdateKeepsDistinct(helpRequests, RequestId, i, ApplyResolve(before, response, supervisorId, now));
      helpRequests := helpRequests[i := ApplyResolve(before, response, supervisorId, now)];
      if before.question != "" {
        var _ := AddToKnowledgeBase(before.question, response, Some(requestId), newEntryId, now);
      }
      ok := true;
    }

    /** Marks an existing request timed out, whatever its status was; an unknown id changes nothing. */
    method TimeoutRequest(requestId: string, now: Instant) returns (ok: bool)
      requires Valid()
      modifies this
      ensures Valid()
      ensures ok <==> IndexOf(old(helpRequests), RequestId, requestId).Some?
      ensures !ok ==> helpRequests == old(helpRequests)
      ensures ok ==>
        var i := IndexOf(old(helpRequests), RequestId, requestId).value;
        helpRequests == old(helpRequests)[i := ApplyTimeout(old(helpRequests)[i], now)]
      ensures helpRequests == TimeoutById(old(helpRequests), Some(requestId), now)
      ensures knowledgeBase == old(knowledgeBase) && conversations == old(conversations)
    {
      var found := IndexOf(helpRequests, RequestId, requestId);
      if found.None? {
        return false;
      }
      var i := found.value;
      UpdateKeepsDistinct(helpRequests, RequestId, i, ApplyTimeout(helpRequests[i], now));
      helpRequests := helpRequests[i := ApplyTimeout(helpRequests[i], now)];
      ok := true;
    }

    /** Every request, newest first. */
    method GetAllRequests() returns (list: seq<HelpRequest>)
      ensures list == SortNewestFirst(helpRequests, CreatedAt)
      ensures |list| == |helpRequests|
      ensures multiset(list) == multiset(helpRequests)
      ensures SortedNewestFirst(list, CreatedAt)
    {
      list := [];
      var i := 0;
      while i < |helpRequests|
        invariant 0 <= i <= |helpRequests|
        invariant list == helpRequests[..i]
      {
        list := list + [helpRequests[i]];
        i := i + 1;
      }
      assert list == helpRequests;
      SortNewestFirstSpec(list, CreatedAt);
      list := SortNewestFirst(list, CreatedAt);
      assert |list| == |multiset(list)|;
    }

    /** The counts over the whole collection. */
    method GetRequestStats() returns (stats: RequestStats)
      ensures stats == StatsOf(helpRequests)
      ensures stats.total == stats.pending + stats.resolved + stats.timeout
    {
      stats := ZeroStats;
      var i := 0;
      while i < |helpRequests|
        invariant 0 <= i <= |helpRequests|
        invariant stats == StatsOf(helpRequests[..i])
      {
        assert helpRequests[..i + 1][..i] == helpRequests[..i];
        var status := helpRequests[i].status;
        stats := stats.(total := stats.total + 1);
        if status == Pending {
          stats := stats.(pending := stats.pending + 1);
        } else if status == Resolved {
          stats := stats.(resolved := stats.resolved + 1);
        } else {
          stats := stats.(timeout := stats.timeout + 1);
        }
        i := i + 1;
      }
      assert helpRequests[..i] == helpRequests;
      StatsPartition(helpRequests);
    }

    /** Always adds one new entry under the fresh id, even when an entry with the same question exists. */
    method AddToKnowledgeBase(question: string, answer: string, source: Option<string>, newId: string, now: Instant)
      returns (id: string)
      requires Valid() && Absent(knowledgeBase, EntryId, newId)
      modifies this
      ensures Valid()
      ensures id == newId
      ensures knowledgeBase == old(knowledgeBase) + [NewEntry(question, answer, source, now).(id := Some(newId))]
      ensures helpRequests == old(helpRequests) && conversations == old(conversations)
    {
      var entry := NewEntry(question, answer, source, now).(id := Some(newId));
      AppendKeepsDistinct(knowledgeBase, EntryId, entry, newId);
      knowledgeBase := knowledgeBase + [entry];
      id := newId;
    }

    /**
     * Returns the first entry whose question matches, as it was before its
     * usage count went up by one; no match returns None and changes nothing.
     */
    method SearchKnowledgeBase(query: string) returns (found: Option<KnowledgeBaseEntry>)
      requires Valid()
      modifies this
      ensures Valid()
      ensures found.None? <==> FirstMatch(old(knowledgeBase), query).None?
      ensures found.None? ==> knowledgeBase == old(knowledgeBase)
      ensures found.Some? ==>
        var i := FirstMatch(old(knowledgeBase), query).value;
        && found.value == old(knowledgeBase)[i]
        && knowledgeBase == old(knowledgeBase)[i := old(knowledgeBase)[i].(usageCount := old(knowledgeBase)[i].usageCount + 1)]
      ensures helpRequests == old(helpRequests) && conversations == old(conversations)
    {
      var i := 0;
      while i < |knowledgeBase|
        invariant 0 <= i <= |knowledgeBase|
        invariant knowledgeBase == old(knowledgeBase)
        invariant forall j :: 0 <= j < i ==> !Matches(query, knowledgeBase[j].question)
      {
        var entry := knowledgeBase[i];
        if Matches(query, entry.question) {
          UpdateKeepsDistinct(knowledgeBase, EntryId, i, entry.(usageCount := entry.usageCount + 1));
          knowledgeBase := knowledgeBase[i := entry.(usageCount := entry.usageCount + 1)];
          ghost var m := FirstMatch(old(knowledgeBase), query);
          assert m.Some?;
          assert m.value == i;
          return Some(entry);
        }
        i := i + 1;
      }
      found := None;
    }

    /** Every entry, newest first. */
    method GetAllKnowledgeBase() returns (list: seq<KnowledgeBaseEntry>)
      ensures list == SortNewestFirst(knowledgeBase, EntryCreatedAt)
      ensures |list| == |knowledgeBase|
      ensures multiset(list) == multiset(knowledgeBase)
      ensures SortedNewestFirst(list, EntryCreatedAt)
    {
      list := [];
      var i := 0;
      while i < |knowledgeBase|
        invariant 0 <= i <= |knowledgeBase|
        invariant list == knowledgeBase[..i]
      {
        list := list + [knowledgeBase[i]];
        i := i + 1;
      }
      assert list == knowledgeBase;
      SortNewestFirstSpec(list, EntryCreatedAt);
      list := SortNewestFirst(list, EntryCreatedAt);
      assert |list| == |multiset(list)|;
    }

    method CreateConversation(phone: string, newId: string, now: Instant) returns (id: string)
      requires Valid() && Absent(conversations, ConversationId, newId)
      modifies this
      ensures Valid()
      ensures id == newId
      ensures conversations == old(conversations) + [NewConversation(phone, now).(id := Some(newId))]
      ensures helpRequests == old(helpRequests) && knowledgeBase == old(knowledgeBase)
    {
      var conversation := NewConversation(phone, now).(id := Some(newId));
      AppendKeepsDistinct(conversations, ConversationId, conversation, newId);
      conversations := conversations + [conversation];
      id := newId;
    }

    /**
     * Validates `message` as a ConversationMessage and array-unions it into the
     * transcript; an invalid message or an unknown conversation gives false and
     * changes nothing.
     */
    method UpdateConversation(conversationId: string, message: Doc, now: Instant) returns (ok: bool)
      requires Valid()
      modifies this
      ensures Valid()
      ensures ok <==> MessageFromDict(message, now).Some? && IndexOf(old(conversations), ConversationId, conversationId).Some?
      ensures !ok ==> conversations == old(conversations)
      ensures ok ==>
        var i := IndexOf(old(conversations), ConversationId, conversationId).value;
        var c := old(conversations)[i];
        conversations == old(conversations)[i := c.(transcript := ArrayUnion(c.transcript, MessageFromDict(message, now).value))]
      ensures helpRequests == old(helpRequests) && knowledgeBase == old(knowledgeBase)
    {
      var msg := MessageFromDict(message, now);
      if msg.None? {
        return false;
      }
      var found := IndexOf(conversations, ConversationId, conversationId);
      if found.None? {
        return false;
      }
      var i := found.value;
      var c := conversations[i];
      UpdateKeepsDistinct(conversations, ConversationId, i, c.(transcript := ArrayUnion(c.transcript, msg.value)));
      conversations := conversations[i := c.(transcript := ArrayUnion(c.transcript, msg.value))];
      ok := true;
    }

    /** Sets the escalated flag of an existing conversation; an unknown id gives false. */
    method MarkConversationEscalated(conversationId: string) returns (ok: bool)
      requires Valid()
      modifies this
      ensures Valid()
      ensures ok <==> IndexOf(old(conversations), ConversationId, conversationId).Some?
      ensures !ok ==> conversations == old(conversations)
      ensures ok ==>
        var i := IndexOf(old(conversations), ConversationId, conversationId).value;
        conversations == old(conversations)[i := old(conversations)[i].(escalated := true)]
      ensures helpRequests == old(helpRequests) && knowledgeBase == old(knowledgeBase)
    {
      var found := IndexOf(conversations, ConversationId, conversationId);
      if found.None? {
        return false;
      }
      var i := found.value;
      UpdateKeepsDistinct(conversations, ConversationId, i, conversations[i].(escalated := true));
      conversations := conversations[i := conversations[i].(escalated := true)];
      ok := true;
    }
  }
}
