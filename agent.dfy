/**
 * The voice agent's side of backend/agents/blown_agent.py: its local copy of
 * the knowledge base, how that copy follows the messages of the agent
 * websocket, the prompt rendered from it, and the websocket address derived
 * from the HTTP base address.
 *
 * The HTTP fetch of `load_knowledge_base` is a parameter: either a response
 * with a status code and, when the body has one, its `entries` list, or a
 * failed request.
 */
module Agent {
  import opened Models
  import opened Text

  /** A cached entry, as the JSON object the server sent. */
  type CacheEntry = map<string, Value>

  /** `d.get(k)`: the value under `k`, or None (JSON null) when the key is missing. */
  function GetOrNull(d: map<string, Value>, k: string): (v: Value)
    ensures k !in d ==> v == Null
  {
    if k in d then d[k] else Null
  }

  /** What `GET /api/knowledge-base` gave: a status and the body's `entries`, if present, or an exception. */
  datatype FetchResult = Response(status: int, entries: Option<seq<CacheEntry>>) | RequestFailed

  /** The cache after `load_knowledge_base`: the fetched entries on a 200, otherwise the old cache. */
  function Reloaded(kb: seq<CacheEntry>, fetch: FetchResult): (r: seq<CacheEntry>)
    ensures fetch.Response? && fetch.status == 200 && fetch.entries.Some? ==> r == fetch.entries.value
    ensures fetch.Response? && fetch.status == 200 && fetch.entries.None? ==> r == []
    ensures !(fetch.Response? && fetch.status == 200) ==> r == kb
  {
    match fetch
    case RequestFailed => kb
    case Response(status, entries) =>
      if status != 200 then kb
      else match entries
        case None => []
        case Some(es) => es
  }

  // ---------------------------------------------------------------------
  // Upsert by id

  /** The position of the first cached entry whose `id` equals `id` (a missing id reads as null). */
  function FirstWithId(kb: seq<CacheEntry>, id: Value): (r: Option<nat>)
    ensures r.Some? ==> r.value < |kb| && GetOrNull(kb[r.value], "id") == id
    ensures r.Some? ==> forall j :: 0 <= j < r.value ==> GetOrNull(kb[j], "id") != id
    ensures r.None? <==> forall j :: 0 <= j < |kb| ==> GetOrNull(kb[j], "id") != id
  {
    if kb == [] then None
    else if GetOrNull(kb[0], "id") == id then Some(0)
    else match FirstWithId(kb[1..], id)
      case None => None
      case Some(k) => Some(k + 1)
  }

  /** A `knowledge_base_entry` applied to the cache: replaces the first entry with its id, or is appended. */
  function Upsert(kb: seq<CacheEntry>, entry: CacheEntry): (r: seq<CacheEntry>)
    ensures entry in r
    ensures |kb| <= |r| <= |kb| + 1
  {
    match FirstWithId(kb, GetOrNull(entry, "id"))
    case Some(i) => assert kb[i := entry][i] == entry; kb[i := entry]
    case None => assert (kb + [entry])[|kb|] == entry; kb + [entry]
  }

  /** A known id keeps the length and puts the entry where the first entry with that id was; a new id adds one at the end. */
  lemma UpsertPlacement(kb: seq<CacheEntry>, entry: CacheEntry)
    ensures FirstWithId(kb, GetOrNull(entry, "id")).Some? ==>
      |Upsert(kb, entry)| == |kb| && Upsert(kb, entry)[FirstWithId(kb, GetOrNull(entry, "id")).value] == entry
    ensures FirstWithId(kb, GetOrNull(entry, "id")).None? ==>
      |Upsert(kb, entry)| == |kb| + 1 && Upsert(kb, entry)[|kb|] == entry
  {
  }

  /** Every entry with another id stays where it was, so their order is kept. */
  lemma UpsertKeepsOthers(kb: seq<CacheEntry>, entry: CacheEntry)
    ensures |kb| <= |Upsert(kb, entry)|
    ensures forall j :: 0 <= j < |kb| && GetOrNull(kb[j], "id") != GetOrNull(entry, "id") ==> Upsert(kb, entry)[j] == kb[j]
    ensures entry in Upsert(kb, entry)
  {
    match FirstWithId(kb, GetOrNull(entry, "id"))
    case Some(i) => assert Upsert(kb, entry)[i] == entry;
    case None => assert Upsert(kb, entry)[|kb|] == entry;
  }

  /** Receiving the same entry twice leaves the cache as receiving it once. */
  lemma UpsertIdempotent(kb: seq<CacheEntry>, entry: CacheEntry)
    ensures Upsert(Upsert(kb, entry), entry) == Upsert(kb, entry)
  {
    var id := GetOrNull(entry, "id");
    var once := Upsert(kb, entry);
    match FirstWithId(kb, id)
    case Some(i) =>
      assert once[i] == entry;
      forall j | 0 <= j < i ensures GetOrNull(once[j], "id") != id {
        assert once[j] == kb[j];
      }
      var again := FirstWithId(once, id);
      assert again.Some? && again.value <= i;
      assert again.value == i;
      assert once[i := entry] == once;
    case None =>
      assert once[|kb|] == entry;
      forall j | 0 <= j < |kb| ensures GetOrNull(once[j], "id") != id {
        assert once[j] == kb[j];
      }
      var again := FirstWithId(once, id);
      assert again.Some? && again.value == |kb|;
      assert once[|kb| := entry] == once;
  }

  // ---------------------------------------------------------------------
  // Messages of the agent websocket

  /** The message is a JSON object whose `type` is `t`. */
  predicate IsType(data: Value, t: string)
  {
    data.Dict? && GetOrNull(data.fields, "type") == Str(t)
  }

  /**
   * The entry a `knowledge_base_entry` message carries, when it can be used:
   * `data` must be a non-empty object with a `question` (reading the question
   * of anything else raises, and the listener drops the message).
   */
  function EntryOf(data: Value): (r: Option<CacheEntry>)
    requires data.Dict?
    ensures r.Some? ==> "question" in r.value
  {
    var entry := GetOrNull(data.fields, "data");
    if entry.Dict? && "question" in entry.fields then Some(entry.fields) else None
  }

  // ---------------------------------------------------------------------
  // The prompt

  /** The 70-character rule of equals signs. */
  const Rule: string := "======================================================================"

  const BaseInstructions: string :=
    "You are an AI receptionist for Blown Salons.\n\n" +
    "BUSINESS DETAILS:\n" +
    "- Name: Blown Salons\n" +
    "- Address: MG Road, Bangalore\n" +
    "- Phone: 9382929399\n\n" +
    "SERVICES & PRICING:\n" +
    "- Haircut: 1000\n" +
    "- Hair Coloring: 1500  \n" +
    "- Highlights: 2000\n" +
    "- Manicure: 500\n" +
    "- Pedicure: 600\n" +
    "- Facial: 1000\n" +
    "- Full Makeover: 2500\n\n" +
    "HOURS:\n" +
    "- Tuesday to Sunday: 10:00 AM - 7:00 PM\n" +
    "- Monday: CLOSED\n\n" +
    "POLICIES:\n" +
    "- Appointments recommended, walk-ins accepted if available\n" +
    "- 24-hour cancellation policy\n" +
    "- 10% discount for first-time customers\n\n" +
    "STAFF:\n" +
    "- Shivani (Owner & Senior Stylist)\n" +
    "- Shweta (Hair Specialist)\n" +
    "- Priya (Nail Technician)\n" +
    "- Geeta (Makeup Artist)\n"

  /** The heading of the learned-knowledge section. */
  const LearnedHeader: string :=
    "\n\n" + Rule + "\nLEARNED KNOWLEDGE FROM SUPERVISOR:\n" + Rule + "\n" +
    "Use this information to answer customer questions:\n\n"

  /** The closing block every prompt ends with. */
  const Footer: string :=
    "\n" + Rule + "\nIMPORTANT INSTRUCTIONS:" + "\n" + Rule +
    "\n- Be friendly, warm, and professional\n" +
    "- Answer using the base information OR the learned knowledge above\n" +
    "- If you cannot find the answer in either, use escalate_to_supervisor function\n" +
    "- NEVER make up information not provided above\n" +
    "- Keep responses natural and conversational\n" +
    "- The knowledge base above is always current and up-to-date\n"

  /** `str(n)` for an integer. */
  function IntToString(i: int): string
  {
    if i < 0 then "-" + NatToString(-i) else NatToString(i)
  }

  /**
   * How an f-string shows a JSON scalar: text as itself, null as `None`,
   * booleans as `True`/`False`, integers in decimal.  Lists, objects and the
   * other values are not rendered by this model.
   */
  function Show(v: Value): Option<string>
  {
    match v
    case Str(s) => Some(s)
    case Null => Some("None")
    case Bool(b) => Some(if b then "True" else "False")
    case Int(i) => Some(IntToString(i))
    case _ => None
  }

  /** `entry[k]` shown in an f-string; a missing key raises KeyError, here None. */
  function FieldText(e: CacheEntry, k: string): Option<string>
  {
    if k in e then Show(e[k]) else None
  }

  /** The two lines of entry number `n`: they render when both fields can be shown, and open with the number. */
  function ItemText(n: nat, e: CacheEntry): (r: Option<string>)
    ensures r.Some? <==> FieldText(e, "question").Some? && FieldText(e, "answer").Some?
    ensures r.Some? ==> NatToString(n) + ". Q: " + FieldText(e, "question").value <= r.value
  {
    var q :- FieldText(e, "question");
    var a :- FieldText(e, "answer");
    Some(NatToString(n) + ". Q: " + q + "\n" + "   A: " + a + "\n\n")
  }

  /** The items of `kb`, numbered from `first` on, in cache order. */
  function Items(kb: seq<CacheEntry>, first: nat): Option<string>
  {
    if kb == [] then Some("")
    else
      var head :- ItemText(first, kb[0]);
      var rest :- Items(kb[1..], first + 1);
      Some(head + rest)
  }

  /** A prompt: `base`, then `header` and the numbered items when there are entries, then `footer`. */
  function Prompt(kb: seq<CacheEntry>, base: string, header: string, footer: string): Option<string>
  {
    if kb == [] then Some(base + footer)
    else
      var items :- Items(kb, 1);
      Some(base + header + items + footer)
  }

  /** `_build_full_instructions`: the base text, the learned section when the cache is not empty, and the closing block. */
  function FullInstructions(kb: seq<CacheEntry>): Option<string>
  {
    Prompt(kb, BaseInstructions, LearnedHeader, Footer)
  }

  /** Two rendered pieces side by side; `None` when either failed to render. */
  function Join(x: Option<string>, y: Option<string>): Option<string>
  {
    if x.Some? && y.Some? then Some(x.value + y.value) else None
  }

  lemma JoinAssociative(x: Option<string>, y: Option<string>, z: Option<string>)
    ensures Join(x, Join(y, z)) == Join(Join(x, y), z)
  {
    if x.Some? && y.Some? && z.Some? {
      assert x.value + (y.value + z.value) == (x.value + y.value) + z.value;
    }
  }

  /** Appending an entry appends its item, numbered right after the others. */
  lemma {:induction false} ItemsSnoc(kb: seq<CacheEntry>, e: CacheEntry, first: nat)
    ensures Items(kb + [e], first) == Join(Items(kb, first), ItemText(first + |kb|, e))
  {
    if kb == [] {
      assert [e][1..] == [];
      if ItemText(first, e).Some? {
        assert ItemText(first, e).value + "" == "" + ItemText(first, e).value;
      }
    } else {
      assert (kb + [e])[0] == kb[0];
      assert (kb + [e])[1..] == kb[1..] + [e];
      ItemsSnoc(kb[1..], e, first + 1);
      var head := ItemText(first, kb[0]);
      var rest := Items(kb[1..], first + 1);
      var item := ItemText(first + |kb|, e);
      JoinAssociative(head, rest, item);
    }
  }

  /** Numbering continues across a split of the cache: the second part starts at the first part's length plus one. */
  lemma {:induction false} ItemsConcat(a: seq<CacheEntry>, b: seq<CacheEntry>, first: nat)
    ensures Items(a + b, first) == Join(Items(a, first), Items(b, first + |a|))
  {
    if a == [] {
      assert a + b == b;
      if Items(b, first).Some? {
        assert "" + Items(b, first).value == Items(b, first).value;
      }
    } else {
      assert (a + b)[0] == a[0];
      assert (a + b)[1..] == a[1..] + b;
      ItemsConcat(a[1..], b, first + 1);
      assert first + 1 + |a[1..]| == first + |a|;
      var head := ItemText(first, a[0]);
      var rest := Items(a[1..], first + 1);
      var tail := Items(b, first + |a|);
      JoinAssociative(head, rest, tail);
      calc {
        Items(a + b, first);
        Join(head, Items(a[1..] + b, first + 1));
        Join(head, Join(rest, tail));
        Join(Join(head, rest), tail);
        Join(Items(a, first), tail);
      }
    }
  }

  /** Entry number `k + 1` of the cache is rendered as the `k`-th item, whenever the whole list renders. */
  lemma {:induction false} ItemNumbering(kb: seq<CacheEntry>, k: nat)
    requires k < |kb| && Items(kb, 1).Some?
    ensures ItemText(k + 1, kb[k]).Some?
    ensures Items(kb[..k], 1).Some? && Items(kb[k + 1..], k + 2).Some?
    ensures Items(kb, 1).value == Items(kb[..k], 1).value + ItemText(k + 1, kb[k]).value + Items(kb[k + 1..], k + 2).value
  {
    assert kb == kb[..k] + kb[k..];
    ItemsConcat(kb[..k], kb[k..], 1);
    assert kb[k..][1..] == kb[k + 1..];
  }

  /**
   * Every prompt begins with its base text and ends with its closing block;
   * the header follows the base exactly when the cache is not empty, and an
   * empty cache gives the base and the closing block alone.
   */
  lemma PromptShape(kb: seq<CacheEntry>, base: string, header: string, footer: string)
    ensures kb == [] ==> Prompt(kb, base, header, footer) == Some(base + footer)
    ensures Prompt(kb, base, header, footer).Some? ==>
      var text := Prompt(kb, base, header, footer).value;
      && base <= text
      && |footer| <= |text| && text[|text| - |footer|..] == footer
    ensures kb != [] && Prompt(kb, base, header, footer).Some? ==>
      var text := Prompt(kb, base, header, footer).value;
      |base| + |header| <= |text| && text[|base|..|base| + |header|] == header
  {
    if kb == [] {
      Framed(base, [], [], footer);
      assert base + [] + [] + footer == base + footer;
    } else if Prompt(kb, base, header, footer).Some? {
      Framed(base, header, Items(kb, 1).value, footer);
    }
  }

  /** Where the four parts of `base + header + body + footer` sit. */
  lemma Framed(base: string, header: string, body: string, footer: string)
    ensures var text := base + header + body + footer;
      && base <= text
      && text[|base|..|base| + |header|] == header
      && text[|text| - |footer|..] == footer
  {
    var text := base + header + body + footer;
    assert text == base + (header + (body + footer));
    assert text[|base|..] == header + (body + footer);
    assert text == (base + header + body) + footer;
  }

  /** The prompt renders exactly when every cached entry has a question and an answer this model can show. */
  lemma {:induction false} RendersWhenFieldsPresent(kb: seq<CacheEntry>, first: nat)
    ensures Items(kb, first).Some? <==>
      forall j :: 0 <= j < |kb| ==> FieldText(kb[j], "question").Some? && FieldText(kb[j], "answer").Some?
  {
    if kb != [] {
      RendersWhenFieldsPresent(kb[1..], first + 1);
      assert forall j :: 1 <= j < |kb| ==> kb[j] == kb[1..][j - 1];
    }
  }

  // ---------------------------------------------------------------------
  // The websocket address

  /** `API_BASE_URL.replace("http://", "ws://").replace("https://", "wss://")`. */
  function WsUrl(base: string): string
  {
    ReplaceAll(ReplaceAll(base, "http://", "ws://"), "https://", "wss://")
  }

  /** `pattern` occurs nowhere in `prefix + host` when no occurrence starts inside `prefix` and none lies in `host`. */
  lemma NoEarlyOccurrence(prefix: string, host: string, pattern: string)
    requires |pattern| > 0
    requires forall i :: 0 <= i < |prefix| ==> !OccursAt(prefix + host, pattern, i)
    requires forall i :: !OccursAt(host, pattern, i)
    ensures forall i :: !OccursAt(prefix + host, pattern, i)
  {
    var s := prefix + host;
    forall i ensures !OccursAt(s, pattern, i) {
      if |prefix| <= i && i + |pattern| <= |s| {
        assert s[i..i + |pattern|] == host[i - |prefix|..i - |prefix| + |pattern|];
        assert !OccursAt(host, pattern, i - |prefix|);
      }
    }
  }

  /**
   * The websocket URI schemes of section 3 of RFC 6455: a plain `http` base
   * becomes `ws`, a TLS `https` base becomes `wss`, the rest of the address
   * unchanged.
   */
  lemma WsUrlSchemes(host: string)
    requires forall i :: !OccursAt(host, "http://", i)
    requires forall i :: !OccursAt(host, "https://", i)
    ensures WsUrl("http://" + host) == "ws://" + host
    ensures WsUrl("https://" + host) == "wss://" + host
  {
    ReplaceAtFront(host, "http://", "ws://");
    var ws := "ws://" + host;
    forall i | 0 <= i < |"ws://"| ensures !OccursAt(ws, "https://", i) {
      if i + 8 <= |ws| {
        assert ws[i..i + 8][0] == ws[i] != 'h';
      }
    }
    NoEarlyOccurrence("ws://", host, "https://");
    ReplaceAbsent(ws, "https://", "wss://");

    var https := "https://" + host;
    forall i | 0 <= i < |"https://"| ensures !OccursAt(https, "http://", i) {
      if i + 7 <= |https| {
        if i == 0 {
          assert https[i..i + 7][4] == 's';
        } else {
          assert https[i..i + 7][0] == https[i] != 'h';
        }
      }
    }
    NoEarlyOccurrence("https://", host, "http://");
    ReplaceAbsent("https://" + host, "http://", "ws://");
    ReplaceAtFront(host, "https://", "wss://");
  }

  // ---------------------------------------------------------------------
  // The assistant

  /** `SalonAssistant`, reduced to its knowledge-base cache. */
  class SalonAssistant {
    var knowledgeBase: seq<CacheEntry>

    constructor ()
      ensures knowledgeBase == []
    {
      knowledgeBase := [];
    }

    /** `load_knowledge_base`: true and the fetched entries on a 200; false and the old cache otherwise. */
    method LoadKnowledgeBase(fetch: FetchResult) returns (ok: bool)
      modifies this
      ensures ok <==> fetch.Response? && fetch.status == 200
      ensures knowledgeBase == Reloaded(old(knowledgeBase), fetch)
    {
      if fetch.RequestFailed? {
        return false;
      }
      if fetch.status == 200 {
        knowledgeBase := if fetch.entries.Some? then fetch.entries.value else [];
        return true;
      }
      return false;
    }

    /**
     * `_handle_ws_message`: `knowledge_base_updated` reloads the cache through
     * `fetch`; a usable `knowledge_base_entry` is upserted by id; `ping`, any
     * other type, and a message that is not an object leave the cache alone.
     */
    method HandleWsMessage(data: Value, fetch: FetchResult)
      modifies this
      ensures IsType(data, "knowledge_base_updated") ==> knowledgeBase == Reloaded(old(knowledgeBase), fetch)
      ensures IsType(data, "knowledge_base_entry") && EntryOf(data).Some? ==>
                knowledgeBase == Upsert(old(knowledgeBase), EntryOf(data).value)
      ensures IsType(data, "knowledge_base_entry") && EntryOf(data).None? ==> knowledgeBase == old(knowledgeBase)
      ensures !IsType(data, "knowledge_base_updated") && !IsType(data, "knowledge_base_entry") ==>
                knowledgeBase == old(knowledgeBase)
    {
      if !data.Dict? {
        return;
      }
      var kind := GetOrNull(data.fields, "type");
      if kind == Str("knowledge_base_updated") {
        var _ := LoadKnowledgeBase(fetch);
      } else if kind == Str("knowledge_base_entry") {
        var entry := GetOrNull(data.fields, "data");
        if entry.Dict? && "question" in entry.fields {
          var id := GetOrNull(entry.fields, "id");
          var i := 0;
          while i < |knowledgeBase| && GetOrNull(knowledgeBase[i], "id") != id
            invariant 0 <= i <= |knowledgeBase|
            invariant forall j :: 0 <= j < i ==> GetOrNull(knowledgeBase[j], "id") != id
          {
            i := i + 1;
          }
          if i < |knowledgeBase| {
            knowledgeBase := knowledgeBase[i := entry.fields];
          } else {
            knowledgeBase := knowledgeBase + [entry.fields];
          }
        }
      }
    }

    /** The `instructions` property: the prompt text built entry by entry, or None where a field cannot be read. */
    method BuildFullInstructions() returns (r: Option<string>)
      ensures r == FullInstructions(knowledgeBase)
    {
      if knowledgeBase == [] {
        return Some(BaseInstructions + Footer);
      }
      var items := "";
      var i := 0;
      while i < |knowledgeBase|
        invariant 0 <= i <= |knowledgeBase|
        invariant Items(knowledgeBase[..i], 1) == Some(items)
      {
        ItemsSnoc(knowledgeBase[..i], knowledgeBase[i], 1);
        assert knowledgeBase[..i + 1] == knowledgeBase[..i] + [knowledgeBase[i]];
        var line := ItemText(i + 1, knowledgeBase[i]);
        if line.None? {
          RendersWhenFieldsPresent(knowledgeBase, 1);
          return None;
        }
        items := items + line.value;
        i := i + 1;
      }
      assert knowledgeBase[..i] == knowledgeBase;
      r := Some(BaseInstructions + LearnedHeader + items + Footer);
    }
  }
}
