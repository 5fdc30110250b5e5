/** The conversation routes of src/routers/chat.py: creating and listing conversations, the
    ownership check, and `send_message`, which stores the user's message, asks the generator
    for personas and stores the reply, one row per persona, per demographics object and per
    list element. The generator is the validator of generator.dfy applied to what the
    language model returned, or the text of the exception it raised. */
module ChatRouter {
  import opened Wrappers
  import opened Strings
  import opened JsonValues
  import opened Tables
  import Generator
  import ExportRouter

  const DefaultTitle: string := "New Conversation"
  const NotFound: string := "Conversation not found"

  /** `create_conversation` (src/routers/chat.py:17-28) for the user `userId`. */
  function CreateConversationStep(t: Tables, userId: Id, title: Option<string>, now: Time): (r: (Tables, Conversation))
    ensures r.1.title == Some(if title.Some? && title.value != "" then title.value else DefaultTitle)
    ensures r.1.userId == userId && r.1.id !in ConversationIds(t.conversations)
    ensures r.0 == t.(conversations := t.conversations + [r.1])
  {
    var conv := Conversation(NextId(ConversationIds(t.conversations)), userId,
                             Some(if title.Some? && title.value != "" then title.value else DefaultTitle), now, now);
    (t.(conversations := t.conversations + [conv]), conv)
  }

  /** `list_conversations` (src/routers/chat.py:30-35): the user's own conversations. */
  function ListConversations(cs: seq<Conversation>, userId: Id): (r: seq<Conversation>)
    ensures forall c :: c in r <==> c in cs && c.userId == userId
  {
    if cs == [] then []
    else if cs[0].userId == userId then [cs[0]] + ListConversations(cs[1..], userId)
    else ListConversations(cs[1..], userId)
  }

  /** The check `if not conv or conv.user_id != user.id` (src/routers/chat.py:43-44,54-55,66-67). */
  function OwnedConversation(t: Tables, convId: Id, userId: Id): (r: Option<nat>)
    ensures r.Some? ==> r.value < |t.conversations| && t.conversations[r.value].id == convId
                        && t.conversations[r.value].userId == userId
    ensures r.None? <==> FindConversation(t.conversations, convId).None?
                         || t.conversations[FindConversation(t.conversations, convId).value].userId != userId
  {
    match FindConversation(t.conversations, convId)
    case None => None
    case Some(i) => if t.conversations[i].userId == userId then Some(i) else None
  }

  /** With unique conversation ids, a refusal means that no conversation with that id is the
      user's: another user's conversation is indistinguishable from a missing one. */
  lemma RefusedMeansNotOwned(t: Tables, convId: Id, userId: Id)
    requires Distinct(ConversationIds(t.conversations))
    requires OwnedConversation(t, convId, userId).None?
    ensures forall i :: 0 <= i < |t.conversations| && t.conversations[i].id == convId ==>
              t.conversations[i].userId != userId
  {
    var ids := ConversationIds(t.conversations);
    match FindConversation(t.conversations, convId)
    case None =>
    case Some(k) =>
      forall i | 0 <= i < |t.conversations| && t.conversations[i].id == convId
        ensures t.conversations[i].userId != userId
      {
        assert ids[i] == ids[k];
      }
  }

  /** `get_conversation` (src/routers/chat.py:37-46). */
  function GetConversation(t: Tables, convId: Id, userId: Id): (r: Reply<Conversation>)
    ensures r.HttpError? <==> OwnedConversation(t, convId, userId).None?
    ensures r.HttpError? ==> r == HttpError(404, NotFound)
    ensures r.Ok? ==> r.value in t.conversations && r.value.id == convId && r.value.userId == userId
  {
    match OwnedConversation(t, convId, userId)
    case None => HttpError(404, NotFound)
    case Some(i) => Ok(t.conversations[i])
  }

  /** The messages of a conversation, in table order. */
  function MessagesOf(ms: seq<Message>, convId: Id): (r: seq<Message>)
    ensures forall m :: m in r <==> m in ms && m.conversationId == convId
  {
    if ms == [] then []
    else if ms[0].conversationId == convId then [ms[0]] + MessagesOf(ms[1..], convId)
    else MessagesOf(ms[1..], convId)
  }

  /** `get_messages` (src/routers/chat.py:48-57). */
  function GetMessages(t: Tables, convId: Id, userId: Id): (r: Reply<seq<Message>>)
    ensures r.HttpError? <==> OwnedConversation(t, convId, userId).None?
    ensures r.HttpError? ==> r == HttpError(404, NotFound)
    ensures r.Ok? ==> r.value == MessagesOf(t.messages, convId)
  {
    match OwnedConversation(t, convId, userId)
    case None => HttpError(404, NotFound)
    case Some(_) => Ok(MessagesOf(t.messages, convId))
  }

  // ---- send_message ----

  /** What `generate_personas` did: returned the validator's result for the model's output, or
      raised with this text. */
  datatype Generation = GenerationRaised(message: string) | GenerationReturned(decoded: Generator.Decoded)

  /** The keys the route reads from a persona with `p_data[...]`, and its six lists. */
  predicate PersonaShape(p: Json)
  {
    && p.Dict?
    && "name" in p.fields && "status" in p.fields && "role" in p.fields && "tech_comfort" in p.fields
    && ListKeysPresent(p.fields, ListKeys)
  }

  /** The JSON key and table kind of each list are present, and each value is a list. */
  predicate ListKeysPresent(fields: map<string, Json>, keys: seq<(string, ListKind)>)
  {
    forall k :: 0 <= k < |keys| ==> keys[k].0 in fields && fields[keys[k].0].List?
  }

  /** A persona the validator accepts has everything the route reads. */
  lemma ValidPersonaHasShape(p: Json)
    requires Generator.ValidPersona(p)
    ensures PersonaShape(p)
  {
    var m := p.fields;
    Generator.ListFieldsAreRequired(m);
    assert Generator.AllLists(Generator.ListFields, m);
    forall k | 0 <= k < |ListKeys|
      ensures ListKeys[k].0 in m && m[ListKeys[k].0].List?
    {
      assert ListKeys[k].0 in Generator.ListFields;
    }
    assert Generator.RequiredFields[0] == "name" && Generator.RequiredFields[1] == "status";
    assert Generator.RequiredFields[2] == "role" && Generator.RequiredFields[7] == "tech_comfort";
  }

  /** `persona_data.get("personas", [])` for the validator's result. */
  function PersonaList(d: Generator.Decoded): (r: seq<Json>)
    ensures r == [] || (d.Parsed? && Generator.ValidDocument(d.doc) && r == d.doc.fields["personas"].items)
    ensures d.Parsed? && Generator.ValidDocument(d.doc) ==> r == d.doc.fields["personas"].items
    ensures forall i :: 0 <= i < |r| ==> PersonaShape(r[i])
  {
    var data := Generator.ParseJson(d);
    if "personas" in data then
      var ps := data["personas"].items;
      assert forall i :: 0 <= i < |ps| ==> PersonaShape(ps[i]) by {
        forall i | 0 <= i < |ps| ensures PersonaShape(ps[i]) { ValidPersonaHasShape(ps[i]); }
      }
      ps
    else []
  }

  /** The assistant's text (src/routers/chat.py:85-86). */
  function AssistantContent(n: nat): string
  {
    "Generated " + NatToString(n) + " personas based on your request."
  }

  /** The assistant's reply names the persona count so that it can be read back: different
      counts give different texts. */
  lemma AssistantContentInjective(a: nat, b: nat)
    requires AssistantContent(a) == AssistantContent(b)
    ensures a == b
  {
    var pre := "Generated ";
    var post := " personas based on your request.";
    var s := AssistantContent(a);
    assert |NatToString(a)| == |s| - |pre| - |post| == |NatToString(b)|;
    assert NatToString(a) == s[|pre|..|s| - |post|];
    assert NatToString(b) == AssistantContent(b)[|pre|..|s| - |post|];
    NatToStringInjective(a, b);
  }

  /** One `for i, x in enumerate(...)` loop: the list's elements at positions 0, 1, .... */
  function SaveList(items: seq<ItemRow>, personaId: Id, kind: ListKind, texts: seq<Json>): (r: seq<ItemRow>)
  {
    items + Enumerate(NextId(ItemIds(items)), personaId, kind, texts)
  }

  /** The six list loops of one persona (src/routers/chat.py:123-139). */
  function SaveLists(items: seq<ItemRow>, personaId: Id, fields: map<string, Json>, keys: seq<(string, ListKind)>): (r: seq<ItemRow>)
    requires ListKeysPresent(fields, keys)
    ensures |items| <= |r| && r[..|items|] == items
    ensures forall i :: |items| <= i < |r| ==> r[i].personaId == personaId
  {
    if keys == [] then items
    else
      var last := keys[|keys| - 1];
      var before := SaveLists(items, personaId, fields, keys[..|keys| - 1]);
      SaveList(before, personaId, last.1, fields[last.0].items)
  }

  /** The demographics row, written only when `demographics` is a dict (src/routers/chat.py:113-121). */
  function SaveDemographics(ds: seq<DemographicsRow>, personaId: Id, p: map<string, Json>): (r: seq<DemographicsRow>)
    ensures "demographics" in p && p["demographics"].Dict? ==>
              var d := p["demographics"].fields;
              && |r| == |ds| + 1 && r[..|ds|] == ds
              && r[|ds|].personaId == personaId
              && r[|ds|].age == PyStr(GetOr(d, "age", Null))
              && r[|ds|].location == GetOr(d, "location", Null)
              && r[|ds|].education == GetOr(d, "education", Null)
              && r[|ds|].industry == GetOr(d, "industry", Null)
    ensures !("demographics" in p && p["demographics"].Dict?) ==> r == ds
  {
    if "demographics" in p && p["demographics"].Dict? then
      var d := p["demographics"].fields;
      ds + [DemographicsRow(NextId(DemographicsIds(ds)), personaId, PyStr(GetOr(d, "age", Null)),
                            GetOr(d, "location", Null), GetOr(d, "education", Null), GetOr(d, "industry", Null))]
    else ds
  }

  /** The `personas` row for one generated persona (src/routers/chat.py:99-107). */
  function PersonaRowFor(id: Id, messageId: Id, userId: Id, p: map<string, Json>, now: Time): (r: PersonaRow)
    requires "name" in p && "status" in p && "role" in p && "tech_comfort" in p
    ensures r.id == id && r.messageId == messageId && r.userId == userId && r.createdAt == now
    ensures r.name == p["name"] && r.status == p["status"] && r.role == p["role"] && r.techComfort == p["tech_comfort"]
    ensures r.scenarioContext == if "scenario_context" in p then p["scenario_context"] else Str("")
  {
    PersonaRow(id, messageId, userId, p["name"], p["status"], p["role"], p["tech_comfort"],
               GetOr(p, "scenario_context", Str("")), now)
  }

  /** The body of the persona loop for one persona (src/routers/chat.py:98-141). */
  function SavePersona(t: Tables, messageId: Id, userId: Id, p: Json, now: Time): (r: Tables)
    requires PersonaShape(p)
    ensures r.personas == t.personas + [PersonaRowFor(NextId(PersonaIds(t.personas)), messageId, userId, p.fields, now)]
    ensures r.demographics == SaveDemographics(t.demographics, NextId(PersonaIds(t.personas)), p.fields)
    ensures r.items == SaveLists(t.items, NextId(PersonaIds(t.personas)), p.fields, ListKeys)
    ensures r.users == t.users && r.otps == t.otps && r.conversations == t.conversations
    ensures r.messages == t.messages && r.payments == t.payments
  {
    var pid := NextId(PersonaIds(t.personas));
    t.(personas := t.personas + [PersonaRowFor(pid, messageId, userId, p.fields, now)],
       demographics := SaveDemographics(t.demographics, pid, p.fields),
       items := SaveLists(t.items, pid, p.fields, ListKeys))
  }

  /** The persona loop over the personas `ps`, in order: every new row is linked to the
      assistant message and the user. */
  function SavePersonas(t: Tables, messageId: Id, userId: Id, ps: seq<Json>, now: Time): (r: Tables)
    requires forall i :: 0 <= i < |ps| ==> PersonaShape(ps[i])
    ensures |r.personas| == |t.personas| + |ps| && r.personas[..|t.personas|] == t.personas
    ensures forall j :: |t.personas| <= j < |r.personas| ==>
              r.personas[j].messageId == messageId && r.personas[j].userId == userId
    ensures r.users == t.users && r.otps == t.otps && r.conversations == t.conversations
    ensures r.messages == t.messages && r.payments == t.payments
    ensures RowsLinked(t) ==> RowsLinked(r)
  {
    if ps == [] then t
    else
      var before := SavePersonas(t, messageId, userId, ps[..|ps| - 1], now);
      SavePersonaKeepsLinked(before, messageId, userId, ps[|ps| - 1], now);
      SavePersona(before, messageId, userId, ps[|ps| - 1], now)
  }

  // ---- what the database refuses ----

  /** A value the SQLite driver binds to a text column of src/models.py: a string, a number or
      a boolean, and `None` only where the column is nullable. A dict or a list cannot be
      bound, and `None` in a NOT NULL column fails the constraint. */
  predicate FitsText(v: Json, nullable: bool)
  {
    v.Str? || v.Num? || v.Bool? || (nullable && v.Null?)
  }

  /** Every element of a list fits the NOT NULL `*_text` column (src/models.py:91,100,109,118,127,136). */
  predicate ItemsFit(v: Json)
  {
    v.List? ==> forall i :: 0 <= i < |v.items| ==> FitsText(v.items[i], false)
  }

  /** The `personas` row can be committed: `name`, `status`, `role` and `tech_comfort` are NOT
      NULL, `scenario_context` is nullable (src/models.py:58-62). */
  predicate RowStorable(p: map<string, Json>)
  {
    && FitsText(GetOr(p, "name", Null), false) && FitsText(GetOr(p, "status", Null), false)
    && FitsText(GetOr(p, "role", Null), false) && FitsText(GetOr(p, "tech_comfort", Null), false)
    && FitsText(GetOr(p, "scenario_context", Str("")), true)
  }

  /** The demographics and list rows can be committed: the three demographics values besides
      `age` (which is written as `str()`) are nullable text, every list element is NOT NULL text
      (src/models.py:80-83 and the `*_text` columns). */
  predicate RowsStorable(p: map<string, Json>)
  {
    && ("demographics" in p && p["demographics"].Dict? ==>
          var d := p["demographics"].fields;
          FitsText(GetOr(d, "location", Null), true) && FitsText(GetOr(d, "education", Null), true)
          && FitsText(GetOr(d, "industry", Null), true))
    && forall k :: 0 <= k < |ListKeys| ==> ItemsFit(GetOr(p, ListKeys[k].0, Null))
  }

  /** Every row the loop writes for the persona can be committed. */
  predicate Storable(p: Json)
  {
    p.Dict? && RowStorable(p.fields) && RowsStorable(p.fields)
  }

  predicate AllStorable(ps: seq<Json>)
  {
    forall i :: 0 <= i < |ps| ==> Storable(ps[i])
  }

  /** The position of the first persona the database refuses, or the length when it refuses none. */
  function FirstRefused(ps: seq<Json>): (k: nat)
    ensures k <= |ps|
    ensures forall i :: 0 <= i < k ==> Storable(ps[i])
    ensures k < |ps| ==> !Storable(ps[k])
  {
    if ps == [] || !Storable(ps[0]) then 0 else 1 + FirstRefused(ps[1..])
  }

  /** How the persona loop ended: the tables it left, and whether a commit raised. */
  datatype Stored = Stored(tables: Tables, refused: bool)

  /** One pass of the persona loop with its two commits (src/routers/chat.py:108-109 and :141).
      A refused first commit stores nothing of the persona; a refused second commit keeps the
      bare persona row, already committed, and none of its demographics or list rows. */
  function StorePersona(t: Tables, messageId: Id, userId: Id, p: Json, now: Time): (r: Stored)
    requires PersonaShape(p)
    ensures r.refused <==> !Storable(p)
    ensures !r.refused ==> r.tables == SavePersona(t, messageId, userId, p, now)
    ensures r.refused ==>
              && r.tables.personas == t.personas + (if RowStorable(p.fields)
                                                   then [PersonaRowFor(NextId(PersonaIds(t.personas)), messageId, userId, p.fields, now)]
                                                   else [])
              && r.tables == t.(personas := r.tables.personas)
  {
    if !RowStorable(p.fields) then Stored(t, true)
    else if !RowsStorable(p.fields) then
      Stored(t.(personas := t.personas + [PersonaRowFor(NextId(PersonaIds(t.personas)), messageId, userId, p.fields, now)]), true)
    else Stored(SavePersona(t, messageId, userId, p, now), false)
  }

  /** The persona loop, which stops at the first commit the database refuses. */
  function StorePersonas(t: Tables, messageId: Id, userId: Id, ps: seq<Json>, now: Time): (r: Stored)
    requires forall i :: 0 <= i < |ps| ==> PersonaShape(ps[i])
    ensures !r.refused <==> AllStorable(ps)
    ensures r.tables.users == t.users && r.tables.otps == t.otps && r.tables.conversations == t.conversations
    ensures r.tables.messages == t.messages && r.tables.payments == t.payments
  {
    if ps == [] then Stored(t, false)
    else
      var n := |ps| - 1;
      var before := StorePersonas(t, messageId, userId, ps[..n], now);
      FirstRefusedOfPrefix(ps, n);
      if before.refused then before
      else StorePersona(before.tables, messageId, userId, ps[n], now)
  }

  /** What the loop leaves: with no refusal, every persona stored whole as `SavePersonas`
      stores them; otherwise the personas before the first refused one stored whole, and the
      refused one as `StorePersona` leaves it. */
  lemma {:induction false} StorePersonasStores(t: Tables, messageId: Id, userId: Id, ps: seq<Json>, now: Time)
    requires forall i :: 0 <= i < |ps| ==> PersonaShape(ps[i])
    ensures var r := StorePersonas(t, messageId, userId, ps, now);
            && (!r.refused ==> r.tables == SavePersonas(t, messageId, userId, ps, now))
            && (r.refused ==>
                  var k := FirstRefused(ps);
                  k < |ps| && r == StorePersona(SavePersonas(t, messageId, userId, ps[..k], now), messageId, userId, ps[k], now))
  {
    if ps != [] {
      var n := |ps| - 1;
      var before := StorePersonas(t, messageId, userId, ps[..n], now);
      var r := StorePersonas(t, messageId, userId, ps, now);
      StorePersonasStores(t, messageId, userId, ps[..n], now);
      FirstRefusedOfPrefix(ps, n);
      if before.refused {
        assert r == before;
        var k := FirstRefused(ps[..n]);
        assert k == FirstRefused(ps) && ps[..n][k] == ps[k];
      } else {
        assert r == StorePersona(before.tables, messageId, userId, ps[n], now);
        if Storable(ps[n]) {
          assert SavePersonas(t, messageId, userId, ps, now)
              == SavePersona(SavePersonas(t, messageId, userId, ps[..n], now), messageId, userId, ps[n], now);
        } else {
          assert FirstRefused(ps) == n;
        }
      }
    }
  }

  /** The first refusal in a prefix is the first refusal in the whole sequence, and a prefix
      with none leaves the first refusal at or after its end. */
  lemma {:induction false} FirstRefusedOfPrefix(ps: seq<Json>, n: nat)
    requires n <= |ps|
    ensures FirstRefused(ps[..n]) < n ==> FirstRefused(ps) == FirstRefused(ps[..n]) && ps[..FirstRefused(ps)] == ps[..n][..FirstRefused(ps)]
    ensures FirstRefused(ps[..n]) == n ==> n <= FirstRefused(ps)
  {
    if n > 0 {
      var pre := ps[..n];
      assert pre[0] == ps[0];
      if Storable(ps[0]) {
        assert pre[1..] == ps[1..][..n - 1];
        FirstRefusedOfPrefix(ps[1..], n - 1);
        var k := FirstRefused(ps[1..]);
        if FirstRefused(pre) < n {
          assert ps[..k + 1] == [ps[0]] + ps[1..][..k];
          assert pre[..k + 1] == [pre[0]] + pre[1..][..k];
        }
      }
    }
  }

  datatype SendStep = SendStep(tables: Tables, reply: Reply<Message>)

  /** The conversation row with `last_message_at` moved to `now`. */
  function Touch(cs: seq<Conversation>, i: nat, now: Time): (r: seq<Conversation>)
    requires i < |cs|
    ensures |r| == |cs| && r[i].lastMessageAt == now
    ensures r[i] == Conversation(cs[i].id, cs[i].userId, cs[i].title, now, cs[i].createdAt)
    ensures forall j :: 0 <= j < |cs| && j != i ==> r[j] == cs[j]
  {
    cs[i := cs[i].(lastMessageAt := now)]
  }

  /** `send_message` (src/routers/chat.py:59-155). `dbError` is the text of the exception the
      database raises when it refuses a commit. */
  function SendMessageStep(t: Tables, convId: Id, userId: Id, content: string, gen: Generation,
                           dbError: string, now: Time): (r: SendStep)
    ensures r.reply == HttpError(404, NotFound) <==> OwnedConversation(t, convId, userId).None?
    ensures OwnedConversation(t, convId, userId).None? ==> r.tables == t
    ensures r.reply.HttpError? && r.reply.status == 500 <==>
              OwnedConversation(t, convId, userId).Some?
              && (gen.GenerationRaised? || !AllStorable(PersonaList(gen.decoded)))
    ensures r.reply.Ok? <==>
              OwnedConversation(t, convId, userId).Some? && gen.GenerationReturned? && AllStorable(PersonaList(gen.decoded))
    ensures r.reply.Ok? ==> r.reply.value.role == "assistant" && r.reply.value.conversationId == convId
    ensures OwnedConversation(t, convId, userId).Some? ==>
              && |r.tables.messages| > |t.messages| && r.tables.messages[..|t.messages|] == t.messages
              && r.tables.messages[|t.messages|].role == "user" && r.tables.messages[|t.messages|].content == content
    ensures r.tables.users == t.users && r.tables.otps == t.otps && r.tables.payments == t.payments
  {
    match OwnedConversation(t, convId, userId)
    case None => SendStep(t, HttpError(404, NotFound))
    case Some(ci) =>
      var userMsg := Message(NextId(MessageIds(t.messages)), convId, "user", content, now);
      var t1 := t.(messages := t.messages + [userMsg]);
      match gen
      case GenerationRaised(m) => SendStep(t1, HttpError(500, "Error generating personas: " + m))
      case GenerationReturned(d) =>
        var ps := PersonaList(d);
        var asst := Message(NextId(MessageIds(t1.messages)), convId, "assistant", AssistantContent(|ps|), now);
        var t2 := t1.(messages := t1.messages + [asst]);
        var s := StorePersonas(t2, asst.id, userId, ps, now);
        if s.refused then SendStep(s.tables, HttpError(500, "Error generating personas: " + dbError))
        else SendStep(s.tables.(conversations := Touch(s.tables.conversations, ci, now)), Ok(asst))
  }

  /** Sending to a missing conversation, or to another user's, is a 404 that stores nothing. */
  lemma SendRequiresOwnership(t: Tables, convId: Id, userId: Id, content: string, gen: Generation, dbError: string, now: Time)
    requires OwnedConversation(t, convId, userId).None?
    ensures SendMessageStep(t, convId, userId, content, gen, dbError, now) == SendStep(t, HttpError(404, NotFound))
  {
  }

  /** The user's message is committed before generation, so a failed generation answers 500 and
      keeps it; nothing else is stored. */
  lemma FailedGenerationKeepsUserMessage(t: Tables, convId: Id, userId: Id, content: string, message: string,
                                         dbError: string, now: Time)
    requires OwnedConversation(t, convId, userId).Some?
    ensures var r := SendMessageStep(t, convId, userId, content, GenerationRaised(message), dbError, now);
            && r.reply == HttpError(500, "Error generating personas: " + message)
            && r.tables == t.(messages := t.messages + [Message(NextId(MessageIds(t.messages)), convId, "user", content, now)])
  {
  }

  /** A returned generation whose personas the database accepts stores the user's message,
      then the assistant's message with the persona count, then one persona row per persona,
      all linked to that assistant message; only then does the conversation's
      `last_message_at` move. */
  lemma GenerationStoresReply(t: Tables, convId: Id, userId: Id, content: string, d: Generator.Decoded,
                              dbError: string, now: Time)
    requires OwnedConversation(t, convId, userId).Some?
    requires AllStorable(PersonaList(d))
    ensures var r := SendMessageStep(t, convId, userId, content, GenerationReturned(d), dbError, now);
            var n := |t.messages|;
            var ci := OwnedConversation(t, convId, userId).value;
            && r.reply.Ok?
            && r.reply.value.role == "assistant" && r.reply.value.content == AssistantContent(|PersonaList(d)|)
            && |r.tables.messages| == n + 2
            && r.tables.messages[n] == Message(NextId(MessageIds(t.messages)), convId, "user", content, now)
            && r.tables.messages[n + 1] == r.reply.value
            && |r.tables.personas| == |t.personas| + |PersonaList(d)|
            && (forall j :: |t.personas| <= j < |r.tables.personas| ==>
                  r.tables.personas[j].messageId == r.reply.value.id && r.tables.personas[j].userId == userId)
            && r.tables.conversations == Touch(t.conversations, ci, now)
            && r.tables.users == t.users && r.tables.otps == t.otps && r.tables.payments == t.payments
  {
    var ps := PersonaList(d);
    var userMsg := Message(NextId(MessageIds(t.messages)), convId, "user", content, now);
    var asst := Message(NextId(MessageIds(t.messages + [userMsg])), convId, "assistant", AssistantContent(|ps|), now);
    StorePersonasStores(t.(messages := t.messages + [userMsg] + [asst]), asst.id, userId, ps, now);
  }

  /** A persona the database refuses ends the route with a 500, but what was committed stays:
      the user's message, the assistant's message, every earlier persona whole and, when only
      its second commit failed, the refused persona's bare row. `last_message_at` does not move. */
  lemma RefusedPersonaKeepsCommits(t: Tables, convId: Id, userId: Id, content: string, d: Generator.Decoded,
                                   dbError: string, now: Time)
    requires OwnedConversation(t, convId, userId).Some?
    requires !AllStorable(PersonaList(d))
    ensures var r := SendMessageStep(t, convId, userId, content, GenerationReturned(d), dbError, now);
            var n := |t.messages|;
            var ps := PersonaList(d);
            var k := FirstRefused(ps);
            var asst := Message(NextId(MessageIds(t.messages + [r.tables.messages[n]])), convId, "assistant",
                                AssistantContent(|ps|), now);
            && r.reply == HttpError(500, "Error generating personas: " + dbError)
            && |r.tables.messages| == n + 2
            && r.tables.messages[n] == Message(NextId(MessageIds(t.messages)), convId, "user", content, now)
            && r.tables.messages[n + 1] == asst
            && r.tables.conversations == t.conversations
            && r.tables.users == t.users && r.tables.otps == t.otps && r.tables.payments == t.payments
            && k < |ps|
            && var saved := SavePersonas(t.(messages := r.tables.messages), asst.id, userId, ps[..k], now);
               r.tables == saved.(personas := saved.personas + (if RowStorable(ps[k].fields)
                                                               then [PersonaRowFor(NextId(PersonaIds(saved.personas)), asst.id, userId, ps[k].fields, now)]
                                                               else []))
  {
    var ps := PersonaList(d);
    var userMsg := Message(NextId(MessageIds(t.messages)), convId, "user", content, now);
    var asst := Message(NextId(MessageIds(t.messages + [userMsg])), convId, "assistant", AssistantContent(|ps|), now);
    StorePersonasStores(t.(messages := t.messages + [userMsg] + [asst]), asst.id, userId, ps, now);
  }

  // ---- what a stored persona exports ----

  /** Every demographics and list row belongs to a stored persona (the foreign keys of
      src/models.py). */
  predicate RowsLinked(t: Tables)
  {
    && (forall i :: 0 <= i < |t.items| ==> t.items[i].personaId in PersonaIds(t.personas))
    && (forall i :: 0 <= i < |t.demographics| ==> t.demographics[i].personaId in PersonaIds(t.personas))
  }

  /** The texts a persona's fields hold for `kind`, as `keys` maps keys to kinds. */
  function KindText(fields: map<string, Json>, keys: seq<(string, ListKind)>, kind: ListKind): seq<Json>
    requires ListKeysPresent(fields, keys)
  {
    if keys == [] then []
    else if keys[|keys| - 1].1 == kind then fields[keys[|keys| - 1].0].items
    else KindText(fields, keys[..|keys| - 1], kind)
  }

  predicate KindsDistinct(keys: seq<(string, ListKind)>)
  {
    forall i, j :: 0 <= i < j < |keys| ==> keys[i].1 != keys[j].1
  }

  lemma {:induction false} KindTextAbsent(fields: map<string, Json>, keys: seq<(string, ListKind)>, kind: ListKind)
    requires ListKeysPresent(fields, keys)
    requires forall i :: 0 <= i < |keys| ==> keys[i].1 != kind
    ensures KindText(fields, keys, kind) == []
  {
    if keys != [] {
      KindTextAbsent(fields, keys[..|keys| - 1], kind);
    }
  }

  /** With distinct kinds, the texts for the kind of key `k` are that key's list. */
  lemma {:induction false} KindTextOfKey(fields: map<string, Json>, keys: seq<(string, ListKind)>, k: nat)
    requires ListKeysPresent(fields, keys) && KindsDistinct(keys) && k < |keys|
    ensures KindText(fields, keys, keys[k].1) == fields[keys[k].0].items
  {
    if k < |keys| - 1 {
      KindTextOfKey(fields, keys[..|keys| - 1], k);
    }
  }

  /** The rows of a persona's list in a concatenation are those of each part. */
  lemma {:induction false} RowsOfConcat(a: seq<ItemRow>, b: seq<ItemRow>, personaId: Id, kind: ListKind)
    ensures ExportRouter.RowsOf(a + b, personaId, kind) == ExportRouter.RowsOf(a, personaId, kind) + ExportRouter.RowsOf(b, personaId, kind)
  {
    if a != [] {
      var ab := a + b;
      assert ab[0] == a[0] && ab[1..] == a[1..] + b;
      RowsOfConcat(a[1..], b, personaId, kind);
    } else {
      assert a + b == b;
    }
  }

  /** Rows that all belong to one persona's list are all selected; rows of none are none. */
  lemma {:induction false} RowsOfUniform(rows: seq<ItemRow>, personaId: Id, kind: ListKind)
    ensures (forall i :: 0 <= i < |rows| ==> rows[i].personaId == personaId && rows[i].kind == kind) ==>
              ExportRouter.RowsOf(rows, personaId, kind) == rows
    ensures (forall i :: 0 <= i < |rows| ==> rows[i].personaId != personaId || rows[i].kind != kind) ==>
              ExportRouter.RowsOf(rows, personaId, kind) == []
  {
    if rows != [] {
      RowsOfUniform(rows[1..], personaId, kind);
      assert rows == [rows[0]] + rows[1..];
    }
  }

  /** A persona with no rows in a table has no rows of any of its lists there. */
  lemma RowsOfAbsent(items: seq<ItemRow>, personaId: Id, kind: ListKind)
    requires forall i :: 0 <= i < |items| ==> items[i].personaId != personaId
    ensures ExportRouter.RowsOf(items, personaId, kind) == []
  {
  }

  /** The six list loops store each list so that the export reads it back: the rows of the
      persona's list for `kind` are numbered by that list's elements. */
  lemma {:induction false} SaveListsNumbers(items: seq<ItemRow>, personaId: Id, fields: map<string, Json>,
                                            keys: seq<(string, ListKind)>, kind: ListKind)
    requires ListKeysPresent(fields, keys) && KindsDistinct(keys)
    requires forall i :: 0 <= i < |items| ==> items[i].personaId != personaId
    ensures ExportRouter.Numbered(ExportRouter.RowsOf(SaveLists(items, personaId, fields, keys), personaId, kind),
                                  KindText(fields, keys, kind))
  {
    if keys == [] {
      RowsOfAbsent(items, personaId, kind);
    } else {
      SaveListsNumbers(items, personaId, fields, keys[..|keys| - 1], kind);
      SaveListNumbers(items, personaId, fields, keys, kind);
    }
  }

  /** One list loop: the rows it adds are the persona's rows for its kind exactly when the
      loops before added none. */
  lemma SaveListNumbers(items: seq<ItemRow>, personaId: Id, fields: map<string, Json>,
                        keys: seq<(string, ListKind)>, kind: ListKind)
    requires keys != [] && ListKeysPresent(fields, keys) && KindsDistinct(keys)
    requires ExportRouter.Numbered(ExportRouter.RowsOf(SaveLists(items, personaId, fields, keys[..|keys| - 1]), personaId, kind),
                                   KindText(fields, keys[..|keys| - 1], kind))
    ensures ExportRouter.Numbered(ExportRouter.RowsOf(SaveLists(items, personaId, fields, keys), personaId, kind),
                                  KindText(fields, keys, kind))
  {
    var last := keys[|keys| - 1];
    var init := keys[..|keys| - 1];
    var before := SaveLists(items, personaId, fields, init);
    var e := Enumerate(NextId(ItemIds(before)), personaId, last.1, fields[last.0].items);
    assert SaveLists(items, personaId, fields, keys) == before + e;
    RowsOfConcat(before, e, personaId, kind);
    RowsOfUniform(e, personaId, kind);
    if last.1 == kind {
      KindTextAbsent(fields, init, kind);
      assert ExportRouter.RowsOf(before, personaId, kind) == [];
      ExportRouter.EnumerateIsNumbered(NextId(ItemIds(before)), personaId, last.1, fields[last.0].items);
      assert ExportRouter.RowsOf(before + e, personaId, kind) == e;
    } else {
      assert ExportRouter.RowsOf(before + e, personaId, kind) == ExportRouter.RowsOf(before, personaId, kind);
      assert KindText(fields, keys, kind) == KindText(fields, init, kind);
    }
  }

  lemma SaveListsSnoc(items: seq<ItemRow>, personaId: Id, fields: map<string, Json>, keys: seq<(string, ListKind)>, j: nat)
    requires ListKeysPresent(fields, keys) && j < |keys|
    ensures ListKeysPresent(fields, keys[..j]) && ListKeysPresent(fields, keys[..j + 1])
    ensures SaveLists(items, personaId, fields, keys[..j + 1])
              == SaveList(SaveLists(items, personaId, fields, keys[..j]), personaId, keys[j].1, fields[keys[j].0].items)
  {
    assert keys[..j + 1][..j] == keys[..j];
    assert keys[..j + 1][j] == keys[j];
  }

  /** Saving lists for one persona leaves every other persona's lists as they were. */
  lemma SaveListsKeepsOthers(items: seq<ItemRow>, personaId: Id, fields: map<string, Json>,
                             keys: seq<(string, ListKind)>, other: Id, kind: ListKind)
    requires ListKeysPresent(fields, keys) && other != personaId
    ensures ExportRouter.RowsOf(SaveLists(items, personaId, fields, keys), other, kind) == ExportRouter.RowsOf(items, other, kind)
  {
    var r := SaveLists(items, personaId, fields, keys);
    assert r == items + r[|items|..];
    RowsOfConcat(items, r[|items|..], other, kind);
    RowsOfUniform(r[|items|..], other, kind);
  }

  /** Saving a persona keeps every row linked to a stored persona. */
  lemma SavePersonaKeepsLinked(t: Tables, messageId: Id, userId: Id, p: Json, now: Time)
    requires PersonaShape(p)
    ensures RowsLinked(t) ==> RowsLinked(SavePersona(t, messageId, userId, p, now))
  {
    var r := SavePersona(t, messageId, userId, p, now);
    var pid := NextId(PersonaIds(t.personas));
    assert PersonaIds(r.personas) == PersonaIds(t.personas) + [pid];
    if RowsLinked(t) {
      forall i | 0 <= i < |r.items| ensures r.items[i].personaId in PersonaIds(r.personas) {
        if i < |t.items| { assert r.items[i] == t.items[i]; }
      }
      forall i | 0 <= i < |r.demographics| ensures r.demographics[i].personaId in PersonaIds(r.personas) {
        if i < |t.demographics| { assert r.demographics[i] == t.demographics[i]; }
      }
    }
  }

  /** The id a saved persona gets has no rows yet in a linked database. */
  lemma FreshPersonaHasNoRows(t: Tables)
    requires RowsLinked(t)
    ensures forall i :: 0 <= i < |t.items| ==> t.items[i].personaId != NextId(PersonaIds(t.personas))
    ensures forall i :: 0 <= i < |t.demographics| ==> t.demographics[i].personaId != NextId(PersonaIds(t.personas))
  {
    var pid := NextId(PersonaIds(t.personas));
    forall i | 0 <= i < |t.items| ensures t.items[i].personaId != pid {
      assert t.items[i].personaId in PersonaIds(t.personas);
    }
    forall i | 0 <= i < |t.demographics| ensures t.demographics[i].personaId != pid {
      assert t.demographics[i].personaId in PersonaIds(t.personas);
    }
  }

  /** The demographics the export shows for a generated persona: its four fields with `age` as
      text when `demographics` is a dict, and `{}` otherwise (no row was stored). */
  function ExpectedDemographics(p: map<string, Json>): Json
  {
    if "demographics" in p && p["demographics"].Dict? then
      var d := p["demographics"].fields;
      Dict(map["age" := Str(PyStr(GetOr(d, "age", Null))), "location" := GetOr(d, "location", Null),
               "education" := GetOr(d, "education", Null), "industry" := GetOr(d, "industry", Null)])
    else Dict(map[])
  }

  /** What the export of a generated persona should be: the generator's values, each list under
      its table's kind. */
  function ExpectedExport(p: Json): (r: ExportRouter.ExportedPersona)
    requires PersonaShape(p)
    ensures r.lists.Keys == ExportRouter.AllKinds
    ensures forall k :: 0 <= k < |ListKeys| ==>
              ListKeys[k].1 in r.lists && r.lists[ListKeys[k].1] == p.fields[ListKeys[k].0].items
  {
    var r := ExportRouter.ExportedPersona(
      p.fields["name"], p.fields["status"], p.fields["role"], p.fields["tech_comfort"],
      GetOr(p.fields, "scenario_context", Str("")), ExpectedDemographics(p.fields),
      map k | k in ExportRouter.AllKinds :: KindText(p.fields, ListKeys, k));
    assert forall k :: 0 <= k < |ListKeys| ==> ListKeys[k].1 in ExportRouter.AllKinds;
    assert forall k :: 0 <= k < |ListKeys| ==> r.lists[ListKeys[k].1] == p.fields[ListKeys[k].0].items by {
      forall k | 0 <= k < |ListKeys| ensures r.lists[ListKeys[k].1] == p.fields[ListKeys[k].0].items {
        KindTextOfKey(p.fields, ListKeys, k);
      }
    }
    r
  }

  /** The six lists of a saved persona read back in their original order, whatever order the
      database returns the rows in. */
  lemma SavedListsExport(t: Tables, messageId: Id, userId: Id, p: Json, now: Time)
    requires PersonaShape(p) && RowsLinked(t)
    ensures var r := SavePersona(t, messageId, userId, p, now);
            ExportRouter.Serialize(r, r.personas[|t.personas|]).lists == ExpectedExport(p).lists
  {
    var pid := NextId(PersonaIds(t.personas));
    var r := SavePersona(t, messageId, userId, p, now);
    assert r.personas[|t.personas|].id == pid;
    FreshPersonaHasNoRows(t);
    forall kind | kind in ExportRouter.AllKinds
      ensures ExportRouter.OrderedText(ExportRouter.RowsOf(r.items, pid, kind)) == KindText(p.fields, ListKeys, kind)
    {
      var rows := ExportRouter.RowsOf(r.items, pid, kind);
      SaveListsNumbers(t.items, pid, p.fields, ListKeys, kind);
      ExportRouter.OrderedTextUndoesNumbering(rows, rows, KindText(p.fields, ListKeys, kind));
    }
  }

  /** The demographics of a saved persona read back as the generator's dict. */
  lemma SavedDemographicsExport(t: Tables, messageId: Id, userId: Id, p: Json, now: Time)
    requires PersonaShape(p) && RowsLinked(t)
    ensures var r := SavePersona(t, messageId, userId, p, now);
            ExportRouter.Serialize(r, r.personas[|t.personas|]).demographics == ExpectedDemographics(p.fields)
  {
    var pid := NextId(PersonaIds(t.personas));
    var r := SavePersona(t, messageId, userId, p, now);
    assert r.personas[|t.personas|].id == pid;
    FreshPersonaHasNoRows(t);
    if "demographics" in p.fields && p.fields["demographics"].Dict? {
      var ds := r.demographics;
      assert ds == t.demographics + [ds[|t.demographics|]];
      DemographicsOfAppend(t.demographics, ds[|t.demographics|], pid);
    }
  }

  /** A saved persona exports exactly what the generator returned. */
  lemma SavedPersonaExports(t: Tables, messageId: Id, userId: Id, p: Json, now: Time)
    requires PersonaShape(p) && RowsLinked(t)
    ensures var r := SavePersona(t, messageId, userId, p, now);
            ExportRouter.Serialize(r, r.personas[|t.personas|]) == ExpectedExport(p)
  {
    SavedListsExport(t, messageId, userId, p, now);
    SavedDemographicsExport(t, messageId, userId, p, now);
  }

  /** A row added for another persona does not change which demographics row a persona has. */
  lemma {:induction false} DemographicsOfAppendOther(ds: seq<DemographicsRow>, d: DemographicsRow, personaId: Id)
    requires d.personaId != personaId
    ensures ExportRouter.DemographicsOf(ds + [d], personaId) == ExportRouter.DemographicsOf(ds, personaId)
  {
    if ds != [] {
      assert (ds + [d])[1..] == ds[1..] + [d];
      DemographicsOfAppendOther(ds[1..], d, personaId);
    }
  }

  /** Saving a persona leaves the export of every persona stored before it unchanged. */
  lemma SavePersonaKeepsExports(t: Tables, messageId: Id, userId: Id, p: Json, now: Time, q: PersonaRow)
    requires PersonaShape(p) && q.id in PersonaIds(t.personas)
    ensures ExportRouter.Serialize(SavePersona(t, messageId, userId, p, now), q) == ExportRouter.Serialize(t, q)
  {
    var r := SavePersona(t, messageId, userId, p, now);
    var pid := NextId(PersonaIds(t.personas));
    assert q.id != pid;
    forall k | k in ExportRouter.AllKinds
      ensures ExportRouter.RowsOf(r.items, q.id, k) == ExportRouter.RowsOf(t.items, q.id, k)
    {
      SaveListsKeepsOthers(t.items, pid, p.fields, ListKeys, q.id, k);
    }
    SaveDemographicsKeepsOthers(t.demographics, pid, p.fields, q.id);
    SerializeReadsRows(r, t, q);
  }

  /** A persona's export depends only on its own rows. */
  lemma SerializeReadsRows(t1: Tables, t2: Tables, q: PersonaRow)
    requires forall k :: k in ExportRouter.AllKinds ==>
               ExportRouter.RowsOf(t1.items, q.id, k) == ExportRouter.RowsOf(t2.items, q.id, k)
    requires ExportRouter.DemographicsOf(t1.demographics, q.id) == ExportRouter.DemographicsOf(t2.demographics, q.id)
    ensures ExportRouter.Serialize(t1, q) == ExportRouter.Serialize(t2, q)
  {
    assert ExportRouter.Serialize(t1, q).lists == ExportRouter.Serialize(t2, q).lists;
  }

  /** The demographics row of one persona leaves every other persona's as it was. */
  lemma SaveDemographicsKeepsOthers(ds: seq<DemographicsRow>, personaId: Id, fields: map<string, Json>, other: Id)
    requires other != personaId
    ensures ExportRouter.DemographicsOf(SaveDemographics(ds, personaId, fields), other) == ExportRouter.DemographicsOf(ds, other)
  {
    var r := SaveDemographics(ds, personaId, fields);
    if "demographics" in fields && fields["demographics"].Dict? {
      assert r == ds + [r[|ds|]];
      DemographicsOfAppendOther(ds, r[|ds|], other);
    }
  }

  /** The demographics row a persona gets when it had none before. */
  lemma {:induction false} DemographicsOfAppend(ds: seq<DemographicsRow>, d: DemographicsRow, personaId: Id)
    requires forall i :: 0 <= i < |ds| ==> ds[i].personaId != personaId
    requires d.personaId == personaId
    ensures ExportRouter.DemographicsOf(ds + [d], personaId) == Some(d)
  {
    if ds != [] {
      assert (ds + [d])[1..] == ds[1..] + [d];
      DemographicsOfAppend(ds[1..], d, personaId);
    }
  }

  /** One more pass of the loop keeps the exports of the personas stored before it. */
  lemma SavePersonasKeepsEarlier(t: Tables, messageId: Id, userId: Id, ps: seq<Json>, now: Time, j: nat)
    requires forall i :: 0 <= i < |ps| ==> PersonaShape(ps[i])
    requires j < |ps| - 1
    ensures var before := SavePersonas(t, messageId, userId, ps[..|ps| - 1], now);
            var r := SavePersonas(t, messageId, userId, ps, now);
            ExportRouter.Serialize(r, r.personas[|t.personas| + j])
              == ExportRouter.Serialize(before, before.personas[|t.personas| + j])
  {
    var before := SavePersonas(t, messageId, userId, ps[..|ps| - 1], now);
    var q := before.personas[|t.personas| + j];
    assert PersonaIds(before.personas)[|t.personas| + j] == q.id;
    SavePersonaKeepsExports(before, messageId, userId, ps[|ps| - 1], now, q);
  }

  /** Every persona the loop stores exports exactly as the generator returned it: the `j`-th
      new row exports the `j`-th persona. */
  lemma {:induction false} SavedPersonasExport(t: Tables, messageId: Id, userId: Id, ps: seq<Json>, now: Time, j: nat)
    requires forall i :: 0 <= i < |ps| ==> PersonaShape(ps[i])
    requires RowsLinked(t) && j < |ps|
    ensures var r := SavePersonas(t, messageId, userId, ps, now);
            ExportRouter.Serialize(r, r.personas[|t.personas| + j]) == ExpectedExport(ps[j])
  {
    var n := |ps| - 1;
    if j == n {
      SavedPersonaExports(SavePersonas(t, messageId, userId, ps[..n], now), messageId, userId, ps[n], now);
    } else {
      SavedPersonasExport(t, messageId, userId, ps[..n], now, j);
      assert ps[..n][j] == ps[j];
      SavePersonasKeepsEarlier(t, messageId, userId, ps, now, j);
    }
  }

  /** Tables that hold the personas stored before the first refusal, as `SavePersonas` stores
      them, export each of those personas as generated. */
  lemma StoredPrefixExports(rt: Tables, t: Tables, messageId: Id, userId: Id, ps: seq<Json>, now: Time, j: nat)
    requires forall i :: 0 <= i < |ps| ==> PersonaShape(ps[i])
    requires RowsLinked(t) && j < FirstRefused(ps)
    requires var saved := SavePersonas(t, messageId, userId, ps[..FirstRefused(ps)], now);
             && rt.items == saved.items && rt.demographics == saved.demographics
             && |saved.personas| <= |rt.personas| && rt.personas[..|saved.personas|] == saved.personas
    ensures |t.personas| + j < |rt.personas|
    ensures ExportRouter.Serialize(rt, rt.personas[|t.personas| + j]) == ExpectedExport(ps[j])
  {
    var pre := ps[..FirstRefused(ps)];
    var saved := SavePersonas(t, messageId, userId, pre, now);
    SavedPersonasExport(t, messageId, userId, pre, now, j);
    assert pre[j] == ps[j];
    ExportsOfExtension(rt, saved, |t.personas| + j);
  }

  /** Tables that extend others with more persona rows and the same demographics and list rows
      export the shared personas alike. */
  lemma ExportsOfExtension(t: Tables, saved: Tables, i: nat)
    requires t.items == saved.items && t.demographics == saved.demographics
    requires i < |saved.personas| <= |t.personas| && t.personas[..|saved.personas|] == saved.personas
    ensures ExportRouter.Serialize(t, t.personas[i]) == ExportRouter.Serialize(saved, saved.personas[i])
  {
    assert t.personas[i] == saved.personas[i];
  }

  /** What `send_message` leaves of the personas stored before the first refusal: their rows,
      demographics and lists are all in the final tables. */
  lemma SendKeepsSaved(t: Tables, convId: Id, userId: Id, content: string, d: Generator.Decoded, dbError: string, now: Time)
    requires OwnedConversation(t, convId, userId).Some?
    ensures var r := SendMessageStep(t, convId, userId, content, GenerationReturned(d), dbError, now);
            var ps := PersonaList(d);
            var userMsg := Message(NextId(MessageIds(t.messages)), convId, "user", content, now);
            var asst := Message(NextId(MessageIds(t.messages + [userMsg])), convId, "assistant", AssistantContent(|ps|), now);
            var saved := SavePersonas(t.(messages := t.messages + [userMsg] + [asst]), asst.id, userId, ps[..FirstRefused(ps)], now);
            && r.tables.items == saved.items && r.tables.demographics == saved.demographics
            && |saved.personas| <= |r.tables.personas| && r.tables.personas[..|saved.personas|] == saved.personas
  {
    var ps := PersonaList(d);
    var userMsg := Message(NextId(MessageIds(t.messages)), convId, "user", content, now);
    var asst := Message(NextId(MessageIds(t.messages + [userMsg])), convId, "assistant", AssistantContent(|ps|), now);
    var t2 := t.(messages := t.messages + [userMsg] + [asst]);
    SendReturned(t, convId, userId, content, d, dbError, now);
    StoreKeepsSaved(t2, asst.id, userId, ps, now);
  }

  /** A returned generation runs the persona loop after the two messages; the route answers
      200 and moves the timestamp only when no commit was refused. */
  lemma SendReturned(t: Tables, convId: Id, userId: Id, content: string, d: Generator.Decoded, dbError: string, now: Time)
    requires OwnedConversation(t, convId, userId).Some?
    ensures var ps := PersonaList(d);
            var userMsg := Message(NextId(MessageIds(t.messages)), convId, "user", content, now);
            var asst := Message(NextId(MessageIds(t.messages + [userMsg])), convId, "assistant", AssistantContent(|ps|), now);
            var st := StorePersonas(t.(messages := t.messages + [userMsg] + [asst]), asst.id, userId, ps, now);
            var ci := OwnedConversation(t, convId, userId).value;
            SendMessageStep(t, convId, userId, content, GenerationReturned(d), dbError, now)
              == if st.refused then SendStep(st.tables, HttpError(500, "Error generating personas: " + dbError))
                 else SendStep(st.tables.(conversations := Touch(st.tables.conversations, ci, now)), Ok(asst))
  {
  }

  /** The loop's tables hold the personas before the first refusal as `SavePersonas` stores
      them: their rows, their demographics and their lists. */
  lemma StoreKeepsSaved(t: Tables, messageId: Id, userId: Id, ps: seq<Json>, now: Time)
    requires forall i :: 0 <= i < |ps| ==> PersonaShape(ps[i])
    ensures var st := StorePersonas(t, messageId, userId, ps, now);
            var saved := SavePersonas(t, messageId, userId, ps[..FirstRefused(ps)], now);
            && st.tables.items == saved.items && st.tables.demographics == saved.demographics
            && |saved.personas| <= |st.tables.personas| && st.tables.personas[..|saved.personas|] == saved.personas
  {
    var st := StorePersonas(t, messageId, userId, ps, now);
    var k := FirstRefused(ps);
    var saved := SavePersonas(t, messageId, userId, ps[..k], now);
    StorePersonasStores(t, messageId, userId, ps, now);
    if st.refused {
      assert st == StorePersona(saved, messageId, userId, ps[k], now);
    } else {
      assert ps[..k] == ps;
    }
  }

  // ---- the routes against the database ----

  /** `create_conversation` against the database. */
  method CreateConversation(db: Db, userId: Id, title: Option<string>, now: Time) returns (conv: Conversation)
    modifies db
    ensures (db.State(), conv) == CreateConversationStep(old(db.State()), userId, title, now)
  {
    var t := if title.Some? && title.value != "" then title.value else DefaultTitle;
    conv := Conversation(NextId(ConversationIds(db.conversations)), userId, Some(t), now, now);
    db.conversations := db.conversations + [conv];
  }

  /** The rows of one list (src/routers/chat.py:123-139): element `i` at `order_index` i,
      with the consecutive ids the database hands out from the table's next id. */
  method StageList(items: seq<ItemRow>, personaId: Id, kind: ListKind, texts: seq<Json>) returns (staged: seq<ItemRow>)
    ensures items + staged == SaveList(items, personaId, kind, texts)
  {
    var first := NextId(ItemIds(items));
    staged := [];
    var i := 0;
    while i < |texts|
      invariant 0 <= i <= |texts|
      invariant staged == Enumerate(first, personaId, kind, texts[..i])
    {
      EnumerateSnoc(first, personaId, kind, texts, i);
      staged := staged + [ItemRow(first + i, personaId, kind, texts[i], i)];
      i := i + 1;
    }
    assert texts[..i] == texts;
  }

  /** The body of the persona loop against the database (src/routers/chat.py:98-141): the
      persona row and its commit, then the demographics and list rows and their commit. A
      refused commit discards what it would have written and ends the loop. */
  method AddPersona(db: Db, messageId: Id, userId: Id, p: Json, now: Time) returns (refused: bool)
    requires PersonaShape(p)
    modifies db
    ensures Stored(db.State(), refused) == StorePersona(old(db.State()), messageId, userId, p, now)
  {
    if !RowStorable(p.fields) {
      return true;
    }
    var pid := NextId(PersonaIds(db.personas));
    db.personas := db.personas + [PersonaRowFor(pid, messageId, userId, p.fields, now)];
    var demographics := db.demographics;
    if "demographics" in p.fields && p.fields["demographics"].Dict? {
      var d := p.fields["demographics"].fields;
      demographics := demographics + [DemographicsRow(NextId(DemographicsIds(demographics)), pid,
        PyStr(GetOr(d, "age", Null)), GetOr(d, "location", Null), GetOr(d, "education", Null), GetOr(d, "industry", Null))];
    }
    var items := StageLists(db.items, pid, p.fields);
    if !RowsStorable(p.fields) {
      return true;
    }
    db.demographics, db.items := demographics, items;
    refused := false;
  }

  /** The six list loops of one persona (src/routers/chat.py:123-139), each element staged in
      the session in turn. */
  method StageLists(items: seq<ItemRow>, personaId: Id, fields: map<string, Json>) returns (r: seq<ItemRow>)
    requires ListKeysPresent(fields, ListKeys)
    ensures r == SaveLists(items, personaId, fields, ListKeys)
  {
    r := items;
    for j := 0 to |ListKeys|
      invariant r == SaveLists(items, personaId, fields, ListKeys[..j])
    {
      SaveListsSnoc(items, personaId, fields, ListKeys, j);
      var staged := StageList(r, personaId, ListKeys[j].1, fields[ListKeys[j].0].items);
      r := r + staged;
    }
    assert ListKeys[..|ListKeys|] == ListKeys;
  }

  /** `send_message` against the database: the ownership check, the user's message, then on a
      returned generation the assistant's message, the persona loop and, when every commit
      went through, the timestamp. */
  method SendMessage(db: Db, convId: Id, userId: Id, content: string, gen: Generation, dbError: string, now: Time)
    returns (reply: Reply<Message>)
    modifies db
    ensures SendStep(db.State(), reply) == SendMessageStep(old(db.State()), convId, userId, content, gen, dbError, now)
  {
    var owned := OwnedConversation(db.State(), convId, userId);
    if owned.None? {
      return HttpError(404, NotFound);
    }
    var ci := owned.value;
    var userMsg := Message(NextId(MessageIds(db.messages)), convId, "user", content, now);
    db.messages := db.messages + [userMsg];
    if gen.GenerationRaised? {
      return HttpError(500, "Error generating personas: " + gen.message);
    }
    var ps := PersonaList(gen.decoded);
    var asst := Message(NextId(MessageIds(db.messages)), convId, "assistant", AssistantContent(|ps|), now);
    db.messages := db.messages + [asst];
    var refused := AddPersonas(db, asst.id, userId, ps, now);
    if refused {
      return HttpError(500, "Error generating personas: " + dbError);
    }
    db.conversations := Touch(db.conversations, ci, now);
    reply := Ok(asst);
  }

  /** The persona loop of `send_message` (src/routers/chat.py:98-141), left at the first
      refused commit. */
  method AddPersonas(db: Db, messageId: Id, userId: Id, ps: seq<Json>, now: Time) returns (refused: bool)
    requires forall i :: 0 <= i < |ps| ==> PersonaShape(ps[i])
    modifies db
    ensures Stored(db.State(), refused) == StorePersonas(old(db.State()), messageId, userId, ps, now)
  {
    ghost var t0 := db.State();
    refused := false;
    var k := 0;
    while k < |ps| && !refused
      invariant 0 <= k <= |ps|
      invariant Stored(db.State(), refused) == StorePersonas(t0, messageId, userId, ps[..k], now)
    {
      StorePersonasSnoc(t0, messageId, userId, ps, now, k);
      refused := AddPersona(db, messageId, userId, ps[k], now);
      k := k + 1;
    }
    if refused {
      StorePersonasRefusedPrefix(t0, messageId, userId, ps, now, k);
    } else {
      assert ps[..k] == ps;
    }
  }

  lemma StorePersonasSnoc(t: Tables, messageId: Id, userId: Id, ps: seq<Json>, now: Time, k: nat)
    requires forall i :: 0 <= i < |ps| ==> PersonaShape(ps[i])
    requires k < |ps|
    ensures var before := StorePersonas(t, messageId, userId, ps[..k], now);
            !before.refused ==>
              StorePersonas(t, messageId, userId, ps[..k + 1], now) == StorePersona(before.tables, messageId, userId, ps[k], now)
  {
    assert ps[..k + 1][..k] == ps[..k];
    assert ps[..k + 1][k] == ps[k];
  }

  /** Once a prefix of the personas is refused, the rest of the loop does not run. */
  lemma StorePersonasRefusedPrefix(t: Tables, messageId: Id, userId: Id, ps: seq<Json>, now: Time, k: nat)
    requires forall i :: 0 <= i < |ps| ==> PersonaShape(ps[i])
    requires k <= |ps| && StorePersonas(t, messageId, userId, ps[..k], now).refused
    ensures StorePersonas(t, messageId, userId, ps, now) == StorePersonas(t, messageId, userId, ps[..k], now)
  {
    StorePersonasStores(t, messageId, userId, ps[..k], now);
    StorePersonasStores(t, messageId, userId, ps, now);
    FirstRefusedOfPrefix(ps, k);
    var k0 := FirstRefused(ps[..k]);
    assert ps[..k][k0] == ps[k0];
    assert !AllStorable(ps);
  }
}
