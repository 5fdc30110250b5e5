/** The server's database as in-memory tables (src/models.py). Each table is a sequence of rows
    in insertion order; a new row's id is one more than the largest id in its table, as SQLite
    assigns integer primary keys. Timestamps are whole seconds since the Unix epoch, UTC. The
    six list tables of a persona (goals, frustrations, ...) share one row type tagged with
    their kind. */
module Tables {
  import opened Wrappers
  import opened JsonValues

  type Id = nat
  type Time = int

  /** The `users` row. `subscriptionActive` and `subscriptionExpiresAt` are the fields that
      src/routers/payments.py writes. */
  datatype User = User(
    id: Id,
    email: string,
    hashedPassword: Option<string>,
    authProvider: string,
    name: Option<string>,
    isVerified: bool,
    accountType: int,
    lastExportAt: Option<Time>,
    subscriptionActive: bool,
    subscriptionExpiresAt: Option<Time>,
    createdAt: Time)

  datatype Otp = Otp(id: Id, userId: Id, code: string, expiresAt: Time, createdAt: Time)

  datatype Conversation = Conversation(id: Id, userId: Id, title: Option<string>, lastMessageAt: Time, createdAt: Time)

  datatype Message = Message(id: Id, conversationId: Id, role: string, content: string, createdAt: Time)

  /** The `personas` row; the columns hold the generator's JSON values as they came. */
  datatype PersonaRow = PersonaRow(
    id: Id,
    messageId: Id,
    userId: Id,
    name: Json,
    status: Json,
    role: Json,
    techComfort: Json,
    scenarioContext: Json,
    createdAt: Time)

  datatype DemographicsRow = DemographicsRow(id: Id, personaId: Id, age: string, location: Json, education: Json, industry: Json)

  datatype ListKind = Goals | Frustrations | BehavioralPatterns | InfluenceNetworks | RecruitmentCriteria | ResearchAssumptions

  /** A row of one of the six list tables: one element of a persona's list and its position. */
  datatype ItemRow = ItemRow(id: Id, personaId: Id, kind: ListKind, text: Json, orderIndex: int)

  datatype Payment = Payment(id: Id, orderId: string, paymentId: Option<string>, status: string)

  /** A snapshot of every table. */
  datatype Tables = Tables(
    users: seq<User>,
    otps: seq<Otp>,
    conversations: seq<Conversation>,
    messages: seq<Message>,
    personas: seq<PersonaRow>,
    demographics: seq<DemographicsRow>,
    items: seq<ItemRow>,
    payments: seq<Payment>)

  /** The JSON key of each list field and the table kind it is stored under. */
  const ListKeys: seq<(string, ListKind)> :=
    [("goals", Goals), ("frustrations", Frustrations), ("behavioral_patterns", BehavioralPatterns),
     ("influence_networks", InfluenceNetworks), ("recruitment_criteria", RecruitmentCriteria),
     ("research_assumptions", ResearchAssumptions)]

  /** A `detail` of an `HTTPException`, or the value the route returns. */
  datatype Reply<+T> = Ok(value: T) | HttpError(status: nat, detail: string)

  /** The id the database gives the next row of a table whose ids are `ids`. */
  function NextId(ids: seq<Id>): (r: Id)
    ensures forall i :: 0 <= i < |ids| ==> ids[i] < r
    ensures 1 <= r
  {
    if ids == [] then 1
    else
      var rest := NextId(ids[..|ids| - 1]);
      if ids[|ids| - 1] < rest then rest else ids[|ids| - 1] + 1
  }

  function UserIds(users: seq<User>): (r: seq<Id>)
    ensures |r| == |users| && forall i :: 0 <= i < |users| ==> r[i] == users[i].id
  {
    seq(|users|, i requires 0 <= i < |users| => users[i].id)
  }

  function OtpIds(otps: seq<Otp>): (r: seq<Id>)
    ensures |r| == |otps| && forall i :: 0 <= i < |otps| ==> r[i] == otps[i].id
  {
    seq(|otps|, i requires 0 <= i < |otps| => otps[i].id)
  }

  function ConversationIds(cs: seq<Conversation>): (r: seq<Id>)
    ensures |r| == |cs| && forall i :: 0 <= i < |cs| ==> r[i] == cs[i].id
  {
    seq(|cs|, i requires 0 <= i < |cs| => cs[i].id)
  }

  function MessageIds(ms: seq<Message>): (r: seq<Id>)
    ensures |r| == |ms| && forall i :: 0 <= i < |ms| ==> r[i] == ms[i].id
  {
    seq(|ms|, i requires 0 <= i < |ms| => ms[i].id)
  }

  function PersonaIds(ps: seq<PersonaRow>): (r: seq<Id>)
    ensures |r| == |ps| && forall i :: 0 <= i < |ps| ==> r[i] == ps[i].id
  {
    seq(|ps|, i requires 0 <= i < |ps| => ps[i].id)
  }

  function DemographicsIds(ds: seq<DemographicsRow>): (r: seq<Id>)
    ensures |r| == |ds| && forall i :: 0 <= i < |ds| ==> r[i] == ds[i].id
  {
    seq(|ds|, i requires 0 <= i < |ds| => ds[i].id)
  }

  function ItemIds(rows: seq<ItemRow>): (r: seq<Id>)
    ensures |r| == |rows| && forall i :: 0 <= i < |rows| ==> r[i] == rows[i].id
  {
    seq(|rows|, i requires 0 <= i < |rows| => rows[i].id)
  }

  predicate Distinct(ids: seq<Id>)
  {
    forall i, j :: 0 <= i < j < |ids| ==> ids[i] != ids[j]
  }

  /** The `unique=True` constraint on `users.email`. */
  predicate EmailsUnique(users: seq<User>)
  {
    forall i, j :: 0 <= i < j < |users| ==> users[i].email != users[j].email
  }

  /** The constraints the database keeps: primary keys are unique, so are e-mail addresses, and
      every one-time password belongs to an existing user. */
  predicate Valid(t: Tables)
  {
    && Distinct(UserIds(t.users))
    && (forall i :: 0 <= i < |t.otps| ==> t.otps[i].userId in UserIds(t.users))
    && EmailsUnique(t.users)
    && Distinct(OtpIds(t.otps))
    && Distinct(ConversationIds(t.conversations))
    && Distinct(MessageIds(t.messages))
    && Distinct(PersonaIds(t.personas))
  }

  /** The row `select(User).where(User.email == email).first()` finds. */
  function FindUserByEmail(users: seq<User>, email: string): (r: Option<nat>)
    ensures r.Some? ==> r.value < |users| && users[r.value].email == email
    ensures r.None? <==> forall i :: 0 <= i < |users| ==> users[i].email != email
  {
    if users == [] then None
    else if users[0].email == email then Some(0)
    else match FindUserByEmail(users[1..], email)
      case None => None
      case Some(i) => Some(i + 1)
  }

  /** `session.get(Conversation, id)`. */
  function FindConversation(cs: seq<Conversation>, id: Id): (r: Option<nat>)
    ensures r.Some? ==> r.value < |cs| && cs[r.value].id == id
    ensures r.None? <==> forall i :: 0 <= i < |cs| ==> cs[i].id != id
  {
    if cs == [] then None
    else if cs[0].id == id then Some(0)
    else match FindConversation(cs[1..], id)
      case None => None
      case Some(i) => Some(i + 1)
  }

  /** The rows src/routers/chat.py:123-139 write for one list: element `i` at `order_index` i. */
  function Enumerate(firstId: Id, personaId: Id, kind: ListKind, texts: seq<Json>): (r: seq<ItemRow>)
    ensures |r| == |texts|
    ensures forall i :: 0 <= i < |texts| ==> r[i] == ItemRow(firstId + i, personaId, kind, texts[i], i)
  {
    seq(|texts|, i requires 0 <= i < |texts| => ItemRow(firstId + i, personaId, kind, texts[i], i))
  }

  /** A fresh id is not among the existing ones, so appending the row keeps the ids distinct. */
  lemma AppendFreshKeepsDistinct(ids: seq<Id>)
    requires Distinct(ids)
    ensures Distinct(ids + [NextId(ids)])
  {
  }

  /** Numbering one more element extends the rows by one. */
  lemma EnumerateSnoc(firstId: Id, personaId: Id, kind: ListKind, texts: seq<Json>, i: nat)
    requires i < |texts|
    ensures Enumerate(firstId, personaId, kind, texts[..i + 1])
            == Enumerate(firstId, personaId, kind, texts[..i]) + [ItemRow(firstId + i, personaId, kind, texts[i], i)]
  {
    var a := Enumerate(firstId, personaId, kind, texts[..i + 1]);
    var b := Enumerate(firstId, personaId, kind, texts[..i]) + [ItemRow(firstId + i, personaId, kind, texts[i], i)];
    assert |a| == |b|;
    forall k | 0 <= k < |a| ensures a[k] == b[k] {
      if k < i { assert texts[..i + 1][k] == texts[..i][k]; }
    }
  }

  /** The in-memory database the routers run their sessions against. */
  class Db {
    var users: seq<User>
    var otps: seq<Otp>
    var conversations: seq<Conversation>
    var messages: seq<Message>
    var personas: seq<PersonaRow>
    var demographics: seq<DemographicsRow>
    var items: seq<ItemRow>
    var payments: seq<Payment>

    function State(): Tables
      reads this
    {
      Tables(users, otps, conversations, messages, personas, demographics, items, payments)
    }

    constructor ()
      ensures State() == Tables([], [], [], [], [], [], [], [])
    {
      users, otps, conversations, messages := [], [], [], [];
      personas, demographics, items, payments := [], [], [], [];
    }
  }
}
