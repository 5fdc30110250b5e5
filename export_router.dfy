/** The export routes of src/routers/export.py: the monthly eligibility rule, the status report,
    the serialisation of a stored persona (which sorts each list by `order_index`) and the
    checks of `POST /export/personas`. Rendering the PDF and encoding the JSON file are outside
    the model: a successful export returns the serialised personas it would render. */
module ExportRouter {
  import opened Wrappers
  import opened JsonValues
  import opened Tables

  const AccountAdmin: int := 1

  /** `EXPORT_RATE_LIMIT_DAYS`, in seconds. */
  const RateLimit: int := 30 * 86400

  const LimitMessage: string := "Export limit reached. Free accounts can export once per month."

  /** The triple `check_export_eligibility` returns. */
  datatype Eligibility = Eligibility(canExport: bool, remaining: int, nextAvailable: Option<Time>)

  /** `check_export_eligibility` (src/routers/export.py:31-55). */
  function CheckEligibility(u: User, now: Time): (r: Eligibility)
    ensures u.accountType >= AccountAdmin ==> r == Eligibility(true, -1, None)
    ensures u.accountType < AccountAdmin ==> r.remaining == if r.canExport then 1 else 0
    ensures u.accountType < AccountAdmin && u.lastExportAt.None? ==> r == Eligibility(true, 1, None)
    ensures u.accountType < AccountAdmin && u.lastExportAt.Some? ==>
              (r.canExport <==> now >= u.lastExportAt.value + RateLimit)
    ensures !r.canExport ==> r == Eligibility(false, 0, Some(u.lastExportAt.value + RateLimit))
    ensures r.canExport ==> r.nextAvailable.None?
  {
    if u.accountType >= AccountAdmin then Eligibility(true, -1, None)
    else if u.lastExportAt.None? then Eligibility(true, 1, None)
    else
      var next := u.lastExportAt.value + RateLimit;
      if now >= next then Eligibility(true, 1, None)
      else Eligibility(false, 0, Some(next))
  }

  /** The `ExportStatusResponse` body. */
  datatype ExportStatus = ExportStatus(
    canExport: bool,
    accountType: int,
    exportsRemaining: int,
    lastExportAt: Option<Time>,
    nextExportAvailable: Option<Time>)

  /** `get_export_status` (src/routers/export.py:58-71): an unlimited count is reported as 999. */
  function GetExportStatus(u: User, now: Time): (r: ExportStatus)
    ensures r.exportsRemaining >= 0
    ensures r.exportsRemaining == 999 <==> u.accountType >= AccountAdmin
    ensures r.canExport == CheckEligibility(u, now).canExport
    ensures r.accountType == u.accountType && r.lastExportAt == u.lastExportAt
    ensures r.nextExportAvailable == CheckEligibility(u, now).nextAvailable
    ensures u.accountType < AccountAdmin ==> r.exportsRemaining == CheckEligibility(u, now).remaining
    ensures u.accountType < AccountAdmin ==> r.exportsRemaining == if r.canExport then 1 else 0
    ensures r.nextExportAvailable == if r.canExport then None else Some(u.lastExportAt.value + RateLimit)
  {
    var e := CheckEligibility(u, now);
    ExportStatus(e.canExport, u.accountType, if e.remaining >= 0 then e.remaining else 999,
                 u.lastExportAt, e.nextAvailable)
  }

  /** A free user who exported at `at` is refused until 30 days later, and admitted from then on. */
  lemma FreeExportWindow(u: User, at: Time, later: Time)
    requires u.accountType < AccountAdmin
    ensures CheckEligibility(u.(lastExportAt := Some(at)), later).canExport <==> later >= at + RateLimit
  {
  }

  // ---- get_ordered_text ----

  predicate SortedByOrder(rows: seq<ItemRow>)
  {
    forall i, j :: 0 <= i < j < |rows| ==> rows[i].orderIndex <= rows[j].orderIndex
  }

  predicate StrictlySortedByOrder(rows: seq<ItemRow>)
  {
    forall i, j :: 0 <= i < j < |rows| ==> rows[i].orderIndex < rows[j].orderIndex
  }

  /** Inserts `x` after every row whose key is not larger, so equal keys keep their order. */
  function Insert(x: ItemRow, s: seq<ItemRow>): (r: seq<ItemRow>)
    requires SortedByOrder(s)
    ensures SortedByOrder(r)
    ensures multiset(r) == multiset(s) + multiset{x}
    ensures |r| == |s| + 1
    ensures r[0] == if s == [] || x.orderIndex < s[0].orderIndex then x else s[0]
  {
    if s == [] then [x]
    else if x.orderIndex < s[0].orderIndex then [x] + s
    else
      var rest := Insert(x, s[1..]);
      assert s == [s[0]] + s[1..];
      [s[0]] + rest
  }

  /** `sorted(items, key=lambda x: x.order_index)`. */
  function SortByOrder(rows: seq<ItemRow>): (r: seq<ItemRow>)
    ensures SortedByOrder(r)
    ensures multiset(r) == multiset(rows)
  {
    if rows == [] then []
    else
      assert rows == rows[..|rows| - 1] + [rows[|rows| - 1]];
      Insert(rows[|rows| - 1], SortByOrder(rows[..|rows| - 1]))
  }

  function Texts(rows: seq<ItemRow>): (r: seq<Json>)
    ensures |r| == |rows| && forall i :: 0 <= i < |rows| ==> r[i] == rows[i].text
  {
    seq(|rows|, i requires 0 <= i < |rows| => rows[i].text)
  }

  /** `get_ordered_text` (src/routers/export.py:76-77). */
  function OrderedText(rows: seq<ItemRow>): (r: seq<Json>)
    ensures |r| == |rows|
    ensures forall x :: x in r <==> exists i :: 0 <= i < |rows| && rows[i].text == x
  {
    var sorted := SortByOrder(rows);
    assert forall y :: y in sorted <==> y in rows by {
      forall y ensures y in sorted <==> y in rows {
        assert y in sorted <==> y in multiset(sorted);
        assert y in rows <==> y in multiset(rows);
      }
    }
    assert |sorted| == |rows| by {
      assert |multiset(sorted)| == |sorted| && |multiset(rows)| == |rows|;
    }
    var r := Texts(sorted);
    forall x
      ensures x in r <==> exists i :: 0 <= i < |rows| && rows[i].text == x
    {
      if x in r {
        var k :| 0 <= k < |r| && r[k] == x;
        assert sorted[k] in sorted;
        assert sorted[k] in rows;
        var i :| 0 <= i < |rows| && rows[i] == sorted[k];
        assert rows[i].text == x;
      }
      if exists i :: 0 <= i < |rows| && rows[i].text == x {
        var i :| 0 <= i < |rows| && rows[i].text == x;
        assert rows[i] in rows;
        var k :| 0 <= k < |sorted| && sorted[k] == rows[i];
        assert r[k] == x;
      }
    }
    r
  }

  /** The first row of a sorted arrangement is the row with the least key. */
  lemma HeadsAgree(s: seq<ItemRow>, e: seq<ItemRow>)
    requires SortedByOrder(s) && StrictlySortedByOrder(e)
    requires multiset(s) == multiset(e) && s != []
    ensures e != [] && s[0] == e[0]
  {
    assert s[0] in multiset(e);
    var k :| 0 <= k < |e| && e[k] == s[0];
    assert e[0] in multiset(s);
    var m :| 0 <= m < |s| && s[m] == e[0];
    assert s[0].orderIndex <= s[m].orderIndex;
  }

  lemma TailsPermuted<T>(s: seq<T>, e: seq<T>)
    requires multiset(s) == multiset(e) && s != [] && e != [] && s[0] == e[0]
    ensures multiset(s[1..]) == multiset(e[1..])
  {
    assert s == [s[0]] + s[1..] && e == [e[0]] + e[1..];
    assert multiset(s) == multiset([s[0]]) + multiset(s[1..]);
    assert multiset(e) == multiset([e[0]]) + multiset(e[1..]);
    forall x
      ensures multiset(s[1..])[x] == multiset(e[1..])[x]
    {
      assert multiset(s)[x] == multiset([s[0]])[x] + multiset(s[1..])[x];
      assert multiset(e)[x] == multiset([e[0]])[x] + multiset(e[1..])[x];
    }
  }

  /** A sorted arrangement of rows with distinct keys is unique. */
  lemma {:induction false} SortedPermutationIsUnique(s: seq<ItemRow>, e: seq<ItemRow>)
    requires SortedByOrder(s) && StrictlySortedByOrder(e)
    requires multiset(s) == multiset(e)
    ensures s == e
    decreases |s|
  {
    if s == [] {
      assert |multiset(e)| == 0;
    } else {
      HeadsAgree(s, e);
      TailsPermuted(s, e);
      SortedPermutationIsUnique(s[1..], e[1..]);
      assert s == [s[0]] + s[1..] && e == [e[0]] + e[1..];
    }
  }

  /** Rows that carry `texts[i]` at `order_index` i, as src/routers/chat.py:123-139 stores them. */
  predicate Numbered(e: seq<ItemRow>, texts: seq<Json>)
  {
    |e| == |texts| && forall i :: 0 <= i < |e| ==> e[i].text == texts[i] && e[i].orderIndex == i
  }

  lemma EnumerateIsNumbered(firstId: Id, personaId: Id, kind: ListKind, texts: seq<Json>)
    ensures Numbered(Enumerate(firstId, personaId, kind, texts), texts)
  {
  }

  /** `get_ordered_text` undoes the numbering that stored a list, whatever order the database
      returns the rows in. */
  lemma OrderedTextUndoesNumbering(rows: seq<ItemRow>, e: seq<ItemRow>, texts: seq<Json>)
    requires multiset(rows) == multiset(e) && Numbered(e, texts)
    ensures OrderedText(rows) == texts
  {
    assert StrictlySortedByOrder(e);
    SortedPermutationIsUnique(SortByOrder(rows), e);
  }

  // ---- serialize_persona_for_export ----

  /** The rows of one list table that belong to a persona, as the relationship loads them. */
  function RowsOf(items: seq<ItemRow>, personaId: Id, kind: ListKind): (r: seq<ItemRow>)
    ensures forall x :: x in r <==> x in items && x.personaId == personaId && x.kind == kind
  {
    if items == [] then []
    else
      var rest := RowsOf(items[1..], personaId, kind);
      assert items == [items[0]] + items[1..];
      if items[0].personaId == personaId && items[0].kind == kind then [items[0]] + rest else rest
  }

  /** The demographics row of a persona (the relationship is one-to-one). */
  function DemographicsOf(ds: seq<DemographicsRow>, personaId: Id): (r: Option<DemographicsRow>)
    ensures r.Some? ==> r.value in ds && r.value.personaId == personaId
    ensures r.None? <==> forall i :: 0 <= i < |ds| ==> ds[i].personaId != personaId
  {
    if ds == [] then None
    else if ds[0].personaId == personaId then Some(ds[0])
    else DemographicsOf(ds[1..], personaId)
  }

  const AllKinds: set<ListKind> :=
    {Goals, Frustrations, BehavioralPatterns, InfluenceNetworks, RecruitmentCriteria, ResearchAssumptions}

  /** The dict `serialize_persona_for_export` builds; `demographics` is `{}` when there is no row,
      and `lists` holds the six lists by kind. */
  datatype ExportedPersona = ExportedPersona(
    name: Json,
    status: Json,
    role: Json,
    techComfort: Json,
    scenarioContext: Json,
    demographics: Json,
    lists: map<ListKind, seq<Json>>)

  function DemographicsJson(d: Option<DemographicsRow>): (r: Json)
    ensures d.None? <==> r == Dict(map[])
  {
    match d
    case None => Dict(map[])
    case Some(row) =>
      var fields := map["age" := Str(row.age), "location" := row.location,
                        "education" := row.education, "industry" := row.industry];
      assert "age" in fields;
      Dict(fields)
  }

  /** `serialize_persona_for_export` (src/routers/export.py:74-97). */
  function Serialize(t: Tables, p: PersonaRow): (r: ExportedPersona)
    ensures r.lists.Keys == AllKinds
    ensures forall k :: k in AllKinds ==> r.lists[k] == OrderedText(RowsOf(t.items, p.id, k))
    ensures r.name == p.name && r.status == p.status && r.role == p.role
    ensures r.techComfort == p.techComfort && r.scenarioContext == p.scenarioContext
    ensures r.demographics == DemographicsJson(DemographicsOf(t.demographics, p.id))
  {
    ExportedPersona(p.name, p.status, p.role, p.techComfort, p.scenarioContext,
                    DemographicsJson(DemographicsOf(t.demographics, p.id)),
                    map k | k in AllKinds :: OrderedText(RowsOf(t.items, p.id, k)))
  }

  // ---- export_personas ----

  /** A file the route streams back: its format, date and the personas in it. */
  datatype ExportReply =
    | Exported(format: string, exportDate: Time, totalPersonas: nat, personas: seq<ExportedPersona>)
    | Refused(status: nat, detail: string, nextAvailable: Option<Time>)

  datatype ExportStep = ExportStep(tables: Tables, reply: ExportReply)

  /** The personas the query selects: the user's own among the requested ids, in table order. */
  function Selected(ps: seq<PersonaRow>, ids: seq<int>, userId: Id): (r: seq<PersonaRow>)
    ensures forall i :: 0 <= i < |r| ==> r[i] in ps && r[i].id in ids && r[i].userId == userId
    ensures forall p :: p in ps && p.id in ids && p.userId == userId ==> p in r
    ensures |r| <= |ps|
  {
    if ps == [] then []
    else
      var rest := Selected(ps[1..], ids, userId);
      if ps[0].id in ids && ps[0].userId == userId then [ps[0]] + rest else rest
  }

  function SerializeAll(t: Tables, ps: seq<PersonaRow>): (r: seq<ExportedPersona>)
    ensures |r| == |ps| && forall i :: 0 <= i < |ps| ==> r[i] == Serialize(t, ps[i])
  {
    seq(|ps|, i requires 0 <= i < |ps| => Serialize(t, ps[i]))
  }

  /** `export_personas` (src/routers/export.py:275-350) for the user in row `u`. */
  function ExportPersonas(t: Tables, u: nat, format: string, ids: seq<int>, now: Time): (r: ExportStep)
    requires u < |t.users|
    ensures !CheckEligibility(t.users[u], now).canExport ==>
              r == ExportStep(t, Refused(429, LimitMessage, CheckEligibility(t.users[u], now).nextAvailable))
    ensures CheckEligibility(t.users[u], now).canExport && format != "pdf" && format != "json" ==>
              r.reply == Refused(400, "Format must be 'pdf' or 'json'", None)
    ensures CheckEligibility(t.users[u], now).canExport && (format == "pdf" || format == "json") ==>
              var n := |Selected(t.personas, ids, t.users[u].id)|;
              (r.reply == Refused(404, "No personas found", None) <==> n == 0 || n < |ids|)
    ensures r.reply.Refused? ==> r.tables == t
    ensures r.reply.Exported? ==>
              && r.tables == t.(users := t.users[u := t.users[u].(lastExportAt := Some(now))])
              && r.reply.format == format && r.reply.exportDate == now
              && r.reply.personas == SerializeAll(t, Selected(t.personas, ids, t.users[u].id))
              && r.reply.totalPersonas == |r.reply.personas| >= |ids| > 0
  {
    var user := t.users[u];
    var e := CheckEligibility(user, now);
    if !e.canExport then ExportStep(t, Refused(429, LimitMessage, e.nextAvailable))
    else if format != "pdf" && format != "json" then
      ExportStep(t, Refused(400, "Format must be 'pdf' or 'json'", None))
    else
      var selected := Selected(t.personas, ids, user.id);
      if selected == [] || |selected| < |ids| then ExportStep(t, Refused(404, "No personas found", None))
      else
        assert selected[0].id in ids;
        var data := SerializeAll(t, selected);
        ExportStep(t.(users := t.users[u := user.(lastExportAt := Some(now))]),
                   Exported(format, now, |data|, data))
  }

  /** An ineligible user is told 429 whatever format they ask for: the limit is checked first. */
  lemma LimitCheckedBeforeFormat(t: Tables, u: nat, format: string, ids: seq<int>, now: Time)
    requires u < |t.users| && !CheckEligibility(t.users[u], now).canExport
    ensures ExportPersonas(t, u, format, ids, now).reply.status == 429
  {
  }

  // ---- Counting the selected personas ----

  function IdSet(ids: seq<int>): set<int>
  {
    set x | x in ids
  }

  lemma {:induction false} IdSetBound(ids: seq<int>)
    ensures |IdSet(ids)| <= |ids|
    ensures |IdSet(ids)| == |ids| ==> forall i, j :: 0 <= i < j < |ids| ==> ids[i] != ids[j]
  {
    if ids != [] {
      var last := ids[|ids| - 1];
      var init := ids[..|ids| - 1];
      IdSetBound(init);
      assert ids == init + [last];
      assert IdSet(ids) == IdSet(init) + {last};
      if |IdSet(ids)| == |ids| {
        assert last !in IdSet(init);
        forall i, j | 0 <= i < j < |ids|
          ensures ids[i] != ids[j]
        {
          if j == |ids| - 1 {
            assert ids[i] == init[i];
          } else {
            assert ids[i] == init[i] && ids[j] == init[j];
          }
        }
      }
    }
  }

  /** A subsequence of a table: its rows appear in the table in the same order. */
  lemma {:induction false} SelectedIdsDistinct(ps: seq<PersonaRow>, ids: seq<int>, userId: Id)
    requires Distinct(PersonaIds(ps))
    ensures Distinct(PersonaIds(Selected(ps, ids, userId)))
  {
    if ps != [] {
      var rest := Selected(ps[1..], ids, userId);
      assert Distinct(PersonaIds(ps[1..])) by {
        forall i, j | 0 <= i < j < |ps[1..]|
          ensures PersonaIds(ps[1..])[i] != PersonaIds(ps[1..])[j]
        {
          assert PersonaIds(ps)[i + 1] != PersonaIds(ps)[j + 1];
        }
      }
      SelectedIdsDistinct(ps[1..], ids, userId);
      if ps[0].id in ids && ps[0].userId == userId {
        var r := [ps[0]] + rest;
        forall i, j | 0 <= i < j < |r|
          ensures PersonaIds(r)[i] != PersonaIds(r)[j]
        {
          if i == 0 {
            assert r[j] in ps[1..];
            var k :| 0 <= k < |ps[1..]| && ps[1..][k] == r[j];
            assert PersonaIds(ps)[0] != PersonaIds(ps)[k + 1];
          } else {
            assert PersonaIds(rest)[i - 1] != PersonaIds(rest)[j - 1];
          }
        }
      }
    }
  }

  lemma {:induction false} DistinctCard(ids: seq<int>)
    requires forall i, j :: 0 <= i < j < |ids| ==> ids[i] != ids[j]
    ensures |IdSet(ids)| == |ids|
  {
    if ids != [] {
      var init := ids[..|ids| - 1];
      DistinctCard(init);
      assert ids == init + [ids[|ids| - 1]];
      assert IdSet(ids) == IdSet(init) + {ids[|ids| - 1]};
      assert ids[|ids| - 1] !in IdSet(init);
    }
  }

  /** Distinct ids drawn from `ids` number at most the distinct values of `ids`, and reach that
      number only when they cover all of them. */
  lemma CoverWhenCountReached(selIds: seq<int>, ids: seq<int>)
    requires forall i, j :: 0 <= i < j < |selIds| ==> selIds[i] != selIds[j]
    requires forall i :: 0 <= i < |selIds| ==> selIds[i] in ids
    requires |selIds| >= |ids|
    ensures forall i, j :: 0 <= i < j < |ids| ==> ids[i] != ids[j]
    ensures forall x :: x in ids ==> x in selIds
  {
    DistinctCard(selIds);
    IdSetBound(ids);
    assert IdSet(selIds) <= IdSet(ids);
    var missing := IdSet(ids) - IdSet(selIds);
    assert IdSet(ids) == IdSet(selIds) + missing;
    assert |IdSet(ids)| == |IdSet(selIds)| + |missing|;
    assert missing == {};
    forall x | x in ids
      ensures x in selIds
    {
      assert x in IdSet(ids);
      assert x in IdSet(selIds);
    }
  }

  /** A successful export asked for distinct ids, every one of them a persona of the user:
      a duplicate id or someone else's persona makes the count fall short and gives 404. */
  lemma ExportedIdsAreOwnedAndDistinct(t: Tables, u: nat, format: string, ids: seq<int>, now: Time)
    requires Valid(t) && u < |t.users|
    requires ExportPersonas(t, u, format, ids, now).reply.Exported?
    ensures forall i, j :: 0 <= i < j < |ids| ==> ids[i] != ids[j]
    ensures forall i :: 0 <= i < |ids| ==>
              exists p :: p in t.personas && p.id == ids[i] && p.userId == t.users[u].id
  {
    var sel := Selected(t.personas, ids, t.users[u].id);
    assert |sel| >= |ids|;
    SelectedCoversIds(t.personas, ids, t.users[u].id);
  }

  /** When the selection is as long as the request, the requested ids are distinct and each is
      a selected persona. */
  lemma SelectedCoversIds(ps: seq<PersonaRow>, ids: seq<int>, userId: Id)
    requires Distinct(PersonaIds(ps)) && |Selected(ps, ids, userId)| >= |ids|
    ensures forall i, j :: 0 <= i < j < |ids| ==> ids[i] != ids[j]
    ensures forall i :: 0 <= i < |ids| ==> exists p :: p in ps && p.id == ids[i] && p.userId == userId
  {
    var sel := Selected(ps, ids, userId);
    var selIds := PersonaIds(sel);
    SelectedIdsDistinct(ps, ids, userId);
    assert forall i :: 0 <= i < |selIds| ==> selIds[i] == sel[i].id && sel[i].id in ids;
    CoverWhenCountReached(selIds, ids);
    forall i | 0 <= i < |ids|
      ensures exists p :: p in ps && p.id == ids[i] && p.userId == userId
    {
      assert ids[i] in selIds;
      var k :| 0 <= k < |selIds| && selIds[k] == ids[i];
      var p := sel[k];
      assert p in ps && p.id == ids[i] && p.userId == userId;
    }
  }

  /** A free user who exported at `at` is refused, with the date the window reopens. */
  lemma RefusedWithinWindow(t: Tables, u: nat, format: string, ids: seq<int>, at: Time, later: Time)
    requires u < |t.users| && t.users[u].accountType < AccountAdmin
    requires t.users[u].lastExportAt == Some(at) && later < at + RateLimit
    ensures ExportPersonas(t, u, format, ids, later) == ExportStep(t, Refused(429, LimitMessage, Some(at + RateLimit)))
  {
  }

  /** After a free user's export, the next one is refused for 30 days: the timestamp is written
      only when an export succeeds. */
  lemma ExportStartsTheWindow(t: Tables, u: nat, format: string, ids: seq<int>, now: Time,
                              format2: string, ids2: seq<int>, later: Time)
    requires u < |t.users| && t.users[u].accountType < AccountAdmin
    requires ExportPersonas(t, u, format, ids, now).reply.Exported?
    requires later < now + RateLimit
    ensures ExportPersonas(ExportPersonas(t, u, format, ids, now).tables, u, format2, ids2, later).reply
              == Refused(429, LimitMessage, Some(now + RateLimit))
  {
    var t1 := ExportPersonas(t, u, format, ids, now).tables;
    assert t1.users[u] == t.users[u].(lastExportAt := Some(now));
    RefusedWithinWindow(t1, u, format2, ids2, now, later);
  }

  /** The route against the database: a refusal changes nothing, a success stamps the user. */
  method ExportPersonasRoute(db: Db, u: nat, format: string, ids: seq<int>, now: Time) returns (reply: ExportReply)
    requires u < |db.users|
    modifies db
    ensures ExportStep(db.State(), reply) == ExportPersonas(old(db.State()), u, format, ids, now)
  {
    var user := db.users[u];
    var e := CheckEligibility(user, now);
    if !e.canExport {
      return Refused(429, LimitMessage, e.nextAvailable);
    }
    if format != "pdf" && format != "json" {
      return Refused(400, "Format must be 'pdf' or 'json'", None);
    }
    var selected := Selected(db.personas, ids, user.id);
    if selected == [] || |selected| < |ids| {
      return Refused(404, "No personas found", None);
    }
    var data := SerializeAll(db.State(), selected);
    db.users := db.users[u := user.(lastExportAt := Some(now))];
    reply := Exported(format, now, |data|, data);
  }
}
