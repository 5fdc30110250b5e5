/** The page's handlers over the persona store (frontend/src/App.tsx): a generation request that
    replaces the working set with freshly numbered personas, and duplicating a persona. The
    request's outcome is a parameter: the persona objects the server returned, or a rejection
    carrying the error's message (`None` when the thrown value is not an `Error`). `Date.now()`
    is a parameter: `t` where it is read once, `clock` where it is read once per persona. */
module App {
  import opened Wrappers
  import opened Strings
  import opened JsValues
  import PersonaStore

  type Persona = PersonaStore.Persona

  /** `persona-${Date.now()}-${index}` (frontend/src/App.tsx:36). */
  function BatchId(t: int, index: nat): string
  {
    "persona-" + IntToString(t) + "-" + NatToString(index)
  }

  /** `persona-${Date.now()}-duplicate` (frontend/src/App.tsx:51). */
  function DuplicateId(t: int): string
  {
    "persona-" + IntToString(t) + "-duplicate"
  }

  /** Different positions give different ids, whatever clock readings they carry: the index
      is the digits after the last '-'. */
  lemma BatchIdInjective(t1: int, t2: int, i: nat, j: nat)
    requires BatchId(t1, i) == BatchId(t2, j)
    ensures i == j
  {
    var p1 := "persona-" + IntToString(t1) + "-";
    var p2 := "persona-" + IntToString(t2) + "-";
    assert BatchId(t1, i) == p1 + NatToString(i);
    assert BatchId(t2, j) == p2 + NatToString(j);
    DigitsAfterLastDash(p1, NatToString(i), p2, NatToString(j));
    NatToStringInjective(i, j);
  }

  /** The position of the last '-' in `s`, or -1 when there is none. */
  function LastDash(s: string): (r: int)
    ensures -1 <= r < |s|
  {
    if s == [] then -1 else if s[|s| - 1] == '-' then |s| - 1 else LastDash(s[..|s| - 1])
  }

  /** After a part ending in '-', a run of digits leaves that '-' the last one. */
  lemma {:induction false} LastDashBeforeDigits(p: string, a: string)
    requires 1 <= |p| && p[|p| - 1] == '-' && IsDigits(a)
    ensures LastDash(p + a) == |p| - 1
  {
    if a == [] {
      assert p + a == p;
    } else {
      var s := p + a;
      assert s[|s| - 1] == a[|a| - 1];
      assert s[..|s| - 1] == p + a[..|a| - 1];
      LastDashBeforeDigits(p, a[..|a| - 1]);
    }
  }

  /** Two splittings of one text into a part ending in '-' and a run of digits are the same. */
  lemma DigitsAfterLastDash(p1: string, a: string, p2: string, b: string)
    requires 1 <= |p1| && p1[|p1| - 1] == '-' && 1 <= |p2| && p2[|p2| - 1] == '-'
    requires IsDigits(a) && IsDigits(b) && p1 + a == p2 + b
    ensures a == b
  {
    var s := p1 + a;
    LastDashBeforeDigits(p1, a);
    LastDashBeforeDigits(p2, b);
    assert a == s[|p1|..] == b;
  }

  /** A duplicate's id ends in a letter and a batch id in a digit, so the two never meet. */
  lemma DuplicateIdIsNoBatchId(t: int, t2: int, i: nat)
    ensures DuplicateId(t) != BatchId(t2, i)
  {
    var d := DuplicateId(t);
    var b := BatchId(t2, i);
    var n := NatToString(i);
    assert d[|d| - 1] == 'e';
    assert b[|b| - 1] == n[|n| - 1];
    assert IsDigit(n[|n| - 1]);
  }

  /** The response personas with their ids replaced (frontend/src/App.tsx:34-37). `Date.now()`
      is read once per persona: `clock(i)` is the reading taken for the persona at index i. */
  function WithIds(ps: seq<Persona>, clock: nat -> int): (r: seq<Persona>)
    ensures |r| == |ps|
    ensures forall i :: 0 <= i < |r| ==> PersonaStore.IdOf(r[i]) == Str(BatchId(clock(i), i))
    ensures forall i :: 0 <= i < |r| ==> r[i].Keys == ps[i].Keys + {"id"}
    ensures forall i, k :: 0 <= i < |r| && k in ps[i] && k != "id" ==> r[i][k] == ps[i][k]
  {
    seq(|ps|, i requires 0 <= i < |ps| => ps[i]["id" := Str(BatchId(clock(i), i))])
  }

  /** The personas of one batch carry pairwise distinct ids, even when the clock moves on
      while they are numbered. */
  lemma WithIdsDistinct(ps: seq<Persona>, clock: nat -> int)
    ensures var r := WithIds(ps, clock);
            forall i, j :: 0 <= i < |r| && 0 <= j < |r| && i != j ==> PersonaStore.IdOf(r[i]) != PersonaStore.IdOf(r[j])
  {
    var r := WithIds(ps, clock);
    forall i, j | 0 <= i < |r| && 0 <= j < |r| && i != j
      ensures PersonaStore.IdOf(r[i]) != PersonaStore.IdOf(r[j])
    {
      if BatchId(clock(i), i) == BatchId(clock(j), j) {
        BatchIdInjective(clock(i), clock(j), i, j);
      }
    }
  }

  /** The message shown when generation fails (frontend/src/App.tsx:42). */
  function SearchError(message: Option<string>): (r: string)
    ensures message.Some? ==> r == message.value
    ensures message.None? ==> r == "Failed to generate personas"
  {
    if message.Some? then message.value else "Failed to generate personas"
  }

  /** `handleSearch` up to the request (frontend/src/App.tsx:23-24). */
  function SearchEntered(s: PersonaStore.PersonaState): (r: PersonaStore.PersonaState)
    ensures r.isGenerating && r.error.None?
    ensures r.personas == s.personas && r.currentMode == s.currentMode
  {
    s.(isGenerating := true, error := None)
  }

  /** `handleSearch(data)` (frontend/src/App.tsx:22-46): on success the working set is replaced
      by the numbered response; on failure it is kept and the error set; generation ends either
      way. */
  function SearchStep(s: PersonaStore.PersonaState, clock: nat -> int, outcome: Settled<seq<Persona>>): (r: PersonaStore.PersonaState)
    ensures !r.isGenerating
    ensures r.currentMode == s.currentMode && r.uploadedFiles == s.uploadedFiles
    ensures r.conversationHistory == s.conversationHistory
    ensures outcome.Fulfilled? ==> r.personas == WithIds(outcome.value, clock) && r.error.None?
    ensures outcome.Rejected? ==> r.personas == s.personas && r.error == Some(SearchError(outcome.message))
  {
    var entered := SearchEntered(s);
    match outcome
    case Fulfilled(ps) => entered.(personas := WithIds(ps, clock), isGenerating := false)
    case Rejected(message) => entered.(error := Some(SearchError(message)), isGenerating := false)
  }

  method HandleSearch(store: PersonaStore.Store, clock: nat -> int, outcome: Settled<seq<Persona>>)
    modifies store
    ensures store.State() == SearchStep(old(store.State()), clock, outcome)
  {
    store.SetGenerating(true);
    store.SetError(None);
    match outcome {
      case Fulfilled(ps) =>
        store.SetPersonas(WithIds(ps, clock));
      case Rejected(message) =>
        store.SetError(Some(SearchError(message)));
    }
    store.SetGenerating(false);
  }

  /** The copy `handleDuplicatePersona` appends (frontend/src/App.tsx:48-55): a new id and the
      name with " (Copy)" added; every other property is the original's. */
  function Duplicate(p: Persona, t: int): (r: Persona)
    ensures r.Keys == p.Keys + {"id", "name"}
    ensures r["id"] == Str(DuplicateId(t))
    ensures r["name"] == Str(ToString(Get(Obj(p), "name")) + " (Copy)")
    ensures forall k :: k in p && k != "id" && k != "name" ==> r[k] == p[k]
  {
    p["id" := Str(DuplicateId(t))]["name" := Str(ToString(Get(Obj(p), "name")) + " (Copy)")]
  }

  method HandleDuplicatePersona(store: PersonaStore.Store, p: Persona, t: int)
    modifies store
    ensures store.State() == old(store.State()).(personas := old(store.personas) + [Duplicate(p, t)])
  {
    store.AddPersona(Duplicate(p, t));
  }

  /** After a generated batch is duplicated from, editing the copy by its id reaches the copy
      only: the batch personas are left as they were. */
  lemma EditingCopyLeavesBatch(xs: seq<Persona>, clock: nat -> int, p: Persona, t: int, updates: Persona)
    ensures var batch := WithIds(xs, clock);
            var c := Duplicate(p, t);
            PersonaStore.UpdatePersonas(batch + [c], DuplicateId(t), updates) == batch + [PersonaStore.Merge(c, updates)]
  {
    var batch := WithIds(xs, clock);
    var c := Duplicate(p, t);
    var ps := batch + [c];
    var r := PersonaStore.UpdatePersonas(ps, DuplicateId(t), updates);
    forall i | 0 <= i < |batch|
      ensures r[i] == batch[i]
    {
      DuplicateIdIsNoBatchId(t, clock(i), i);
      assert ps[i] == batch[i];
    }
    assert PersonaStore.IdOf(c) == Str(DuplicateId(t));
  }
}
