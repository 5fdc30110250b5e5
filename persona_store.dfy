/** The client's working set of generated personas (frontend/src/stores/personaStore.ts): the
    persona list, the generation mode, a generating flag, the last error, the uploaded files and
    the conversation history. A persona is held as the JavaScript object the client really has,
    its own properties, because the list fields may hold server rows of any shape. */
module PersonaStore {
  import opened Wrappers
  import opened JsValues

  /** A persona object: its own enumerable properties. */
  type Persona = map<string, Value>

  datatype Mode = Quick | ThinkHard | Homework

  datatype FileKind = Pdf | Image | Markdown

  datatype ProcessedFile = ProcessedFile(id: string, name: string, kind: FileKind, size: int)

  /** A history entry; its `output` field is not modelled. */
  datatype ConversationEntry = ConversationEntry(id: string, timestamp: int, input: string, mode: Mode, files: seq<ProcessedFile>)

  datatype PersonaState = PersonaState(
    personas: seq<Persona>,
    currentMode: Mode,
    isGenerating: bool,
    error: Option<string>,
    uploadedFiles: seq<ProcessedFile>,
    conversationHistory: seq<ConversationEntry>)

  const Initial: PersonaState := PersonaState([], Quick, false, None, [], [])

  /** `p.id`. */
  function IdOf(p: Persona): Value
  {
    if "id" in p then p["id"] else Undefined
  }

  /** `p.id === id` for the string the actions receive: strict equality, so a persona whose id
      is a number is never matched. */
  predicate Matches(p: Persona, id: string)
  {
    IdOf(p) == Str(id)
  }

  /** `{ ...p, ...updates }`: every property of `updates` wins, the rest of `p` is kept. */
  function Merge(p: Persona, updates: Persona): (r: Persona)
    ensures r.Keys == p.Keys + updates.Keys
    ensures forall k :: k in updates ==> r[k] == updates[k]
    ensures forall k :: k in p && k !in updates ==> r[k] == p[k]
  {
    p + updates
  }

  /** The list `updatePersona(id, updates)` computes (frontend/src/stores/personaStore.ts:50-55). */
  function UpdatePersonas(ps: seq<Persona>, id: string, updates: Persona): (r: seq<Persona>)
    ensures |r| == |ps|
    ensures forall i :: 0 <= i < |ps| ==> r[i] == if Matches(ps[i], id) then Merge(ps[i], updates) else ps[i]
  {
    if ps == [] then []
    else [if Matches(ps[0], id) then Merge(ps[0], updates) else ps[0]] + UpdatePersonas(ps[1..], id, updates)
  }

  /** The list `deletePersona(id)` computes (frontend/src/stores/personaStore.ts:57-60). */
  function DeletePersonas(ps: seq<Persona>, id: string): (r: seq<Persona>)
    ensures |r| <= |ps|
    ensures forall p :: p in r <==> p in ps && !Matches(p, id)
  {
    if ps == [] then []
    else if Matches(ps[0], id) then DeletePersonas(ps[1..], id)
    else [ps[0]] + DeletePersonas(ps[1..], id)
  }

  /** Deleting works element by element, so the kept personas stay in their original order. */
  lemma {:induction false} DeleteDistributes(a: seq<Persona>, b: seq<Persona>, id: string)
    ensures DeletePersonas(a + b, id) == DeletePersonas(a, id) + DeletePersonas(b, id)
  {
    if a == [] {
      assert a + b == b;
    } else {
      assert (a + b)[1..] == a[1..] + b;
      DeleteDistributes(a[1..], b, id);
    }
  }

  /** Deleting an id no persona carries changes nothing. */
  lemma {:induction false} DeleteOfAbsent(ps: seq<Persona>, id: string)
    requires forall i :: 0 <= i < |ps| ==> !Matches(ps[i], id)
    ensures DeletePersonas(ps, id) == ps
  {
    if ps != [] {
      DeleteOfAbsent(ps[1..], id);
    }
  }

  /** Updating a persona without touching its id and then deleting that id leaves what deleting
      alone leaves: the update never reaches a persona that survives. */
  lemma {:induction false} DeleteAfterUpdate(ps: seq<Persona>, id: string, updates: Persona)
    requires "id" !in updates
    ensures DeletePersonas(UpdatePersonas(ps, id, updates), id) == DeletePersonas(ps, id)
  {
    if ps != [] {
      var u := UpdatePersonas(ps, id, updates);
      assert u[1..] == UpdatePersonas(ps[1..], id, updates);
      assert Matches(u[0], id) == Matches(ps[0], id);
      DeleteAfterUpdate(ps[1..], id, updates);
    }
  }

  /** Strict matching: a persona whose id is the number `n` is neither updated nor deleted
      through the string spelling of `n`. */
  lemma NumericIdIsNotMatched(ps: seq<Persona>, n: int, updates: Persona)
    requires forall i :: 0 <= i < |ps| ==> IdOf(ps[i]) == Num(n)
    ensures UpdatePersonas(ps, Strings.IntToString(n), updates) == ps
    ensures DeletePersonas(ps, Strings.IntToString(n)) == ps
  {
    DeleteOfAbsent(ps, Strings.IntToString(n));
  }

  /** The merge is shallow: an update carrying `demographics` replaces the whole object, so a
      demographic field it leaves out is gone. */
  lemma UpdateReplacesDemographics(ps: seq<Persona>, i: nat, id: string, d: map<string, Value>, field: string)
    requires i < |ps| && Matches(ps[i], id) && field !in d
    ensures var r := UpdatePersonas(ps, id, map["demographics" := Obj(d)]);
            && r[i]["demographics"] == Obj(d)
            && field !in r[i]["demographics"].props
  {
  }

  /** `uploadedFiles.filter(f => f.id !== fileId)` (frontend/src/stores/personaStore.ts:71-74). */
  function FilesWithout(fs: seq<ProcessedFile>, fileId: string): (r: seq<ProcessedFile>)
    ensures |r| <= |fs|
    ensures forall f :: f in r <==> f in fs && f.id != fileId
  {
    if fs == [] then []
    else if fs[0].id == fileId then FilesWithout(fs[1..], fileId)
    else [fs[0]] + FilesWithout(fs[1..], fileId)
  }

  /** The filter works file by file: the files it keeps stay in order with their repeats, and a
      single file is kept exactly when its id differs. */
  lemma {:induction false} FilesWithoutDistributes(a: seq<ProcessedFile>, b: seq<ProcessedFile>, fileId: string)
    ensures FilesWithout(a + b, fileId) == FilesWithout(a, fileId) + FilesWithout(b, fileId)
    ensures forall f :: FilesWithout([f], fileId) == if f.id != fileId then [f] else []
  {
    if a == [] {
      assert a + b == b;
    } else {
      var ab := a + b;
      assert ab[0] == a[0] && ab[1..] == a[1..] + b;
      FilesWithoutDistributes(a[1..], b, fileId);
    }
    forall f
      ensures FilesWithout([f], fileId) == if f.id != fileId then [f] else []
    {
      assert [f][1..] == [];
    }
  }

  /** Adding a file and removing its id again gives back the list, if no earlier file has that id. */
  lemma {:induction false} RemoveAddedFile(fs: seq<ProcessedFile>, f: ProcessedFile)
    requires forall i :: 0 <= i < |fs| ==> fs[i].id != f.id
    ensures FilesWithout(fs + [f], f.id) == fs
  {
    if fs == [] {
      assert fs + [f] == [f];
    } else {
      assert (fs + [f])[1..] == fs[1..] + [f];
      RemoveAddedFile(fs[1..], f);
    }
  }

  /** `clearAll` (frontend/src/stores/personaStore.ts:85-91). */
  function ClearAllStep(s: PersonaState): (r: PersonaState)
    ensures r.personas == [] && r.uploadedFiles == [] && r.conversationHistory == [] && r.error.None?
    ensures r.currentMode == s.currentMode && r.isGenerating == s.isGenerating
  {
    s.(personas := [], uploadedFiles := [], conversationHistory := [], error := None)
  }

  /** What `persist` writes to storage: the `partialize` slice
      (frontend/src/stores/personaStore.ts:93-99). */
  datatype PersistedSlice = PersistedSlice(personas: seq<Persona>, currentMode: Mode, conversationHistory: seq<ConversationEntry>)

  function Persisted(s: PersonaState): (r: PersistedSlice)
    ensures r.personas == s.personas && r.currentMode == s.currentMode
    ensures r.conversationHistory == s.conversationHistory
  {
    PersistedSlice(s.personas, s.currentMode, s.conversationHistory)
  }

  /** A fresh page: the stored slice merged over the initial state. */
  function Rehydrate(slice: PersistedSlice): (r: PersonaState)
    ensures Persisted(r) == slice
    ensures !r.isGenerating && r.error.None? && r.uploadedFiles == []
  {
    Initial.(personas := slice.personas, currentMode := slice.currentMode, conversationHistory := slice.conversationHistory)
  }

  /** Only the slice survives a reload: the flag, the error and the files are back to their
      initial values, whatever they were. */
  lemma ReloadForgetsTransientState(s: PersonaState)
    ensures Rehydrate(Persisted(s)) == s.(isGenerating := false, error := None, uploadedFiles := [])
  {
  }

  /** `clearAll` keeps the mode across a reload but nothing of the work. */
  lemma ClearAllPersistsOnlyMode(s: PersonaState)
    ensures Persisted(ClearAllStep(s)) == PersistedSlice([], s.currentMode, [])
  {
  }

  /** The store object. */
  class Store {
    var personas: seq<Persona>
    var currentMode: Mode
    var isGenerating: bool
    var error: Option<string>
    var uploadedFiles: seq<ProcessedFile>
    var conversationHistory: seq<ConversationEntry>

    function State(): PersonaState
      reads this
    {
      PersonaState(personas, currentMode, isGenerating, error, uploadedFiles, conversationHistory)
    }

    constructor ()
      ensures State() == Initial
    {
      personas, currentMode, isGenerating, error := [], Quick, false, None;
      uploadedFiles, conversationHistory := [], [];
    }

    method AddPersona(p: Persona)
      modifies this
      ensures State() == old(State()).(personas := old(personas) + [p])
    {
      personas := personas + [p];
    }

    method UpdatePersona(id: string, updates: Persona)
      modifies this
      ensures State() == old(State()).(personas := UpdatePersonas(old(personas), id, updates))
    {
      personas := UpdatePersonas(personas, id, updates);
    }

    method DeletePersona(id: string)
      modifies this
      ensures State() == old(State()).(personas := DeletePersonas(old(personas), id))
    {
      personas := DeletePersonas(personas, id);
    }

    method SetPersonas(ps: seq<Persona>)
      modifies this
      ensures State() == old(State()).(personas := ps)
    {
      personas := ps;
    }

    method SetMode(mode: Mode)
      modifies this
      ensures State() == old(State()).(currentMode := mode)
    {
      currentMode := mode;
    }

    method AddFile(f: ProcessedFile)
      modifies this
      ensures State() == old(State()).(uploadedFiles := old(uploadedFiles) + [f])
    {
      uploadedFiles := uploadedFiles + [f];
    }

    method RemoveFile(fileId: string)
      modifies this
      ensures State() == old(State()).(uploadedFiles := FilesWithout(old(uploadedFiles), fileId))
    {
      uploadedFiles := FilesWithout(uploadedFiles, fileId);
    }

    method SetGenerating(flag: bool)
      modifies this
      ensures State() == old(State()).(isGenerating := flag)
    {
      isGenerating := flag;
    }

    method SetError(e: Option<string>)
      modifies this
      ensures State() == old(State()).(error := e)
    {
      error := e;
    }

    method AddConversationEntry(entry: ConversationEntry)
      modifies this
      ensures State() == old(State()).(conversationHistory := old(conversationHistory) + [entry])
    {
      conversationHistory := conversationHistory + [entry];
    }

    method ClearAll()
      modifies this
      ensures State() == ClearAllStep(old(State()))
    {
      personas, uploadedFiles, conversationHistory, error := [], [], [], None;
    }
  }
}
