/** The schema validator `parse_json` of the persona generator (src/generator.py). The call to
    the language model that produces the text is outside the model; `json.loads` is an opaque
    decoder whose outcome is the input here. */
module Generator {
  import opened Wrappers
  import opened JsonValues

  const RequiredFields: seq<string> :=
    ["name", "status", "role", "demographics", "goals", "frustrations", "behavioral_patterns",
     "tech_comfort", "scenario_context", "influence_networks", "recruitment_criteria",
     "research_assumptions"]

  const RequiredDemographics: seq<string> := ["age", "location", "education", "industry"]

  const ListFields: seq<string> :=
    ["goals", "frustrations", "behavioral_patterns", "influence_networks",
     "recruitment_criteria", "research_assumptions"]

  const Statuses: seq<Json> := [Str("primary"), Str("secondary")]

  const TechComforts: seq<Json> := [Str("low"), Str("medium"), Str("high")]

  /** What `json.loads` gives for the model's text. */
  datatype Decoded = Parsed(doc: Json) | Malformed

  /** The exception `parse_json` raises first, in the order its checks run. */
  datatype SchemaError =
    | NotAnObject
    | MissingPersonas
    | PersonasNotAList
    | PersonaNotAnObject(index: nat)
    | MissingField(index: nat, field: string)
    | DemographicsNotAnObject(index: nat)
    | MissingDemographic(index: nat, field: string)
    | BadStatus(index: nat)
    | BadTechComfort(index: nat)
    | NotAList(index: nat, field: string)

  // ---- Reference definition of an accepted document ----

  predicate HasAll(keys: seq<string>, m: map<string, Json>)
  {
    forall k :: k in keys ==> k in m
  }

  predicate AllLists(keys: seq<string>, m: map<string, Json>)
    requires HasAll(keys, m)
  {
    forall k :: k in keys ==> m[k].List?
  }

  lemma ListFieldsAreRequired(m: map<string, Json>)
    requires HasAll(RequiredFields, m)
    ensures HasAll(ListFields, m)
  {
    assert forall k :: k in ListFields ==> k in RequiredFields;
  }

  /** The checks on a persona object that holds every required field. */
  ghost predicate ValidFields(m: map<string, Json>)
    requires HasAll(RequiredFields, m)
  {
    && m["demographics"].Dict?
    && HasAll(RequiredDemographics, m["demographics"].fields)
    && m["status"] in Statuses
    && m["tech_comfort"] in TechComforts
    && (ListFieldsAreRequired(m); AllLists(ListFields, m))
  }

  ghost predicate ValidPersona(p: Json)
  {
    p.Dict? && HasAll(RequiredFields, p.fields) && ValidFields(p.fields)
  }

  ghost predicate ValidDocument(doc: Json)
  {
    && doc.Dict?
    && "personas" in doc.fields
    && doc.fields["personas"].List?
    && forall i :: 0 <= i < |doc.fields["personas"].items| ==> ValidPersona(doc.fields["personas"].items[i])
  }

  // ---- The checks as the loops run them ----

  /** The first key of `keys` missing from `m`. */
  function FirstMissing(keys: seq<string>, m: map<string, Json>): (r: Option<string>)
    ensures r.None? <==> HasAll(keys, m)
    ensures r.Some? ==> r.value in keys && r.value !in m
  {
    if keys == [] then None
    else if keys[0] !in m then Some(keys[0])
    else FirstMissing(keys[1..], m)
  }

  /** The first of `keys` whose value in `m` is not a list. */
  function FirstNonList(keys: seq<string>, m: map<string, Json>): (r: Option<string>)
    requires HasAll(keys, m)
    ensures r.None? <==> AllLists(keys, m)
    ensures r.Some? ==> r.value in keys && !m[r.value].List?
  {
    if keys == [] then None
    else if !m[keys[0]].List? then Some(keys[0])
    else FirstNonList(keys[1..], m)
  }

  /** The checks after the required-field loop (src/generator.py:77-92). */
  function CheckFields(i: nat, m: map<string, Json>): (r: Option<SchemaError>)
    requires HasAll(RequiredFields, m)
    ensures r.None? <==> ValidFields(m)
  {
    var demographics := m["demographics"];
    if !demographics.Dict? then Some(DemographicsNotAnObject(i))
    else match FirstMissing(RequiredDemographics, demographics.fields)
      case Some(f) => Some(MissingDemographic(i, f))
      case None =>
        if m["status"] !in Statuses then Some(BadStatus(i))
        else if m["tech_comfort"] !in TechComforts then Some(BadTechComfort(i))
        else
          ListFieldsAreRequired(m);
          match FirstNonList(ListFields, m)
          case Some(f) => Some(NotAList(i, f))
          case None => None
  }

  /** One iteration of the loop over the personas (src/generator.py:64-92). */
  function CheckPersona(i: nat, p: Json): (r: Option<SchemaError>)
    ensures r.None? <==> ValidPersona(p)
  {
    if !p.Dict? then Some(PersonaNotAnObject(i))
    else match FirstMissing(RequiredFields, p.fields)
      case Some(f) => Some(MissingField(i, f))
      case None => CheckFields(i, p.fields)
  }

  /** The loop over the personas from position `from` on; it stops at the first failure. */
  function CheckPersonasFrom(ps: seq<Json>, from: nat): (r: Option<SchemaError>)
    requires from <= |ps|
    ensures r.None? <==> forall i :: from <= i < |ps| ==> ValidPersona(ps[i])
    decreases |ps| - from
  {
    if from == |ps| then None
    else match CheckPersona(from, ps[from])
      case Some(e) => Some(e)
      case None => CheckPersonasFrom(ps, from + 1)
  }

  /** The exception `parse_json` raises for a decoded document, if any (src/generator.py:44-92). */
  function FirstError(doc: Json): (r: Option<SchemaError>)
    ensures !doc.Dict? ==> r == Some(NotAnObject)
    ensures doc.Dict? && "personas" !in doc.fields ==> r == Some(MissingPersonas)
    ensures doc.Dict? && "personas" in doc.fields && !doc.fields["personas"].List? ==> r == Some(PersonasNotAList)
    ensures r.Some? && r.value != NotAnObject && r.value != MissingPersonas && r.value != PersonasNotAList ==>
              doc.Dict? && "personas" in doc.fields && doc.fields["personas"].List?
  {
    if !doc.Dict? then Some(NotAnObject)
    else if "personas" !in doc.fields then Some(MissingPersonas)
    else if !doc.fields["personas"].List? then Some(PersonasNotAList)
    else CheckPersonasFrom(doc.fields["personas"].items, 0)
  }

  /** The checks accept exactly the documents of the reference definition. */
  lemma FirstErrorIsNoneIffValid(doc: Json)
    ensures FirstError(doc).None? <==> ValidDocument(doc)
  {
  }

  /** `parse_json`: a valid document comes back unchanged; malformed text, a top-level value
      that is not an object, a missing or non-list "personas", or any one bad persona gives {}. */
  function ParseJson(d: Decoded): (r: map<string, Json>)
    ensures r == if d.Parsed? && ValidDocument(d.doc) then d.doc.fields else map[]
  {
    match d
    case Malformed => map[]
    case Parsed(doc) =>
      FirstErrorIsNoneIffValid(doc);
      match FirstError(doc)
      case Some(_) => map[]
      case None => doc.fields
  }

  /** One bad persona anywhere rejects the whole response. */
  lemma OneBadPersonaRejectsAll(doc: Json, i: nat)
    requires doc.Dict? && "personas" in doc.fields && doc.fields["personas"].List?
    requires i < |doc.fields["personas"].items| && !ValidPersona(doc.fields["personas"].items[i])
    ensures ParseJson(Parsed(doc)) == map[]
  {
  }

  /** Element types of the six list fields are not checked: a persona whose lists hold
      numbers, objects or nulls is accepted as long as the lists are lists. */
  lemma ListElementsUnchecked(p: Json, f: string, junk: seq<Json>)
    requires ValidPersona(p) && f in ListFields
    ensures ValidPersona(Dict(p.fields[f := List(junk)]))
  {
    var q := Dict(p.fields[f := List(junk)]);
    assert q.fields["demographics"] == p.fields["demographics"];
    assert q.fields["status"] == p.fields["status"];
    assert q.fields["tech_comfort"] == p.fields["tech_comfort"];
  }
}
