/** The persona card's data handling (frontend/src/components/persona/PersonaCard.tsx): how a list
    field of any shape becomes the strings the list editor shows, and the updates the card sends
    to the persona store. Rendering and the collapse and menu toggles are left out. */
module PersonaCard {
  import opened JsValues
  import PersonaStore

  /** One element of `sanitizeArray`: a string is kept; a non-null object gives `String(item[key])`
      when that property is present and not null, and "" otherwise; anything else `String(item)`. */
  function SanitizeItem(item: Value, key: string): (r: string)
    ensures item.Str? ==> r == item.s
    ensures (item.Obj? || item.Arr?) && (Get(item, key).Undefined? || Get(item, key).Null?) ==> r == ""
    ensures (item.Obj? || item.Arr?) && !Get(item, key).Undefined? && !Get(item, key).Null? ==> r == ToString(Get(item, key))
    ensures !item.Str? && !item.Obj? && !item.Arr? ==> r == ToString(item)
  {
    if item.Str? then item.s
    else if Truthy(item) && IsObjectType(item) then
      var val := Get(item, key);
      if !val.Undefined? && !val.Null? then ToString(val) else ""
    else ToString(item)
  }

  function SanitizeAll(items: seq<Value>, key: string): (r: seq<string>)
    ensures |r| == |items|
    ensures forall i :: 0 <= i < |items| ==> r[i] == SanitizeItem(items[i], key)
  {
    if items == [] then [] else [SanitizeItem(items[0], key)] + SanitizeAll(items[1..], key)
  }

  /** `sanitizeArray(arr, key)` (frontend/src/components/persona/PersonaCard.tsx:54-70): a
      non-array gives the empty list, an array one string per element in the same order. */
  function SanitizeArray(arr: Value, key: string): (r: seq<string>)
    ensures !arr.Arr? ==> r == []
    ensures arr.Arr? ==> |r| == |arr.elems|
    ensures arr.Arr? ==> forall i :: 0 <= i < |r| ==> r[i] == SanitizeItem(arr.elems[i], key)
  {
    if arr.Arr? then SanitizeAll(arr.elems, key) else []
  }

  /** A server row `{ goal_text: t, order_index: n }` as the client receives it. */
  function Row(key: string, text: string, orderIndex: int): Value
  {
    Obj(map[key := Str(text), "order_index" := Num(orderIndex)])
  }

  /** Server rows become their texts in the order they arrive: the order indexes are not used to
      sort. */
  lemma SanitizeRowsKeepsArrivalOrder(key: string, texts: seq<string>, orderIndexes: seq<int>)
    requires key != "order_index" && |orderIndexes| == |texts|
    ensures SanitizeArray(Arr(seq(|texts|, i requires 0 <= i < |texts| => Row(key, texts[i], orderIndexes[i]))), key) == texts
  {
    var rows := seq(|texts|, i requires 0 <= i < |texts| => Row(key, texts[i], orderIndexes[i]));
    var r := SanitizeArray(Arr(rows), key);
    forall i | 0 <= i < |texts|
      ensures r[i] == texts[i]
    {
      assert Get(rows[i], key) == Str(texts[i]);
    }
  }

  /** The list as the editor hands it back, an array of strings. */
  function StringsValue(ss: seq<string>): Value
  {
    Arr(seq(|ss|, i requires 0 <= i < |ss| => Str(ss[i])))
  }

  /** Once the editor has saved a list, sanitizing it again gives the same strings. */
  lemma SanitizeIsIdempotent(arr: Value, key: string)
    ensures SanitizeArray(StringsValue(SanitizeArray(arr, key)), key) == SanitizeArray(arr, key)
  {
    var ss := SanitizeArray(arr, key);
    var again := SanitizeArray(StringsValue(ss), key);
    assert |again| == |ss|;
    forall i | 0 <= i < |ss|
      ensures again[i] == ss[i]
    {
      assert StringsValue(ss).elems[i] == Str(ss[i]);
    }
  }

  /** The id the card passes with every update and delete, `String(persona.id)`
      (frontend/src/components/persona/PersonaCard.tsx:73,77,192). */
  function CardKey(persona: PersonaStore.Persona): string
  {
    ToString(PersonaStore.IdOf(persona))
  }

  /** The list the store holds after `handleUpdate(field, value)`
      (frontend/src/components/persona/PersonaCard.tsx:72-74). */
  function CardUpdate(ps: seq<PersonaStore.Persona>, persona: PersonaStore.Persona, field: string, value: Value): (r: seq<PersonaStore.Persona>)
    ensures |r| == |ps|
  {
    PersonaStore.UpdatePersonas(ps, CardKey(persona), map[field := value])
  }

  /** For a persona with a string id, an edit from its card sets exactly that property on every
      persona sharing the id and leaves every other persona alone. */
  lemma CardUpdateSetsOneField(ps: seq<PersonaStore.Persona>, persona: PersonaStore.Persona, field: string, value: Value, i: nat)
    requires PersonaStore.IdOf(persona).Str? && i < |ps|
    ensures var r := CardUpdate(ps, persona, field, value);
            if PersonaStore.IdOf(ps[i]) == PersonaStore.IdOf(persona) then
              && r[i].Keys == ps[i].Keys + {field}
              && r[i][field] == value
              && forall k :: k in ps[i] && k != field ==> r[i][k] == ps[i][k]
            else r[i] == ps[i]
  {
  }

  /** A persona whose id is a number is never reached by its card: the card keys by the
      string, and the store compares strictly. */
  lemma CardCannotEditNumericId(ps: seq<PersonaStore.Persona>, persona: PersonaStore.Persona, field: string, value: Value, n: int)
    requires PersonaStore.IdOf(persona) == Num(n)
    requires forall i :: 0 <= i < |ps| ==> PersonaStore.IdOf(ps[i]) == Num(n)
    ensures CardUpdate(ps, persona, field, value) == ps
    ensures PersonaStore.DeletePersonas(ps, CardKey(persona)) == ps
  {
    PersonaStore.NumericIdIsNotMatched(ps, n, map[field := value]);
  }

  datatype DemographicField = Age | Location | Education | Industry

  function FieldName(f: DemographicField): string
  {
    match f
    case Age => "age"
    case Location => "location"
    case Education => "education"
    case Industry => "industry"
  }

  /** `{ ...v }` for the object values the card spreads; any other value spreads to nothing. */
  function Spread(v: Value): map<string, Value>
  {
    if v.Obj? then v.props else map[]
  }

  /** The update `handleDemographicsUpdate(field, value)` sends
      (frontend/src/components/persona/PersonaCard.tsx:76-83): a copy of the demographics with
      one field replaced. */
  function DemographicsUpdate(persona: PersonaStore.Persona, field: DemographicField, value: string): (r: PersonaStore.Persona)
    ensures r.Keys == {"demographics"} && r["demographics"].Obj?
    ensures var d := r["demographics"].props;
            && d.Keys == Spread(Get(Obj(persona), "demographics")).Keys + {FieldName(field)}
            && d[FieldName(field)] == Str(value)
            && forall k :: k in Spread(Get(Obj(persona), "demographics")) && k != FieldName(field) ==>
                 d[k] == Spread(Get(Obj(persona), "demographics"))[k]
  {
    map["demographics" := Obj(Spread(Get(Obj(persona), "demographics"))[FieldName(field) := Str(value)])]
  }

  /** The merged persona: the demographics object with one field replaced, everything else kept. */
  lemma MergedDemographics(p: PersonaStore.Persona, field: DemographicField, value: string)
    requires "demographics" in p && p["demographics"].Obj?
    ensures PersonaStore.Merge(p, DemographicsUpdate(p, field, value))
            == p["demographics" := Obj(p["demographics"].props[FieldName(field) := Str(value)])]
  {
    assert Get(Obj(p), "demographics") == p["demographics"];
  }

  /** Through the store's shallow merge, a demographics edit changes exactly the named field:
      the other demographic fields and the rest of the persona are as they were. */
  lemma DemographicsEditChangesOneField(ps: seq<PersonaStore.Persona>, i: nat, field: DemographicField, value: string)
    requires i < |ps| && PersonaStore.IdOf(ps[i]).Str?
    requires "demographics" in ps[i] && ps[i]["demographics"].Obj?
    ensures PersonaStore.UpdatePersonas(ps, CardKey(ps[i]), DemographicsUpdate(ps[i], field, value))[i]
            == ps[i]["demographics" := Obj(ps[i]["demographics"].props[FieldName(field) := Str(value)])]
  {
    assert PersonaStore.Matches(ps[i], CardKey(ps[i]));
    MergedDemographics(ps[i], field, value);
  }
}
