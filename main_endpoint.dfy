/** The result mapping of the `POST /generate-personas` endpoint (src/main.py). The generator
    call is an outcome given as input: either the dict that `generate_personas` returned or the
    text of the exception it raised. */
module MainEndpoint {
  import opened Wrappers
  import opened Strings
  import opened JsonValues
  import Generator

  datatype GeneratorRun = Returned(result: map<string, Json>) | Raised(message: string)

  /** The `PersonaResponse` body. */
  datatype PersonaResponse = PersonaResponse(success: bool, data: map<string, Json>, message: string)

  /** What the client receives: a 200 body or an `HTTPException`. */
  datatype Reply = Ok(body: PersonaResponse) | HttpError(status: nat, detail: string)

  const ErrorPrefix: string := "Error generating personas: "
  const FailureMessage: string := "Failed to generate personas. Please try again."
  /** `str()` of the 400 `HTTPException` raised for blank text. */
  const BlankText: string := "400: Text cannot be empty"

  /** Python's `len()`: defined on lists, strings and dicts, a TypeError otherwise. */
  function Len(j: Json): (r: Result<nat>)
    ensures r.Failure? <==> !(j.List? || j.Str? || j.Dict?)
    ensures j.List? ==> r == Success(|j.items|)
  {
    match j
    case List(items) => Success(|items|)
    case Str(s) => Success(|s|)
    case Dict(fields) => Success(|fields|)
    case _ => Failure("object of type '" + TypeName(j) + "' has no len()")
  }

  function SuccessMessage(n: nat): string
  {
    "Successfully generated " + NatToString(n) + " personas"
  }

  /** `generate_personas_endpoint` (src/main.py:44-68). */
  function Endpoint(text: string, run: GeneratorRun): (r: Reply)
    ensures r.HttpError? ==> r.status == 500 && |ErrorPrefix| <= |r.detail| && r.detail[..|ErrorPrefix|] == ErrorPrefix
    ensures Trim(PySpace, text) == [] ==> r == HttpError(500, ErrorPrefix + BlankText)
    ensures Trim(PySpace, text) != [] && run.Raised? ==> r == HttpError(500, ErrorPrefix + run.message)
    ensures (r.Ok? && r.body.success) <==>
              (Trim(PySpace, text) != [] && run.Returned? && "personas" in run.result
               && Len(run.result["personas"]).Success?)
    ensures r.Ok? && !r.body.success ==> r.body == PersonaResponse(false, map[], FailureMessage)
    ensures r.Ok? && r.body.success ==>
              && r.body.data == run.result
              && r.body.message == SuccessMessage(Len(run.result["personas"]).value)
  {
    if Trim(PySpace, text) == [] then HttpError(500, ErrorPrefix + BlankText)
    else match run
      case Raised(m) => HttpError(500, ErrorPrefix + m)
      case Returned(result) =>
        if result == map[] || "personas" !in result then
          Ok(PersonaResponse(false, map[], FailureMessage))
        else match Len(result["personas"])
          case Failure(e) => HttpError(500, ErrorPrefix + e)
          case Success(n) => Ok(PersonaResponse(true, result, SuccessMessage(n)))
  }

  /** Composed with the validator: for non-blank text, a generator that returns answers 200, and
      it reports success exactly when the model's text decoded to a valid document, with the
      number of personas in the message. */
  lemma EndpointOverValidator(text: string, d: Generator.Decoded)
    requires Trim(PySpace, text) != []
    ensures Endpoint(text, Returned(Generator.ParseJson(d))).Ok?
    ensures (Endpoint(text, Returned(Generator.ParseJson(d))).body.success <==>
               d.Parsed? && Generator.ValidDocument(d.doc))
    ensures d.Parsed? && Generator.ValidDocument(d.doc) ==>
              Endpoint(text, Returned(Generator.ParseJson(d))).body.message
                == SuccessMessage(|d.doc.fields["personas"].items|)
  {
  }

  /** The 400 for blank text never reaches the client: it is re-raised as a 500. */
  lemma BlankTextIs500(text: string, run: GeneratorRun)
    requires AllSpace(PySpace, text)
    ensures Endpoint(text, run).HttpError? && Endpoint(text, run).status == 500
  {
  }
}
