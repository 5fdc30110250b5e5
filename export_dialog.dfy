/** The export dialog (frontend/src/components/persona/ExportDialog.tsx): loading the export
    status, the guard on exporting, which persona ids are sent, and the message shown when the
    export fails. The status request's and the export request's outcomes are parameters; the
    download itself (object URL, link click, timers) is left out. */
module ExportDialog {
  import opened Wrappers
  import opened Strings
  import opened JsValues
  import PersonaStore
  import ExportRouter
  import Api
  import App
  import Tables

  /** The body of `GET /export/status`, as the server builds it. */
  type Status = ExportRouter.ExportStatus

  /** `AccountType.ADMIN` (frontend/src/types/auth.ts:13). */
  const AdminAccountType: int := 1

  const StatusFailedMessage: string := "Failed to check export status"
  const NoValidIdsMessage: string := "No valid persona IDs to export"
  const ExportFailedMessage: string := "Export failed"

  datatype Format = Pdf | JsonFile

  datatype DialogState = DialogState(
    exportStatus: Option<Status>,
    selectedFormat: Format,
    isLoading: bool,
    isExporting: bool,
    error: Option<string>,
    success: bool)

  /** `exportStatus?.can_export ?? false` (frontend/src/components/persona/ExportDialog.tsx:111). */
  predicate CanExport(status: Option<Status>)
  {
    status.Some? && status.value.canExport
  }

  /** `exportStatus?.account_type === AccountType.ADMIN` (frontend/src/components/persona/ExportDialog.tsx:110). */
  predicate IsAdmin(status: Option<Status>)
  {
    status.Some? && status.value.accountType == AdminAccountType
  }

  /** `fetchExportStatus` (frontend/src/components/persona/ExportDialog.tsx:33-45): a failure
      keeps the status shown before. */
  function FetchStep(s: DialogState, outcome: Settled<Status>): (r: DialogState)
    ensures !r.isLoading && r.success == s.success && r.isExporting == s.isExporting
    ensures outcome.Fulfilled? ==> r.exportStatus == Some(outcome.value) && r.error.None?
    ensures outcome.Rejected? ==> r.exportStatus == s.exportStatus && r.error == Some(StatusFailedMessage)
  {
    match outcome
    case Fulfilled(st) => s.(exportStatus := Some(st), error := None, isLoading := false)
    case Rejected(_) => s.(error := Some(StatusFailedMessage), isLoading := false)
  }

  /** The effect run when the dialog opens (frontend/src/components/persona/ExportDialog.tsx:25-31):
      an earlier success or error is cleared and the status fetched again. */
  function OpenStep(s: DialogState, outcome: Settled<Status>): (r: DialogState)
    ensures !r.success && !r.isLoading
    ensures r.error.Some? <==> outcome.Rejected?
    ensures r.exportStatus == (if outcome.Fulfilled? then Some(outcome.value) else s.exportStatus)
    ensures r.isExporting == s.isExporting && r.selectedFormat == s.selectedFormat
  {
    FetchStep(s.(isLoading := true, error := None, success := false), outcome)
  }

  /** The number sent for one persona id: a number as it is, anything else through
      `parseInt(String(id))`; `None` is NaN (frontend/src/components/persona/ExportDialog.tsx:56). */
  function ExportIdOf(id: Value): (r: Option<int>)
    ensures id.Num? ==> r == Some(id.n)
    ensures !id.Num? ==> r == ParseInt(ToString(id))
  {
    if id.Num? then Some(id.n) else ParseInt(ToString(id))
  }

  /** The ids one persona contributes: its number, or nothing when it is NaN. */
  function OwnExportIds(p: PersonaStore.Persona): (r: seq<int>)
    ensures |r| <= 1
    ensures r == [] <==> ExportIdOf(PersonaStore.IdOf(p)).None?
    ensures r != [] ==> r == [ExportIdOf(PersonaStore.IdOf(p)).value]
  {
    match ExportIdOf(PersonaStore.IdOf(p))
    case Some(n) => [n]
    case None => []
  }

  /** The ids sent, NaN dropped (frontend/src/components/persona/ExportDialog.tsx:55-57): the
      `map` and the `filter` taken persona by persona. */
  function ExportIds(ps: seq<PersonaStore.Persona>): (r: seq<int>)
    ensures |r| <= |ps|
  {
    if ps == [] then [] else OwnExportIds(ps[0]) + ExportIds(ps[1..])
  }

  /** The ids sent are exactly the numbers of the personas whose id is not NaN. */
  lemma {:induction false} ExportIdsMembers(ps: seq<PersonaStore.Persona>)
    ensures forall n :: n in ExportIds(ps) ==> exists i :: 0 <= i < |ps| && ExportIdOf(PersonaStore.IdOf(ps[i])) == Some(n)
    ensures forall i :: 0 <= i < |ps| && ExportIdOf(PersonaStore.IdOf(ps[i])).Some? ==>
              ExportIdOf(PersonaStore.IdOf(ps[i])).value in ExportIds(ps)
  {
    if ps != [] {
      ExportIdsMembers(ps[1..]);
      var own, rest := OwnExportIds(ps[0]), ExportIds(ps[1..]);
      assert ExportIds(ps) == own + rest;
      forall n | n in ExportIds(ps)
        ensures exists i :: 0 <= i < |ps| && ExportIdOf(PersonaStore.IdOf(ps[i])) == Some(n)
      {
        if n in own {
          assert ExportIdOf(PersonaStore.IdOf(ps[0])) == Some(n);
        } else {
          assert n in rest;
          var j :| 0 <= j < |ps[1..]| && ExportIdOf(PersonaStore.IdOf(ps[1..][j])) == Some(n);
          assert ps[j + 1] == ps[1..][j];
        }
      }
      forall i | 0 <= i < |ps| && ExportIdOf(PersonaStore.IdOf(ps[i])).Some?
        ensures ExportIdOf(PersonaStore.IdOf(ps[i])).value in ExportIds(ps)
      {
        if i > 0 {
          assert ps[i] == ps[1..][i - 1];
        }
      }
    }
  }

  /** The ids are computed persona by persona: order and repeats are kept, and one persona
      contributes its number, or nothing when it is NaN. */
  lemma {:induction false} ExportIdsDistributes(a: seq<PersonaStore.Persona>, b: seq<PersonaStore.Persona>)
    ensures ExportIds(a + b) == ExportIds(a) + ExportIds(b)
  {
    if a == [] {
      assert a + b == b;
    } else {
      var ab := a + b;
      assert ab[0] == a[0] && ab[1..] == a[1..] + b;
      ExportIdsDistributes(a[1..], b);
    }
  }

  lemma ExportIdsOne(p: PersonaStore.Persona)
    ensures ExportIds([p]) == OwnExportIds(p)
  {
    assert [p][1..] == [];
  }

  /** Personas that came from the server, with numeric ids, are all sent, in order. */
  lemma {:induction false} ExportIdsOfServerPersonas(ps: seq<PersonaStore.Persona>)
    requires forall i :: 0 <= i < |ps| ==> PersonaStore.IdOf(ps[i]).Num?
    ensures ExportIds(ps) == seq(|ps|, i requires 0 <= i < |ps| => PersonaStore.IdOf(ps[i]).n)
  {
    if ps != [] {
      ExportIdsOfServerPersonas(ps[1..]);
    }
  }

  /** A persona whose id is a decimal numeral held as a string is sent with that number. */
  lemma NumeralIdIsSent(d: string)
    requires 1 <= |d| && IsDigits(d) && (d[0] == '0' ==> |d| == 1)
    ensures ExportIdOf(Str(d)) == Some(DecimalValue(d))
  {
    ParseIntOfDigits(d);
  }

  /** A generated persona's id, `persona-...`, is not a number. */
  lemma BatchIdIsNaN(t: int, i: nat)
    ensures ExportIdOf(Str(App.BatchId(t, i))).None?
  {
    var s := App.BatchId(t, i);
    var rest := IntToString(t) + "-" + NatToString(i);
    assert s == "persona-" + rest;
    assert s[0] == 'p';
    assert ToString(Str(s)) == s;
    ParseIntOfNonNumeric(s);
  }

  /** The personas a search produced have no id the export accepts. */
  lemma {:induction false} GeneratedPersonasHaveNoExportIds(xs: seq<PersonaStore.Persona>, clock: nat -> int)
    ensures ExportIds(App.WithIds(xs, clock)) == []
  {
    var ps := App.WithIds(xs, clock);
    forall i | 0 <= i < |ps|
      ensures ExportIdOf(PersonaStore.IdOf(ps[i])).None?
    {
      BatchIdIsNaN(clock(i), i);
    }
    ExportIdsOfNaN(ps);
  }

  /** Personas whose ids are all NaN give no ids. */
  lemma {:induction false} ExportIdsOfNaN(ps: seq<PersonaStore.Persona>)
    requires forall i :: 0 <= i < |ps| ==> ExportIdOf(PersonaStore.IdOf(ps[i])).None?
    ensures ExportIds(ps) == []
  {
    if ps != [] {
      assert forall i :: 0 <= i < |ps[1..]| ==> ps[1..][i] == ps[i + 1];
      ExportIdsOfNaN(ps[1..]);
    }
  }

  /** `new Error(message)` as the catch block sees it. */
  function ErrorWithMessage(message: string): Value
  {
    Obj(map["message" := Str(message)])
  }

  /** `err.response?.data?.detail?.message`. */
  function DetailMessage(err: Value): Value
  {
    Get(Get(Get(Get(err, "response"), "data"), "detail"), "message")
  }

  /** The message shown for a failed export (frontend/src/components/persona/ExportDialog.tsx:93):
      the server's `detail.message`, else the error's own message, else a default. */
  function ErrorText(err: Value): (r: string)
    ensures Truthy(DetailMessage(err)) ==> r == ToString(DetailMessage(err))
    ensures !Truthy(DetailMessage(err)) && Truthy(Get(err, "message")) ==> r == ToString(Get(err, "message"))
    ensures !Truthy(DetailMessage(err)) && !Truthy(Get(err, "message")) ==> r == ExportFailedMessage
  {
    var detail := DetailMessage(err);
    if Truthy(detail) then ToString(detail)
    else if Truthy(Get(err, "message")) then ToString(Get(err, "message"))
    else ExportFailedMessage
  }

  /** The error thrown when no id is left shows its own message. */
  lemma NoValidIdsError()
    ensures ErrorText(ErrorWithMessage(NoValidIdsMessage)) == NoValidIdsMessage
  {
    assert Get(ErrorWithMessage(NoValidIdsMessage), "message") == Str(NoValidIdsMessage);
  }

  /** An axios error after the response interceptor, as the dialog reads it. */
  function AsValue(e: Api.HttpError): Value
  {
    Obj(map[
      "code" := e.code,
      "response" := (if e.response.Some? then Obj(map["status" := Num(e.response.value.status), "data" := e.response.value.data]) else Undefined),
      "message" := e.message])
  }

  /** The server's rate-limit refusal (src/routers/export.py:286-292): the interceptor leaves a
      429 alone and the dialog shows the server's `detail.message`. */
  lemma RateLimitShowsServerMessage(e: Api.HttpError, next: Value)
    requires !Api.Aborted(e)
    requires e.response == Some(Api.Response(429, Obj(map["detail" := Obj(map["message" := Str(ExportRouter.LimitMessage), "next_available" := next])])))
    ensures ErrorText(AsValue(e.(message := Api.ClassifiedMessage(e)))) == ExportRouter.LimitMessage
  {
    var v := AsValue(e.(message := Api.ClassifiedMessage(e)));
    assert DetailMessage(v) == Str(ExportRouter.LimitMessage);
  }

  /** A 400 whose detail is a plain string (src/routers/export.py:296): the interceptor moves the
      detail into the message, and the dialog shows it. */
  lemma BadRequestShowsDetail(e: Api.HttpError, detail: string)
    requires !Api.Aborted(e) && detail != ""
    requires e.response.Some? && e.response.value == Api.Response(400, Obj(map["detail" := Str(detail)]))
    ensures ErrorText(AsValue(e.(message := Api.ClassifiedMessage(e)))) == detail
  {
    var v := AsValue(e.(message := Api.ClassifiedMessage(e)));
    assert Api.Detail(e.response.value) == Str(detail);
    assert DetailMessage(v) == Undefined;
    assert Get(v, "message") == Str(detail);
  }

  /** How the export request ends. */
  datatype ExportCall = Downloaded | Failed(error: Value)

  /** `handleExport` (frontend/src/components/persona/ExportDialog.tsx:47-98). Returns the new
      state and the ids sent to the server, `None` when no request is made. */
  function ExportStep(s: DialogState, ps: seq<PersonaStore.Persona>, call: ExportCall, status: Settled<Status>): (r: (DialogState, Option<seq<int>>))
    ensures !CanExport(s.exportStatus) || ps == [] ==> r == (s, None)
    ensures CanExport(s.exportStatus) && ps != [] ==> !r.0.isExporting
    ensures r.1.Some? <==> CanExport(s.exportStatus) && ps != [] && ExportIds(ps) != []
    ensures r.1.Some? ==> r.1.value == ExportIds(ps)
    ensures CanExport(s.exportStatus) && ps != [] && ExportIds(ps) == [] ==>
              r.0 == s.(error := Some(NoValidIdsMessage), isExporting := false)
    ensures r.1.Some? && call.Failed? ==>
              r.0 == s.(error := Some(ErrorText(call.error)), isExporting := false)
    ensures r.1.Some? && call.Downloaded? ==>
              r.0 == FetchStep(s.(success := true, isExporting := false), status)
  {
    if !CanExport(s.exportStatus) || |ps| == 0 then (s, None)
    else
      var entered := s.(isExporting := true, error := None);
      var ids := ExportIds(ps);
      if |ids| == 0 then
        NoValidIdsError();
        (entered.(error := Some(ErrorText(ErrorWithMessage(NoValidIdsMessage))), isExporting := false), None)
      else
        match call
        case Failed(err) => (entered.(error := Some(ErrorText(err)), isExporting := false), Some(ids))
        case Downloaded =>
          (FetchStep(entered.(success := true, isLoading := true, error := None), status).(isExporting := false), Some(ids))
  }

  /** Exporting the personas of a search never reaches the server: the dialog reports that
      no id is valid. */
  lemma GeneratedPersonasAreNotExported(s: DialogState, xs: seq<PersonaStore.Persona>, clock: nat -> int, call: ExportCall, status: Settled<Status>)
    requires CanExport(s.exportStatus) && xs != []
    ensures ExportStep(s, App.WithIds(xs, clock), call, status) == (s.(error := Some(NoValidIdsMessage), isExporting := false), None)
  {
    GeneratedPersonasHaveNoExportIds(xs, clock);
  }

  /** The status of a user on the "pro" plan (account type 2): the server lets them export
      without limit, while the dialog does not count them as administrators. */
  lemma ProAccountIsNotShownAsAdmin(u: Tables.User, now: int)
    requires u.accountType == 2
    ensures var st := Some(ExportRouter.GetExportStatus(u, now));
            CanExport(st) && !IsAdmin(st) && st.value.exportsRemaining == 999
  {
  }

  /** The dialog component. */
  class Dialog {
    var exportStatus: Option<Status>
    var selectedFormat: Format
    var isLoading: bool
    var isExporting: bool
    var error: Option<string>
    var success: bool

    function State(): DialogState
      reads this
    {
      DialogState(exportStatus, selectedFormat, isLoading, isExporting, error, success)
    }

    constructor ()
      ensures State() == DialogState(None, Pdf, false, false, None, false)
    {
      exportStatus, selectedFormat := None, Pdf;
      isLoading, isExporting, error, success := false, false, None, false;
    }

    method FetchExportStatus(outcome: Settled<Status>)
      modifies this
      ensures State() == FetchStep(old(State()), outcome)
    {
      isLoading, error := true, None;
      match outcome {
        case Fulfilled(st) =>
          exportStatus := Some(st);
        case Rejected(_) =>
          error := Some(StatusFailedMessage);
      }
      isLoading := false;
    }

    method Open(outcome: Settled<Status>)
      modifies this
      ensures State() == OpenStep(old(State()), outcome)
    {
      success, error := false, None;
      FetchExportStatus(outcome);
    }

    method HandleExport(ps: seq<PersonaStore.Persona>, call: ExportCall, status: Settled<Status>) returns (sent: Option<seq<int>>)
      modifies this
      ensures (State(), sent) == ExportStep(old(State()), ps, call, status)
    {
      sent := None;
      if exportStatus.None? || !exportStatus.value.canExport || |ps| == 0 {
        return;
      }
      isExporting, error := true, None;
      var ids := ExportIds(ps);
      if |ids| == 0 {
        error := Some(ErrorText(ErrorWithMessage(NoValidIdsMessage)));
      } else {
        sent := Some(ids);
        match call {
          case Failed(err) =>
            error := Some(ErrorText(err));
          case Downloaded =>
            success := true;
            FetchExportStatus(status);
        }
      }
      isExporting := false;
    }
  }
}
