/** The sign-in dialog (frontend/src/components/auth/AuthDialog.tsx): login, the two-step signup
    (details, then the emailed one-time code) and Google sign-in. A submit is modelled by the
    calls it makes to the server, what it does to the dialog's fields and what it hands to the
    session store. The server calls' outcomes are parameters; a rejection carries the error's
    `message`. Whether the dialog is open belongs to its parent and is kept here as `open`. */
module AuthDialog {
  import opened Wrappers
  import opened JsValues
  import AuthStore

  datatype Mode = Login | Signup

  datatype Step = Details | Otp

  datatype DialogState = DialogState(
    open: bool,
    mode: Mode,
    step: Step,
    email: string,
    password: string,
    name: string,
    otp: string,
    isLoading: bool,
    error: Option<string>)

  /** The server calls a handler makes, in order. */
  datatype Call =
    | LoginCall(email: string, password: string)
    | SignupCall(email: string, password: string, name: string)
    | VerifyOtpCall(email: string, otp: string)
    | GoogleCall(token: Value)
    | MeCall

  /** What a handler does to the session: the token it sets and the user it sets, if any. */
  datatype Outcome = Outcome(dialog: DialogState, token: Option<string>, user: Option<AuthStore.User>, calls: seq<Call>)

  /** `resetForm` (frontend/src/components/auth/AuthDialog.tsx:32-39). */
  function ResetForm(d: DialogState): (r: DialogState)
    ensures r.email == "" && r.password == "" && r.name == "" && r.otp == ""
    ensures r.error.None? && r.step == Details
    ensures r.open == d.open && r.mode == d.mode && r.isLoading == d.isLoading
  {
    d.(email := "", password := "", name := "", otp := "", error := None, step := Details)
  }

  /** `handleOpenChange(newOpen)` (frontend/src/components/auth/AuthDialog.tsx:41-46): closing
      resets the form but not the mode. */
  function OpenChange(d: DialogState, newOpen: bool): (r: DialogState)
    ensures r.open == newOpen && r.mode == d.mode
    ensures !newOpen ==> r == ResetForm(d).(open := false)
    ensures newOpen ==> r == d.(open := true)
  {
    if !newOpen then ResetForm(d).(open := newOpen) else d.(open := newOpen)
  }

  /** `toggleMode` (frontend/src/components/auth/AuthDialog.tsx:104-107). */
  function ToggleMode(d: DialogState): (r: DialogState)
    ensures r.mode != d.mode
    ensures r == ResetForm(d).(mode := r.mode)
  {
    ResetForm(d.(mode := if d.mode == Login then Signup else Login))
  }

  /** Toggling twice gives back the mode, with the form reset. */
  lemma ToggleTwice(d: DialogState)
    ensures ToggleMode(ToggleMode(d)) == ResetForm(d)
  {
  }

  /** `err.message || fallback`. */
  function ErrorText(message: Option<string>, fallback: string): (r: string)
    ensures message.Some? && message.value != "" ==> r == message.value
    ensures message.None? || message.value == "" ==> r == fallback
  {
    if message.Some? && message.value != "" then message.value else fallback
  }

  /** Setting the token, loading the profile, setting the user and closing: the tail shared by
      login, the code step and Google sign-in. A failed profile load keeps the token already
      set. */
  function SignIn(d: DialogState, token: string, me: Settled<AuthStore.User>, calls: seq<Call>, fallback: string): (r: Outcome)
    ensures r.token == Some(token) && r.calls == calls + [MeCall]
    ensures me.Fulfilled? ==> r.user == Some(me.value) && r.dialog == OpenChange(d, false)
    ensures me.Rejected? ==> r.user.None? && r.dialog == d.(error := Some(ErrorText(me.message, fallback)))
  {
    match me
    case Fulfilled(u) => Outcome(OpenChange(d, false), Some(token), Some(u), calls + [MeCall])
    case Rejected(m) => Outcome(d.(error := Some(ErrorText(m, fallback))), Some(token), None, calls + [MeCall])
  }

  /** `handleSubmit` (frontend/src/components/auth/AuthDialog.tsx:48-77). `first` is the outcome
      of the login, signup or code request, with the access token it returned. */
  function SubmitStep(d: DialogState, first: Settled<string>, me: Settled<AuthStore.User>): (r: Outcome)
    ensures !r.dialog.isLoading
    ensures r.dialog.mode == d.mode
    ensures |r.calls| >= 1
    ensures d.mode == Login ==> r.calls[0] == LoginCall(d.email, d.password)
    ensures d.mode == Signup && d.step == Details ==> r.calls == [SignupCall(d.email, d.password, d.name)]
    ensures d.mode == Signup && d.step == Otp ==> r.calls[0] == VerifyOtpCall(d.email, d.otp)
    ensures first.Rejected? ==>
              && r.token.None? && r.user.None? && |r.calls| == 1
              && r.dialog == d.(error := Some(ErrorText(first.message, "An error occurred")), isLoading := false)
    ensures d.mode == Signup && d.step == Details ==> r.token.None? && r.user.None?
    ensures d.mode == Signup && d.step == Details && first.Fulfilled? ==>
              r.dialog == d.(error := None, step := Otp, isLoading := false)
    ensures (d.mode == Login || d.step == Otp) && first.Fulfilled? ==>
              && r.token == Some(first.value) && |r.calls| == 2 && r.calls[1] == MeCall
              && (me.Fulfilled? ==> r.user == Some(me.value) && r.dialog == ResetForm(d).(open := false, isLoading := false))
              && (me.Rejected? ==> r.user.None?
                                   && r.dialog == d.(error := Some(ErrorText(me.message, "An error occurred")), isLoading := false))
  {
    var entered := d.(error := None, isLoading := true);
    var firstCall :=
      if d.mode == Login then LoginCall(d.email, d.password)
      else if d.step == Details then SignupCall(d.email, d.password, d.name)
      else VerifyOtpCall(d.email, d.otp);
    var r :=
      match first
      case Rejected(m) =>
        Outcome(entered.(error := Some(ErrorText(m, "An error occurred"))), None, None, [firstCall])
      case Fulfilled(accessToken) =>
        if d.mode == Signup && d.step == Details then
          Outcome(entered.(step := Otp), None, None, [firstCall])
        else
          SignIn(entered, accessToken, me, [firstCall], "An error occurred");
    r.(dialog := r.dialog.(isLoading := false))
  }

  /** The token `handleGoogleSuccess` sends: `credential || access_token`
      (frontend/src/components/auth/AuthDialog.tsx:84). */
  function GoogleToken(response: Value): Value
  {
    var credential := Get(response, "credential");
    if Truthy(credential) then credential else Get(response, "access_token")
  }

  /** `handleGoogleSuccess` (frontend/src/components/auth/AuthDialog.tsx:79-97): no call at all
      when the response holds neither token. */
  function GoogleStep(d: DialogState, response: Value, first: Settled<string>, me: Settled<AuthStore.User>): (r: Outcome)
    ensures !r.dialog.isLoading && r.dialog.mode == d.mode
    ensures !Truthy(GoogleToken(response)) ==> r == Outcome(d.(error := None, isLoading := false), None, None, [])
    ensures Truthy(GoogleToken(response)) ==> |r.calls| >= 1 && r.calls[0] == GoogleCall(GoogleToken(response))
    ensures Truthy(GoogleToken(response)) && first.Rejected? ==>
              && r.token.None? && r.user.None? && r.calls == [GoogleCall(GoogleToken(response))]
              && r.dialog == d.(error := Some(ErrorText(first.message, "Google login failed")), isLoading := false)
    ensures Truthy(GoogleToken(response)) && first.Fulfilled? ==>
              && r.token == Some(first.value) && r.calls == [GoogleCall(GoogleToken(response)), MeCall]
              && (me.Fulfilled? ==> r.user == Some(me.value) && r.dialog == ResetForm(d).(open := false, isLoading := false))
              && (me.Rejected? ==> r.user.None?
                                   && r.dialog == d.(error := Some(ErrorText(me.message, "Google login failed")), isLoading := false))
  {
    var entered := d.(error := None, isLoading := true);
    var token := GoogleToken(response);
    var r :=
      if !Truthy(token) then Outcome(entered, None, None, [])
      else
        match first
        case Rejected(m) =>
          Outcome(entered.(error := Some(ErrorText(m, "Google login failed"))), None, None, [GoogleCall(token)])
        case Fulfilled(accessToken) =>
          SignIn(entered, accessToken, me, [GoogleCall(token)], "Google login failed");
    r.(dialog := r.dialog.(isLoading := false))
  }

  /** A Google response with neither a credential nor an access token makes no call. */
  lemma GoogleWithoutTokenMakesNoCall(d: DialogState, first: Settled<string>, me: Settled<AuthStore.User>)
    ensures GoogleStep(d, Obj(map[]), first, me).calls == []
  {
  }

  /** The whole signup: the details step moves to the code step without a session, and a
      correct code then signs in and closes the dialog, back at the details step. */
  lemma SignupFlow(d: DialogState, accessToken: string, u: AuthStore.User, ignored: string)
    requires d.mode == Signup && d.step == Details
    ensures var first := SubmitStep(d, Fulfilled(ignored), Rejected(None));
            && first.token.None? && first.dialog.step == Otp && first.dialog.open == d.open
            && var second := SubmitStep(first.dialog, Fulfilled(accessToken), Fulfilled(u));
               && second.token == Some(accessToken) && second.user == Some(u)
               && !second.dialog.open && second.dialog.step == Details && second.dialog.mode == Signup
               && second.calls == [VerifyOtpCall(d.email, d.otp), MeCall]
  {
  }

  /** A login whose profile load fails leaves the session holding the token while the dialog
      stays open with the error. */
  lemma ProfileFailureKeepsToken(d: DialogState, accessToken: string, message: string)
    requires d.mode == Login && message != ""
    ensures var r := SubmitStep(d, Fulfilled(accessToken), Rejected(Some(message)));
            r.token == Some(accessToken) && r.user.None? && r.dialog.open == d.open && r.dialog.error == Some(message)
  {
  }

  /** The session after an outcome: `setToken` then `setUser`, as the handler calls them. */
  function ApplySession(a: AuthStore.AuthState, token: Option<string>, user: Option<AuthStore.User>): (r: AuthStore.AuthState)
    ensures token.Some? ==> r.token == token && r.isAuthenticated
    ensures token.None? ==> r.token == a.token && r.isAuthenticated == a.isAuthenticated
    ensures r.user == if user.Some? then user else a.user
    ensures r.isLoading == a.isLoading && r.error == a.error
  {
    var withToken := if token.Some? then a.(token := token, isAuthenticated := true) else a;
    if user.Some? then withToken.(user := user) else withToken
  }

  /** The dialog component over the session store. */
  class Dialog {
    var open: bool
    var mode: Mode
    var step: Step
    var email: string
    var password: string
    var name: string
    var otp: string
    var isLoading: bool
    var error: Option<string>
    const auth: AuthStore.Store

    function State(): DialogState
      reads this
    {
      DialogState(open, mode, step, email, password, name, otp, isLoading, error)
    }

    constructor (auth: AuthStore.Store, open: bool)
      ensures State() == DialogState(open, Login, Details, "", "", "", "", false, None)
      ensures this.auth == auth
    {
      this.auth, this.open := auth, open;
      mode, step := Login, Details;
      email, password, name, otp := "", "", "", "";
      isLoading, error := false, None;
    }

    method Apply(o: Outcome)
      modifies this, auth, auth.storage
      ensures State() == o.dialog
      ensures auth.State() == ApplySession(old(auth.State()), o.token, o.user)
      ensures auth.storage.token == if o.token.Some? then o.token else old(auth.storage.token)
    {
      if o.token.Some? {
        auth.SetToken(o.token.value);
      }
      if o.user.Some? {
        auth.SetUser(o.user.value);
      }
      open, mode, step := o.dialog.open, o.dialog.mode, o.dialog.step;
      email, password, name, otp := o.dialog.email, o.dialog.password, o.dialog.name, o.dialog.otp;
      isLoading, error := o.dialog.isLoading, o.dialog.error;
    }

    method HandleSubmit(first: Settled<string>, me: Settled<AuthStore.User>) returns (calls: seq<Call>)
      modifies this, auth, auth.storage
      ensures var o := SubmitStep(old(State()), first, me);
              && State() == o.dialog && calls == o.calls
              && auth.State() == ApplySession(old(auth.State()), o.token, o.user)
    {
      var o := SubmitStep(State(), first, me);
      Apply(o);
      calls := o.calls;
    }

    method HandleGoogleSuccess(response: Value, first: Settled<string>, me: Settled<AuthStore.User>) returns (calls: seq<Call>)
      modifies this, auth, auth.storage
      ensures var o := GoogleStep(old(State()), response, first, me);
              && State() == o.dialog && calls == o.calls
              && auth.State() == ApplySession(old(auth.State()), o.token, o.user)
    {
      var o := GoogleStep(State(), response, first, me);
      Apply(o);
      calls := o.calls;
    }

    /** The Google widget's `onError` (frontend/src/components/auth/AuthDialog.tsx:101). */
    method HandleGoogleError()
      modifies this
      ensures State() == old(State()).(error := Some("Google Login Failed"))
    {
      error := Some("Google Login Failed");
    }

    method HandleOpenChange(newOpen: bool)
      modifies this
      ensures State() == OpenChange(old(State()), newOpen)
    {
      if !newOpen {
        email, password, name, otp := "", "", "", "";
        error, step := None, Details;
      }
      open := newOpen;
    }

    method HandleToggleMode()
      modifies this
      ensures State() == ToggleMode(old(State()))
    {
      mode := if mode == Login then Signup else Login;
      email, password, name, otp := "", "", "", "";
      error, step := None, Details;
    }
  }
}
