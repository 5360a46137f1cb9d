/** The login/register page (frontend/src/pages/AuthPage.tsx): the form
    validator and the outcomes of a submit. The server's reply (or failure)
    is a parameter; navigation is recorded as the path navigated to. */
module AuthPage {
  import opened Text
  import ApiClient
  import AuthContext

  datatype FormState = FormState(name: string, email: string, password: string)

  const EmptyForm: FormState := FormState("", "", "")

  const EmailError: string := "Please enter a valid email address."
  const PasswordError: string := "Password must be at least 6 characters long."
  const NameError: string := "Full name is required for registration."

  /** The order validateForm reports its errors in. */
  function Rank(error: string): nat {
    if error == EmailError then 0 else if error == PasswordError then 1 else 2
  }

  /** The checks of validateForm, pushed onto a local list in order. */
  method CollectErrors(form: FormState, isLogin: bool) returns (errors: seq<string>)
    ensures EmailError in errors <==> '@' !in form.email
    ensures PasswordError in errors <==> |form.password| < 6
    ensures NameError in errors <==> !isLogin && IsBlank(form.name)
    ensures forall i :: 0 <= i < |errors| ==> errors[i] in {EmailError, PasswordError, NameError}
    ensures forall i, j :: 0 <= i < j < |errors| ==> Rank(errors[i]) < Rank(errors[j])
    ensures errors == [] <==> '@' in form.email && |form.password| >= 6 && (isLogin || !IsBlank(form.name))
  {
    errors := [];
    if '@' !in form.email {
      errors := errors + [EmailError];
    }
    if |form.password| < 6 {
      errors := errors + [PasswordError];
    }
    if !isLogin && IsBlank(form.name) {
      errors := errors + [NameError];
    }
  }

  const LoggedInMessage: string := "Logged in successfully!"
  const RegisteredMessage: string := "Account created successfully! Please login."
  const InvalidLoginText: string := "Invalid email or password."
  const GenericFailureText: string := "Something went wrong. Please try again."
  const NetworkFailureText: string := "Unable to reach server. Please check your network and try again."
  const UnexpectedText: string := "An unexpected error occurred. Please try again later."

  /** A successful reply's body: `token` and `user` at the top level, or under `data`. */
  datatype ReplyData = ReplyData(token: string, user: Option<AuthContext.SessionUser>,
                                 nestedToken: string, nestedUser: Option<AuthContext.SessionUser>)

  /** `res.data.token || res.data.data?.token` and the same for the user; the
      login is accepted only when both are present. */
  function AcceptedLogin(data: ReplyData): (r: Option<(string, AuthContext.SessionUser)>)
    ensures r.Some? <==> (data.token != "" || data.nestedToken != "") && (data.user.Some? || data.nestedUser.Some?)
    ensures r.Some? ==> r.value.0 == (if data.token != "" then data.token else data.nestedToken)
    ensures r.Some? ==> r.value.1 == (if data.user.Some? then data.user.value else data.nestedUser.value)
  {
    var token := if data.token != "" then data.token else data.nestedToken;
    var user := if data.user.Some? then data.user else data.nestedUser;
    if token != "" && user.Some? then Some((token, user.value)) else None
  }

  /** The catch block of handleSubmit, over what it can see of the caught
      value: a response with status 401, another response (its `data.message`
      if truthy, else a generic text), a request with no response, or neither. */
  function CatchBlock(c: ApiClient.Caught): (m: string)
    ensures c.response.Some? && c.response.value.0 == 401 ==> m == InvalidLoginText
    ensures c.response.Some? && c.response.value.0 != 401 ==>
      var message := c.response.value.1;
      m == (if message.Some? && message.value != "" then message.value else GenericFailureText)
    ensures c.response.None? && c.request ==> m == NetworkFailureText
    ensures c.response.None? && !c.request ==> m == UnexpectedText
  {
    match c.response
    case Some((status, message)) =>
      if status == 401 then InvalidLoginText
      else if message.Some? && message.value != "" then message.value
      else GenericFailureText
    case None =>
      if c.request then NetworkFailureText else UnexpectedText
  }

  /** The catch block as written: what it catches is what the api response
      interceptor rejected with, a plain Error with neither `response` nor
      `request`, so it reaches the last branch. */
  function CaughtMessageAsWritten(thrown: ApiClient.Thrown): (m: string)
    ensures m == UnexpectedText && m != InvalidLoginText
  {
    CatchBlock(ApiClient.FromThrown(thrown))
  }

  /** As written, a rejected login (a 401) and every other failure show the
      same "unexpected error" text, where the same catch block handed the
      axios error would show "Invalid email or password.". */
  lemma AsWrittenHidesStatus(e: ApiClient.AxiosError)
    ensures CaughtMessageAsWritten(ApiClient.ResponseInterceptor(e)) == UnexpectedText
    ensures e.HasResponse? && e.status == 401 ==>
      && CaughtMessageAsWritten(ApiClient.ResponseInterceptor(e)) != InvalidLoginText
      && CatchBlock(ApiClient.FromAxios(e)) == InvalidLoginText
  {
  }

  /** The corrected page: the same catch block handed the axios error itself
      rather than the interceptor's Error. A 401 reads "Invalid email or
      password.", another response shows the server's message or a generic
      text, no response gives the network text. */
  function CaughtMessage(e: ApiClient.AxiosError): (m: string)
    ensures e.HasResponse? && e.status == 401 ==> m == InvalidLoginText
    ensures e.HasResponse? && e.status != 401 ==>
      m == (if e.serverMessage.Some? && e.serverMessage.value != "" then e.serverMessage.value else GenericFailureText)
    ensures e.NoResponse? ==> m == NetworkFailureText
    ensures e.SetupFailed? ==> m == UnexpectedText
  {
    CatchBlock(ApiClient.FromAxios(e))
  }

  /** With the axios error itself, the user can tell a rejected login, an
      unreachable server and a server-explained failure apart. */
  lemma CaughtMessageDistinguishes(status: nat, serverMessage: string)
    requires status != 401 && serverMessage != "" && serverMessage != InvalidLoginText
    ensures CaughtMessage(ApiClient.HasResponse(401, None)) != CaughtMessage(ApiClient.NoResponse)
    ensures CaughtMessage(ApiClient.HasResponse(401, None)) != CaughtMessage(ApiClient.HasResponse(status, Some(serverMessage)))
    ensures CaughtMessage(ApiClient.HasResponse(status, Some(serverMessage))) == serverMessage
  {
  }

  datatype FormField = NameField | EmailField | PasswordField

  /** What `api.post` gave: a reply body, or the failure. */
  datatype PostResult = Replied(data: ReplyData) | Failed(error: ApiClient.AxiosError)

  class AuthPageState {
    var isLogin: bool
    var form: FormState
    var errors: seq<string>
    var messages: seq<string>
    var location: string

    constructor ()
      ensures isLogin && form == EmptyForm && errors == [] && messages == [] && location == "/auth"
    {
      isLogin := true;
      form := EmptyForm;
      errors := [];
      messages := [];
      location := "/auth";
    }

    /** handleChange: one input of the form takes the typed value. */
    method HandleChange(field: FormField, value: string)
      modifies this`form
      ensures form == match field
        case NameField => old(form).(name := value)
        case EmailField => old(form).(email := value)
        case PasswordField => old(form).(password := value)
    {
      form := match field
        case NameField => form.(name := value)
        case EmailField => form.(email := value)
        case PasswordField => form.(password := value);
    }

    /** The "Register here" / "Login here" button: switch mode, clear the
        errors and messages, keep the form. */
    method ToggleMode()
      modifies this`isLogin, this`errors, this`messages
      ensures isLogin == !old(isLogin) && errors == [] && messages == []
    {
      isLogin := !isLogin;
      errors := [];
      messages := [];
    }

    /** validateForm: the errors are shown when there are any; it passes if
        and only if there are none. */
    method ValidateForm() returns (ok: bool)
      modifies this`errors
      ensures ok <==> ('@' in form.email && |form.password| >= 6 && (isLogin || !IsBlank(form.name)))
      ensures ok ==> errors == old(errors)
      ensures !ok ==>
        && errors != []
        && (EmailError in errors <==> '@' !in form.email)
        && (PasswordError in errors <==> |form.password| < 6)
        && (NameError in errors <==> !isLogin && IsBlank(form.name))
        && (forall i :: 0 <= i < |errors| ==> errors[i] in {EmailError, PasswordError, NameError})
        && (forall i, j :: 0 <= i < j < |errors| ==> Rank(errors[i]) < Rank(errors[j]))
    {
      var found := CollectErrors(form, isLogin);
      ok := found == [];
      if !ok {
        errors := found;
      }
    }

    /** handleSubmit: errors and messages are cleared, the form validated, then
        the reply decides: an accepted login logs in and goes to the dashboard,
        a login reply without both token and user is an error, a register
        reply switches to login mode with an empty form. A failed request is
        caught as the api response interceptor rethrows it, so the catch block
        shows its last branch's text whatever the failure was. */
    method HandleSubmit(session: AuthContext.AuthProvider, result: PostResult)
      requires session.Valid()
      modifies this, session
      ensures session.Valid() && session.loading == old(session.loading)
      ensures var valid := '@' in old(form).email && |old(form).password| >= 6 && (old(isLogin) || !IsBlank(old(form).name));
        && (!valid ==> errors != [] && messages == []
                       && (EmailError in errors <==> '@' !in old(form).email)
                       && (PasswordError in errors <==> |old(form).password| < 6)
                       && (NameError in errors <==> !old(isLogin) && IsBlank(old(form).name))
                       && (forall i :: 0 <= i < |errors| ==> errors[i] in {EmailError, PasswordError, NameError})
                       && (forall i, j :: 0 <= i < j < |errors| ==> Rank(errors[i]) < Rank(errors[j]))
                       && isLogin == old(isLogin) && form == old(form) && location == old(location)
                       && session.token == old(session.token) && session.user == old(session.user))
        && (valid && result.Failed? ==>
                       errors == [CaughtMessageAsWritten(ApiClient.ResponseInterceptor(result.error))] && messages == []
                       && isLogin == old(isLogin) && form == old(form) && location == old(location)
                       && session.token == old(session.token) && session.user == old(session.user))
        && (valid && result.Replied? && old(isLogin) && AcceptedLogin(result.data).None? ==>
                       errors == [InvalidLoginText] && messages == []
                       && isLogin == old(isLogin) && form == old(form) && location == old(location)
                       && session.token == old(session.token) && session.user == old(session.user))
        && (valid && result.Replied? && old(isLogin) && AcceptedLogin(result.data).Some? ==>
                       errors == [] && messages == [LoggedInMessage] && location == "/dashboard"
                       && isLogin == old(isLogin) && form == old(form)
                       && (AuthContext.Acceptable(AcceptedLogin(result.data).value.1) ==>
                             session.token == Some(AcceptedLogin(result.data).value.0)
                             && session.user == Some(AcceptedLogin(result.data).value.1))
                       && (!AuthContext.Acceptable(AcceptedLogin(result.data).value.1) ==>
                             session.token == old(session.token) && session.user == old(session.user)))
        && (valid && result.Replied? && !old(isLogin) ==>
                       errors == [] && messages == [RegisteredMessage] && isLogin && form == EmptyForm
                       && location == old(location)
                       && session.token == old(session.token) && session.user == old(session.user))
    {
      errors := [];
      messages := [];
      var ok := ValidateForm();
      if !ok {
        return;
      }
      match result
      case Failed(error) =>
        errors := [CaughtMessageAsWritten(ApiClient.ResponseInterceptor(error))];
      case Replied(data) =>
        if isLogin {
          var accepted := AcceptedLogin(data);
          if accepted.Some? {
            session.Login(accepted.value.0, accepted.value.1);
            messages := messages + [LoggedInMessage];
            location := "/dashboard";
          } else {
            errors := [InvalidLoginText];
          }
        } else {
          messages := messages + [RegisteredMessage];
          isLogin := true;
          form := EmptyForm;
        }
    }
  }
}
