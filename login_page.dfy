/** The login form of src/pages/Account/Login.tsx and the session it writes. */
module LoginPage {
  import opened Wrappers
  import opened ApiHandler
  import opened Forms
  import opened AccountTypes

  const Dashboard: string := "/dashboard"
  const BearerPrefix: string := "Bearer "

  /** The `Authorization` header value for a token. */
  function BearerHeader(token: string): string
  {
    BearerPrefix + token
  }

  /** The token a `Bearer` header carries, if it is one. */
  function BearerToken(header: string): Option<string>
  {
    if |header| >= |BearerPrefix| && header[..|BearerPrefix|] == BearerPrefix then Some(header[|BearerPrefix|..])
    else None
  }

  /** The header carries exactly the token it was built from, and only `Bearer` headers carry one. */
  lemma BearerRoundTrip(token: string, header: string)
    ensures BearerToken(BearerHeader(token)) == Some(token)
    ensures BearerToken(header) == Some(token) ==> header == BearerHeader(token)
  {
    var h := BearerHeader(token);
    assert h[..|BearerPrefix|] == BearerPrefix && h[|BearerPrefix|..] == token;
    if BearerToken(header) == Some(token) {
      assert header == header[..|BearerPrefix|] + header[|BearerPrefix|..];
    }
  }

  /** The URL-encoded form `login` posts: `username` then `password`. */
  function LoginParams(email: string, password: string): seq<Field<string>>
  {
    [Field("username", email), Field("password", password)]
  }

  /** The form has exactly the two params, each reading back what was put in. */
  lemma LoginParamsFields(email: string, password: string)
    ensures Names(LoginParams(email, password)) == ["username", "password"]
    ensures Get(LoginParams(email, password), "username") == Some(email)
    ensures Get(LoginParams(email, password), "password") == Some(password)
  {
    var f := LoginParams(email, password);
    assert f[1..][0] == f[1];
  }

  /**
   * The browser-wide session: the `"token"` entry of local storage and the
   * global default `Authorization` header of the `axios` package.
   */
  class Session {
    var storedToken: Option<string>
    var authorization: Option<string>

    constructor ()
      ensures storedToken == None && authorization == None
    {
      storedToken, authorization := None, None;
    }
  }

  /** The state of the login form. */
  class Form {
    var email: string
    var password: string
    var submitted: bool
    var err: string

    constructor ()
      ensures email == "" && password == "" && !submitted && err == ""
    {
      email, password, submitted, err := "", "", false, "";
    }

    /** "Email is required" is shown. */
    predicate EmailRequired() reads this { submitted && email == "" }
    /** "Password is required" is shown. */
    predicate PasswordRequired() reads this { submitted && password == "" }
    /** The error line is shown: only while there is an error and the form is marked submitted. */
    predicate ErrorShown() reads this { err != "" && submitted }

    /** Typing in the email field hides the error and the "required" messages, without clearing the error. */
    method EditEmail(value: string)
      modifies this`email, this`submitted
      ensures email == value && !submitted
      ensures !ErrorShown() && !EmailRequired() && !PasswordRequired()
    {
      email := value;
      submitted := false;
    }

    /** Typing in the password field hides the error and the "required" messages, without clearing the error. */
    method EditPassword(value: string)
      modifies this`password, this`submitted
      ensures password == value && !submitted
      ensures !ErrorShown() && !EmailRequired() && !PasswordRequired()
    {
      password := value;
      submitted := false;
    }

    /**
     * `handleSubmit`: mark the form submitted (the old error is kept); with
     * an empty field, send nothing; otherwise post the two params through
     * `handleApi`. On success store the token, set the `Bearer` header and
     * go to the dashboard; on failure show the normalised message and leave
     * the session alone.
     */
    method Submit(session: Session, reply: Outcome<Body<AuthResponse>>)
      returns (request: Option<seq<Field<string>>>, navigation: Option<string>)
      modifies this`submitted, this`err, session
      ensures submitted
      ensures request == if email == "" || password == "" then None else Some(LoginParams(email, password))
      ensures err == if request.Some? && reply.Err? then ErrorMessage(reply.error) else old(err)
      ensures request.Some? && reply.Ok? && reply.value.Object? ==>
        && session.storedToken == Some(reply.value.value.access_token)
        && session.authorization == Some(BearerHeader(reply.value.value.access_token))
        && navigation == Some(Dashboard)
      ensures !(request.Some? && reply.Ok? && reply.value.Object?) ==>
        unchanged(session) && navigation == None
    {
      submitted := true;
      request, navigation := None, None;
      if email == "" || password == "" {
        return;
      }
      request := Some(LoginParams(email, password));
      var result := HandleApi(reply);
      err := ApplyErrCalls(err, result.errCalls);
      if result.value.Some? && result.value.value.Object? {
        var token := result.value.value.value.access_token;
        session.storedToken := Some(token);
        session.authorization := Some(BearerHeader(token));
        navigation := Some(Dashboard);
      }
    }
  }

  /**
   * A successful login leaves the global default `Authorization` header
   * carrying exactly the returned token.
   */
  method LoginThenRequest(reply: Outcome<Body<AuthResponse>>) returns (presented: Option<string>)
    requires reply.Ok? && reply.value.Object?
    ensures presented == Some(reply.value.value.access_token)
  {
    var session := new Session();
    var form := new Form();
    form.EditEmail("a@b.com");
    form.EditPassword("x");
    var request, navigation := form.Submit(session, reply);
    BearerRoundTrip(reply.value.value.access_token, session.authorization.value);
    presented := BearerToken(session.authorization.value);
  }
}
