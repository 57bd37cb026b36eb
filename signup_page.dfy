/** The signup form of src/pages/Account/Signup.tsx. */
module SignupPage {
  import opened Wrappers
  import opened ApiHandler
  import opened AccountTypes

  const Registered: string := "Registration Successful! Please log in."

  /** The state of the signup form. */
  class Form {
    var name: string
    var email: string
    var password: string
    var submitted: bool
    var success: string
    var err: string

    constructor ()
      ensures name == "" && email == "" && password == ""
      ensures !submitted && success == "" && err == ""
    {
      name, email, password := "", "", "";
      submitted, success, err := false, "", "";
    }

    /** "Username is required" is shown. */
    predicate NameRequired() reads this { submitted && name == "" }
    /** "Email is required" is shown. */
    predicate EmailRequired() reads this { submitted && email == "" }
    /** "Password is required" is shown. */
    predicate PasswordRequired() reads this { submitted && password == "" }

    /** Typing in the username field; every "required" message disappears. */
    method EditName(value: string)
      modifies this`name, this`submitted
      ensures name == value && !submitted
      ensures !NameRequired() && !EmailRequired() && !PasswordRequired()
    {
      name := value;
      submitted := false;
    }

    /** Typing in the email field; every "required" message disappears. */
    method EditEmail(value: string)
      modifies this`email, this`submitted
      ensures email == value && !submitted
      ensures !NameRequired() && !EmailRequired() && !PasswordRequired()
    {
      email := value;
      submitted := false;
    }

    /** Typing in the password field; every "required" message disappears. */
    method EditPassword(value: string)
      modifies this`password, this`submitted
      ensures password == value && !submitted
      ensures !NameRequired() && !EmailRequired() && !PasswordRequired()
    {
      password := value;
      submitted := false;
    }

    /**
     * `handleSubmit`: mark the form submitted and clear both messages; with
     * a field empty, send nothing; otherwise send the three fields through
     * `handleApi`. A success (a non-empty body) shows the success message,
     * clears the fields and un-marks the form; a failure keeps the fields
     * and shows the normalised message.
     */
    method Submit(reply: Outcome<Body<User>>) returns (request: Option<SignupData>)
      modifies this`name, this`email, this`password, this`submitted, this`success, this`err
      ensures request == if old(email) == "" || old(password) == "" || old(name) == "" then None
                         else Some(SignupData(old(name), old(email), old(password)))
      ensures err == if request.Some? && reply.Err? then ErrorMessage(reply.error) else ""
      ensures var registered := request.Some? && reply.Ok? && reply.value.Object?;
        && success == (if registered then Registered else "")
        && submitted == !registered
        && (registered ==> name == "" && email == "" && password == "")
        && (!registered ==> name == old(name) && email == old(email) && password == old(password))
      ensures request.None? ==>
        (NameRequired() <==> name == "") && (EmailRequired() <==> email == "")
        && (PasswordRequired() <==> password == "")
    {
      submitted := true;
      err := "";
      success := "";
      request := None;
      if email == "" || password == "" || name == "" {
        return;
      }
      request := Some(SignupData(name, email, password));
      var result := HandleApi(reply);
      err := ApplyErrCalls(err, result.errCalls);
      if result.value.Some? && result.value.value.Object? {
        success := Registered;
        name, email, password := "", "", "";
        submitted := false;
      }
    }
  }
}
