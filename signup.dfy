/** The sign-up page: the login rules for email and password plus a
    confirm-password field that must be present and equal to the password. */
module SignUp {
  import opened JsText
  import opened AuthRules
  import Login

  /** The keys `validate` may set on its error object. */
  datatype Key = Email | Password | ConfirmPassword

  const ConfirmRequired := "Confirm Password is required"
  const PasswordsDiffer := "Passwords do not match"

  /** The message recorded under ConfirmPassword, if any. The comparison
      with the password is made whether or not the password itself is valid. */
  function ConfirmError(password: string, confirm: string): (r: Option<string>)
    ensures r == None <==> confirm != "" && confirm == password
    ensures confirm == "" ==> r == Some(ConfirmRequired)
    ensures confirm != "" && r != None ==> r == Some(PasswordsDiffer)
  {
    if confirm == "" then Some(ConfirmRequired)
    else if confirm != password then Some(PasswordsDiffer)
    else None
  }

  /** The error map `validate` builds for the sign-up form. */
  function SignUpErrors(email: string, password: string, confirm: string): (m: map<Key, string>)
    ensures m.Keys <= {Email, Password, ConfirmPassword}
    ensures Records(m, Email, EmailError(email))
    ensures Records(m, Password, PasswordError(password))
    ensures Records(m, ConfirmPassword, ConfirmError(password, confirm))
    ensures m == map[] <==>
              && email != "" && Patterns.EmailRegexMatches(email)
              && |password| >= MinPasswordLength && confirm == password
  {
    var m := Put(Put(map[], Email, EmailError(email)), Password, PasswordError(password));
    Put(m, ConfirmPassword, ConfirmError(password, confirm))
  }

  /** The sign-up email and password messages are the login ones. */
  lemma AgreesWithLogin(email: string, password: string, confirm: string)
    ensures var m, l := SignUpErrors(email, password, confirm), Login.LoginErrors(email, password);
      && (Email in m <==> Login.Email in l) && (Email in m ==> m[Email] == l[Login.Email])
      && (Password in m <==> Login.Password in l) && (Password in m ==> m[Password] == l[Login.Password])
  {
  }

  /** A short password typed twice gets only the length message: the
      confirmation matches, so it is not flagged. */
  lemma ShortMatchingPassword()
    ensures SignUpErrors("a@b.c", "abc", "abc") == map[Password := PasswordTooShort]
  {
    assert Patterns.ShapedAt("a@b.c", 1, 3);
    var m := SignUpErrors("a@b.c", "abc", "abc");
    assert m.Keys == {Password};
  }

  class SignUpForm {
    var email: string
    var password: string
    var confirmPassword: string
    var errors: map<Key, string>

    constructor ()
      ensures email == "" && password == "" && confirmPassword == "" && errors == map[]
    {
      email, password, confirmPassword, errors := "", "", "", map[];
    }

    method SetEmail(value: string)
      modifies this
      ensures email == value && errors == old(errors)
      ensures password == old(password) && confirmPassword == old(confirmPassword)
    {
      email := value;
    }

    method SetPassword(value: string)
      modifies this
      ensures password == value && errors == old(errors)
      ensures email == old(email) && confirmPassword == old(confirmPassword)
    {
      password := value;
    }

    method SetConfirmPassword(value: string)
      modifies this
      ensures confirmPassword == value && errors == old(errors)
      ensures email == old(email) && password == old(password)
    {
      confirmPassword := value;
    }

    /** Fills a fresh error map field by field, stores it, and reports whether
        it has no keys. */
    method Validate() returns (ok: bool)
      modifies this
      ensures email == old(email) && password == old(password) && confirmPassword == old(confirmPassword)
      ensures errors == SignUpErrors(email, password, confirmPassword)
      ensures ok <==> errors == map[]
    {
      var newErrors: map<Key, string> := map[];
      if email == "" {
        newErrors := newErrors[Email := EmailRequired];
      } else if !Patterns.EmailShaped(email) {
        newErrors := newErrors[Email := EmailInvalid];
      }
      if password == "" {
        newErrors := newErrors[Password := PasswordRequired];
      } else if |password| < MinPasswordLength {
        newErrors := newErrors[Password := PasswordTooShort];
      }
      if confirmPassword == "" {
        newErrors := newErrors[ConfirmPassword := ConfirmRequired];
      } else if confirmPassword != password {
        newErrors := newErrors[ConfirmPassword := PasswordsDiffer];
      }
      errors := newErrors;
      ok := |newErrors.Keys| == 0;
    }

    /** The submit handler; `proceeds` is whether its success branch runs. */
    method HandleSubmit() returns (proceeds: bool)
      modifies this
      ensures email == old(email) && password == old(password) && confirmPassword == old(confirmPassword)
      ensures errors == SignUpErrors(email, password, confirmPassword)
      ensures proceeds <==> errors == map[]
    {
      proceeds := Validate();
    }
  }
}
