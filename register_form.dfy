/** The logic of src/components/RegisterForm.tsx: `validateForm`, and the
    `credentials` and `error` state that `handleChange` and `handleSubmit`
    update. The `register` call goes through the authentication state; its
    outcome is a parameter. */
module RegisterForm {
  import opened Strings

  const PasswordMismatch := "Passwords do not match"
  const PasswordTooShort := "Password must be at least 8 characters long"
  const RegisterFailed := "Failed to register"
  const MinPasswordLength := 8

  datatype RegisterCredentials = RegisterCredentials(username: string, email: string, password: string, confirmPassword: string)

  /** The `name` attributes of the form's inputs. */
  datatype Field = Username | Email | Password | ConfirmPassword

  function Value(c: RegisterCredentials, f: Field): string
  {
    match f
    case Username => c.username
    case Email => c.email
    case Password => c.password
    case ConfirmPassword => c.confirmPassword
  }

  /** `{ ...prev, [name]: value }`. */
  function WithField(c: RegisterCredentials, f: Field, value: string): (r: RegisterCredentials)
    ensures Value(r, f) == value
    ensures forall g :: g != f ==> Value(r, g) == Value(c, g)
  {
    match f
    case Username => c.(username := value)
    case Email => c.(email := value)
    case Password => c.(password := value)
    case ConfirmPassword => c.(confirmPassword := value)
  }

  /** `validateForm`: a mismatch is reported before a short password, and
      the form is valid exactly when both passwords agree and have at least
      eight characters. */
  function ValidateForm(c: RegisterCredentials): (problem: Option<string>)
    ensures c.password != c.confirmPassword ==> problem == Some(PasswordMismatch)
    ensures c.password == c.confirmPassword && |c.password| < MinPasswordLength ==> problem == Some(PasswordTooShort)
    ensures problem == None <==> c.password == c.confirmPassword && |c.password| >= MinPasswordLength
  {
    if c.password != c.confirmPassword then Some(PasswordMismatch)
    else if |c.password| < MinPasswordLength then Some(PasswordTooShort)
    else None
  }

  /** Editing the username or the email never changes the verdict. */
  lemma ValidationIgnoresIdentity(c: RegisterCredentials, f: Field, value: string)
    requires f == Username || f == Email
    ensures ValidateForm(WithField(c, f, value)) == ValidateForm(c)
  {
    assert Value(WithField(c, f, value), Password) == c.password;
    assert Value(WithField(c, f, value), ConfirmPassword) == c.confirmPassword;
  }

  /** Typing the same password of eight or more characters into both
      password fields makes any form valid. */
  lemma MatchingLongPasswordValidates(c: RegisterCredentials, password: string)
    requires |password| >= MinPasswordLength
    ensures ValidateForm(WithField(WithField(c, Password, password), ConfirmPassword, password)) == None
  {
    var once := WithField(c, Password, password);
    var twice := WithField(once, ConfirmPassword, password);
    assert Value(twice, Password) == Value(once, Password) == password;
  }

  class Form {
    var credentials: RegisterCredentials
    var error: Option<string>

    constructor ()
      ensures credentials == RegisterCredentials("", "", "", "") && error == None
    {
      credentials := RegisterCredentials("", "", "", "");
      error := None;
    }

    /** `handleChange`: only the named field changes. */
    method HandleChange(name: Field, value: string)
      modifies this
      ensures credentials == WithField(old(credentials), name, value)
      ensures error == old(error)
    {
      credentials := WithField(credentials, name, value);
    }

    /** `handleSubmit`. An invalid form shows its problem and `register` is
        not called; otherwise `register` gets the credentials, and on
        success `onSuccess` runs (when given), on failure the thrown
        message (or the fixed one when it is empty) is shown. */
    method HandleSubmit(outcome: Settled<()>, hasOnSuccess: bool)
      returns (registered: Option<RegisterCredentials>, onSuccessCalled: bool)
      modifies this
      ensures credentials == old(credentials)
      ensures ValidateForm(credentials).Some? ==>
                && error == ValidateForm(credentials) && registered == None && !onSuccessCalled
      ensures ValidateForm(credentials) == None ==>
                && registered == Some(credentials)
                && (outcome.Resolved? ==> error == None && onSuccessCalled == hasOnSuccess)
                && (outcome.Rejected? ==>
                      error == Some(OrDefault(outcome.message, RegisterFailed)) && !onSuccessCalled)
    {
      error := None;
      var validationError := ValidateForm(credentials);
      if validationError.Some? {
        error := validationError;
        return None, false;
      }
      registered := Some(credentials);
      match outcome {
        case Resolved(_) =>
          onSuccessCalled := hasOnSuccess;
        case Rejected(message) =>
          error := Some(OrDefault(message, RegisterFailed));
          onSuccessCalled := false;
      }
    }
  }
}
