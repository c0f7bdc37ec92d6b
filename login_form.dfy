/** `handleSubmit` of src/pages/LoginForm.tsx: the empty-field check and
    the `error` / `isLoading` transitions around `login`. The outcome of
    `login` is a parameter; the credentials sent and the navigation made are
    results. */
module LoginForm {
  import opened Strings
  import opened Types

  const MissingFields := "Please enter both username and password"
  const LoginFailed := "Failed to login. Please try again."
  const HomeRoute := "/"

  /** The message shown for a failed login: the thrown one, or the fixed
      one when it is empty. */
  function FailureMessage(thrown: string): (shown: string)
    ensures shown != ""
    ensures thrown != "" ==> shown == thrown
    ensures thrown == "" ==> shown == LoginFailed
  {
    OrDefault(thrown, LoginFailed)
  }

  class Form {
    var username: string
    var password: string
    var error: string
    var isLoading: bool

    constructor ()
      ensures username == "" && password == "" && error == "" && !isLoading
    {
      username, password, error, isLoading := "", "", "", false;
    }

    method SetUsername(value: string)
      modifies this
      ensures username == value && password == old(password) && error == old(error) && isLoading == old(isLoading)
    {
      username := value;
    }

    method SetPassword(value: string)
      modifies this
      ensures password == value && username == old(username) && error == old(error) && isLoading == old(isLoading)
    {
      password := value;
    }

    /** Either field empty: the prompt is shown and `login` is not called.
        Otherwise `login` gets exactly the typed credentials; success goes
        home with no error, failure shows the message. Loading always ends. */
    method HandleSubmit(outcome: Settled<()>) returns (loginCalledWith: Option<LoginCredentials>, navigatedTo: Option<string>)
      modifies this
      ensures username == old(username) && password == old(password)
      ensures !isLoading
      ensures username == "" || password == "" ==>
                && error == MissingFields && loginCalledWith == None && navigatedTo == None
      ensures username != "" && password != "" ==>
                && loginCalledWith == Some(LoginCredentials(username, password))
                && (outcome.Resolved? ==> error == "" && navigatedTo == Some(HomeRoute))
                && (outcome.Rejected? ==> error == FailureMessage(outcome.message) && navigatedTo == None)
    {
      error := "";
      isLoading := true;
      if username == "" || password == "" {
        error := MissingFields;
        isLoading := false;
        return None, None;
      }
      loginCalledWith := Some(LoginCredentials(username, password));
      match outcome {
        case Resolved(_) =>
          navigatedTo := Some(HomeRoute);
        case Rejected(message) =>
          error := FailureMessage(message);
          navigatedTo := None;
      }
      isLoading := false;
    }
  }
}
