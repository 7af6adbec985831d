/** The login page: two text fields, an error line, and a submit handler
    that calls the dashboard's onLogin callback when the fixed credential
    pair is entered. */
module Session {

  const AdminUsername: string := "admin"
  const AdminPassword: string := "password123"
  const InvalidCredentialsMessage: string := "Invalid username or password"

  /** The only pair of credentials the page accepts. */
  predicate CredentialsMatch(username: string, password: string) {
    username == AdminUsername && password == AdminPassword
  }

  class LoginPage {
    var username: string
    var password: string
    var error: string

    /** Both fields and the error line start empty. */
    constructor ()
      ensures username == "" && password == "" && error == ""
    {
      username, password, error := "", "", "";
    }

    /** The username field's change handler. */
    method SetUsername(value: string)
      modifies this`username
      ensures username == value
    {
      username := value;
    }

    /** The password field's change handler. */
    method SetPassword(value: string)
      modifies this`password
      ensures password == value
    {
      password := value;
    }

    /** The submit handler. It answers whether onLogin is called; that
        happens exactly for the fixed pair, and the error line is then left
        as it was. Any other pair sets the error line and calls nothing. */
    method HandleLogin() returns (onLogin: bool)
      modifies this`error
      ensures onLogin <==> CredentialsMatch(username, password)
      ensures onLogin ==> error == old(error)
      ensures !onLogin ==> error == InvalidCredentialsMessage
    {
      if username == AdminUsername && password == AdminPassword {
        onLogin := true;
      } else {
        onLogin := false;
        error := InvalidCredentialsMessage;
      }
    }
  }
}
