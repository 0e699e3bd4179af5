/** The login (src/components/Login/LoginForm.jsx), a two-step machine: a
    normal login stores the token and the user and leaves for the home page;
    a first login whose password was never changed switches to a form that
    sets a new password and then returns to the login step. */
module LoginScreen {
  import opened Common

  /** The login response: `{ token, id, userTypes, rolle, passwort_geaendert }`;
      `passwortGeaendert` is the truthiness of the last. */
  datatype LoginResponse = LoginResponse(token: string, id: int, userTypes: Option<seq<string>>,
                                         rolle: Option<string>, passwortGeaendert: bool)

  /** A localStorage value: the token as text, or the user object (its JSON text is not modelled). */
  datatype Stored = Raw(text: string) | UserRecord(userTypes: Option<seq<string>>, rolle: Option<string>, id: int)

  datatype Request =
    | LoginRequest(benutzername: string, passwort: string)
    | ChangePasswordRequest(bearer: string, neuesPasswort: string)

  const LoginFailed := "Fehler beim Login. Bitte überprüfen Sie Benutzername und Passwort."
  const PasswordTwice := "Bitte geben Sie das neue Passwort zweimal ein."
  const PasswordMismatch := "Die Passwörter stimmen nicht überein."
  const ChangeFailed := "Fehler beim Ändern des Passworts."
  const ChangedAlert := "Passwort erfolgreich geändert. Bitte loggen Sie sich erneut ein."

  /** Why a new password is refused before any request, or None when it may be sent. */
  function PasswordProblem(newPassword: string, confirmPassword: string): (r: Option<string>)
    ensures r.None? <==> newPassword != "" && newPassword == confirmPassword
    ensures newPassword == "" || confirmPassword == "" ==> r == Some(PasswordTwice)
    ensures newPassword != "" && confirmPassword != "" && newPassword != confirmPassword ==> r == Some(PasswordMismatch)
  {
    if newPassword == "" || confirmPassword == "" then Some(PasswordTwice)
    else if newPassword != confirmPassword then Some(PasswordMismatch)
    else None
  }

  class LoginForm {
    var username: string
    var password: string
    var newPassword: string
    var confirmPassword: string
    var error: string
    var mussPasswortAendern: bool
    var userId: Option<int>
    var token: string
    /** The browser's localStorage. */
    var storage: map<string, Stored>
    /** Set once the page has been sent to "/". */
    var redirected: bool

    constructor(storage: map<string, Stored>)
      ensures username == "" && password == "" && newPassword == "" && confirmPassword == ""
      ensures error == "" && !mussPasswortAendern && userId == None && token == ""
      ensures this.storage == storage && !redirected
    {
      username, password, newPassword, confirmPassword := "", "", "", "";
      error, mussPasswortAendern, userId, token := "", false, None, "";
      this.storage, redirected := storage, false;
    }

    method SetCredentials(u: string, p: string)
      modifies this`username, this`password
      ensures username == u && password == p
    {
      username, password := u, p;
    }

    method SetNewPasswords(n: string, c: string)
      modifies this`newPassword, this`confirmPassword
      ensures newPassword == n && confirmPassword == c
    {
      newPassword, confirmPassword := n, c;
    }

    /** Step one. A password that was never changed switches to step two and
        keeps id and token in the component only; otherwise token and user are
        stored and the page leaves for "/". */
    method HandleLogin(response: Outcome<LoginResponse>) returns (request: Request)
      modifies this`error, this`mussPasswortAendern, this`userId, this`token, this`storage, this`redirected
      ensures request == LoginRequest(old(username), old(password))
      ensures response.Failure? ==>
        error == ErrorText(response.error, LoginFailed) && mussPasswortAendern == old(mussPasswortAendern)
        && userId == old(userId) && token == old(token) && storage == old(storage) && redirected == old(redirected)
      ensures response.Success? && !response.body.passwortGeaendert ==>
        error == "" && mussPasswortAendern && userId == Some(response.body.id) && token == response.body.token
        && storage == old(storage) && redirected == old(redirected)
      ensures response.Success? && response.body.passwortGeaendert ==>
        error == "" && mussPasswortAendern == old(mussPasswortAendern) && userId == old(userId) && token == old(token)
        && storage == old(storage)["token" := Raw(response.body.token)]
                                  ["user" := UserRecord(response.body.userTypes, response.body.rolle, response.body.id)]
        && redirected
    {
      error := "";
      request := LoginRequest(username, password);
      if response.Failure? {
        error := ErrorText(response.error, LoginFailed);
        return;
      }
      var r := response.body;
      if !r.passwortGeaendert {
        mussPasswortAendern := true;
        userId := Some(r.id);
        token := r.token;
      } else {
        storage := storage["token" := Raw(r.token)];
        storage := storage["user" := UserRecord(r.userTypes, r.rolle, r.id)];
        redirected := true;
      }
    }

    /** Step two. Both fields must be filled in and agree; success alerts and
        returns to step one with all four inputs cleared. */
    method HandleChangePassword(response: Outcome<()>) returns (request: Option<Request>, alert: Option<string>)
      modifies this`error, this`mussPasswortAendern, this`username, this`password, this`newPassword, this`confirmPassword
      ensures PasswordProblem(old(newPassword), old(confirmPassword)).Some? ==>
        request == None && alert == None && error == PasswordProblem(old(newPassword), old(confirmPassword)).value
        && mussPasswortAendern == old(mussPasswortAendern) && username == old(username) && password == old(password)
        && newPassword == old(newPassword) && confirmPassword == old(confirmPassword)
      ensures PasswordProblem(old(newPassword), old(confirmPassword)).None? ==>
        request == Some(ChangePasswordRequest(token, old(newPassword)))
      ensures PasswordProblem(old(newPassword), old(confirmPassword)).None? && response.Success? ==>
        alert == Some(ChangedAlert) && error == "" && !mussPasswortAendern
        && username == "" && password == "" && newPassword == "" && confirmPassword == ""
      ensures PasswordProblem(old(newPassword), old(confirmPassword)).None? && response.Failure? ==>
        alert == None && error == ErrorText(response.error, ChangeFailed)
        && mussPasswortAendern == old(mussPasswortAendern) && username == old(username) && password == old(password)
        && newPassword == old(newPassword) && confirmPassword == old(confirmPassword)
    {
      error := "";
      var problem := PasswordProblem(newPassword, confirmPassword);
      if problem.Some? {
        error := problem.value;
        return None, None;
      }
      request := Some(ChangePasswordRequest(token, newPassword));
      if response.Success? {
        alert := Some(ChangedAlert);
        mussPasswortAendern := false;
        username, password, newPassword, confirmPassword := "", "", "", "";
      } else {
        alert := None;
        error := ErrorText(response.error, ChangeFailed);
      }
    }
  }
}
