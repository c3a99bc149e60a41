/** The admin session: an authenticated flag tied to the bearer token kept in
    the browser's local storage, plus the password-change call. */
module AdminContext {
  import opened Js

  /** What the login request produced: it was refused with status 401, it
      threw for any other reason, or it answered with `data.token` (possibly
      missing or empty). */
  datatype LoginReply = LoginUnauthorized | LoginThrew | LoginAnswered(token: Option<string>)

  /** What the password-change request produced: an answer with its
      `message`, or a thrown error with `error.response.message` and
      `error.message`. */
  datatype PasswordReply =
    | PasswordChanged(message: Option<string>)
    | PasswordFailed(responseMessage: Option<string>, errorMessage: Option<string>)

  /** `{ success, message? }`. */
  datatype ChangeResult = ChangeResult(success: bool, message: Option<string>)

  /** The body a request sends. */
  datatype AuthRequest =
    | LoginRequest(username: string, password: string)
    | ChangePasswordRequest(oldPassword: string, newPassword: string)

  const DefaultPasswordError := "Gagal mengubah password"

  /** `AdminProvider`: `isAuthenticated` and the stored `token`. */
  class AdminSession {
    var isAuthenticated: bool
    var storedToken: Option<string>

    /** The flag says exactly whether a non-empty token is stored. */
    predicate Valid()
      reads this
    {
      isAuthenticated == Truthy(storedToken)
    }

    /** The initial state is read from storage: authenticated exactly when a
        non-empty token is stored. */
    constructor (stored: Option<string>)
      ensures storedToken == stored
      ensures isAuthenticated <==> Truthy(stored)
      ensures Valid()
    {
      storedToken := stored;
      isAuthenticated := Truthy(stored);
    }

    /** `login`: stores the token and becomes authenticated only when the
        answer carries a non-empty token. A 401 refusal ends the session as
        `Unauthorized` does, before `login` sees the error; any other failure
        changes nothing. The result is false in both cases. */
    method Login(username: string, password: string, reply: LoginReply)
      returns (request: AuthRequest, ok: bool)
      requires Valid()
      modifies this
      ensures Valid()
      ensures request == LoginRequest(username, password)
      ensures ok <==> reply.LoginAnswered? && Truthy(reply.token)
      ensures ok ==> isAuthenticated && storedToken == reply.token
      ensures reply.LoginUnauthorized? ==> !isAuthenticated && storedToken == None
      ensures !ok && !reply.LoginUnauthorized? ==>
                isAuthenticated == old(isAuthenticated) && storedToken == old(storedToken)
    {
      request := LoginRequest(username, password);
      if reply.LoginUnauthorized? {
        Unauthorized();
        ok := false;
      } else if reply.LoginAnswered? && reply.token.Some? && reply.token.value != "" {
        storedToken := reply.token;
        isAuthenticated := true;
        ok := true;
      } else {
        ok := false;
      }
    }

    /** `logout`: no request; the flag drops and the token is removed. */
    method Logout()
      modifies this
      ensures !isAuthenticated && storedToken == None
      ensures Valid()
    {
      isAuthenticated := false;
      storedToken := None;
    }

    /** A request answered 401: the token is removed and the browser is sent
        to the login page, which reloads the application, so the flag is read
        again from the now empty storage. */
    method Unauthorized()
      modifies this
      ensures storedToken == None && !isAuthenticated
      ensures Valid()
    {
      storedToken := None;
      isAuthenticated := Truthy(storedToken);
    }

    /** `changePassword`: never fails. Success carries the answer's message
        when it is non-empty; failure carries the most specific non-empty
        message among the response's, the error's and the default one. */
    method ChangePassword(oldPassword: string, newPassword: string, reply: PasswordReply)
      returns (request: AuthRequest, result: ChangeResult)
      ensures request == ChangePasswordRequest(oldPassword, newPassword)
      ensures result.success <==> reply.PasswordChanged?
      ensures reply.PasswordChanged? ==>
                result.message == (if Truthy(reply.message) then reply.message else None)
      ensures reply.PasswordFailed? ==>
                result.message == Some(FirstTruthy([reply.responseMessage, reply.errorMessage,
                                                    Some(DefaultPasswordError)]))
      ensures !result.success ==> result.message.Some? && result.message.value != ""
    {
      request := ChangePasswordRequest(oldPassword, newPassword);
      match reply {
        case PasswordChanged(message) =>
          if message.Some? && message.value != "" {
            result := ChangeResult(true, message);
          } else {
            result := ChangeResult(true, None);
          }
        case PasswordFailed(responseMessage, errorMessage) =>
          var text := DefaultPasswordError;
          if responseMessage.Some? && responseMessage.value != "" {
            text := responseMessage.value;
          } else if errorMessage.Some? && errorMessage.value != "" {
            text := errorMessage.value;
          }
          FirstTruthyOfThree(responseMessage, errorMessage, Some(DefaultPasswordError));
          result := ChangeResult(false, Some(text));
      }
    }
  }
}
