/** `VerifyEmailComponent`: submits an e-mail verification token and reports the outcome. */
module VerifyEmail {
  import opened Wrappers
  import opened Strings

  const MissingTokenMessage: string := "Please enter a verification token."
  const VerifiedMessage: string := "Email verified successfully! Redirecting to login..."
  const ConnectionMessage: string :=
    "Unable to connect to the server. Please check your internet connection or server status."
  const InvalidResponseMessage: string :=
    "Server error: Received invalid response. Please ensure the server is running and the endpoint is correct."
  const DefaultFailureMessage: string :=
    "Email verification failed. Please check the token or contact support."
  /** The text of a JSON parse failure, which the error handler looks for in the error's message. */
  const UnexpectedToken: string := "Unexpected token"
  /** The message `AuthService.verifyEmail` puts in its error when the reply carries none. */
  const ServiceFailureMessage: string := "Email verification failed"

  /**
   * An error object as the error callback reads it: `status` (absent on a
   * plain `Error`), `message`, and `error?.message`.
   */
  datatype HttpError = HttpError(status: Option<int>, message: string, backendMessage: Option<string>)

  /**
   * What `AuthService.verifyEmail` rethrows for a failed call: a plain
   * `Error` whose message is the reply's own message or the service
   * default, without a status and without an `error` member.
   */
  function WrappedError(replyMessage: Option<string>): (err: HttpError)
    ensures err.status.None? && err.backendMessage.None?
    ensures replyMessage.Some? && replyMessage.value != "" ==> err.message == replyMessage.value
    ensures replyMessage.None? || replyMessage.value == "" ==> err.message == ServiceFailureMessage
  {
    HttpError(None, OrDefault(replyMessage, ServiceFailureMessage), None)
  }

  /** A truthy backend message. */
  predicate HasBackendMessage(err: HttpError) {
    err.backendMessage.Some? && err.backendMessage.value != ""
  }

  /**
   * The error message chosen in priority order: no connection, then an
   * invalid (non-JSON) response, then the backend's own message, then the default.
   */
  method ChooseErrorMessage(err: HttpError) returns (msg: string)
    ensures err.status == Some(0) ==> msg == ConnectionMessage
    ensures err.status != Some(0) && Contains(err.message, UnexpectedToken) ==> msg == InvalidResponseMessage
    ensures err.status != Some(0) && !Contains(err.message, UnexpectedToken) && HasBackendMessage(err) ==>
      msg == err.backendMessage.value
    ensures err.status != Some(0) && !Contains(err.message, UnexpectedToken) && !HasBackendMessage(err) ==>
      msg == DefaultFailureMessage
    ensures msg != ""
  {
    msg := DefaultFailureMessage;
    if err.status == Some(0) {
      msg := ConnectionMessage;
    } else if Contains(err.message, UnexpectedToken) {
      msg := InvalidResponseMessage;
    } else if HasBackendMessage(err) {
      msg := err.backendMessage.value;
    }
  }

  class VerifyEmailComponent {
    var email: string
    var token: string
    var errorMessage: string
    var successMessage: string
    var isVerifying: bool

    constructor ()
      ensures email == "" && token == "" && errorMessage == "" && successMessage == "" && !isVerifying
    {
      email, token, errorMessage, successMessage, isVerifying := "", "", "", "", false;
    }

    /** `ngOnInit`: e-mail and token come from the query string, '' when absent. */
    method NgOnInit(emailParam: Option<string>, tokenParam: Option<string>)
      modifies this
      ensures email == OrDefault(emailParam, "") && token == OrDefault(tokenParam, "")
      ensures errorMessage == old(errorMessage) && successMessage == old(successMessage)
      ensures isVerifying == old(isVerifying)
    {
      email := OrDefault(emailParam, "");
      token := OrDefault(tokenParam, "");
    }

    /** The token input is bound to `token`. */
    method SetToken(value: string)
      modifies this
      ensures token == value && email == old(email) && errorMessage == old(errorMessage)
      ensures successMessage == old(successMessage) && isVerifying == old(isVerifying)
    {
      token := value;
    }

    /**
     * `onVerify` up to the call: an empty token is refused with a message and
     * no request; otherwise verification starts with both messages cleared
     * and the token is sent.
     */
    method OnVerify() returns (req: Option<string>)
      modifies this
      ensures token == "" ==> req.None? && errorMessage == MissingTokenMessage && successMessage == ""
      ensures token == "" ==> isVerifying == old(isVerifying)
      ensures token != "" ==> req == Some(token) && isVerifying && errorMessage == "" && successMessage == ""
      ensures email == old(email) && token == old(token)
    {
      if token == "" {
        errorMessage := MissingTokenMessage;
        successMessage := "";
        return None;
      }
      isVerifying := true;
      errorMessage := "";
      successMessage := "";
      req := Some(token);
    }

    /** The token was accepted: the rendered reply, or the default text when it renders to nothing. */
    method OnVerifySuccess(rendered: Option<string>)
      modifies this
      ensures !isVerifying && successMessage == OrDefault(rendered, VerifiedMessage)
      ensures email == old(email) && token == old(token) && errorMessage == old(errorMessage)
    {
      isVerifying := false;
      successMessage := OrDefault(rendered, VerifiedMessage);
    }

    /**
     * The verification failed with a reply whose body carried `replyMessage`.
     * The service hands on only its wrapped `Error`, so no status and no
     * backend message reach the handler: the invalid-response message shows
     * when the wrapped text mentions 'Unexpected token', and the default
     * otherwise. The success message is cleared.
     */
    method OnVerifyError(replyMessage: Option<string>)
      modifies this
      ensures !isVerifying && successMessage == ""
      ensures Contains(OrDefault(replyMessage, ServiceFailureMessage), UnexpectedToken) ==>
        errorMessage == InvalidResponseMessage
      ensures !Contains(OrDefault(replyMessage, ServiceFailureMessage), UnexpectedToken) ==>
        errorMessage == DefaultFailureMessage
      ensures errorMessage in {InvalidResponseMessage, DefaultFailureMessage}
      ensures email == old(email) && token == old(token)
    {
      isVerifying := false;
      var errorMsg := ChooseErrorMessage(WrappedError(replyMessage));
      errorMessage := errorMsg;
      successMessage := "";
    }
  }
}
