/** The sign-in error page: the message shown for the `error` query parameter. */
module AuthError {
  import opened Wrappers

  const DefaultMessage: string := "An unknown error occurred during authentication."
  const ConfigurationMessage: string := "There is a problem with the server configuration."
  const AccessDeniedMessage: string := "You do not have permission to sign in."
  const VerificationMessage: string := "The verification link has expired or has already been used."
  const OAuthSigninMessage: string := "Error starting the sign in process. Please try again."
  const OAuthCallbackMessage: string := "Error during the sign in process. Please try again."
  const OAuthAccountNotLinkedMessage: string := "This email is already associated with another account."

  /** The error codes the page knows, exactly as spelled in the query. */
  predicate IsKnownCode(s: string) {
    || s == "Configuration" || s == "AccessDenied" || s == "Verification"
    || s == "OAuthSignin" || s == "OAuthCallback" || s == "OAuthAccountNotLinked"
  }

  /** The seven messages differ in length, hence from one another. */
  lemma MessageLengths()
    ensures |DefaultMessage| == 48 && |ConfigurationMessage| == 49 && |AccessDeniedMessage| == 38
    ensures |VerificationMessage| == 59 && |OAuthSigninMessage| == 53 && |OAuthCallbackMessage| == 51
    ensures |OAuthAccountNotLinkedMessage| == 54
  {
  }

  /** The message for an error code; every other value, or none, gets the default. */
  function ErrorMessage(error: Option<string>): (m: string)
    ensures error == Some("Configuration") ==> m == ConfigurationMessage
    ensures error == Some("AccessDenied") ==> m == AccessDeniedMessage
    ensures error == Some("Verification") ==> m == VerificationMessage
    ensures error == Some("OAuthSignin") ==> m == OAuthSigninMessage
    ensures error == Some("OAuthCallback") ==> m == OAuthCallbackMessage
    ensures error == Some("OAuthAccountNotLinked") ==> m == OAuthAccountNotLinkedMessage
    ensures m == DefaultMessage <==> error.None? || !IsKnownCode(error.value)
  {
    MessageLengths();
    if error == Some("Configuration") then ConfigurationMessage
    else if error == Some("AccessDenied") then AccessDeniedMessage
    else if error == Some("Verification") then VerificationMessage
    else if error == Some("OAuthSignin") then OAuthSigninMessage
    else if error == Some("OAuthCallback") then OAuthCallbackMessage
    else if error == Some("OAuthAccountNotLinked") then OAuthAccountNotLinkedMessage
    else DefaultMessage
  }

  /** Different known codes give different messages, so the message names the code. */
  lemma KnownMessagesDistinct(a: string, b: string)
    requires IsKnownCode(a) && IsKnownCode(b)
    ensures ErrorMessage(Some(a)) == ErrorMessage(Some(b)) <==> a == b
  {
    MessageLengths();
  }
}
