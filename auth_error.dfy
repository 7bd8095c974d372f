/** The sign-in error page: the message shown for the `error` query parameter. */
module AuthError {
  import opened Wrappers

  const DEFAULT_MESSAGE := "An authentication error occurred"
  const PROVIDER_MESSAGE := "There was a problem with the authentication provider."
  const UNEXPECTED_MESSAGE := "An unexpected authentication error occurred."

  /** The codes that share the provider message. */
  const ProviderCodes: set<string> := {"OAuthSignin", "OAuthCallback", "OAuthCreateAccount", "EmailCreateAccount", "Callback"}

  /** The codes with a message of their own, and that message. Together with
      `ProviderCodes` this map is the reference table for the `switch` below;
      `ErrorMessageTable` proves that the two agree. */
  const OwnMessages: map<string, string> := map[
    "Configuration" := "There is a problem with the server configuration.",
    "AccessDenied" := "You do not have permission to sign in.",
    "Verification" := "The verification link may have been used or is no longer valid.",
    "OAuthAccountNotLinked" := "This email is already associated with another account.",
    "EmailSignin" := "The email could not be sent.",
    "CredentialsSignin" := "The email or password you entered is incorrect.",
    "SessionRequired" := "You must be signed in to access this page."
  ]

  /** The message for one code, as the `switch` assigns it. */
  function CodeMessage(code: string): (m: string)
    ensures m != DEFAULT_MESSAGE
    ensures code in ProviderCodes ==> m == PROVIDER_MESSAGE
  {
    match code
    case "Configuration" => "There is a problem with the server configuration."
    case "AccessDenied" => "You do not have permission to sign in."
    case "Verification" => "The verification link may have been used or is no longer valid."
    case "OAuthSignin" => PROVIDER_MESSAGE
    case "OAuthCallback" => PROVIDER_MESSAGE
    case "OAuthCreateAccount" => PROVIDER_MESSAGE
    case "EmailCreateAccount" => PROVIDER_MESSAGE
    case "Callback" => PROVIDER_MESSAGE
    case "OAuthAccountNotLinked" => "This email is already associated with another account."
    case "EmailSignin" => "The email could not be sent."
    case "CredentialsSignin" => "The email or password you entered is incorrect."
    case "SessionRequired" => "You must be signed in to access this page."
    case _ => UNEXPECTED_MESSAGE
  }

  /** The message the page shows: the initial text unless a non-empty `error`
      parameter is present. */
  function ErrorMessage(error: Option<string>): (m: string)
    ensures error.None? || error == Some("") ==> m == DEFAULT_MESSAGE
  {
    if error.Some? && error.value != "" then CodeMessage(error.value) else DEFAULT_MESSAGE
  }

  /** The mapping is the table: each named code has its own message, the five
      provider codes share one, and every other code gets the unexpected-error
      text. A present code never leaves the initial text in place. */
  lemma ErrorMessageTable(code: string)
    requires code != ""
    ensures code in OwnMessages ==> ErrorMessage(Some(code)) == OwnMessages[code]
    ensures code in ProviderCodes ==> ErrorMessage(Some(code)) == PROVIDER_MESSAGE
    ensures code !in OwnMessages && code !in ProviderCodes ==> ErrorMessage(Some(code)) == UNEXPECTED_MESSAGE
    ensures ErrorMessage(Some(code)) != DEFAULT_MESSAGE
  {
  }

  /** The messages tell the codes apart: no two named codes share a message,
      and none of them shares the provider message. */
  lemma OwnMessagesDistinct(a: string, b: string)
    requires a in OwnMessages && b in OwnMessages && a != b
    ensures OwnMessages[a] != OwnMessages[b]
    ensures OwnMessages[a] != PROVIDER_MESSAGE && OwnMessages[a] != UNEXPECTED_MESSAGE
  {
  }
}
