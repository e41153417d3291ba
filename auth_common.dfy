/**
 * What the sign-in and sign-up screens share: the effects they leave on the
 * UI (alerts and navigation, recorded as values), the three social providers
 * and the fixed demo tokens they store.
 */
module AuthCommon {

  /** A UI side effect of a handler, in the order it happens. */
  datatype Effect = ShowAlert(title: string, message: string) | NavigateBack

  /** The three social sign-in buttons. */
  datatype Provider = Google | Facebook | Apple

  const DemoToken: string := "demo_token_123"
  const FillAllFields: string := "Please fill in all fields"

  /** The value `socialLoading` holds while a provider's handler runs. */
  function ProviderKey(p: Provider): string
  {
    match p
    case Google => "google"
    case Facebook => "facebook"
    case Apple => "apple"
  }

  /** The provider's name as the alerts spell it. */
  function ProviderName(p: Provider): string
  {
    match p
    case Google => "Google"
    case Facebook => "Facebook"
    case Apple => "Apple"
  }

  /** The fixed token a provider's handler stores: its key followed by "_token_123". */
  function ProviderToken(p: Provider): (t: string)
    ensures t == ProviderKey(p) + "_token_123"
    ensures t != DemoToken
  {
    match p
    case Google => "google_token_123"
    case Facebook => "facebook_token_123"
    case Apple => "apple_token_123"
  }

}
