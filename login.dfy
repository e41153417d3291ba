/**
 * The sign-in screen (app/auth/login.tsx): one non-empty guard, then a demo
 * token written to storage; three social sign-in buttons that each store a
 * provider token. Whether the storage write succeeds is a parameter.
 */
module Login {
  import opened Wrappers
  import opened AsyncStorage
  import opened AuthCommon
  import Api

  const LoginFailed: string := "Login failed. Please try again."

  /** The guard of `handleLogin`: the alert message it raises, or `None` when it lets the call through. */
  function ValidateLogin(email: string, password: string): (r: Option<string>)
    ensures r.None? <==> email != "" && password != ""
    ensures r.Some? ==> r.value == FillAllFields
  {
    if email == "" || password == "" then Some(FillAllFields) else None
  }

  function SignedInMessage(p: Provider): string
  {
    "Signed in with " + ProviderName(p) + "!"
  }

  function SignInFailedMessage(p: Provider): string
  {
    ProviderName(p) + " sign-in failed. Please try again."
  }

  class LoginScreen {
    var email: string
    var password: string
    var loading: bool
    var socialLoading: Option<string>
    const store: Store

    constructor (store: Store)
      ensures email == "" && password == "" && !loading && socialLoading == None
      ensures this.store == store
    {
      email, password := "", "";
      loading, socialLoading := false, None;
      this.store := store;
    }

    /**
     * `handleLogin`. A rejected guard alerts and touches nothing else; past the
     * guard, only `@auth_token` may change and `loading` ends false.
     */
    method HandleLogin(writeOk: bool) returns (effects: seq<Effect>)
      modifies this`loading, store
      ensures ValidateLogin(email, password).Some? ==>
        && effects == [ShowAlert("Error", FillAllFields)]
        && store.items == old(store.items)
        && loading == old(loading)
      ensures ValidateLogin(email, password).None? ==>
        && !loading
        && store.items == (if writeOk then old(store.items)[AuthTokenKey := DemoToken] else old(store.items))
        && effects == (if writeOk then [NavigateBack] else [ShowAlert("Error", LoginFailed)])
    {
      var invalid := ValidateLogin(email, password);
      if invalid.Some? {
        effects := [ShowAlert("Error", invalid.value)];
        return;
      }
      loading := true;
      if writeOk {
        store.SetItem(AuthTokenKey, DemoToken);
        effects := [NavigateBack];
      } else {
        effects := [ShowAlert("Error", LoginFailed)];
      }
      loading := false;
    }

    /**
     * `handleGoogleSignIn`, `handleFacebookSignIn` and `handleAppleSignIn`,
     * which differ only in the provider.
     */
    method HandleSocialSignIn(p: Provider, writeOk: bool) returns (effects: seq<Effect>)
      modifies this`socialLoading, store
      ensures socialLoading == None
      ensures store.items == (if writeOk then old(store.items)[AuthTokenKey := ProviderToken(p)] else old(store.items))
      ensures effects == (if writeOk then [ShowAlert("Success", SignedInMessage(p)), NavigateBack]
                          else [ShowAlert("Error", SignInFailedMessage(p))])
    {
      socialLoading := Some(ProviderKey(p));
      if writeOk {
        store.SetItem(AuthTokenKey, ProviderToken(p));
        effects := [ShowAlert("Success", SignedInMessage(p)), NavigateBack];
      } else {
        effects := [ShowAlert("Error", SignInFailedMessage(p))];
      }
      socialLoading := None;
    }
  }

  /** Once sign-in has stored its token, every request carries it as `Bearer demo_token_123`. */
  lemma SignedInRequestsCarryToken(items: map<string, string>, headers: map<string, string>)
    ensures var h := Api.WithAuthorization(headers, StoredToken(items[AuthTokenKey := DemoToken]));
      Api.AuthorizationHeader in h && h[Api.AuthorizationHeader] == "Bearer demo_token_123"
  {
  }
}
