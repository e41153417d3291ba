/**
 * The sign-up screen (app/auth/register.tsx): three guards in order, the first
 * failure wins; then a demo token written to storage. Three social sign-up
 * buttons each store a provider token. Whether the storage write succeeds is
 * a parameter.
 */
module Register {
  import opened Wrappers
  import opened AsyncStorage
  import opened AuthCommon
  import Login

  const PasswordsDoNotMatch: string := "Passwords do not match"
  const PasswordTooShort: string := "Password must be at least 6 characters"
  const RegistrationFailed: string := "Registration failed. Please try again."
  const MinPasswordLength: nat := 6

  /** The acceptance condition, stated independently of the order of the guards. */
  predicate AcceptableRegistration(name: string, email: string, password: string, confirm: string)
  {
    name != "" && email != "" && password != "" && confirm != ""
    && password == confirm && |password| >= MinPasswordLength
  }

  /** The guard chain of `handleRegister`: the first failing guard's alert message, or `None`. */
  function ValidateRegistration(name: string, email: string, password: string, confirm: string): (r: Option<string>)
    ensures r.None? <==> AcceptableRegistration(name, email, password, confirm)
    ensures r == Some(FillAllFields) <==> (name == "" || email == "" || password == "" || confirm == "")
    ensures r == Some(PasswordsDoNotMatch) <==>
      (name != "" && email != "" && password != "" && confirm != "" && password != confirm)
    ensures r == Some(PasswordTooShort) <==>
      (name != "" && email != "" && password != "" && confirm != "" && password == confirm && |password| < MinPasswordLength)
  {
    if name == "" || email == "" || password == "" || confirm == "" then Some(FillAllFields)
    else if password != confirm then Some(PasswordsDoNotMatch)
    else if |password| < MinPasswordLength then Some(PasswordTooShort)
    else None
  }

  /** Credentials that pass sign-up also pass the sign-in guard. */
  lemma RegisteredCredentialsPassLogin(name: string, email: string, password: string, confirm: string)
    requires ValidateRegistration(name, email, password, confirm).None?
    ensures Login.ValidateLogin(email, password).None?
  {
  }

  function SignedUpMessage(p: Provider): string
  {
    "Signed up with " + ProviderName(p) + "!"
  }

  function SignUpFailedMessage(p: Provider): string
  {
    ProviderName(p) + " sign-up failed. Please try again."
  }

  class RegisterScreen {
    var name: string
    var email: string
    var password: string
    var confirmPassword: string
    var loading: bool
    var socialLoading: Option<string>
    const store: Store

    constructor (store: Store)
      ensures name == "" && email == "" && password == "" && confirmPassword == ""
      ensures !loading && socialLoading == None
      ensures this.store == store
    {
      name, email, password, confirmPassword := "", "", "", "";
      loading, socialLoading := false, None;
      this.store := store;
    }

    /**
     * `handleRegister`. A failing guard alerts with its own message and touches
     * nothing else; past the guards, only `@auth_token` may change and
     * `loading` ends false.
     */
    method HandleRegister(writeOk: bool) returns (effects: seq<Effect>)
      modifies this`loading, store
      ensures ValidateRegistration(name, email, password, confirmPassword).Some? ==>
        && effects == [ShowAlert("Error", ValidateRegistration(name, email, password, confirmPassword).value)]
        && store.items == old(store.items)
        && loading == old(loading)
      ensures ValidateRegistration(name, email, password, confirmPassword).None? ==>
        && !loading
        && store.items == (if writeOk then old(store.items)[AuthTokenKey := DemoToken] else old(store.items))
        && effects == (if writeOk then [NavigateBack] else [ShowAlert("Error", RegistrationFailed)])
    {
      var invalid := ValidateRegistration(name, email, password, confirmPassword);
      if invalid.Some? {
        effects := [ShowAlert("Error", invalid.value)];
        return;
      }
      loading := true;
      if writeOk {
        store.SetItem(AuthTokenKey, DemoToken);
        effects := [NavigateBack];
      } else {
        effects := [ShowAlert("Error", RegistrationFailed)];
      }
      loading := false;
    }

    /**
     * `handleGoogleSignUp`, `handleFacebookSignUp` and `handleAppleSignUp`,
     * which differ only in the provider.
     */
    method HandleSocialSignUp(p: Provider, writeOk: bool) returns (effects: seq<Effect>)
      modifies this`socialLoading, store
      ensures socialLoading == None
      ensures store.items == (if writeOk then old(store.items)[AuthTokenKey := ProviderToken(p)] else old(store.items))
      ensures effects == (if writeOk then [ShowAlert("Success", SignedUpMessage(p)), NavigateBack]
                          else [ShowAlert("Error", SignUpFailedMessage(p))])
    {
      socialLoading := Some(ProviderKey(p));
      if writeOk {
        store.SetItem(AuthTokenKey, ProviderToken(p));
        effects := [ShowAlert("Success", SignedUpMessage(p)), NavigateBack];
      } else {
        effects := [ShowAlert("Error", SignUpFailedMessage(p))];
      }
      socialLoading := None;
    }
  }
}
