/** The login form's submit logic (src/components/auth/LoginForm.tsx): the 2FA gate, the
    storing of the session through the auth store, the role-based redirect, and the 2FA
    code screen. The answer of the login call is an input; `serialize` is the
    `JSON.stringify` the auth store applies to the user. */
module LoginForm {
  import opened Wrappers
  import opened Types
  import opened Validation
  import ApiClient
  import AuthStore
  import CodeEntry
  import Text

  const TwoFactorComingSoon: string := "2FA verification - coming soon"

  /** Where a signed-in user is sent. */
  function HomeFor(role: Role): string {
    if role == Admin then "/admin/dashboard" else "/products"
  }

  class LoginForm {
    var error: string
    var isLoading: bool
    var show2FA: bool
    var twoFactorCode: string

    constructor ()
      ensures error == "" && !isLoading && !show2FA && twoFactorCode == ""
    {
      error, isLoading, show2FA, twoFactorCode := "", false, false, "";
    }

    /** `onSubmit`, called with form data that passed `loginSchema`. Returns the page
        navigated to, if any. */
    method OnSubmit(data: LoginData, answer: Result<LoginResponse, ApiClient.ErrorValue>,
                    auth: AuthStore.AuthStore, serialize: User -> string)
      returns (navigate: Option<string>)
      modifies this, auth, auth.tokens, auth.storage
      // A user with 2FA enabled gets the code screen; no session is stored.
      ensures answer.Ok? && answer.value.user.twoFactorEnabled && !old(show2FA) ==>
        && show2FA && !isLoading && error == "" && navigate == None
        && auth.tokens.accessToken == old(auth.tokens.accessToken)
        && auth.storage.items == old(auth.storage.items)
        && auth.user == old(auth.user) && auth.isAuthenticated == old(auth.isAuthenticated)
        && auth.isLoading == old(auth.isLoading)
      // Otherwise the session is stored and the user is sent home by role.
      ensures answer.Ok? && !(answer.value.user.twoFactorEnabled && !old(show2FA)) ==>
        && auth.tokens.accessToken == Some(answer.value.accessToken)
        && auth.storage.items == AuthStore.StoredSession(
             old(auth.storage.items), answer.value.user, answer.value.refreshToken, serialize)
        && auth.user == Some(answer.value.user) && auth.isAuthenticated && !auth.isLoading
        && navigate == Some(HomeFor(answer.value.user.role))
        && show2FA == old(show2FA) && isLoading && error == ""
      // A failed call shows its message and changes nothing else.
      ensures answer.Err? ==>
        && error == ApiClient.GetErrorMessage(answer.error) && !isLoading && navigate == None
        && show2FA == old(show2FA)
        && auth.tokens.accessToken == old(auth.tokens.accessToken)
        && auth.storage.items == old(auth.storage.items)
        && auth.user == old(auth.user) && auth.isAuthenticated == old(auth.isAuthenticated)
        && auth.isLoading == old(auth.isLoading)
      ensures twoFactorCode == old(twoFactorCode)
    {
      error := "";
      isLoading := true;
      navigate := None;
      match answer {
        case Err(e) =>
          error := ApiClient.GetErrorMessage(e);
          isLoading := false;
        case Ok(response) =>
          if response.user.twoFactorEnabled && !show2FA {
            show2FA := true;
            isLoading := false;
            return;
          }
          auth.tokens.SetAccessToken(Some(response.accessToken));
          auth.Login(response.user, response.accessToken, response.refreshToken, serialize);
          if response.user.role == Admin {
            navigate := Some("/admin/dashboard");
          } else {
            navigate := Some("/products");
          }
      }
    }

    /** `handle2FASubmit`: only the "coming soon" message; the session is not touched. */
    method Handle2FASubmit()
      modifies this
      ensures error == TwoFactorComingSoon
      ensures isLoading == old(isLoading) && show2FA == old(show2FA) && twoFactorCode == old(twoFactorCode)
    {
      error := TwoFactorComingSoon;
    }

    /** The code input's change handler. */
    method OnCodeChange(value: string)
      modifies this
      ensures twoFactorCode == CodeEntry.DigitsOnly(value)
      ensures error == old(error) && isLoading == old(isLoading) && show2FA == old(show2FA)
      ensures CanSubmitCode() ==>
        !isLoading && |twoFactorCode| == 6 && forall i :: 0 <= i < 6 ==> Text.IsDigit(twoFactorCode[i])
    {
      twoFactorCode := CodeEntry.DigitsOnly(value);
      CodeEntry.DigitsOnlyKeepsDigits(value);
    }

    /** The "Back to login" button. */
    method BackToLogin()
      modifies this
      ensures !show2FA
      ensures error == old(error) && isLoading == old(isLoading) && twoFactorCode == old(twoFactorCode)
    {
      show2FA := false;
    }

    /** Whether the "Verify Code" button accepts a click: it is disabled while a call is
        pending and whenever the code is not exactly six characters long. */
    function CanSubmitCode(): (r: bool)
      reads this
      ensures r <==> |twoFactorCode| == 6 && !isLoading
    {
      CodeEntry.SubmitEnabled(twoFactorCode, isLoading)
    }
  }

  /** Admins are sent to the admin dashboard and everybody else to the catalogue; the two
      targets differ. */
  lemma RoleRouting(role: Role)
    ensures HomeFor(role) == "/admin/dashboard" <==> role == Admin
    ensures HomeFor(role) == "/products" <==> role == Customer
  {
  }
}
