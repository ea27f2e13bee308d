/** The OAuth callback page (app/oauth/callback/page.tsx): the sign-in
    provider redirects here with both tokens as query parameters; the page
    stores them, tells the user, and returns to the home page. */
module OAuthCallback {
  import opened Js
  import opened BrowserStorage

  const SignInAlert: string := "로그인 성공! 🎉"
  const SignInFailedAlert: string := "로그인 실패.. 다시 시도해주세요."
  const HomePath: string := "/"

  /** What the user sees and where the router goes next. */
  datatype Outcome = Outcome(alert: string, navigateTo: string)

  /** The page's effect, given `searchParams.get("accessToken")` and
      `searchParams.get("refreshToken")` (absent parameters are `None`). */
  method HandleCallback(storage: LocalStorage, accessToken: Option<string>, refreshToken: Option<string>) returns (outcome: Outcome)
    modifies storage
    ensures storage.items == WithTokens(old(storage.items), accessToken, refreshToken)
    ensures outcome.navigateTo == HomePath
    ensures outcome.alert == SignInAlert <==> TruthyString(accessToken) && TruthyString(refreshToken)
    ensures outcome.alert == SignInAlert || outcome.alert == SignInFailedAlert
  {
    if TruthyString(accessToken) && TruthyString(refreshToken) {
      storage.SetItem(AccessTokenKey, accessToken.value);
      storage.SetItem(RefreshTokenKey, refreshToken.value);
      outcome := Outcome(SignInAlert, HomePath);
    } else {
      assert SignInFailedAlert[4] != SignInAlert[4];
      outcome := Outcome(SignInFailedAlert, HomePath);
    }
  }
}
