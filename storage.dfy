/** The browser's `localStorage`: a string-keyed store that the OAuth
    callback writes, the home page clears, and the request interceptor and
    the home page read. The pure functions name the store after each page's
    effect; the class is the store itself. */
module BrowserStorage {
  import opened Js

  const AccessTokenKey: string := "accessToken"
  const RefreshTokenKey: string := "refreshToken"

  /** `localStorage.getItem(key)`: `null` for a missing key. */
  function Get(items: map<string, string>, key: string): (r: Option<string>)
    ensures r.Some? <==> key in items
    ensures r.Some? ==> r.value == items[key]
  {
    if key in items then Some(items[key]) else None
  }

  /** The store after a sign-in callback: both tokens stored verbatim when
      both are non-empty, otherwise the store as it was. */
  function WithTokens(items: map<string, string>, accessToken: Option<string>, refreshToken: Option<string>): (r: map<string, string>)
    ensures TruthyString(accessToken) && TruthyString(refreshToken) ==>
      && Get(r, AccessTokenKey) == accessToken
      && Get(r, RefreshTokenKey) == refreshToken
      && r.Keys == items.Keys + {AccessTokenKey, RefreshTokenKey}
      && forall k :: k in items && k != AccessTokenKey && k != RefreshTokenKey ==> r[k] == items[k]
    ensures !(TruthyString(accessToken) && TruthyString(refreshToken)) ==> r == items
  {
    if TruthyString(accessToken) && TruthyString(refreshToken) then
      items[AccessTokenKey := accessToken.value][RefreshTokenKey := refreshToken.value]
    else items
  }

  /** The store after logging out: exactly the two token keys are gone. */
  function WithoutTokens(items: map<string, string>): (r: map<string, string>)
    ensures r.Keys == items.Keys - {AccessTokenKey, RefreshTokenKey}
    ensures forall k :: k in r ==> r[k] == items[k]
  {
    items - {AccessTokenKey, RefreshTokenKey}
  }

  /** Signed in: the stored access token is non-empty. */
  predicate SignedIn(items: map<string, string>): (r: bool)
    ensures r <==> AccessTokenKey in items && items[AccessTokenKey] != ""
  {
    TruthyString(Get(items, AccessTokenKey))
  }

  /** A successful callback signs the user in; a rejected one leaves the
      sign-in state as it was. */
  lemma CallbackSignsIn(items: map<string, string>, accessToken: Option<string>, refreshToken: Option<string>)
    ensures TruthyString(accessToken) && TruthyString(refreshToken) ==> SignedIn(WithTokens(items, accessToken, refreshToken))
    ensures !(TruthyString(accessToken) && TruthyString(refreshToken)) ==>
      (SignedIn(WithTokens(items, accessToken, refreshToken)) <==> SignedIn(items))
  {
  }

  /** Logging out signs the user out, whatever was stored, and logging out
      twice is the same as once. */
  lemma LogoutSignsOut(items: map<string, string>)
    ensures !SignedIn(WithoutTokens(items))
    ensures WithoutTokens(WithoutTokens(items)) == WithoutTokens(items)
  {
  }

  /** Logging out after a successful sign-in restores every other key. */
  lemma LogoutUndoesSignIn(items: map<string, string>, accessToken: Option<string>, refreshToken: Option<string>)
    ensures WithoutTokens(WithTokens(items, accessToken, refreshToken)) == WithoutTokens(items)
  {
  }

  class LocalStorage {
    var items: map<string, string>

    constructor (items: map<string, string>)
      ensures this.items == items
    {
      this.items := items;
    }

    function GetItem(key: string): (r: Option<string>)
      reads this
      ensures r.Some? <==> key in items
      ensures r.Some? ==> r.value == items[key]
    {
      Get(items, key)
    }

    method SetItem(key: string, value: string)
      modifies this
      ensures items == old(items)[key := value]
    {
      items := items[key := value];
    }

    method RemoveItem(key: string)
      modifies this
      ensures items == old(items) - {key}
    {
      items := items - {key};
    }
  }
}
