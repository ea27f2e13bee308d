/** The home page (app/page.tsx): it shows whether the user is signed in,
    lets them log out, and lists the spaces with a link to each one's
    booking page. */
module Home {
  import opened Js
  import opened BrowserStorage
  import opened Spaces

  const LogoutAlert: string := "로그아웃 되었습니다."
  const GoogleLoginUrl: string := "http://localhost:8080/oauth2/authorization/google"
  const MyBookingsPath: string := "/my"

  /** The header's actions: "my bookings" and logout when signed in, the
      Google sign-in link otherwise. */
  datatype HeaderActions = SignedInActions(myBookingsHref: string) | SignInLink(href: string)

  function Header(isLoggedIn: bool): (h: HeaderActions)
    ensures h.SignedInActions? <==> isLoggedIn
    ensures h.SignedInActions? ==> h.myBookingsHref == "/my"
    ensures h.SignInLink? ==> h.href == "http://localhost:8080/oauth2/authorization/google"
  {
    if isLoggedIn then SignedInActions(MyBookingsPath) else SignInLink(GoogleLoginUrl)
  }

  /** The link of a space's card. */
  function SpaceHref(id: int): (r: string)
    ensures |r| > 8 && r[..8] == "/spaces/" && r[8..] == IntToString(id)
  {
    "/spaces/" + IntToString(id)
  }

  /** Two spaces with different ids link to different pages. */
  lemma SpaceHrefInjective(a: int, b: int)
    requires SpaceHref(a) == SpaceHref(b)
    ensures a == b
  {
    var p := "/spaces/";
    assert IntToString(a) == SpaceHref(a)[|p|..];
    assert IntToString(b) == SpaceHref(b)[|p|..];
    IntToStringInjective(a, b);
  }

  /** One card of the listing. */
  datatype Card = Card(name: string, spaceType: string, location: string, href: string)

  datatype Listing = EmptyState | Cards(cards: seq<Card>)

  /** The listing: the empty-state message when the list is absent or
      empty, otherwise one card per space, in order. */
  function RenderListing(spaces: Option<seq<Space>>): (v: Listing)
    ensures v.EmptyState? <==> spaces.None? || spaces.value == []
    ensures v.Cards? ==> |v.cards| == |spaces.value|
    ensures v.Cards? ==> forall i :: 0 <= i < |v.cards| ==>
      v.cards[i] == Card(spaces.value[i].name, spaces.value[i].spaceType, spaces.value[i].location, SpaceHref(spaces.value[i].id))
  {
    match spaces
    case None => EmptyState
    case Some(s) =>
      if |s| > 0 then
        Cards(seq(|s|, i requires 0 <= i < |s| => Card(s[i].name, s[i].spaceType, s[i].location, SpaceHref(s[i].id))))
      else EmptyState
  }

  /** The page's own state: whether it shows the user as signed in. */
  class HomePage {
    var isLoggedIn: bool

    constructor ()
      ensures !isLoggedIn
    {
      isLoggedIn := false;
    }

    /** The mount effect: signed in iff a non-empty access token is stored. */
    method Mount(storage: LocalStorage)
      modifies this
      ensures isLoggedIn == SignedIn(storage.items)
    {
      var token := storage.GetItem(AccessTokenKey);
      isLoggedIn := TruthyString(token);
    }

    /** Logout: removes both tokens, nothing else, and shows the user as
        signed out. */
    method Logout(storage: LocalStorage) returns (alert: string)
      modifies this, storage
      ensures storage.items == WithoutTokens(old(storage.items))
      ensures !isLoggedIn && alert == LogoutAlert
    {
      storage.RemoveItem(AccessTokenKey);
      storage.RemoveItem(RefreshTokenKey);
      isLoggedIn := false;
      alert := LogoutAlert;
    }
  }
}
