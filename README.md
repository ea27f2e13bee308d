# SeatPick front end: booking grid, space editor and credentials

This project models the logic inside the SeatPick web client, a Next.js and React front end
for a space-reservation service. It covers three parts:

- **Slot booking grid** (`SlotGrid`). A slot can be booked only when it is AVAILABLE and no
  booking request is pending. The request's start time is the first five characters of the
  slot time. The end time is the parsed hour plus one, followed by `:00`. The request body
  is fixed to space 1 and date `2026-02-02`. The `spaceId` that a space's detail page
  passes to the grid is ignored, so every detail page books space 1. A successful booking
  marks every cached `"slots"` query stale. A failed one reports the backend's message or a fixed text.
- **Admin space editor** (`AdminSpaces`). This is a class over `mounted`, `editingId` and
  the form. It covers the reset and edit-click transitions and the create, update and
  delete requests and their success handlers. It also picks the message for a failed
  delete. The JavaScript truthiness of `editingId` matters: an id of `0` means "not
  editing".
- **Credential lifecycle** (`BrowserStorage`, `OAuthCallback`, `Home`, `Api`). Browser
  storage is a class over `map<string, string>`. The OAuth callback stores both tokens
  only when both are non-empty. Logout removes exactly those two keys. The signed-in flag
  comes from the stored access token. The request interceptor adds
  `Authorization: Bearer <token>` only when a non-empty token is stored.

The shared React Query client is a class `QueryCache.QueryClient`. It holds a staleness
flag for each query key, and invalidation is prefix matching on keys. `Js` holds the
JavaScript semantics the pages rely on: `substring`, `split(":")[0]`, `parseInt` on
digits, `${n}`, and truthiness. Alerts, navigation targets and HTTP requests are values
that the operations return. The answer to `confirm` and the presence of `window` are
boolean inputs.

The client has no payment step and no cancellation call. The grid posts straight to
`"/api/bookings"`. On success it invalidates every query whose key starts with `"slots"`,
not only the list of the slot it booked, and it does not touch the booking list.

## Model

| member | source | states |
|---|---|---|
| `Js.SplitHead` | components/booking/SlotGrid.tsx:37 | `split(":")[0]` is the prefix before the first `:`, or the whole string; it contains no `:` |
| `Js.NumberToString` | components/booking/SlotGrid.tsx:38 | `${n}` is a non-empty digit string with no leading zero unless `n` is 0 |
| `Js.ParseNumberToString` | components/booking/SlotGrid.tsx:37-38 | `parseInt` gives back the number that `${n}` rendered |
| `Js.IntToStringInjective` | app/page.tsx:88 | two ids with the same rendering are equal |
| `QueryCache.Invalidated` | components/booking/SlotGrid.tsx:50 | invalidation keeps the set of cached keys; a key is stale afterwards iff it was stale or starts with the filter |
| `QueryCache.InvalidateIdempotent` | app/admin/spaces/page.tsx:54 | invalidating twice with the same filter equals invalidating once |
| `QueryCache.SingleFilterMatches` | components/booking/SlotGrid.tsx:50 | a one-element filter matches exactly the keys with that first element |
| `QueryCache.QueryClient.Invalidate` | components/booking/SlotGrid.tsx:50 | `invalidateQueries` sets the client's flags to `Invalidated` of the old flags |
| `SlotGrid.StartTime` | components/booking/SlotGrid.tsx:34-35 | the start time is a prefix of the slot time of length min(5, length) |
| `SlotGrid.EndTimeIsNextHour` | components/booking/SlotGrid.tsx:36-38 | the end time is `h + ":00"`, where `h` is digits with no leading zero and parses to the start hour plus one, with no wrap; the start minutes play no part |
| `SlotGrid.EndTime` | components/booking/SlotGrid.tsx:36-38 | the end time is a digit string with no leading zero, followed by `:00` |
| `SlotGrid.BookingRequestFor` | components/booking/SlotGrid.tsx:40-45 | the request goes to `/api/bookings` with space 1 and date `2026-02-02`; its start time is `StartTime(time)`, the first min(5, length) characters of the slot time; its end time is `EndTime(time)`, whose hour is the slot's hour plus one, with minutes `00` |
| `SlotGrid.FourteenHundred` | components/booking/SlotGrid.tsx:33-38 | `"14:00:00"` gives start `"14:00"` and end `"15:00"` |
| `SlotGrid.EndHourNotPadded` | components/booking/SlotGrid.tsx:37-38 | `"08:00"` ends at `"9:00"` |
| `SlotGrid.EndHourNotWrapped` | components/booking/SlotGrid.tsx:37-38 | `"23:00"` ends at `"24:00"` |
| `SlotGrid.EndMinutesAlwaysZero` | components/booking/SlotGrid.tsx:37-38 | `"09:30:00"` ends at `"10:00"` |
| `SlotGrid.BookingExample` | components/booking/SlotGrid.tsx:17-45 | slot `"14:00:00"` posts `{1, "2026-02-02", "14:00", "15:00"}` to `/api/bookings` |
| `SlotGrid.Selectable` | components/booking/SlotGrid.tsx:65-71 | BOOKED and LOCKED are never selectable; nothing is selectable while a request is pending; AVAILABLE is selectable when nothing is pending |
| `SlotGrid.FailureAlert` | components/booking/SlotGrid.tsx:52-54 | a non-empty backend message is shown after the prefix, else the fixed "already taken" text; this alert never equals the success alert |
| `SlotGrid.Render` | components/booking/SlotGrid.tsx:57-83 | loading placeholder iff loading; otherwise one button per slot, labelled with the start time, enabled iff AVAILABLE and nothing is pending; no buttons when there is no data |
| `SlotGrid.SuccessInvalidatesEverySlotList` | components/booking/SlotGrid.tsx:47-50 | after success, every cached key starting with `"slots"` is stale and every other flag is unchanged |
| `SlotGrid.SuccessInvalidatesOtherDates` | components/booking/SlotGrid.tsx:20-50 | both the grid's own key `["slots", 1, "2026-02-02"]` and another space and date become stale |
| `SlotGrid.SlotGridView.constructor` | components/booking/SlotGrid.tsx:21-32 | the grid starts with the fetched list and no pending request; its own query `["slots", 1, "2026-02-02"]` is cached |
| `SlotGrid.SlotGridView.Loaded` | components/booking/SlotGrid.tsx:21-29 | a (re)fetch replaces the slot list, keeps the pending flag and clears the stale flag of the grid's own query, and only that flag |
| `SlotGrid.SlotGridView.Click` | components/booking/SlotGrid.tsx:68-72 | a request is issued iff the slot is selectable; it is the request for that slot's time; the grid is pending afterwards iff it was pending or a request went out |
| `SlotGrid.SlotGridView.OnSuccess` | components/booking/SlotGrid.tsx:47-51 | success alert; the client's flags become `Invalidated(old, ["slots"])`, so the grid's own query is stale; no longer pending |
| `SlotGrid.SlotGridView.OnError` | components/booking/SlotGrid.tsx:52-54 | failure alert; query client unchanged; no longer pending |
| `BrowserStorage.WithTokens` | app/oauth/callback/page.tsx:12-18 | when both tokens are non-empty, both are stored verbatim under their own names and other keys are kept; otherwise the store is unchanged |
| `BrowserStorage.WithoutTokens` | app/page.tsx:25-27 | exactly `accessToken` and `refreshToken` are removed; every other entry is kept |
| `BrowserStorage.SignedIn` | app/page.tsx:21-22 | signed in iff the `accessToken` key is stored with a non-empty value |
| `BrowserStorage.CallbackSignsIn` | app/oauth/callback/page.tsx:15-25 | a successful callback signs the user in; a rejected one leaves the sign-in state as it was |
| `BrowserStorage.LogoutSignsOut` | app/page.tsx:25-28 | after logout the user is signed out; logging out twice equals once |
| `BrowserStorage.LogoutUndoesSignIn` | app/page.tsx:25-27 | logout after a callback leaves the other keys as they were before the callback |
| `OAuthCallback.HandleCallback` | app/oauth/callback/page.tsx:10-26 | storage becomes `WithTokens(old, params)`; the success alert is shown iff both params are non-empty, the failure alert otherwise; both branches navigate to `/` |
| `Api.NewRequest` | lib/api.ts:4-9 | requests start with base URL `/api`, and the instance's headers are the JSON `Content-Type` |
| `Api.StoredToken` | lib/api.ts:15 | in a browser the token is the stored access token; without `window` there is none |
| `Api.Authorize` | lib/api.ts:18-20 | a non-empty token adds exactly `Authorization: Bearer <token>`; an absent or empty token adds nothing; every other header is kept |
| `Api.InterceptRequest` | lib/api.ts:12-26 | a rejection passes through unchanged; a config comes back with only its headers changed, to `Authorize(headers, StoredToken(...))` |
| `Api.SignedInRequestCarriesBearer` | lib/api.ts:15-20 | after a successful callback, a new browser request carries the instance's JSON content type and `Bearer <access token>` |
| `Api.SignedOutRequestCarriesNothing` | lib/api.ts:15-20 | after logout, and outside a browser, the headers pass through untouched |
| `Api.BearerIffSignedIn` | lib/api.ts:15-20 | a new browser request carries `Authorization` iff the user is signed in |
| `Home.Header` | app/page.tsx:48-69 | signed-in actions (link to `/my`) iff logged in, otherwise the Google sign-in link |
| `Home.SpaceHref` | app/page.tsx:88 | a card links to `/spaces/` followed by the space id as text |
| `Home.SpaceHrefInjective` | app/page.tsx:88 | different space ids link to different `/spaces/{id}` pages |
| `Home.RenderListing` | app/page.tsx:76-100 | empty state iff the list is absent or empty; otherwise one card per space, in order, linking to `/spaces/{id}` |
| `Home.HomePage.constructor` | app/page.tsx:18 | the page starts signed out |
| `Home.HomePage.Mount` | app/page.tsx:20-23 | `isLoggedIn` is true iff the stored access token is non-empty |
| `Home.HomePage.Logout` | app/page.tsx:25-30 | storage becomes `WithoutTokens(old)`; `isLoggedIn` is false; logout alert |
| `AdminSpaces.FormOf` | app/admin/spaces/page.tsx:98-103 | the form copies name, location and type; a missing image URL becomes `""` |
| `AdminSpaces.EditMode` | app/admin/spaces/page.tsx:117-119 | edit mode iff `editingId` is neither null nor 0; an id of 0 is not edit mode |
| `AdminSpaces.CreateRequest` | app/admin/spaces/page.tsx:47-50 | a POST to `/spaces` carrying the form and empty options |
| `AdminSpaces.UpdateRequest` | app/admin/spaces/page.tsx:59-63 | an update is sent iff `editingId` is neither null nor 0; it is a PUT to `/spaces/{id}` carrying the form and empty options |
| `AdminSpaces.SubmitRequest` | app/admin/spaces/page.tsx:156-164 | the visible button sends a PUT iff in edit mode, otherwise a POST to `/spaces`; both carry the form and empty options |
| `AdminSpaces.DeleteOnConfirm` | app/admin/spaces/page.tsx:186-193 | a delete of `/spaces/{id}` is sent iff the confirmation returned true |
| `AdminSpaces.DeleteErrorMessage` | app/admin/spaces/page.tsx:80-87 | a text body is used verbatim, else a non-empty `message`, else the default text |
| `AdminSpaces.DeleteErrorAlert` | app/admin/spaces/page.tsx:80-88 | the alert is `❌ ` followed by the text body, else a non-empty `message`, else the default text |
| `AdminSpaces.HeadingTailOf` | app/admin/spaces/page.tsx:120-124 | after the heading: the cancel button iff `editingId` is truthy, nothing iff it is null, and a stray `"0"` iff it is 0 |
| `AdminSpaces.Render` | app/admin/spaces/page.tsx:107-200 | before mount only a placeholder is shown, whatever the data; the edit heading and update button appear iff `editingId` is truthy; the heading is followed by `HeadingTailOf(editingId)`; the empty message appears iff the list is absent or empty; one row per space carrying its id, name and location, highlighted iff its id equals `editingId` |
| `AdminSpaces.ZeroIdShowsStrayNumber` | app/admin/spaces/page.tsx:119-124 | with `editingId` 0 the page is in create mode like with null, yet differs from it by the stray `"0"` after the heading |
| `AdminSpaces.EditThenSubmitUpdates` | app/admin/spaces/page.tsx:59-62 | after editing a space with a non-zero id, the form sends a PUT for exactly that space with its fields |
| `AdminSpaces.EditIdZeroCreates` | app/admin/spaces/page.tsx:156-164 | editing a space with id 0 leaves create mode, so the form creates instead of updating |
| `AdminSpaces.SuccessInvalidatesOnlyManagedList` | app/admin/spaces/page.tsx:51-55 | the success handlers mark `"admin-spaces"` keys stale and no others |
| `AdminSpaces.AdminSpacesPage.constructor` | app/admin/spaces/page.tsx:21-29 | the page starts not mounted, not editing, with the empty form, and the list query is disabled |
| `AdminSpaces.AdminSpacesPage.ListQueryEnabled` | app/admin/spaces/page.tsx:36-44 | the managed-space query is enabled exactly when the page has mounted |
| `AdminSpaces.AdminSpacesPage.Mount` | app/admin/spaces/page.tsx:32-34 | mounting sets `mounted`, which enables the list query, and keeps the form and `editingId` |
| `AdminSpaces.AdminSpacesPage.ResetForm` | app/admin/spaces/page.tsx:91-94 | the form becomes empty with type `MEETING_ROOM`, and `editingId` becomes null |
| `AdminSpaces.AdminSpacesPage.EditClick` | app/admin/spaces/page.tsx:96-105 | `editingId` becomes the space's id and the form becomes `FormOf(space)` |
| `AdminSpaces.AdminSpacesPage.ChangeName` | app/admin/spaces/page.tsx:133 | only the form's name changes |
| `AdminSpaces.AdminSpacesPage.ChangeLocation` | app/admin/spaces/page.tsx:142 | only the form's location changes |
| `AdminSpaces.AdminSpacesPage.ChangeImageUrl` | app/admin/spaces/page.tsx:152 | only the form's image URL changes |
| `AdminSpaces.AdminSpacesPage.Submit` | app/admin/spaces/page.tsx:156-164 | a PUT to `/spaces/{editingId}` iff `editingId` is truthy, else a POST to `/spaces`, carrying the current form |
| `AdminSpaces.AdminSpacesPage.OnCreateSuccess` | app/admin/spaces/page.tsx:51-55 | create alert; form reset; `"admin-spaces"` invalidated |
| `AdminSpaces.AdminSpacesPage.OnUpdateSuccess` | app/admin/spaces/page.tsx:64-68 | update alert; form reset; `"admin-spaces"` invalidated |
| `AdminSpaces.AdminSpacesPage.OnDeleteSuccess` | app/admin/spaces/page.tsx:76-79 | delete alert; `"admin-spaces"` invalidated; form untouched |
| `AdminSpaces.AdminSpacesPage.OnDeleteError` | app/admin/spaces/page.tsx:80-88 | the alert is `DeleteErrorAlert(body)` and nothing else changes |

## Left out

- Network I/O, React Query's fetching and refetch timing, and async scheduling are not
  modelled. Invalidation only sets staleness flags; a refetch is `SlotGridView.Loaded`.
- `alert`, `confirm`, `router.push` and `window.scrollTo` are not modelled as effects.
  Alerts and navigation targets are returned values. `confirm`'s answer and the presence
  of `window` are inputs. The scroll in `handleEditClick` is dropped.
- `SlotGrid.EndTime` requires the hour field to be a non-empty digit string. `parseInt`
  on other input (`NaN`, leading blanks or signs) is not modelled.
- Axios merges its own default headers into every request, such as
  `Accept: application/json, text/plain, */*`. Those are not modelled. `headers` stands
  for the instance headers set at lib/api.ts:6-8 plus whatever the interceptor adds.
- Request paths are values. How axios joins the base URL `/api` with `"/api/bookings"`
  is not modelled. Neither is the Next.js rewrite in next.config.ts.
- The loading flags (`isLoading`) and the mutations' own pending state in the admin page
  are inputs or are not tracked. Only the grid's pending flag matters to the page.
- An error response's `message` can be a non-string in JavaScript. The model only gives
  it a string or nothing.
- The client has no payment call and no cancellation call, so neither is modelled.
  components/booking/MyBookingList.tsx, app/my/page.tsx, app/layout.tsx and
  app/spaces/[id]/page.tsx only present data and are not modelled. The detail page's one
  link to the model is that it mounts the grid, which ignores the space id it is given.
