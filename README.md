# Event app session and browsing logic, modelled in Dafny

This project models the parts of a React Native event-booking front end whose
behaviour can be stated exactly:

- **The HTTP client's interceptors** (`services/api.ts`). Before each request,
  the stored session token is attached as `Authorization: Bearer <token>`.
  After a failed request, an HTTP 401 deletes the stored token. Every error is
  passed on as a rejection.
- **The sign-in and sign-up screens** (`app/auth/login.tsx`,
  `app/auth/register.tsx`). Each screen has an ordered chain of guards, and the
  first failing guard decides the alert. The demo token is written to the
  `@auth_token` key. The `loading` and `socialLoading` flags are reset on every
  path past the guards.
- **The event list screen** (`app/events/index.tsx`). It holds the paged loads
  (page 1 replaces the list, later pages append, `hasMore` means a full page of
  10), the category and search handlers, infinite scrolling, and the
  client-side filter. The filter is a case-insensitive substring match of the
  query against title or location, combined with a category match in which
  `All` accepts everything.

Each handler is modelled as one sequential step. Outside effects are plain values:

- The key-value store (AsyncStorage) is a class holding a `map<string, string>`.
- Whether a storage write succeeds is a `writeOk` parameter; whether the token removal on a 401 succeeds is a `removeOk` parameter.
- The server's answer to a request is a `Result` parameter, and the handler returns the request it issued.
- Alerts and `router.back()` are returned as a sequence of `Effect` values.

Files, one module each:

- `wrappers.dfy`: `Option` and `Result`.
- `async_storage.dfy`: the store and the `@auth_token` key.
- `api.dfy`: the interceptors.
- `auth_common.dfy`: effects, providers and tokens.
- `login.dfy` and `register.dfy`: the two auth screens.
- `text.dfy`: `toLowerCase`, `includes` and `trim`.
- `subsequences.dfy`: order-preserving subsequences.
- `event_filter.dfy`: the `Event` record and the filter.
- `events_screen.dfy`: the event list screen as a class.

- The request step tests `if (token)` (services/api.ts:19), so an empty stored
  token sends no header.
- On a 401 the response step only deletes the token; the redirect exists only
  as comments (services/api.ts:34, 36).

The three social handlers of each screen differ only in the provider name,
token and messages. They are modelled as one method that takes a `Provider`.
The screen's filter `useEffect` is its own step, `ApplyFilter`. React runs it
after any step that changes `events`, `searchQuery` or `selectedCategory`.
Between a load and that effect, `filteredEvents` holds the unfiltered page,
just as `loadEvents` sets it.

## Model

| member | source | states |
|---|---|---|
| `Api.BearerValue` | services/api.ts:20 | the credential is the prefix `Bearer ` followed by exactly the token |
| `Api.WithAuthorization` | services/api.ts:18-21 | a non-empty token adds `Authorization: Bearer <token>`; a missing or empty token leaves the headers as they were; no other header changes |
| `Api.OnRequest` | services/api.ts:16-23 | the same config object is handed on, its headers updated as `WithAuthorization` says from the stored token; the store is not changed |
| `Api.OnRequestError` | services/api.ts:24-26 | the request-side error handler rejects with the original error |
| `Api.OnResponse` | services/api.ts:31 | successful responses pass through unchanged |
| `Api.ItemsAfterError` | services/api.ts:33-36 | a 401 removes `@auth_token` and nothing else; any other status, or no response at all, leaves the store as it was |
| `Api.OnResponseError` | services/api.ts:32-39 | every error ends in rejection: with the original error, or, when the token removal after a 401 itself rejects, with the storage failure and the store unchanged; otherwise the store becomes `ItemsAfterError` of the old one |
| `Api.UnauthorizedEndsSession` | services/api.ts:33-36 | after a 401 no token is stored, so the request step adds no `Authorization` header: the next request carries one only if its own config already did |
| `Api.OtherErrorsKeepSession` | services/api.ts:33-38 | after any other error, the stored token and the next request's headers are as before |
| `AuthCommon.ProviderToken` | app/auth/login.tsx:54-88 | each provider stores its key followed by `_token_123`, never the demo token |
| `Login.ValidateLogin` | app/auth/login.tsx:23-26 | the guard passes iff both email and password are non-empty; otherwise the message is "Please fill in all fields" |
| `Login.LoginScreen.constructor` | app/auth/login.tsx:16-19 | empty fields, `loading` false, `socialLoading` null |
| `Login.LoginScreen.HandleLogin` | app/auth/login.tsx:22-44 | a failed guard alerts and leaves the store and `loading` untouched; past it, only `@auth_token` is set to `demo_token_123` (when the write succeeds), the effect is navigation back or the failure alert, and `loading` ends false |
| `Login.LoginScreen.HandleSocialSignIn` | app/auth/login.tsx:46-97 | the provider's token is written to `@auth_token` and nothing else; success alert then navigation, or the provider's failure alert; `socialLoading` ends null |
| `Login.SignedInRequestsCarryToken` | services/api.ts:18-21 | after sign-in stores its token, the request step sends `Authorization: Bearer demo_token_123` |
| `Register.ValidateRegistration` | app/auth/register.tsx:26-39 | passes iff all four fields are non-empty, the passwords are equal and the length is at least 6; each of the three messages is returned exactly when its guard is the first to fail |
| `Register.RegisteredCredentialsPassLogin` | app/auth/register.tsx:26-39 | credentials accepted by sign-up pass the sign-in guard |
| `Register.RegisterScreen.constructor` | app/auth/register.tsx:17-22 | empty fields, `loading` false, `socialLoading` null |
| `Register.RegisterScreen.HandleRegister` | app/auth/register.tsx:25-54 | a failing guard alerts with its own message and touches nothing else; past the guards, only `@auth_token` is set to `demo_token_123` (when the write succeeds) and `loading` ends false |
| `Register.RegisterScreen.HandleSocialSignUp` | app/auth/register.tsx:56-96 | the provider's token is written to `@auth_token` and nothing else; success alert then navigation, or the provider's failure alert; `socialLoading` ends null |
| `Text.LowerChar` | app/events/index.tsx:65-66 | the result is never an upper-case ASCII letter; upper-case letters move by 32, everything else is kept |
| `Text.Lower` | app/events/index.tsx:65-66 | same length, every character lower-cased in place |
| `Text.LowerIdempotent` | app/events/index.tsx:65-66 | lower-casing twice equals lower-casing once |
| `Text.IncludesIff` | app/events/index.tsx:65-66 | `includes` is true exactly when the needle occurs at some position of the string |
| `Text.IncludesEmpty` | app/events/index.tsx:65-66 | every string includes the empty string |
| `Text.TrimStartSpec` | app/events/index.tsx:82 | `TrimStart` keeps a suffix of the input and the dropped prefix is all whitespace; the result is empty iff the input is all whitespace, and otherwise starts with a non-whitespace character |
| `Text.TrimEndSpec` | app/events/index.tsx:82 | `TrimEnd` keeps a prefix of the input and the dropped suffix is all whitespace; the result is empty iff the input is all whitespace, and otherwise ends with a non-whitespace character |
| `Text.TrimSpec` | app/events/index.tsx:82 | `trim` yields a contiguous slice of the input with only whitespace removed on either side; it is empty iff the input is all whitespace, and a non-empty result starts and ends with a non-whitespace character |
| `Text.TrimEmptyIffBlank` | app/events/index.tsx:82 | `!searchQuery.trim()` holds exactly when the query is all whitespace |
| `EventFilter.FilterEvents` | app/events/index.tsx:64-70 | the filtered list is never longer than the loaded one |
| `EventFilter.FilterKeepsExactlyMatches` | app/events/index.tsx:64-70 | an event is kept iff it was loaded and its title or location contains the query ignoring case and the category is `All` or equals its own |
| `EventFilter.FilterIsSubsequence` | app/events/index.tsx:64-70 | the filtered list is an order-preserving subsequence of the loaded events |
| `EventFilter.SearchMatchIff` | app/events/index.tsx:65-66 | the search matches iff the lower-cased query occurs in the lower-cased title or the lower-cased location |
| `EventFilter.SearchIgnoresQueryCase` | app/events/index.tsx:65-66 | a query and its lower-cased form keep the same events |
| `EventFilter.UnfilteredKeepsAll` | app/events/index.tsx:65-68 | with an empty query and category `All`, every event is kept, in order |
| `EventFilter.FilterAppend` | app/events/index.tsx:64-70 | filtering a list with a page appended equals filtering each part and concatenating |
| `Events.PageRequest` | app/events/index.tsx:38-39 | the request always has `page = pageNum` and `limit = 10`; it carries a category exactly when the category is not `All`, and then it is that category |
| `Events.LoadSetsHasMore` | app/events/index.tsx:51-55 | a failed load changes no list state; after a successful one, `hasMore` holds iff the page had exactly 10 events |
| `Events.LoadReplacesOrAppends` | app/events/index.tsx:43-48 | page 1 replaces both lists with the fetched page; any other page keeps the old lists as prefixes followed by the page |
| `Events.LoadKeepsFilteredInside` | app/events/index.tsx:43-48 | if the shown list was a subsequence of the loaded one, it still is after any load |
| `Events.EventsScreen.constructor` | app/events/index.tsx:28-34 | empty lists, `loading` true, empty query, category `All`, page 1, `hasMore` true |
| `Events.EventsScreen.LoadEvents` | app/events/index.tsx:36-57 | issues `PageRequest(pageNum, category)`, moves the list state as `AfterLoad` says and ends with `loading` false on success and failure; the class invariant holds |
| `Events.EventsScreen.Mount` | app/events/index.tsx:59-61 | on mount, page 1 of the selected category is loaded |
| `Events.EventsScreen.ApplyFilter` | app/events/index.tsx:63-72 | the shown list becomes exactly the filtered loaded events |
| `Events.EventsScreen.ChangeSearchText` | app/events/index.tsx:124 | a new search text is stored and the shown list is refiltered with it |
| `Events.EventsScreen.HandleCategoryChange` | app/events/index.tsx:74-79 | the category becomes the chosen one, `page` becomes 1, page 1 of that category is requested and merged, and `loading` ends false |
| `Events.EventsScreen.HandleSearch` | app/events/index.tsx:81-94 | a blank query reloads page 1 of the selected category; otherwise the untrimmed query goes to the search endpoint, a successful answer replaces both lists, a failure keeps them, and `page`, `hasMore` and `loading` are untouched |
| `Events.EventsScreen.ShowSearchResults` | app/events/index.tsx:87-93 | a successful search answer becomes both the loaded and the shown list; a failed one leaves both as they were |
| `Events.EventsScreen.LoadMore` | app/events/index.tsx:96-102 | unless `hasMore && !loading`, nothing changes and nothing is requested; otherwise `page` grows by exactly 1 and that page is requested and appended |

## Left out

- The screens' JSX, styles and layout are not modelled, nor are the navbar, the button and card components, the app layout and the styling configuration. They carry no statable behaviour.
- The `CategoryFilter` component is not part of this model. Only the category it reports to `handleCategoryChange` is.
- The service wrappers (`services/events.service.ts`, `services/booking.service.ts`, `services/auth.service.ts`) each forward one call to the client. Their answers enter the model as `Result` parameters.
- The Google OAuth hook (`utils/googleSignIn.ts`) is a network call and is not modelled.
- The client's fixed configuration (base URL, 10-second timeout, JSON content type) is not modelled.
- Promises, `setTimeout` delays and React's batched, deferred state updates are not modelled. Each handler runs as one step, so a load is never observed in flight. `loading` is observed as true only before the first load and during a handler. The `!loading` half of `loadMore`'s guard therefore only matters in the initial state.
- Failures are reduced to what the code distinguishes:
  - A storage read that rejects inside the request interceptor is not modelled.
  - A `setItem` that rejects is the `writeOk` parameter of the screen handlers; a `removeItem` that rejects is the `removeOk` parameter of `Api.OnResponseError`.
  - The intermediate `socialLoading` value and `loading = true` are overwritten within the same step. Only their final values are stated.
- `Alert.alert` and `router.back()` are returned as `Effect` values, and the `console.error` logging is not modelled.
- `Text.Lower`: lower-cases only ASCII letters, where `toLowerCase` applies full Unicode case mapping.
- Trimming removes exactly ECMAScript's WhiteSpace and LineTerminator characters as of Unicode 15.
- String lengths (`password.length`) are sequence lengths of characters, not UTF-16 code units.
- The AsyncStorage library is not part of this model. It is represented by the `AsyncStorage.Store` class over a map.
