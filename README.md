# Quotes client: a Dafny model of its sequential logic

The application is a browser client for a feed of quotes that need a one-time code to use. A user logs in with a username and a one-time code. They can then scroll a paged gallery of quote cards, and create a quote by uploading an image and writing a caption. This project models the parts of the client that hold logic:

- **Session store** (`Storage`): the two keys `token` and `username` in the browser's key/value storage. This is a `SessionStore` class over a `map<string, string>`. Pure functions (`Read`, `WithToken`, `WithUsername`, `Cleared`) specify what each method does to the map.
- **Request construction** (`Api`): each of the four remote calls is a request descriptor: method, URL, query parameters, headers and body. It also models how `getQuotes` coerces the response body.
- **Session gates and routes** (`RouteGuard`, `App`): the stand-alone `ProtectedRoute` component, the application's inline gate (which also renders the navigation bar), and the route table.
- **Login** (`Login`): the login form as a class. `HandleLogin` writes the session on success only and says where it navigates.
- **Quote feed pager** (`QuoteList`): the four state fields `quotes`, `offset`, `hasMore` and `loading`.
  - The `QuoteListPage` class holds them, and its methods are proved against pure transition functions.
  - Each fetch is split into a begin step (the guard, then `loading` is set) and a settle step (the awaited result, then `loading` is cleared).
  - Lemmas about whole runs replay a mount followed by any sequence of events: settlements and Load More clicks.
- **Quote composer** (`CreateQuote`): the ordered file checks and the upload outcome, applied to the form state (`text`, `mediaUrl`, `error`). Submission is guarded on `mediaUrl`. The `CreateQuotePage` class methods are proved against the pure functions `SelectFile` and `Submit`.

The network, the browser's image decoder and the clock are not modelled. Each is an input of the handler that awaits it:
- a `Settled<T>` value, `Resolved(v)` or `Rejected`, for a remote call;
- an `Option<Decoded>` for the decoded image size, where `None` means the image never loads.

Some JavaScript details are modelled explicitly:
- `getItem(k) || ''` reads a missing key as `""`.
- `setItem('token', undefined)` stores the text `"undefined"`.
- Reading a property of a `null` or `undefined` response body throws, so the call's `catch` branch runs.
- An omitted `getQuotes` argument (`None`) takes its default value.

Four consequences of the code are worth stating:
- **Offset.** `offset` moves only when Load More is clicked (`src/pages/QuoteList.tsx:37-39`), never when a fetch succeeds. `OffsetCountsLoadMores` proves that `offset` is 20 × the number of clicks, whatever the fetches return.
- **Retry.** A failed fetch is not retried at its window. The only thing that fetches again is the `offset` effect, and the click moves `offset` on by 20 first. `FailedWindowIsSkipped` shows that offset 0 is never requested again after the first fetch fails.
- **Load More is always accepted.** In the run model a Load More click can happen in any state, including while the button is disabled (`loading`) or hidden (`!hasMore`). This over-approximates the clicks the page allows, so every lemma about runs also holds for the clicks a user can actually make. A click on a hidden button moves `offset` but sends no request, because the fetch guard fails.
- **Which gate is used.** The route table uses the inline gate in `src/App.tsx`. The stand-alone component in `src/components/ProtectedRoute.tsx` is not referenced by the route table. Both are modelled, and `GatesAgree` proves that they admit the same sessions.

## Model

| member | source | states |
|---|---|---|
| Storage.Read | src/utils/storage.ts:5-15 | A read gives `""` exactly when the key is missing or holds `""`. Otherwise it gives the stored value. |
| Storage.Token | src/utils/storage.ts:5-7 | `getToken()` is falsy exactly when no non-empty token is stored. |
| Storage.Username | src/utils/storage.ts:13-15 | `getUsername()` is falsy exactly when no non-empty username is stored. |
| Storage.WithToken | src/utils/storage.ts:1-3 | After `setToken(t)` the token reads as `t`. The username and every other key are unchanged. |
| Storage.WithUsername | src/utils/storage.ts:9-11 | After `setUsername(u)` the username reads as `u`. The token and every other key are unchanged. |
| Storage.Cleared | src/utils/storage.ts:17-20 | `clearStorage` removes both keys, so both getters give `""`. Every other key is unchanged. |
| Storage.ClearIdempotent | src/utils/storage.ts:17-20 | Clearing twice has the same effect as clearing once. |
| Storage.MissingReadsAsEmpty | src/utils/storage.ts:5-7 | A removed key and a key holding `""` read the same. |
| Storage.WriteThenRead | src/utils/storage.ts:1-15 | Writing the token and the username, in either order, reads both back: each write leaves the other key alone. |
| Storage.SessionStore.SetToken | src/utils/storage.ts:1-3 | The map becomes `WithToken` of the old map. |
| Storage.SessionStore.GetToken | src/utils/storage.ts:5-7 | Returns the stored token whenever the key is present (a stored `""` reads as `""`), and `""` when the key is missing. |
| Storage.SessionStore.SetUsername | src/utils/storage.ts:9-11 | The map becomes `WithUsername` of the old map. |
| Storage.SessionStore.GetUsername | src/utils/storage.ts:13-15 | Returns the stored username whenever the key is present (a stored `""` reads as `""`), and `""` when the key is missing. |
| Storage.SessionStore.ClearStorage | src/utils/storage.ts:17-20 | The two `removeItem` calls leave the map equal to `Cleared` of the old map. |
| Api.Lookup | src/services/api.ts:24-27 | A helper of the model, not a source function: reading a header from a descriptor's header object. It gives the value of the first header with that name, and `None` iff no header has it. |
| Api.Login | src/services/api.ts:7-9 | POST to `BASE_URL/login` with body `{username, otp}` and no Authorization header. |
| Api.UploadMedia | src/services/api.ts:11-18 | POST to the media URL: a multipart form with the single field `file`, the multipart content type, and no Authorization. |
| Api.CreateQuote | src/services/api.ts:20-30 | POST to `BASE_URL/postQuote` with body `{text, mediaUrl}`. Authorization is the stored token verbatim, and the content type is JSON. |
| Api.GetQuotes | src/services/api.ts:32-37 | GET `BASE_URL/getQuotes` with params `limit` and `offset`, which default to 20 and 0. Authorization is the stored token verbatim. |
| Api.GetQuotesResult | src/services/api.ts:34-39 | Gives the array in `data` when there is one, and `[]` when there is not. The call rejects when the request fails or the body is null. |
| Api.CredentialOnlyOnQuoteCalls | src/services/api.ts:7-37 | Only `createQuote` and `getQuotes` carry a credential. Without a session that credential is `""`. |
| RouteGuard.Admits | src/components/ProtectedRoute.tsx:10-11 | The gate admits exactly when the token key is present and holds a non-empty string. |
| RouteGuard.ProtectedRoute | src/components/ProtectedRoute.tsx:9-12 | Children are rendered, unwrapped, iff the stored token is non-empty. Otherwise the gate redirects to `/`. |
| RouteGuard.GateReadsOnlyToken | src/components/ProtectedRoute.tsx:10 | The gate depends on the current stored token alone. Nothing is cached, so a change shows at the next evaluation. |
| RouteGuard.ClearThenSet | src/components/ProtectedRoute.tsx:10-11 | After `clearStorage` the gate redirects. After setting a non-empty token it admits. |
| App.ProtectedRoute | src/App.tsx:15-27 | Renders `Navbar` then the child iff the gate admits. Otherwise it redirects to `/`. |
| App.MatchRouteMeaning | src/App.tsx:33-53 | The router's matcher accepts a pathname exactly when it starts with the route path up to ASCII case and continues with slashes only. |
| App.Route | src/App.tsx:29-55 | A pathname matches a route iff it is one of `/`, `/quotes`, `/create-quote` up to ASCII case and trailing slashes; an empty pathname counts as `/`. `/` renders Login with no gate. `/quotes` and `/create-quote` go through the gate. |
| App.RoutesExclusive | src/App.tsx:33-53 | No pathname matches two routes, so the order of the table does not matter. |
| App.CaseAndTrailingSlashIgnored | src/App.tsx:35-53 | `/Quotes/` reaches the feed and `/CREATE-QUOTE//` the composer. |
| App.EmptyAndSlashesAreRoot | src/App.tsx:33 | The empty pathname and `//` reach the login page. |
| App.LongerPathUnmatched | src/App.tsx:35-42 | `/quotes/1` matches no route. |
| App.GatesAgree | src/App.tsx:18-26 | The inline gate and the stand-alone gate admit the same sessions. The inline one adds `Navbar` in front of the child. |
| App.PagesBehindGate | src/App.tsx:35-50 | The feed or composer page is rendered only with a non-empty token, and never at `/`. |
| App.RedirectLandsOnLogin | src/App.tsx:24-34 | A redirect happens only without a token, and it lands on the Login page. |
| Login.Succeeded | src/pages/Login.tsx:15-20 | The login succeeds when the call resolves with a non-null body; a rejected call or a null body goes to the `catch` branch. |
| Login.StoredToken | src/pages/Login.tsx:17 | A returned token is stored as it is. A missing one is stored as the text `"undefined"`. |
| Login.AfterLogin | src/pages/Login.tsx:15-22 | On success the token from the response and the username from the form are written, and nothing else changes. On failure the storage is untouched. |
| Login.LoginDestination | src/pages/Login.tsx:17-22 | Navigates to `/create-quote` exactly on success, and nowhere on failure. |
| Login.LoginOpensGate | src/pages/Login.tsx:17-19 | After a successful login the gate admits iff the server did not return an empty token. When it admits, the composer route renders. |
| Login.LoginPage.constructor | src/pages/Login.tsx:9-10 | Both form fields start empty. |
| Login.LoginPage.SetUsernameInput | src/pages/Login.tsx:9 | Sets the username field and leaves the code unchanged. |
| Login.LoginPage.SetOtp | src/pages/Login.tsx:10 | Sets the code field and leaves the username unchanged. |
| Login.LoginPage.HandleLogin | src/pages/Login.tsx:13-23 | Calls `login` with the current field values. It then writes the storage as `AfterLogin` says and navigates as `LoginDestination` says. |
| QuoteList.Initial | src/pages/QuoteList.tsx:7-10 | The state starts with no quotes, offset 0, `hasMore` and not loading. |
| QuoteList.CanFetch | src/pages/QuoteList.tsx:18 | The fetch guard: more may come and no fetch is in flight. |
| QuoteList.BeginFetch | src/pages/QuoteList.tsx:17-20 | Does nothing unless `hasMore && !loading`. Otherwise only `loading` becomes true. |
| QuoteList.FetchRequest | src/pages/QuoteList.tsx:22 | A request is sent iff the guard holds, asking for 20 records at the current offset. |
| QuoteList.SettleFetch | src/pages/QuoteList.tsx:21-34 | An empty page clears `hasMore` and leaves the quotes alone. A non-empty page is appended in order. A failure changes nothing. `loading` is always cleared, `offset` never changes, and `hasMore` is never set back to true. |
| QuoteList.AfterLoadMore | src/pages/QuoteList.tsx:37-39 | `offset` grows by exactly 20, and nothing else changes. |
| QuoteList.Mounted | src/pages/QuoteList.tsx:13-15 | Mounting issues one fetch, at offset 0. |
| QuoteList.ShowsEmptyMessage | src/pages/QuoteList.tsx:50 | The empty message shows when there are no quotes and no fetch is in flight. |
| QuoteList.ShowsLoadMore | src/pages/QuoteList.tsx:74 | The Load More button is present while more may come. |
| QuoteList.LoadMoreDisabled | src/pages/QuoteList.tsx:78 | The button is disabled while a fetch is in flight. |
| QuoteList.Step | src/pages/QuoteList.tsx:13-39 | One event: a settlement is applied only while a fetch is in flight; a Load More click moves the offset and the effect then runs the begin step. |
| QuoteList.StepKeepsGood | src/pages/QuoteList.tsx:17-39 | Each event keeps the run invariant. |
| QuoteList.ReplayKeepsGood | src/pages/QuoteList.tsx:17-39 | Any sequence of events keeps the run invariant. An ended feed is not loading. Only the last request can be unsettled. Requests go out at increasing offsets, none beyond the current one. |
| QuoteList.ReplayAppend | src/pages/QuoteList.tsx:13-39 | Replaying two sequences of events one after the other is the same as replaying them joined. |
| QuoteList.Round | src/pages/QuoteList.tsx:22-39 | After a non-empty page and a Load More click, the page is appended and the next window is in flight. |
| QuoteList.AtMostOneInFlight | src/pages/QuoteList.tsx:18-20 | From mount, every request except the one in flight has settled. Offsets requested strictly increase. |
| QuoteList.OffsetCountsLoadMores | src/pages/QuoteList.tsx:37-39 | `offset` grows by 20 for each Load More click, whatever the fetch outcomes. |
| QuoteList.OffsetFromMount | src/pages/QuoteList.tsx:8-15 | From mount, `offset` is 20 × the number of Load More clicks. |
| QuoteList.RequestsOnlyGrow | src/pages/QuoteList.tsx:17-34 | Requests already sent stay in the log, and the count of settled requests never decreases. |
| QuoteList.ExhaustedIsTerminal | src/pages/QuoteList.tsx:18-25 | Once `hasMore` is false, no event changes the quotes or sends a request. `hasMore` stays false and the button stays hidden. |
| QuoteList.PagesAccumulateInOrder | src/pages/QuoteList.tsx:22-39 | When non-empty pages arrive one per window, the quotes are the pages joined in arrival order. One request goes out per page, at windows 20 apart. |
| QuoteList.TwoPagesThenEmpty | src/pages/QuoteList.tsx:13-39 | Pages of 20, 20 and then an empty page leave 40 quotes, `hasMore` false, and requests at 0, 20 and 40 only, whatever follows. |
| QuoteList.NonArrayBodyEndsFeed | src/services/api.ts:34-39 | A successful response whose `data` is not an array ends the feed: the quotes are kept, `hasMore` becomes false, and no later event sends a request or changes the quotes. |
| QuoteList.FailedWindowIsSkipped | src/pages/QuoteList.tsx:29-39 | After a failed first fetch, Load More requests offset 20, and offset 0 is never requested again. |
| QuoteList.RenderConditions | src/pages/QuoteList.tsx:50-84 | In every reachable state, a hidden Load More button is never a disabled one. When the button is hidden, the empty message shows iff there are no quotes. |
| QuoteList.EmptyFeedMessage | src/pages/QuoteList.tsx:50-84 | While loading there is no empty message and the button is disabled. An empty first page shows the message and hides the button. A failed first fetch shows the message and an enabled button. |
| QuoteList.QuoteListPage.constructor | src/pages/QuoteList.tsx:7-10 | The fields start in the initial state. |
| QuoteList.QuoteListPage.FetchQuotes | src/pages/QuoteList.tsx:17-22 | Performs the begin step and returns the request sent, if any. |
| QuoteList.QuoteListPage.FetchSettled | src/pages/QuoteList.tsx:23-34 | Performs the settle step for the settled result. |
| QuoteList.QuoteListPage.LoadMore | src/pages/QuoteList.tsx:37-39 | `offset` grows by 20. |
| QuoteList.QuoteListPage.OnLoadMoreClick | src/pages/QuoteList.tsx:13-39 | `loadMore`, then the effect's begin step at the new offset. |
| CreateQuote.FileCheck | src/pages/CreateQuote.tsx:116-124 | The checks before decoding pass iff the size is at most 5242880 bytes and the type is JPEG, PNG or GIF; a failure reports the size error first. |
| CreateQuote.DimensionCheck | src/pages/CreateQuote.tsx:130-132 | The check after decoding passes iff the image is at most 1920 wide and 1080 high; a failure reports the dimensions error. |
| CreateQuote.Validate | src/pages/CreateQuote.tsx:116-132 | Accepts iff size ≤ 5 MiB, the type is one of the three allowed, and the image is at most 1920×1080. Otherwise it reports the first failing check, in the order size, type, dimensions. |
| CreateQuote.Boundaries | src/pages/CreateQuote.tsx:13-14 | Exactly 5 MiB and exactly 1920×1080 pass. One byte or one pixel more fails, and so does another image type. |
| CreateQuote.SizeReportedFirst | src/pages/CreateQuote.tsx:116-118 | A 6 MiB PNG at 4000×3000 reports the size error. |
| CreateQuote.UploadVerdictOf | src/pages/CreateQuote.tsx:135-150 | Gives the url, exactly the value of `data[0].url`, when that is truthy, a missing url when it is not, and a failure when the call rejects or the body is null. |
| CreateQuote.SelectFile | src/pages/CreateQuote.tsx:110-152 | No file changes nothing. A file clears the error first. A size or type failure sets its message and sends nothing, whether or not the image would decode. An upload is sent iff every check passes. `mediaUrl` changes only to the url the upload response carries in `data[0].url`. |
| CreateQuote.RejectedBeforeDecoding | src/pages/CreateQuote.tsx:116-124 | A file too large or of a wrong type is rejected with its message before decoding, whatever the decoder would have returned; no upload is sent and `mediaUrl` is kept. |
| CreateQuote.RejectedFileKeepsMedia | src/pages/CreateQuote.tsx:116-133 | A decoded file that fails any check sets the first failing check's message, sends no upload and keeps `mediaUrl`. |
| CreateQuote.AcceptedFileUploads | src/pages/CreateQuote.tsx:135-150 | The three upload outcomes set `mediaUrl`, "Failed to get media URL" or "File upload failed". `mediaUrl` is kept in both failure cases. |
| CreateQuote.Submit | src/pages/CreateQuote.tsx:154-169 | Without a `mediaUrl` it sets "Please upload an image first" and sends nothing. Otherwise it sends `createQuote(text, mediaUrl)`. Success navigates to `/quotes`. Failure sets "Quote creation failed" and keeps the text and `mediaUrl`. |
| CreateQuote.UploadThenSubmit | src/pages/CreateQuote.tsx:140-163 | After a successful upload, submitting sends that url with the current text. |
| CreateQuote.ReturnedUrlIsStoredAndSubmitted | src/pages/CreateQuote.tsx:140-163 | For a valid file whose upload returns a non-empty url `u`, the form stores exactly `u` with the error cleared, and a submission sends `u` with the current text. |
| CreateQuote.CreateQuotePage.constructor | src/pages/CreateQuote.tsx:105-107 | All three fields start empty. |
| CreateQuote.CreateQuotePage.SetText | src/pages/CreateQuote.tsx:182 | Sets the text and nothing else. |
| CreateQuote.CreateQuotePage.HandleFileUpload | src/pages/CreateQuote.tsx:110-152 | The imperative handler produces the new form and the upload request that `SelectFile` gives. |
| CreateQuote.CreateQuotePage.HandleCreateQuote | src/pages/CreateQuote.tsx:154-169 | The imperative handler produces the form, request and navigation that `Submit` gives. |

## Left out

- Transport (axios), the remote API and the media-upload service: each response is an input of the handler that awaits it. No retry, timeout or status-code semantics.
- Browser image decoding (`new Image`, `URL.createObjectURL`, `onload`): the decoded width and height are an input. An image that never loads is `None`; a file that passed the size and type checks then does nothing after the error is cleared.
- React scheduling: effects, batched state updates, stale closures in `fetchQuotes` and interleaving of awaits. Each handler step is atomic, and a fetch is a begin step followed later by its settle step.
- Presentation: JSX, styles, hover handlers, the embedded CSS, date formatting, `alert` and `console`.
- The navigation bar's resize listener, its 720-pixel mobile threshold and its menu toggle, which are presentation. Its logout, and the logout button's, is `clearStorage` followed by navigation to `/`, which `Storage.Cleared` and `App.Route` cover.
- Widget-level constraints: `required`, the 500-character `maxLength` of the text and the four OTP inputs. The handlers do not check them.
- The quote record's type definition file is not part of this model. `Api.Quote` carries the fields the feed renders (`text`, `mediaUrl`, `username`, `created_at`, at `src/pages/QuoteList.tsx:63-68`), and the feed otherwise treats records as opaque.
- App.Route: the router's percent-decoding of the pathname and its basename handling are not modelled; the application sets no basename, and the paths are taken as already decoded.
- A response whose pieces have other JavaScript types than modelled (a token that is a number, a `url` that is an object) is not modelled. Tokens and urls are strings or absent.
