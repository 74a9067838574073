# RepayKaro portal — a Dafny model of its core

RepayKaro is a Next.js portal with two audiences. Customers sign in with a phone
number and a one-time password (OTP). They then see their loan dashboard and
scratch cards, and upload payment screenshots. Administrators sign in with email
and password and page through the customer list.

This project models the parts of the portal that decide things:

- the edge middleware that gates `/user` and `/admin` pages on the `token` cookie,
  together with its path matcher;
- the four API routes it is built on:
  - `/api/login`, the OTP login (POST) and the session lookup (GET);
  - `/api/admin/login`;
  - `/api/scratch-cards`;
  - `/api/admin/customers/list`;
- the client session context (`AuthContext`);
- the pagination bar and the admin customer table;
- the admin and customer sign-in forms;
- the upload dialog, the scratch-card grid and the dashboard frame with its
  screenshot list.

How things are represented:

- **Backends and browser APIs are parameters.** A backend call's outcome is a
  `Call<T>`, either `Threw(message)` or `Replied(value)`. A route handler
  returns the `Response` envelope it builds (status, `success`, `message`,
  `data`, cookie) together with the list of backend calls it made. Because the
  calls are listed, "no backend call happens" can be stated and proved.
- **JavaScript truthiness is explicit.** An optional string is truthy when it is
  present and non-empty (`Http.Truthy`). `a || b` on strings is `Http.Or`.
- **Route handlers and pure helpers are Dafny functions.** React components that
  keep state are classes. Their fields are the component's `useState` values,
  and each event handler is a method that states the new state.

Module layout: `Wrappers` and `Http` are shared. Then there is one module per
source file: `Middleware`, `LoginRoute`, `AdminLoginRoute`, `ScratchCardsRoute`,
`CustomerListRoute`, `AuthContext`, `Pagination`, `BasicTable`, `AdminLoginForm`,
`SignInForm`, `UploadModal`, `ScratchCards` and `DashboardLayout`.

## Model

| member | source | states |
|---|---|---|
| Http.Utf16Length | src/components/auth/AdminLoginForm.tsx:40 | JavaScript's `length` of a string (used by both forms' length rules) is at least its character count and at most twice it. |
| Http.Utf16LengthOfBmp | src/components/auth/SignInForm.tsx:42 | For text within the Basic Multilingual Plane, such as digits, `length` equals the character count. |
| Http.Utf16LengthOfAstral | src/components/auth/SignInForm.tsx:88 | Each character beyond U+FFFF counts twice, so `length` is twice the character count of such text. |
| Middleware.Gate | src/middleware.ts:7-36 | There are only two kinds of redirect. One goes to the dashboard; it happens only on a sign-in page and only with a session. The other goes to `/signin` with `callbackUrl` set to the pathname; it happens only on a protected path and only without a session. |
| Middleware.SignedInEntryGoesToDashboard | src/middleware.ts:18-20 | `/signin` or `/auth/signin` with a `token` cookie redirects to `/user/dashboard`. |
| Middleware.AnonymousProtectedGoesToSignIn | src/middleware.ts:15-27 | A path under `/user` or `/admin` without a token redirects to `/signin`, with `callbackUrl` set to the original pathname. |
| Middleware.PassThroughExactly | src/middleware.ts:18-35 | The request passes through if and only if neither redirect condition holds. |
| Middleware.PresenceOnly | src/middleware.ts:8-23 | Two tokens that are both present, or both absent, give the same decision. The token's value is never read. |
| Middleware.AdminNeedsOnlyCustomerToken | src/middleware.ts:8-33 | `/admin` paths are gated by the customer `token` alone. The admin branch adds nothing. |
| Middleware.PrefixNotSegment | src/middleware.ts:15 | Protection is a plain string-prefix test, so `/users` and `/adminx` are gated as well. |
| Middleware.UnderArea | src/middleware.ts:46-48 | An area pattern selects the bare area path and every path below it. |
| Middleware.UnderAreaStartsWith | src/middleware.ts:46-48 | Every path an area pattern selects starts with the area's text. |
| Middleware.UnderAreaCaught | src/middleware.ts:46-49 | A path under an area whose name does not begin with `_`, `f` or `ap` is also selected by the catch-all. |
| Middleware.CatchAll | src/middleware.ts:49 | The catch-all selects a path starting with `/` whose remainder does not begin with an excluded prefix. |
| Middleware.FaviconDotIsWildcard | src/middleware.ts:49 | The `.` in `favicon.ico` is a regular-expression wildcard: `favicon` + any non-line-terminator + `ico` is excluded, so `/faviconXico` is never gated. |
| Middleware.Matches | src/middleware.ts:46-49 | A path is selected when one of the four matcher entries selects it. |
| Middleware.Intercept | src/middleware.ts:38-51 | A request the matcher does not select passes through. A selected request gets the gate's decision. |
| Middleware.AreaPatternsSubsumed | src/middleware.ts:46-49 | The matcher selects a path if and only if the catch-all pattern does. The `/user`, `/admin` and `/auth` entries add nothing. |
| Middleware.ExcludedPathsPassThrough | src/middleware.ts:49 | Paths whose remainder starts with `api`, `_next/static`, `_next/image` or `favicon` + any character but a line terminator + `ico` are never redirected. |
| LoginRoute.CustomerOf | src/app/api/login/route.ts:66-74 | The body's `customer` is the client's `customer` field when it is truthy, and `false` otherwise. |
| LoginRoute.Post | src/app/api/login/route.ts:5-97 | The `token` cookie is set exactly when validation returns a token and the profile fetch succeeds. It then holds that token for 30 days, and the body carries phone, customer and token. `success` holds exactly on status 200. Without an OTP, the only backend call is the send-OTP call, and the reply is 200 `success` 'OTP sent successfully' exactly when that call is ok and successful. |
| LoginRoute.Get | src/app/api/login/route.ts:100-138 | No token gives 401 'Unauthorized. No token found.' with no backend call. A token the backend rejects gives 401 'Failed to fetch user info'. A thrown profile fetch gives 500 'Internal server error'. Otherwise the response carries the client record. |
| LoginRoute.SendOtpFailure | src/app/api/login/route.ts:19-24 | Phase 1 returns 400 when the backend reply is not ok or reports failure. The message is the backend's, or 'Failed to send OTP'. |
| LoginRoute.ValidationFailureIgnoresOk | src/app/api/login/route.ts:41-46 | A validation reply without `success` or `jwtToken` gives 401 and no cookie, whatever its HTTP status. |
| LoginRoute.ProfileFailureNoSession | src/app/api/login/route.ts:59-64 | A failed profile fetch after a good validation gives 500 'Failed to fetch user details' and no cookie. |
| LoginRoute.ThrownIsGeneric500 | src/app/api/login/route.ts:15-96 | An exception at any of the three backend calls (send OTP, validate OTP, profile fetch) gives 500 with the generic message and no cookie. |
| LoginRoute.ProfileThrownIsGeneric500 | src/app/api/login/route.ts:49-96 | A profile fetch that throws after a good validation gives the generic 500, not 'Failed to fetch user details', after exactly the validation and profile calls. |
| LoginRoute.GetRejected | src/app/api/login/route.ts:119-124 | A token the backend rejects gives 401 'Failed to fetch user info'. |
| AdminLoginRoute.Post | src/app/api/admin/login/route.ts:8-55 | The `admin_token` cookie is set exactly when the backend reports success with a non-empty `jwtToken`. The cookie holds that token for 30 days, and the body carries email, name and the same token. |
| AdminLoginRoute.Get | src/app/api/admin/login/route.ts:58-74 | The status is 401 if and only if the `admin_token` cookie is absent. Otherwise the body is `isAdmin: true`, without any backend check. |
| AdminLoginRoute.RejectedLogin | src/app/api/admin/login/route.ts:17-22 | A rejected login gives 401 with the backend's message, or 'Login failed'. |
| AdminLoginRoute.ThrownIsGeneric500 | src/app/api/admin/login/route.ts:48-54 | An exception gives 500 with the generic message. |
| ScratchCardsRoute.Get | src/app/api/scratch-cards/route.ts:7-86 | No token gives 401 'Unauthorized. No token found.' with no backend call. `success` holds exactly when the backend succeeds, and then the data is the backend's coupon list. No cookie is ever set. |
| ScratchCardsRoute.SecondTokenCheckUnreachable | src/app/api/scratch-cards/route.ts:21-23 | The second missing-token check never fires: its bare 'Unauthorized' message is never produced. |
| ScratchCardsRoute.BackendFailures | src/app/api/scratch-cards/route.ts:34-39 | A backend failure gives 401 'Failed to fetch user Coupon'. An exception gives 500 'Internal server error'. |
| CustomerListRoute.Param | src/app/api/admin/customers/list/route.ts:22-24 | A query value is used when it is present and non-empty. Otherwise the default is used. |
| CustomerListRoute.Forwarded | src/app/api/admin/customers/list/route.ts:22-28 | The backend query carries the admin token, and `page`, `perPage` and `filter` with defaults '1', '10' and '-1'. |
| CustomerListRoute.Get | src/app/api/admin/customers/list/route.ts:8-51 | No `admin_token` gives 401 'Unauthorized' with no backend call. An ok backend body is returned unchanged. A non-ok backend reply gives 500 'Failed to fetch customers'. |
| CustomerListRoute.DefaultsForwarded | src/app/api/admin/customers/list/route.ts:22-28 | With an empty query, exactly `page=1`, `perPage=10` and `filter=-1` are forwarded. |
| CustomerListRoute.ParamsVerbatim | src/app/api/admin/customers/list/route.ts:22-28 | Non-empty parameters are forwarded verbatim. |
| AuthContext.Merge | src/context/AuthContext.tsx:50-54 | The stored object overwrites `customer` and `phone` only. Every other field of the previous user is kept, and a null previous user adds none. |
| AuthContext.UsableStored | src/context/AuthContext.tsx:47-49 | The stored object is usable exactly when it parsed and both its `customer` and `phone` are present and non-empty. |
| AuthContext.UserOf | src/context/AuthContext.tsx:75 | `data.user` is read from the response: the client record of a GET, nothing when there is no data. |
| AuthContext.CheckAuthOutcome | src/context/AuthContext.tsx:63-91 | On success, `user` becomes `data.user`, with a navigation to `/user/dashboard` exactly when the path is `/` or `/signin`. On failure, `user` becomes null, with a navigation to `/signin` exactly when the path starts with `/user`. An exception clears `user` and does not navigate. |
| AuthContext.AuthProvider.LoadUserFromLocalStorage | src/context/AuthContext.tsx:44-60 | The stored user is merged in only when both `customer` and `phone` are truthy. Otherwise `user` is unchanged. |
| AuthContext.AuthProvider.CheckAuth | src/context/AuthContext.tsx:63-91 | The new user and the navigation are those of `CheckAuthOutcome`, and `loading` ends false. |
| AuthContext.AuthProvider.BeginCheck | src/context/AuthContext.tsx:65 | A check starts by setting `loading`. |
| AuthContext.AuthProvider.CompleteCheck | src/context/AuthContext.tsx:72-90 | The new user and the navigation are exactly those `CheckAuthOutcome` decides, and `loading` ends false. |
| AuthContext.AuthProvider.Logout | src/context/AuthContext.tsx:94-111 | Only a successful logout reply clears `user` and navigates home. Any other outcome changes nothing. |
| AuthContext.AuthProvider.Mount | src/context/AuthContext.tsx:114-121 | The mount effect always runs the check, and its outcome replaces whatever was loaded from storage. |
| AuthContext.AuthProvider.HandleFocus | src/context/AuthContext.tsx:128-137 | A focus re-check is scheduled exactly when none is in flight and there is no user. |
| AuthContext.AuthProvider.RunFocusCheck | src/context/AuthContext.tsx:131-134 | The scheduled check has the effect of `checkAuth` and then clears the in-flight flag. |
| AuthContext.NoCookieSignsOut | src/context/AuthContext.tsx:79-84 | With no `token` cookie, the check signs the user out and leaves `/user` pages for `/signin`. |
| AuthContext.AcceptedCookieSignsIn | src/context/AuthContext.tsx:74-75 | With a token the backend accepts, `user` is exactly the backend's client record. |
| AuthContext.NavigationTargetsStable | src/context/AuthContext.tsx:76-83 | Neither navigation leads back into itself: the dashboard never sends to the dashboard, and `/signin` never sends to `/signin`. |
| Pagination.GetPageNumbers | src/components/tables/Pagination.tsx:17-31 | The window is contiguous and ascending and lies within `1..totalPages`. Its length is min(5, totalPages), and 0 for no pages. It contains a valid current page. It starts two pages before the current page, moved right to start at page 1 and left so that it ends at the last page: page 2 of 10 shows 1..5, and a page past the end shows the last five (or all, when fewer). |
| Pagination.WindowAtEnds | src/components/tables/Pagination.tsx:18-24 | With at least five pages, a current page within two of the start shows 1..5, and one within two of the end shows the last five pages. |
| Pagination.PreviousDisabled | src/components/tables/Pagination.tsx:44-45 | On a real page, Previous is disabled exactly when the page it would go to (one before) does not exist. |
| Pagination.NextDisabled | src/components/tables/Pagination.tsx:66-67 | On a real page, Next is disabled exactly when the page it would go to (one after) does not exist. Past the last page it stays enabled. |
| Pagination.IsActive | src/components/tables/Pagination.tsx:56 | A page button is highlighted when its number is the current page (`OneActiveButton` shows this singles out one button). |
| Pagination.OneActiveButton | src/components/tables/Pagination.tsx:51-59 | In a window of consecutive numbers holding the current page, exactly one button is highlighted: the one at the current page's offset. |
| Pagination.NextEnabledWithoutPages | src/components/tables/Pagination.tsx:67 | With zero pages, Next stays enabled. |
| Pagination.SinglePageBothDisabled | src/components/tables/Pagination.tsx:45-67 | On a single page, both Previous and Next are disabled. |
| BasicTable.TotalPages | src/components/tables/BasicTableOne.tsx:63 | The page count is the least n with 10·n ≥ totalRecords. |
| BasicTable.Serial | src/components/tables/BasicTableOne.tsx:129 | The serial number of a row of page p lies in p's block of ten: above 10·(p−1), at most 10·p. |
| BasicTable.PageOf | src/components/tables/BasicTableOne.tsx:129 | The page of a serial number is the one whose block of ten contains it. |
| BasicTable.RowOf | src/components/tables/BasicTableOne.tsx:129 | The row of a serial number is one of the page's ten rows. |
| BasicTable.SerialDecodes | src/components/tables/BasicTableOne.tsx:129 | The serial number on row i of page p gives p and i back, so no two rows share a number. |
| BasicTable.SerialCovers | src/components/tables/BasicTableOne.tsx:129 | Every positive serial number appears on exactly one (page, row). |
| BasicTable.AcrossPages | src/components/tables/BasicTableOne.tsx:129 | Serial numbers run on without a gap from one page to the next. |
| BasicTable.LastRecordOnLastPage | src/components/tables/BasicTableOne.tsx:63 | The last record's serial number falls on the last page. |
| BasicTable.NumberText | src/components/tables/BasicTableOne.tsx:56 | A number's text is non-empty, starts with `-` exactly for a negative number, and is all digits otherwise. |
| BasicTable.NumberTextValue | src/components/tables/BasicTableOne.tsx:56 | The printed page text denotes the page: its digits read back give the number (after the `-` of a negative), with no leading zero. |
| BasicTable.Request | src/components/tables/BasicTableOne.tsx:56 | The table's query carries `page` and `limit`, and no `perPage`. |
| BasicTable.TableQueryForwarded | src/components/tables/BasicTableOne.tsx:56 | The table sends `limit`, which the list route ignores, so the backend receives `perPage=10` and `filter=-1` with the table's page. |
| BasicTable.CustomerTable.FetchCustomers | src/components/tables/BasicTableOne.tsx:53-70 | Only a `success` reply replaces the list, the record count and the page count. `loading` ends false on every outcome. |
| BasicTable.CustomerTable.ChangePage | src/components/tables/BasicTableOne.tsx:199 | A page change sets the current page. |
| AdminLoginForm.ValidateForm | src/components/auth/AdminLoginForm.tsx:27-45 | The email error is 'Email is required' exactly for an empty email, and absent exactly for a non-empty email matching the unanchored `\S+@\S+\.\S+`; any other email gets 'Please enter a valid email address'. The password error is 'Password is required' exactly for an empty password, and absent exactly when it has at least 6 UTF-16 code units (JavaScript's `length`); a shorter non-empty one gets 'Password must be at least 6 characters'. There are no errors if and only if both fields are valid. |
| AdminLoginForm.AstralPasswordLongEnough | src/components/auth/AdminLoginForm.tsx:40 | `length` counts UTF-16 units, so three characters beyond U+FFFF (three emoji) pass the 6-character rule. |
| AdminLoginForm.FirstError | src/components/auth/AdminLoginForm.tsx:53 | The toast shows the email error before the password error, and nothing when there are no errors. |
| AdminLoginForm.RedirectTarget | src/components/auth/AdminLoginForm.tsx:78-80 | The redirect goes to `callbackUrl` when it is non-empty, else to `/admin/dashboard`. |
| AdminLoginForm.SubmitOutcome | src/components/auth/AdminLoginForm.tsx:47-96 | Validation errors block the submit and toast the first error. A redirect happens exactly for a valid form, a successful reply and a context that provides `login`. A rejected reply shows the backend's message, or 'Login failed. Please try again.'. A thrown fetch shows the Error's message, or 'Something went wrong. Please try again.'. An accepted login without `login` shows the TypeError's message. |
| AdminLoginForm.AcceptedLoginFailsAsWritten | src/components/auth/AdminLoginForm.tsx:73-75 | Against the context as written, an accepted login sets the cookie but the form ends in 'login is not a function'. |
| AdminLoginForm.AcceptedLoginRedirects | src/components/auth/AdminLoginForm.tsx:73-83 | With `login` provided, an accepted login redirects to the callback or the dashboard. |
| AdminLoginForm.EmailShapeFound | src/components/auth/AdminLoginForm.tsx:33 | The regular expression is unanchored: `a@b.c` and `<a@b.c>` both pass. |
| AdminLoginForm.EmailShapeMissing | src/components/auth/AdminLoginForm.tsx:33 | `a@b` and `a@.c` fail. |
| AdminLoginForm.Form.SubmitDisabled | src/components/auth/AdminLoginForm.tsx:211 | The button is enabled exactly when not loading, the email is non-empty and shaped, and the password has at least 6 UTF-16 units. |
| AdminLoginForm.Form.HandleChange | src/components/auth/AdminLoginForm.tsx:98-107 | An edit updates only the named field and clears the displayed error. |
| AdminLoginForm.Form.HandleBlur | src/components/auth/AdminLoginForm.tsx:109-115 | A blur marks the named field as touched. |
| AdminLoginForm.Form.HandleSubmit | src/components/auth/AdminLoginForm.tsx:47-96 | A blocked submit sends nothing and changes nothing. Otherwise the form's credentials are posted, `loading` ends false, and a failure's message is shown. |
| SignInForm.TokenOf | src/components/auth/SignInForm.tsx:118 | The stored token is the response's `token`, and `''` when the response carries no session. |
| SignInForm.SendError | src/components/auth/SignInForm.tsx:70-76 | A failed send shows the route's message when it has one and never an empty text; an exception shows its own message, or the fallback when it is not an `Error`. |
| SignInForm.VerifyResult | src/components/auth/SignInForm.tsx:97-129 | The user is signed in exactly on an ok, successful reply with `login` provided, and the stored token is the reply's. A non-ok status shows the reply's message, or 'Failed to verify OTP'. An ok reply without `success` shows its message, or 'Invalid OTP. Please try again.'. A thrown fetch shows the Error's message, or the same fallback. A verified OTP without `login` shows the TypeError's message. |
| SignInForm.WrongOtpShowsMessage | src/components/auth/SignInForm.tsx:112-114 | A wrong OTP (the route's 401) shows the backend's message, or the route's 'OTP validation failed'. |
| SignInForm.VerifiedOtpFailsAsWritten | src/components/auth/SignInForm.tsx:115-118 | Against the context as written, a verified OTP sets the cookie but the form ends in 'login is not a function' and stores no token. |
| SignInForm.VerifiedOtpSignsIn | src/components/auth/SignInForm.tsx:115-118 | With `login` provided, a verified OTP stores the same token the cookie holds. |
| SignInForm.Form.constructor | src/components/auth/SignInForm.tsx:17-22 | The initial state: the preset number, an empty OTP, the number step, no error, and the countdown at 0. |
| SignInForm.Form.SetMobileNumber | src/components/auth/SignInForm.tsx:198 | The number input sets the number. |
| SignInForm.Form.SetOtp | src/components/auth/SignInForm.tsx:218 | The OTP input sets the OTP. |
| SignInForm.Form.SendOtp | src/components/auth/SignInForm.tsx:38-83 | A request is sent if and only if the number is exactly 10 UTF-16 units long (its characters are not checked by the handler). A successful send enters the OTP step, clears the error and starts the 60-second countdown. A failure shows the route's or the exception's message. `loading` ends false. |
| SignInForm.Form.VerifyOtp | src/components/auth/SignInForm.tsx:85-133 | A request is sent if and only if the OTP is exactly 4 UTF-16 units long. The token is stored or the error is shown as `VerifyResult` says. `loading` ends false. |
| SignInForm.Form.Submit | src/components/auth/SignInForm.tsx:38-177 | In the OTP step, a request goes out exactly for a 4-unit OTP and the token or error follows `VerifyResult`, with the step and countdown kept. In the number step, a request goes out exactly for a 10-unit number (the browser's `pattern` check is left out), a successful send enters the OTP step with the 60-second countdown, a failure shows `SendError`, and the stored token is kept. |
| SignInForm.Form.Resend | src/components/auth/SignInForm.tsx:229-231 | While the button is disabled (`ResendDisabled`, a running countdown) a click does nothing. Otherwise it sends exactly for a 10-unit number, and a successful send restarts the countdown, which disables the button again. |
| SignInForm.Form.Tick | src/components/auth/SignInForm.tsx:24-36 | A tick lowers a positive countdown by one and never takes it below zero. |
| SignInForm.Form.ChangeNumber | src/components/auth/SignInForm.tsx:242-246 | 'Change Mobile Number' returns to the number step with the OTP and the error cleared. |
| UploadModal.FileError | src/components/dashboard/UploadModal.tsx:37-50 | A file is accepted if and only if its type starts with `image/` and its size is at most 10 MiB. The type error comes first. |
| UploadModal.SizeBoundary | src/components/dashboard/UploadModal.tsx:47 | Exactly 10 MiB is accepted; one byte more is rejected. |
| UploadModal.TypeIsPrefixTest | src/components/dashboard/UploadModal.tsx:41 | The type test is a case-sensitive prefix test. |
| UploadModal.Modal.HandleFileChange | src/components/dashboard/UploadModal.tsx:37-59 | An accepted file becomes the selection. A rejected file raises its toast and keeps the previous selection. No file does nothing. |
| UploadModal.Modal.PreviewLoaded | src/components/dashboard/UploadModal.tsx:54-56 | The reader's result becomes the preview. |
| UploadModal.Modal.HandleSubmit | src/components/dashboard/UploadModal.tsx:61-75 | The selection is handed over, and something is uploaded exactly when the Upload button (`UploadDisabled`) was enabled. A completed upload clears the selection and the preview, which disables the button again. A rejected upload, or no selection, leaves them. |
| UploadModal.Modal.HandleDeleteClick | src/components/dashboard/UploadModal.tsx:77-79 | A trash click opens the confirmation for that id. |
| UploadModal.Modal.CancelDelete | src/components/dashboard/UploadModal.tsx:109 | Cancel closes the confirmation without deleting. |
| UploadModal.Modal.HandleConfirmDelete | src/components/dashboard/UploadModal.tsx:81-86 | `onDelete` gets exactly the pending id, if and only if that id is non-empty, and the overlay then closes. An empty id does nothing. |
| ScratchCards.UpdateById | src/components/dashboard/ScratchCards.tsx:58-60 | The per-id map keeps the length and order. It changes exactly the cards with the matching id. |
| ScratchCards.Badge | src/components/dashboard/ScratchCards.tsx:153-163 | A covered card has no badge. An uncovered card reads 'Redeemed' exactly when `redeemed` is 1, and 'Ready to Redeem' otherwise. |
| ScratchCards.MarkRedeemed | src/components/dashboard/ScratchCards.tsx:58-60 | A redeem sets `redeemed = 1` on the matching cards. Length, ids and `scratched` are kept, and other cards are untouched. |
| ScratchCards.MarkScratched | src/components/dashboard/ScratchCards.tsx:130-132 | A finished scratch sets `scratched = 1` on the matching cards. Length, ids and `redeemed` are kept, and other cards are untouched. |
| ScratchCards.ShowsScratchSurface | src/components/dashboard/ScratchCards.tsx:116 | A card with `scratched` 0 shows the scratch surface; `Badge` proves it then shows no badge. |
| ScratchCards.ShowsRedeemButton | src/components/dashboard/ScratchCards.tsx:163 | A Redeem button never shows on a covered card, and where it shows the badge reads 'Ready to Redeem'. |
| ScratchCards.RedeemedCardDisplay | src/components/dashboard/ScratchCards.tsx:160-163 | After a redeem, an uncovered card reads 'Redeemed' and offers no Redeem button. |
| ScratchCards.ScratchedCardDisplay | src/components/dashboard/ScratchCards.tsx:130-132 | A finished scratch uncovers the card, and it offers Redeem exactly when it was not redeemed. |
| ScratchCards.RedeemIdempotent | src/components/dashboard/ScratchCards.tsx:58-60 | Redeeming the same card twice equals redeeming it once. |
| ScratchCards.ScratchRedeemCommute | src/components/dashboard/ScratchCards.tsx:130-132 | A scratch update and a redeem update commute. |
| ScratchCards.RouteSuccessCarriesCards | src/components/dashboard/ScratchCards.tsx:37-38 | A successful route reply always carries the backend's coupon list, so the grid's `data.data` is present. |
| ScratchCards.CardGrid.FetchCards | src/components/dashboard/ScratchCards.tsx:30-45 | A successful fetch replaces the cards. A failure keeps them. `loading` ends false. |
| ScratchCards.CardGrid.HandleRedeem | src/components/dashboard/ScratchCards.tsx:50-67 | Only a successful redeem marks the card and opens the reward site. Otherwise the cards are unchanged. |
| ScratchCards.CardGrid.CompleteScratch | src/components/dashboard/ScratchCards.tsx:123-133 | A finished scratch marks the card locally, whatever the backend answers. |
| ScratchCards.CardGrid.CopyCode | src/components/dashboard/ScratchCards.tsx:69-91 | A successful copy marks the code, so exactly the cards with that coupon code show the check mark (`ShowsCopied`). A failed copy changes nothing. |
| ScratchCards.CardGrid.ClearCopied | src/components/dashboard/ScratchCards.tsx:86 | The timer clears the copied marker, so no card shows the check mark. |
| DashboardLayout.Without | src/components/layout/DashboardLayout.tsx:106 | The filter keeps exactly the screenshots whose id differs. |
| DashboardLayout.WithoutDistributes | src/components/layout/DashboardLayout.tsx:106 | Filtering works piece by piece, so the kept screenshots stay in their order. |
| DashboardLayout.WithoutAbsent | src/components/layout/DashboardLayout.tsx:106 | Filtering out an id that is not in the list leaves the list unchanged. |
| DashboardLayout.DeleteUndoesUpload | src/components/layout/DashboardLayout.tsx:106 | Deleting a just-appended screenshot with a fresh id restores the list. |
| DashboardLayout.NavActive | src/components/layout/DashboardLayout.tsx:203 | A link is highlighted only on its own path, never on a sub-page below it. |
| DashboardLayout.NavActiveExclusive | src/components/layout/DashboardLayout.tsx:203 | At most one side-bar link is highlighted, and a sub-page highlights none. |
| DashboardLayout.Layout.FetchScreenshots | src/components/layout/DashboardLayout.tsx:29-42 | A successful fetch replaces the list with `screenshots`, or with `[]` when absent. A failure keeps it. |
| DashboardLayout.Layout.OpenUploadModal | src/components/layout/DashboardLayout.tsx:143 | The menu item opens the dialog. |
| DashboardLayout.Layout.CloseUploadModal | src/components/layout/DashboardLayout.tsx:258 | The close button closes the dialog. |
| DashboardLayout.Layout.HandleUpload | src/components/layout/DashboardLayout.tsx:52-81 | A success appends the returned screenshot at the end, when there is one, and closes the dialog. A failure keeps the list and the dialog and toasts the message. `isUploading` ends false. |
| DashboardLayout.Layout.HandleDeleteScreenshot | src/components/layout/DashboardLayout.tsx:83-115 | A declined confirm does nothing. A success removes every screenshot with that id. A failure keeps the list and toasts the message. |

## Left out

- Network, cookies and storage are not modelled as I/O. Backend replies, thrown exceptions, `localStorage` contents, `window.confirm` answers, clipboard success and the file reader's result are all inputs.
- Cookie attributes other than name, value and maxAge are left out: `httpOnly`, `secure`, `sameSite` and `path`.
- Navigation side effects are reported as an outbound target or flag and are not performed: `router.push`, `window.location.reload` and `window.open`.
- Toasts and `console` output are left out, except where a toast's text is the observable result.
- Timing is left out. The 300 ms focus delay, the 1 s countdown interval and the 3 s copy reset are separate steps (`RunFocusCheck`, `Tick`, `ClearCopied`), and their interleaving with other events is not modelled.
- Asynchrony is left out. Each handler runs to completion with its reply given. React's stale closures, for example the `cards` captured by a scratch card's `onComplete`, are not modelled.
- Currency display and decimal parsing (`parseFloat(...).toFixed(2)`) are floating point and left out. A card's amount is kept as its decimal string.
- Backend record shapes are reduced to the fields the core reads. Customer and user records are string maps.
- Each backend reply is assumed to carry the fields the handler reads: `coupon`, `data` and `totalRecords`.
- ScratchCards.CardGrid.FetchCards: a success reply without `data` is not modelled. The route never sends one (`RouteSuccessCarriesCards`).
- The admin login route's GET has a `catch` that nothing in its body can reach. It is not modelled.
- The route GET handlers' non-JSON request bodies are not modelled. For POST, a body that does not parse is `None` and takes the error path.
- UploadModal.Modal.HandleSubmit and UploadModal.Modal.HandleConfirmDelete take whether `onUpload`/`onDelete` rejected as an input. Their only caller passes `handleUpload` and `handleDeleteScreenshot`, and neither ever rejects. `handleUpload` catches every error. `handleDeleteScreenshot` has no `catch`: it hands the DELETE to `toast.promise` and returns without awaiting it. So in the portal the dialog always resets, and the confirmation closes before the DELETE has settled; the model takes the DELETE's outcome as already known. The dashboard's own `window.confirm` runs after the dialog's confirmation and is modelled by `HandleDeleteScreenshot`'s `confirmed` input.
- CustomerListRoute.ParamsVerbatim and CustomerListRoute.Forwarded: the outbound query is modelled as a map of parameters, not as the URL text (src/app/api/admin/customers/list/route.ts:28). The route does no URL encoding, so a value such as `x&perPage=1000` adds or overrides backend parameters; that injection is not captured.
- SignInForm.Form.Submit: the browser's constraint validation before the submit event is not modelled. The number input is given `pattern="[0-9]{10}"` (src/components/auth/SignInForm.tsx:199), but the `Input` component from `src/components/form/input/InputField` that receives it is not part of this model, so whether the page enforces it is unknown. If it does, a form submit of a 10-unit number that is not ten digits sends nothing, where the model sends it; `Resend` is a button click and is unaffected.
- SubmitOutcome, VerifyResult, AcceptedLoginFailsAsWritten and VerifiedOtpFailsAsWritten: the text of the TypeError raised by the missing `login` is fixed at V8's wording for unminified code, 'login is not a function'. Other engines and minified bundles word it differently; only the fact that the form ends in an error, with no redirect and no stored token, is engine-independent. That `const { login } = useAuth()` is also a TypeScript type error against the context's type (src/context/AuthContext.tsx:29-34), which would stop a type-checked build, is not modelled.
- The fire-and-forget POST `/api/scratch-cards/{id}/scratch` is not modelled; only the local update is.
- The customer table's row rendering, the sidebar's open and close toggles, OTP input focus handling and chart components are presentation only.

## Findings

| source | as written | input that shows it | evidently intended | confidence | as-written member | corrected member |
|---|---|---|---|---|---|---|
| src/context/AuthContext.tsx:29-34,147; src/components/auth/AdminLoginForm.tsx:15,75 | The context value has no `login`, so the admin form calls `undefined` after the server has set `admin_token`. The TypeError lands in the `catch` and its message is shown (in V8, 'login is not a function'). | A valid email and password that the backend accepts. | Sign the admin in and redirect to `callbackUrl` or `/admin/dashboard`. | not executed | AdminLoginForm.AcceptedLoginFailsAsWritten | AdminLoginForm.AcceptedLoginRedirects |
| src/context/AuthContext.tsx:29-34,147; src/components/auth/SignInForm.tsx:16,117 | The customer form calls the same missing `login` after the server has set `token`. The token is never written to local storage, and the TypeError's message shows (in V8, 'login is not a function'). | A 10-digit number and the correct 4-digit OTP. | Sign in and store the token the cookie holds. | not executed | SignInForm.VerifiedOtpFailsAsWritten | SignInForm.VerifiedOtpSignsIn |
