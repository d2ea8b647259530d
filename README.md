# ShahdCooperative storefront client: a verified model

This project models the client-side logic of the ShahdCooperative storefront, a Next.js
frontend backed by an authentication service, a main (catalogue and orders) service and
a notification service. The model covers these parts:

- **State containers.** The notification store, the auth store with its local-storage
  slots, and the API client's access-token holder. The client's "refresh at most once
  on 401" response handler and its error-message precedence are modelled too.
- **Form schemas.** The zod schemas for login, registration, checkout, password change
  and reset, and the shipping address. This includes the password policy, the E.164-shaped
  phone rule and the cross-field refinements.
- **Registration form.** The password-strength score and its label and colour.
- **Component decision rules.**
  - The two-factor setup step machine and the login form's 2FA gate with its role routing.
  - The route guard and the sidebar's active-item rule.
  - The input component's id slug, the order timeline, and the product card's stock badge.
- **API helpers.** The ordered query-parameter lists and the request paths that the
  product, order and notification helpers build.

Layout: one module per source file of the core, plus shared modules:

- `Wrappers`: `Option`, `Result`;
- `Text`: character classes, ASCII case mapping, decimal rendering;
- `Types`: records;
- `AppConfig`: storage keys;
- `Browser`: `localStorage`;
- `CodeEntry`: the digit filter used by both 2FA screens;
- `QueryParams`: `URLSearchParams` lists.

Stores and handlers that update state are classes with `modifies` clauses. Their new
state is stated in terms of specification functions, and lemmas prove properties of
those functions. Things the browser or the network decides are parameters. These include
the answer of each HTTP call, `JSON.stringify`/`JSON.parse` (as `serialize`/`parse`,
with decoding allowed to fail), zod's e-mail test (`isEmail`), `typeof window`,
`confirm()`, and the current time (`now`).

## Model

| member | source | states |
|---|---|---|
| ApiClient.TokenHolder.constructor | src/lib/api/client.ts:27 | The module-level access token starts out null. |
| ApiClient.TokenHolder.SetAccessToken | src/lib/api/client.ts:29-31 | The holder keeps exactly the token last set (null included). |
| ApiClient.TokenHolder.GetAccessToken | src/lib/api/client.ts:33-35 | Returns the held token and changes nothing. |
| ApiClient.BearerRoundTrip | src/lib/api/client.ts:41 | The `Bearer <token>` credential (section 2.1 of RFC 6750) gives back the token it was built from. |
| ApiClient.AttachToken | src/lib/api/client.ts:38-44 | `Authorization` becomes `Bearer <token>` only for a non-null, non-empty token; otherwise the headers are unchanged; no other header is added, dropped or changed. |
| ApiClient.RequestInterceptor | src/lib/api/client.ts:38-44 | The interceptor returns the same config object; its headers become `AttachToken` of the old headers and the held token; a config without headers is left alone; the retry mark is untouched. |
| ApiClient.ErrorMessages | src/lib/api/client.ts:121 | Lists exactly the `errorMessage` of each field error, in order. |
| ApiClient.ErrorMessagePrecedence | src/lib/api/client.ts:114-129 | `getErrorMessage` returns the first available of: the API message, the joined field-error messages (non-empty list only), the axios message, the `Error` message, "An unknown error occurred". |
| ApiClient.ApiMessageWins | src/lib/api/client.ts:116-119 | A non-empty API `message` is returned whatever else the error holds. |
| ApiClient.UsableRefreshToken | src/lib/api/client.ts:58-61 | A refresh token is usable iff the key is stored with a non-empty value. |
| ApiClient.HandleResponseError | src/lib/api/client.ts:50-92 | A refresh happens only for a 401 on an unmarked request, and the mark is set first. Other errors are rejected with nothing changed. A missing token counts as a failed refresh. On success the new access token is held, the new refresh token is stored and the retried request carries `Bearer <new token>`. On failure the token is cleared, both session keys are removed and the browser is sent to `/login`. |
| ApiClient.SecondUnauthorizedIsRejected | src/lib/api/client.ts:51-55 | The `_retry` guard: a configuration the handler has already marked, if it reaches the handler with a 401 again, is rejected with that error and starts no second refresh. |
| Browser.LocalStorage.GetItem | src/lib/store/authStore.ts:41-42 | `getItem` returns the stored value, or null when the key is absent. |
| Browser.LocalStorage.SetItem | src/lib/store/authStore.ts:23-24 | `setItem` replaces exactly one key. |
| Browser.LocalStorage.RemoveItem | src/lib/store/authStore.ts:30-31 | `removeItem` drops exactly one key. |
| AuthStore.RestoredUser | src/lib/store/authStore.ts:39-54 | A user is restored iff both the user slot and the refresh-token slot are non-empty and the user decodes. |
| AuthStore.ClearedSession | src/lib/store/authStore.ts:30-31 | Exactly the `refresh_token` and `user` keys are gone; every other key keeps its value. |
| AuthStore.AuthStore.constructor | src/lib/store/authStore.ts:17-19 | The store starts with no user, unauthenticated and loading. |
| AuthStore.AuthStore.Login | src/lib/store/authStore.ts:21-26 | The access token is set. The refresh token and the serialised user are stored under their keys. The user is set, authenticated, not loading. |
| AuthStore.AuthStore.Logout | src/lib/store/authStore.ts:28-33 | The token is cleared and exactly the two session keys are removed. No user, not authenticated, not loading. |
| AuthStore.AuthStore.SetUser | src/lib/store/authStore.ts:35-37 | Authenticated iff a user is given; loading unchanged. |
| AuthStore.AuthStore.InitializeAuth | src/lib/store/authStore.ts:39-54 | Authenticates with the restored user when there is one; otherwise user and authentication are untouched; loading always ends. |
| AuthStore.LoginSurvivesReload | src/lib/store/authStore.ts:21-26 | After `login`, the next `initializeAuth` restores the same user, provided the refresh token is non-empty and the user survives its JSON round trip. |
| AuthStore.LogoutForgetsSession | src/lib/store/authStore.ts:28-33 | After `logout` nothing is restored, and the cart key and every other key are kept. |
| NotificationStore.CountUnread | src/lib/store/notificationStore.ts:22 | The unread count never exceeds the list's length. |
| NotificationStore.CountUnreadAppend | src/lib/store/notificationStore.ts:22 | Counting unread items distributes over concatenation. |
| NotificationStore.MarkReadAt | src/lib/store/notificationStore.ts:29-31 | Length and order are kept. Exactly the items with the id become read with `readAt` = now, overwritten even if the item was already read; others are unchanged. |
| NotificationStore.MarkReadUnknownId | src/lib/store/notificationStore.ts:29-31 | An id no item has leaves the list unchanged. |
| NotificationStore.MarkReadCount | src/lib/store/notificationStore.ts:30 | Marking never raises the unread count, and every item with the id is read afterwards. |
| NotificationStore.MarkAllAt | src/lib/store/notificationStore.ts:39-43 | Every item becomes read. An existing `readAt` is kept and a missing one becomes now. |
| NotificationStore.MarkAllLeavesNoUnread | src/lib/store/notificationStore.ts:44 | After marking all, the unread count is 0. |
| NotificationStore.MarkAllIdempotent | src/lib/store/notificationStore.ts:42 | A second mark-all, at any later time, changes nothing. |
| NotificationStore.RemoveMembers | src/lib/store/notificationStore.ts:50 | An item survives removal iff it was present and has another id. |
| NotificationStore.RemoveAppend | src/lib/store/notificationStore.ts:50 | Removal distributes over concatenation, so the relative order of the rest is kept. |
| NotificationStore.RemoveIdempotent | src/lib/store/notificationStore.ts:48-54 | Removing twice equals removing once, and the list never grows. |
| NotificationStore.NotificationStore.constructor | src/lib/store/notificationStore.ts:16-17 | The store starts with an empty list and a count of 0. |
| NotificationStore.NotificationStore.AddNotification | src/lib/store/notificationStore.ts:19-25 | The new item is at index 0, followed by the old list; the length grows by one; the count matches. |
| NotificationStore.NotificationStore.MarkAsRead | src/lib/store/notificationStore.ts:27-35 | The list becomes `MarkRead` of the old list; the count matches. |
| NotificationStore.NotificationStore.MarkAllAsRead | src/lib/store/notificationStore.ts:37-46 | The list becomes `MarkAll` of the old list and the count is 0. |
| NotificationStore.NotificationStore.RemoveNotification | src/lib/store/notificationStore.ts:48-54 | The list becomes `Remove` of the old list; the count matches. |
| NotificationStore.NotificationStore.SetNotifications | src/lib/store/notificationStore.ts:56-59 | The list is replaced; the count matches. |
| NotificationStore.NotificationStore.UpdateUnreadCount | src/lib/store/notificationStore.ts:61-64 | The list is unchanged and the count is recomputed. |
| Validation.MinLength | src/lib/utils/validation.ts:14 | `.min(n)` reports an issue on its own field iff the text is shorter than n. |
| Validation.MaxLength | src/lib/utils/validation.ts:28 | `.max(n)` reports an issue on its own field iff the text is longer than n. |
| Validation.EmailIssues | src/lib/utils/validation.ts:6 | An issue iff the e-mail test rejects the text. |
| Validation.PasswordIssues | src/lib/utils/validation.ts:12-18 | No issue iff length ≥ 8 and there is an upper-case letter, a lower-case letter, a digit and a character outside `[A-Za-z0-9]`. |
| Validation.PhoneRegexShape | src/lib/utils/validation.ts:23 | The regex matcher accepts iff the text is an optional `+` followed by 2–15 digits, the first not 0. |
| Validation.PhoneIssues | src/lib/utils/validation.ts:23 | An absent phone is accepted; a present one iff it has that shape. |
| Validation.NameIssues | src/lib/utils/validation.ts:28 | No issue iff the length is between 1 and 50. |
| Validation.ConfirmIssues | src/lib/utils/validation.ts:48-51 | An issue on `confirmPassword` iff the two passwords differ. |
| Validation.LoginIssues | src/lib/utils/validation.ts:33-36 | Accepted iff the e-mail passes and the password is non-empty. |
| Validation.RegisterIssues | src/lib/utils/validation.ts:41-51 | Accepted iff every field rule passes and the confirmation equals the password. |
| Validation.RegisterConfirmError | src/lib/utils/validation.ts:48-51 | An issue on `confirmPassword` is reported iff the passwords differ, whatever the other fields hold. |
| Validation.ParsePaymentMethod | src/lib/utils/validation.ts:63 | An absent method defaults to card; only "card" and "paypal" are accepted. |
| Validation.ParseCheckout | src/lib/utils/validation.ts:56-75 | Accepted iff the minimum lengths 2/5/2/2/3/2 hold, the method is valid and a card payment has all three card fields non-empty. The defaults are country USA and method card; a rejection carries its issues. |
| Validation.PaypalNeedsNoCard | src/lib/utils/validation.ts:67-72 | With PayPal, no card-details issue is ever reported. |
| Validation.ChangePasswordIssues | src/lib/utils/validation.ts:80-87 | Accepted iff the current password is non-empty, the new one meets the policy and the confirmation matches. |
| Validation.ResetPasswordIssues | src/lib/utils/validation.ts:92-100 | Accepted iff the e-mail passes, the token is non-empty, the new password meets the policy and the confirmation matches. |
| Validation.ShippingAddressIssues | src/lib/utils/validation.ts:105-111 | Accepted iff all five fields are non-empty. |
| Helpers.Truncate | src/lib/utils/helpers.ts:46-49 | Text that fits is unchanged. Otherwise, for maxLength ≥ 3, the result is the first maxLength−3 characters plus "...", and has length maxLength. For maxLength < 3 the result is exactly "...". Apart from the suffix it is a prefix of the input. |
| Helpers.TruncateIdempotent | src/lib/utils/helpers.ts:46-49 | Truncating again to the same length changes nothing. |
| Helpers.GetInitials | src/lib/utils/helpers.ts:74-76 | At most two characters: each name's first character, upper-cased. An empty name contributes nothing, and no lower-case letter remains. |
| CodeEntry.DigitsOnlyKeepsDigits | src/components/auth/TwoFactorSetup.tsx:167 | The filtered code holds only digits, and exactly the digits of the input. |
| CodeEntry.DigitsOnlyAppend | src/components/auth/LoginForm.tsx:88 | Filtering distributes over concatenation, so the digits keep their order. |
| CodeEntry.DigitsOnlyIdempotent | src/components/auth/TwoFactorSetup.tsx:167 | Filtering twice equals filtering once. |
| RegisterForm.CalculatePasswordStrength | src/components/auth/RegisterForm.tsx:29-37 | The step-by-step counter equals the number of criteria met, and is at most 5. |
| RegisterForm.StrengthExtremes | src/components/auth/RegisterForm.tsx:30-36 | The score is 5 iff all five criteria hold and 0 iff none does. |
| RegisterForm.EmptyPasswordScoresZero | src/components/auth/RegisterForm.tsx:30-36 | The empty password scores 0 and gets the empty label. |
| RegisterForm.StrengthText | src/components/auth/RegisterForm.tsx:44-50 | The label is empty for 0, Weak for 1–2, Fair for 3, Good for 4 and Strong from 5 up. |
| RegisterForm.StrengthColor | src/components/auth/RegisterForm.tsx:52-57 | The bar colour is gray, red, yellow, blue or green on the same bands. |
| RegisterForm.SamePartition | src/components/auth/RegisterForm.tsx:44-57 | Two scores get the same label iff they get the same colour. |
| RegisterForm.PolicyIsFullStrength | src/components/auth/RegisterForm.tsx:29-37 | A password meets the `passwordSchema` policy iff it scores 5, and then it is labelled Strong. |
| TwoFactorSetup.TwoFactorSetup.constructor | src/components/auth/TwoFactorSetup.tsx:10-15 | Setup starts at the initial step with empty fields and no pending call. |
| TwoFactorSetup.TwoFactorSetup.HandleEnable2FA | src/components/auth/TwoFactorSetup.tsx:17-31 | On success the step is qr and the QR URL and key are stored. On failure the step is unchanged and the error is set. Loading always ends. |
| TwoFactorSetup.TwoFactorSetup.Scanned | src/components/auth/TwoFactorSetup.tsx:148 | From qr, "scanned" moves to verify. |
| TwoFactorSetup.TwoFactorSetup.Back | src/components/auth/TwoFactorSetup.tsx:177 | "Back" moves from verify to qr. |
| TwoFactorSetup.TwoFactorSetup.OnCodeChange | src/components/auth/TwoFactorSetup.tsx:167 | The stored code is the digits of the input. |
| TwoFactorSetup.TwoFactorSetup.HandleVerify2FA | src/components/auth/TwoFactorSetup.tsx:33-48 | Without a user nothing is sent and "User not found" is shown. Otherwise the user's id and the code are sent. Success moves to the success step; failure keeps the step and shows the error. Loading always ends. |
| TwoFactorSetup.TwoFactorSetup.HandleDisable2FA | src/components/auth/TwoFactorSetup.tsx:50-69 | A declined confirmation changes nothing. Success returns to the initial step with the QR URL, key and code cleared. Failure keeps everything and shows the error. |
| TwoFactorSetup.UserNotFoundMessage | src/components/auth/TwoFactorSetup.tsx:39 | The missing-user error is shown as "User not found". |
| TwoFactorSetup.VerifyNeedsSixDigits | src/components/auth/TwoFactorSetup.tsx:184 | The verify button is enabled only for exactly six digits and no pending call. |
| LoginForm.LoginForm.constructor | src/components/auth/LoginForm.tsx:20-23 | The form starts with no error, not loading, the 2FA screen hidden and an empty code. |
| LoginForm.LoginForm.CanSubmitCode | src/components/auth/LoginForm.tsx:101 | "Verify Code" is enabled iff the code has exactly six characters and no call is pending. |
| LoginForm.LoginForm.OnSubmit | src/components/auth/LoginForm.tsx:34-62 | If 2FA is enabled and the 2FA screen is not yet shown, the screen appears with no token, no navigation and loading off. Otherwise the token and session are stored and Admin goes to `/admin/dashboard`, everyone else to `/products`. On failure the error message is shown, loading goes off and the session is untouched. |
| LoginForm.LoginForm.Handle2FASubmit | src/components/auth/LoginForm.tsx:64-68 | Only the "coming soon" error is set. |
| LoginForm.LoginForm.OnCodeChange | src/components/auth/LoginForm.tsx:88-101 | The stored code is the digits of the input, and if the button is then enabled the code is six digits and no call is pending. |
| LoginForm.LoginForm.BackToLogin | src/components/auth/LoginForm.tsx:111 | "Back to login" hides the 2FA screen and nothing else. |
| LoginForm.RoleRouting | src/components/auth/LoginForm.tsx:53-57 | Admins, and only admins, go to `/admin/dashboard`; customers go to `/products`. |
| ProtectedRoute.Guard | src/components/auth/ProtectedRoute.tsx:27-65 | Children render iff not loading, authenticated, with a user of the required role if any, and then nothing navigates. While loading there is a spinner and no redirect. A signed-out visitor goes to `redirectTo` (default `/login`); a wrong role goes to `/unauthorized`. |
| ProtectedRoute.NoRoleAdmitsAnyUser | src/components/auth/ProtectedRoute.tsx:38-61 | Without a required role every signed-in user is admitted; with one, exactly the users of that role are. |
| ProtectedRoute.SignedOutGoesToLogin | src/components/auth/ProtectedRoute.tsx:17-35 | A signed-out visitor with no `redirectTo` is sent to `/login`. |
| DashboardSidebar.ActiveMeansBelow | src/components/dashboard/DashboardSidebar.tsx:70 | An item is active iff the path is its href, or the href followed by `/` and more. |
| DashboardSidebar.ActiveExamples | src/components/dashboard/DashboardSidebar.tsx:70 | `/orders` is active on `/orders/42` but not on `/ordersx`. |
| DashboardSidebar.AtMostOneActive | src/components/dashboard/DashboardSidebar.tsx:18-70 | No path makes two of the three items active. |
| DashboardSidebar.Avatar | src/components/dashboard/DashboardSidebar.tsx:55 | The avatar is the first character of each name as typed, one per non-empty name, in order; upper-casing it gives `getInitials`. |
| DashboardSidebar.Render | src/components/dashboard/DashboardSidebar.tsx:36-93 | Nothing renders without a user. Each item's highlight is its `isActive`. |
| DashboardSidebar.HandleLogout | src/components/dashboard/DashboardSidebar.tsx:13-16 | Logs out through the store (token dropped, session slots removed, no user, not authenticated, not loading) and navigates to `/`. |
| InputField.DashedNoSpace | src/components/ui/Input.tsx:29 | The dashed text contains no whitespace. |
| InputField.DashedFrom | src/components/ui/Input.tsx:29 | Every character of the dashed text is a dash or a character of the input. |
| InputField.DashedRun | src/components/ui/Input.tsx:29 | A maximal run of whitespace between two texts becomes exactly one dash: text not ending in whitespace, a non-empty run, then text not starting with it, dash to the two dashed texts joined by `-`. |
| InputField.DashedIdentity | src/components/ui/Input.tsx:29 | Text without whitespace is left unchanged. |
| InputField.DashedIdempotent | src/components/ui/Input.tsx:29 | Dashing twice equals dashing once. |
| InputField.LabelSlug | src/components/ui/Input.tsx:29 | The derived id has no whitespace and no upper-case letter. |
| InputField.LabelSlugIdempotent | src/components/ui/Input.tsx:29 | Deriving an id from a derived id gives it back. |
| InputField.SlugExample | src/components/ui/Input.tsx:29 | "A  b" becomes "a-b": lower-cased, and the run of spaces becomes one dash. |
| InputField.InputId | src/components/ui/Input.tsx:29 | A non-empty `id` wins. Otherwise a given label yields its slug, and with neither there is no id. |
| InputField.DerivedIdStable | src/components/ui/Input.tsx:29 | A derived id, used as the label of an input without `id`, yields itself. |
| InputField.Render | src/components/ui/Input.tsx:22-88 | The error line shows iff the error is non-empty, and the helper line iff the helper is non-empty and there is no error, so never both. The type defaults to `text` and `fullWidth` to false. |
| OrderTimeline.StatusIndex | src/components/orders/OrderTimeline.tsx:9-22 | Cancelled is −1; every other status is 0–3 and names its own step. |
| OrderTimeline.TrackingShown | src/components/orders/OrderTimeline.tsx:93 | The tracking number shows iff it is non-empty and the order is Shipped or Delivered. |
| OrderTimeline.Render | src/components/orders/OrderTimeline.tsx:24-104 | A cancelled order gets the cancelled view and no steps. Otherwise there are four steps: step i is complete iff i ≤ index and current iff i = index. |
| OrderTimeline.CompletedPrefix | src/components/orders/OrderTimeline.tsx:56 | Every step before a complete one is complete. |
| OrderTimeline.ExactlyOneCurrent | src/components/orders/OrderTimeline.tsx:57 | A non-cancelled order has exactly one current step, the step of its status. |
| OrderTimeline.ProgressMonotone | src/components/orders/OrderTimeline.tsx:56 | Moving an order to a later status never un-completes a step. |
| ProductCard.StockBadge | src/components/products/ProductCard.tsx:13-49 | Out of stock iff the quantity is 0; low stock iff 0 < quantity ≤ reorder level; otherwise no badge. |
| ProductCard.StockClassesExclusive | src/components/products/ProductCard.tsx:13-14 | A product is never both low stock and out of stock. |
| ProductCard.NegativeStockNoBadge | src/components/products/ProductCard.tsx:13-14 | A negative quantity gets neither badge. |
| ProductCard.ImageSource | src/components/products/ProductCard.tsx:21-34 | The image shows iff the URL is non-empty; otherwise the placeholder shows. |
| ProductCard.CardHref | src/components/products/ProductCard.tsx:17 | The card links to `/products/<id>`, the path the product API reads the product from. |
| QueryParams.Lookup | src/lib/api/products.ts:14-24 | `get` finds a value iff the name is among the keys. |
| QueryParams.CollectLookup | src/lib/api/products.ts:16-22 | With distinct names, each candidate's value is what `get` returns for its name, and other names are absent. |
| QueryParams.CollectOrder | src/lib/api/products.ts:16-22 | The collected names keep the candidates' order. |
| QueryParams.CollectDistinct | src/lib/api/products.ts:16-22 | No name is collected twice. |
| QueryParams.CollectStep | src/lib/api/products.ts:16-22 | Considering one more candidate appends its pair when it has a value and nothing otherwise. |
| QueryParams.CollectEmpty | src/lib/api/products.ts:16-22 | Nothing is collected iff no candidate has a value. |
| ProductsApi.NumberParam | src/lib/api/products.ts:16-21 | A number filter is sent iff it is present and not 0. |
| ProductsApi.TextParam | src/lib/api/products.ts:18-19 | A text filter is sent, as itself, iff it is present and non-empty. |
| ProductsApi.FlagParam | src/lib/api/products.ts:22 | `inStockOnly` is sent, as `true`, iff it is true. |
| ProductsApi.AppendNumber | src/lib/api/products.ts:16-21 | A number filter's append adds its decimal text exactly when the filter is truthy. |
| ProductsApi.AppendText | src/lib/api/products.ts:18-19 | A text filter's append adds it exactly when it is non-empty. |
| ProductsApi.CandidateNames | src/lib/api/products.ts:16-22 | The candidates are the seven filters, in the order the code tests them. |
| ProductsApi.GetProducts | src/lib/api/products.ts:13-26 | The sequential appends produce exactly the candidates that have a value, on `/products`. |
| ProductsApi.ProductParamValues | src/lib/api/products.ts:16-22 | The server reads back each filter's value, and nothing for a falsy filter. |
| ProductsApi.ProductParamOrder | src/lib/api/products.ts:16-22 | The order is page, pageSize, category, search, minPrice, maxPrice, inStockOnly, with no repeats. |
| ProductsApi.FalsyFiltersSendNothing | src/lib/api/products.ts:16-22 | The list is empty iff every filter is falsy. |
| ProductsApi.NoFiltersSendNothing | src/lib/api/products.ts:13-22 | The default `{}` sends no parameter. |
| ProductsApi.ProductPath | src/lib/api/products.ts:32-56 | The by-id, update and delete path is `/products/<id>`. |
| ProductsApi.ProductPathInjective | src/lib/api/products.ts:32 | Different ids give different paths. |
| OrdersApi.StatusParam | src/lib/api/orders.ts:18 | A status filter is sent iff it is given, under its wire name. |
| OrdersApi.GetOrders | src/lib/api/orders.ts:13-21 | The appends produce exactly the candidates that have a value, on `/orders`. |
| OrdersApi.OrderParamValues | src/lib/api/orders.ts:16-18 | Page and size are read back when truthy, and the status whenever given. |
| OrdersApi.OrderParamOrder | src/lib/api/orders.ts:16-18 | The order is page, pageSize, status, with no repeats. |
| OrdersApi.NoFiltersSendNothing | src/lib/api/orders.ts:13-18 | The default `{}` sends no parameter. |
| OrdersApi.OrderPath | src/lib/api/orders.ts:28 | The by-id path is `/orders/<id>`. |
| OrdersApi.StatusPath | src/lib/api/orders.ts:47 | The status-update path is `/orders/<id>/status`. |
| OrdersApi.CancelPath | src/lib/api/orders.ts:55 | The cancel path is `/orders/<id>/cancel`. |
| OrdersApi.CustomerOrdersPath | src/lib/api/orders.ts:63 | The customer-history path is `/customers/<id>/orders`. |
| OrdersApi.OrderPathsDistinct | src/lib/api/orders.ts:47-63 | A status update never shares a cancel's path, and each path names exactly one order or customer. |
| NotificationsApi.GetNotifications | src/lib/api/notifications.ts:12-31 | Page and size default to 1 and 20. userId, page and pageSize are always sent, and `isRead` is appended iff defined. |
| NotificationsApi.NotificationParamShape | src/lib/api/notifications.ts:17-26 | The three fixed entries come first in that order, and the length is 3 or 4. `isRead` is last iff defined, and `false` is sent. |
| NotificationsApi.DefaultPaging | src/lib/api/notifications.ts:15-16 | Without paging arguments, page 1 and pageSize 20 are sent. |
| NotificationsApi.ReadPath | src/lib/api/notifications.ts:39 | The mark-read path is `/notifications/<id>/read`. |
| NotificationsApi.ReadAllPath | src/lib/api/notifications.ts:48 | The mark-all path carries the user id in its query. |
| NotificationsApi.DeletePath | src/lib/api/notifications.ts:56 | The delete path is `/notifications/<id>`. |
| NotificationsApi.PreferencesPath | src/lib/api/notifications.ts:65-78 | The preferences path is `/notifications/preferences/<userId>`. |
| NotificationsApi.NotificationPathsInjective | src/lib/api/notifications.ts:39-65 | Each path names exactly one notification or user. |

## Left out

- **Scope.**
  - The cart store: `src/lib/store/cartStore.ts` is not part of this model.
  - Presentation markup, CSS classes (apart from the strength-bar colours) and icons.
- **I/O and transport.**
  - HTTP is replaced by the answer each call is given. This covers the base URLs, the
    axios instances, the `POST /auth/refresh` body, and re-sending the retried request.
  - The retried request is re-sent with the default `axios` export
    (src/lib/api/client.ts:76), which has none of the interceptors registered at
    client.ts:97-100. A 401 on the retry is therefore rejected by axios directly and never
    reaches the handler; the model does not represent this second path, and
    `SecondUnauthorizedIsRejected` covers only a marked configuration that does reach the
    handler.
  - `localStorage` is assumed present whatever `typeof window` says. The response handler
    reads and clears it (src/lib/api/client.ts:58, 80) without checking for a browser; where
    it is undefined, as in a server render, the source rejects with a ReferenceError, which
    the model does not represent.
  - The refresh call goes through the same interceptors. A 401 from the refresh endpoint
    itself, and several requests refreshing at once, are not modelled.
  - Query strings are lists of pairs: `URLSearchParams.toString` and percent-encoding are
    not modelled.
  - Redirects and `router.push` are returned as the target path.
  - `getProducts` and `getOrders` test and append each number or text filter inline; the
    model makes each such test-and-append a call of `AppendNumber` or `AppendText`, in the
    source's order.
- **Intl, dates and floating point.** `formatCurrency`, `formatDate`, the timeline's
  progress-bar width and the `readAt` timestamps are out; the time is a `now` parameter.
  Prices and page numbers are integers, so the `toString` of a fractional price is out.
- **Timers.** `debounce`, `sleep` and the forms' redirect timers are out.
- **Async work.** React state batching and the loading states that exist only while a
  call is pending are not modelled; each handler is one step from its start to the
  settled answer.
- **Text.**
  - Case mapping covers ASCII letters only; JavaScript's full Unicode case mapping is not
    modelled.
  - Strings are sequences of characters, not UTF-16 code units, so lengths of text outside
    the Basic Multilingual Plane differ.
  - The inputs' browser-side `maxLength={6}` cap is not modelled; the filter and the
    button rule are.
- **zod.**
  - The semantics are those of zod 3: every string check runs and is reported, and a
    refinement runs unless a field was rejected outright.
  - Issues are identified by field and rule. The length-rule messages are not carried, but
    the regex and refinement messages are.
  - The e-mail rule is the parameter `isEmail`.
- AuthStore.RestoredUser: JSON decoding is the parameter `parse`, which yields a user or
  fails. A stored text that decodes to `null` would leave `initializeAuth` authenticated
  with a null user; that outcome is not representable in the model.
- AuthStore.LoginSurvivesReload: holds only for users whose serialisation is non-empty and
  round-trips through `parse`. JSON itself is not modelled.
- RegisterForm.CalculatePasswordStrength: the `useState` initialiser that computes the
  score once at mount is left out; the scorer and its labels are modelled.
- ProductCard.StockBadge: formatting of price, brand and description is not modelled.
- TwoFactorSetup.TwoFactorSetup.HandleVerify2FA: the "Please log in" screen is not
  modelled. The component renders it instead of the form when there is no user, so the
  handler's no-user branch is modelled as written.
- The SignalR hub and service, the cart drawer, the notification centre and provider, and
  the forgot-, reset- and change-password forms are outside this model. The forms reuse
  the schemas above only through network calls.
