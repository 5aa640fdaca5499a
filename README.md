# Subscription form and subscriptions page, modelled in Dafny

This project models the two pieces of local logic in a trading site's React front
end that are more than rendering:

- **The admin "New Subscription" form** (`NewSubscription` module,
  `new_subscription.dfy`). A schema makes six fields required, each with a maximum
  length: image, price, title and validity 32; planId 256; description 526. The
  component keeps a record of `values`, `errors`, `touched`, `isValid` and
  `isChanged`. This is the datatype `FormState`, which handlers replace wholesale
  through updater functions: `Changed` for `onChange`, `PictureUploaded` for
  `onUploadPicture`, `Revalidated` for the validation effect. Around it sits the class
  `Form`, which also holds the loading flag, the notifications enqueued, the create
  requests sent and the reloads asked of the parent. `HasError` is the page's
  `hasError`. `SubmitEnabled` is the negated `disabled` expression of the
  "Create Subscription" button.
- **The user subscriptions page** (`Subscriptions` module, `subscriptions.dfy`). The
  class `SubscriptionsList` has one field per state hook, plus the notification
  queue, the API requests sent and the `reloadData` calls. Every handler is a method
  that takes the API or payment-provider result as a parameter. Each method is
  proved against a pure transition on the `View` datatype (`Fetched`,
  `TierSelected`, `PaymentApproved`, `Cancelled`, `SponsorRedeemed`, the dialog
  closes). `Run` folds those transitions over any event sequence, and the lemmas
  about whole runs use it.

`api.dfy` (module `Api`) holds the shapes both use: `ApiResult` for
`{ error, message, data }`, and `Notice` with its variant for the snackbar.
`userId` and `adminId` are parameters.

What the proofs establish, in the system's terms:

- The two submit checks agree in one direction only. A settled, valid and changed
  form can always be submitted. The image is never touched, though, so `hasError('image')`
  is always false. As a result, the image's 32-character maximum never blocks the
  button. Filling every text field correctly and uploading any non-empty picture
  enables the button. `isValid` is then true only if the picture fits in 32 characters,
  which no encoded picture does.
- A failed sponsor-code redemption still enqueues a success notice with the
  server's message and reloads, like a successful one. The error branch of
  `onGetSponsorCode` has no `return`.

## Model

| member | source | states |
|---|---|---|
| `NewSubscription.MaxLength` | src/views/admin/subscriptions/components/NewSubscription.js:13-50 | the schema's maxima: 256 exactly for planId, 526 exactly for description, 32 for image, price, title and validity |
| `NewSubscription.FieldMessages` | src/views/admin/subscriptions/components/NewSubscription.js:13-50 | a value gets no message exactly when it is non-empty and within its field's maximum; "is required" exactly when empty; "too long" exactly when over the maximum |
| `NewSubscription.Validate` | src/views/admin/subscriptions/components/NewSubscription.js:13-50 | a field has an error entry iff its value fails the schema; the entry is exactly that field's messages (`[IsRequired]` when empty, `[TooLong(max)]` when over its maximum) and never empty; no entry at all iff all six values pass |
| `NewSubscription.Revalidated` | src/views/admin/subscriptions/components/NewSubscription.js:93-101 | after the effect `isValid` holds iff every field is non-empty and within its maximum, `errors` is empty iff `isValid`, and values, touched and isChanged are untouched |
| `NewSubscription.Changed` | src/views/admin/subscriptions/components/NewSubscription.js:103-118 | `onChange(name, v)` sets `values[name] = v`, `touched[name] = true`, `isChanged = true`; every other value, touched flag, the errors and isValid are unchanged |
| `NewSubscription.PictureUploaded` | src/views/admin/subscriptions/components/NewSubscription.js:129-141 | a completed upload changes only `values.image`; touched, isChanged, errors and isValid are unchanged |
| `NewSubscription.HasError` | src/views/admin/subscriptions/components/NewSubscription.js:165-166 | `hasError(f)` implies `touched[f]` and, on a well-formed record, a non-empty error entry for `f`; it is never true for the image |
| `NewSubscription.HasErrorMeansTouchedAndFailing` | src/views/admin/subscriptions/components/NewSubscription.js:165-166 | on a settled record `hasError(f)` holds iff `f` is touched and its value fails the schema; it never holds for the image |
| `NewSubscription.SubmitEnabled` | src/views/admin/subscriptions/components/NewSubscription.js:307 | the button is enabled iff the form changed and every one of the six fields is non-empty and has no `hasError` |
| `NewSubscription.InitialIsWellFormed` | src/views/admin/subscriptions/components/NewSubscription.js:78-91 | the initial record (all values empty, nothing touched, not valid, not changed) is well formed and its button is disabled |
| `NewSubscription.MountedIsWellFormed` | src/views/admin/subscriptions/components/NewSubscription.js:93-101 | once the effect runs on mount the record is settled, invalid, and the button disabled |
| `NewSubscription.RunKeepsInvariant` | src/views/admin/subscriptions/components/NewSubscription.js:93-141 | after any edits and uploads, each followed by its effect, the record stays well formed and settled: the image is never touched and an untouched text field is still empty |
| `NewSubscription.RunValues` | src/views/admin/subscriptions/components/NewSubscription.js:103-141 | after any run every field holds the last value an edit or upload wrote to it |
| `NewSubscription.RunChanged` | src/views/admin/subscriptions/components/NewSubscription.js:103-141 | a run marks the form changed iff it contains an edit; uploads never set `isChanged` |
| `NewSubscription.SettledSubmitGate` | src/views/admin/subscriptions/components/NewSubscription.js:165-166 | on a settled record the button is enabled iff the form changed, all six values are non-empty, and every touched text field is within its maximum |
| `NewSubscription.ValidFormCanSubmit` | src/views/admin/subscriptions/components/NewSubscription.js:307 | a settled, valid, changed form always has its button enabled |
| `NewSubscription.SubmitEnabledMeansTextFieldsAcceptable` | src/views/admin/subscriptions/components/NewSubscription.js:307 | on a settled record, an enabled button means every text field passes the schema (a non-empty text field has been edited, hence touched), and `isValid` then holds iff the image fits its maximum |
| `NewSubscription.UploadKeepsSubmitGate` | src/views/admin/subscriptions/components/NewSubscription.js:129-141 | replacing a non-empty picture by any non-empty one, however long, leaves the button exactly as enabled as before |
| `NewSubscription.ImageLengthNeverBlocksSubmit` | src/views/admin/subscriptions/components/NewSubscription.js:307 | the same holds in every record reachable from mounting |
| `NewSubscription.SubmitEnabledWhileInvalid` | src/views/admin/subscriptions/components/NewSubscription.js:13-19 | from an enabled record, uploading an image longer than 32 characters keeps the button enabled while `isValid` is false |
| `NewSubscription.FilledFormSubmitsAnyPicture` | src/views/admin/subscriptions/components/NewSubscription.js:307 | filling every text field within its maximum and uploading any non-empty picture enables the button, and `isValid` then holds iff the picture has at most 32 characters |
| `NewSubscription.Form.constructor` | src/views/admin/subscriptions/components/NewSubscription.js:77-91 | the component starts with the initial record, not loading, with nothing enqueued, sent or reloaded |
| `NewSubscription.Form.Revalidate` | src/views/admin/subscriptions/components/NewSubscription.js:93-101 | the effect leaves the record settled, as `Revalidated` of the old one |
| `NewSubscription.Form.OnChange` | src/views/admin/subscriptions/components/NewSubscription.js:103-118 | the record becomes `Changed` of the old one and stays well formed |
| `NewSubscription.Form.OnUploadPicture` | src/views/admin/subscriptions/components/NewSubscription.js:120-141 | a read picture becomes the image and nothing else changes; a failed read enqueues the upload error notice and leaves the record exactly as it was |
| `NewSubscription.Form.OnSaveDetails` | src/views/admin/subscriptions/components/NewSubscription.js:143-163 | sends exactly `adminId` and the six current values, ends not loading, reports the server message as error or success, reloads only on success, and leaves the record (values included) unchanged |
| `Subscriptions.Fetched` | src/views/user/subscriptions/Subscriptions.js:51-62 | a failed fetch keeps list and membership and appends one error notice; a successful one replaces both with the response; both end with loading off |
| `Subscriptions.TierSelected` | src/views/user/subscriptions/Subscriptions.js:71-80 | a tier titled exactly "Free Membership" opens only the free dialog and keeps selection and payment dialog; any other tier becomes the selection (its price and planId) and opens the payment dialog |
| `Subscriptions.CreateRequest` | src/views/user/subscriptions/Subscriptions.js:89-96 | the create request takes planId, startTime and nextBilling from the provider's subscription and orderId and subscriptionId from the approval; the approval can be read back from it unchanged |
| `Subscriptions.PaymentApproved` | src/views/user/subscriptions/Subscriptions.js:83-107 | announces the payment, then sends the create request. On API error the payment dialog stays as it was and nothing reloads; on success the dialog closes and one reload starts. Loading ends off either way |
| `Subscriptions.Cancelled` | src/views/user/subscriptions/Subscriptions.js:110-123 | on API error both dialog flags are unchanged; on success both close and exactly one reload starts; loading ends off and the server message is reported either way |
| `Subscriptions.SponsorRedeemed` | src/views/user/subscriptions/Subscriptions.js:125-136 | always ends with loading off, a success notice and one reload; on API error the notices appended are error then success, both with the server message |
| `Subscriptions.PaymentDialogClosed` | src/views/user/subscriptions/Subscriptions.js:186 | closing the payment dialog clears only its own flag |
| `Subscriptions.FreeDialogClosed` | src/views/user/subscriptions/Subscriptions.js:200-210 | closing the free dialog or pressing NO clears only its own flag |
| `Subscriptions.Notified` | src/views/user/subscriptions/Subscriptions.js:192-195 | the payment button's `onError` and `catchError` (lines 192-193) and `onCancel` (line 195) callbacks only append a notice; line 194 sends the selection's planId, covered by `RunSelection` |
| `Subscriptions.LoadingStaysCleared` | src/views/user/subscriptions/Subscriptions.js:39-136 | after the first completed API handler, no sequence of handlers leaves the page loading |
| `Subscriptions.HistoryOnlyGrows` | src/views/user/subscriptions/Subscriptions.js:51-136 | any sequence of handlers only appends notices, requests and reloads; nothing shown or sent is dropped |
| `Subscriptions.RunSelection` | src/views/user/subscriptions/Subscriptions.js:71-80 | after any run the selection, whose planId the checkout sends, is that of the last non-free tier chosen, or the starting selection |
| `Subscriptions.PaymentDialogOpensOnlyOnPaidTier` | src/views/user/subscriptions/Subscriptions.js:71-80 | if a run opens the payment dialog, it chose a tier not titled "Free Membership" |
| `Subscriptions.FreeDialogOpensOnlyOnFreeTier` | src/views/user/subscriptions/Subscriptions.js:71-73 | if a run opens the free dialog, it chose the tier titled "Free Membership" |
| `Subscriptions.RunReloads` | src/views/user/subscriptions/Subscriptions.js:98-136 | a run reloads exactly once per successful payment, once per successful cancellation and once per sponsor redemption, whatever its outcome |
| `Subscriptions.SubscriptionsList.constructor` | src/views/user/subscriptions/Subscriptions.js:39-47 | the page starts loading, both dialogs closed, empty list, membership `''`, selected price and planId `''` |
| `Subscriptions.SubscriptionsList.FetchSubscriptions` | src/views/user/subscriptions/Subscriptions.js:51-62 | the hooks change as `Fetched` says |
| `Subscriptions.SubscriptionsList.OnGetMembership` | src/views/user/subscriptions/Subscriptions.js:64-81 | the hooks change as `TierSelected` says |
| `Subscriptions.SubscriptionsList.OnSuccessPayment` | src/views/user/subscriptions/Subscriptions.js:83-108 | the hooks change as `PaymentApproved` says |
| `Subscriptions.SubscriptionsList.OnCancelSubscription` | src/views/user/subscriptions/Subscriptions.js:110-123 | the hooks change as `Cancelled` says |
| `Subscriptions.SubscriptionsList.OnGetSponsorCode` | src/views/user/subscriptions/Subscriptions.js:125-136 | the hooks change as `SponsorRedeemed` says |
| `Subscriptions.SubscriptionsList.ReloadData` | src/views/user/subscriptions/Subscriptions.js:138 | each `reloadData` call adds exactly one to the reloads counted, and changes nothing else it may modify |
| `Subscriptions.SubscriptionsList.OnClosePaymentDialog` | src/views/user/subscriptions/Subscriptions.js:186 | only the payment dialog flag changes, to false |
| `Subscriptions.SubscriptionsList.OnCloseFreeDialog` | src/views/user/subscriptions/Subscriptions.js:202-208 | only the free dialog flag changes, to false |
| `Subscriptions.SubscriptionsList.OnPaymentError` | src/views/user/subscriptions/Subscriptions.js:192-193 | only an error notice with the provider's error is appended |
| `Subscriptions.SubscriptionsList.OnPaymentCancel` | src/views/user/subscriptions/Subscriptions.js:195 | only the "payment attempt cancelled" info notice is appended |

## Left out

- Rendering: the JSX, styles, Material-UI components, the grid layout and the loading dialog shown while `isLoading` holds. They are presentation only.
- String length units: `Acceptable`, `FieldMessages` and `SubmitEnabled` measure a value by its number of Dafny `char`s, that is Unicode characters, while the validation library and the button's `.length` count UTF-16 code units. Text with characters outside the Basic Multilingual Plane (emoji, for instance) therefore measures shorter in the model than on the page: a title of 17 emoji is 17 long here and 34 long on the page, so the model accepts it where the page reports it too long. Emptiness is unaffected, and so is the image, whose data URL is ASCII.
- The validation library's internals. Presence is modelled as "non-empty" and length as the string's length. The library also treats a whitespace-only string as empty, which is not modelled. Messages are the symbolic `IsRequired` and `TooLong(maximum)`, without the attribute-name prefix the library adds to the text.
- `FileReader` and base64 encoding. The encoded picture is an input string, and a failed read is `None`. On a failed read the promise never resolves, so only the error notice appears.
- `NewSubscription.Form.OnChange` only takes the five text fields as names, because those are the only inputs wired to `onChange`. The image changes only through upload.
- The payment provider SDK: `actions.subscription.get()` and `create()`, and the client options. The approval details and the provider's subscription are parameters of `OnSuccessPayment`. If `get()` is rejected the handler never runs, and that case is not modelled. The plan id sent to checkout is the selection's `planId`; `RunSelection` covers it.
- The analytics event sent by `onGetMembership`, because it is a foreign call.
- `localStorage` reads of `userId` and `adminId`, which are parameters.
- Async interleaving and state updates after unmount. Each handler is one atomic step. The `isLoading = true` set while a request is outstanding cannot be observed within such a step. `reloadData` is counted in `reloads`, and the fetch it starts finishes as a later `FetchSubscriptions` call with its own result.
- The user's membership and the API's tier objects are opaque. Membership is a string, and tiers keep only the title, price and planId the page reads.
- On a failed fetch the page keeps the previous list and membership; they are empty only before the first successful load. `Fetched` models exactly that.
- `src/layouts/web/components/Topbar.js` and `src/views/admin/market/components/Settings.js` are not part of this model. One is presentation and the other static widget configuration.
