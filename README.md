# Admin check, admin guard, trial arithmetic and promo-code entry

A Dafny model of the four pieces of decision logic in this web application.
Everything else in the repository is wiring around Firebase and Stripe.

- **`useAdmin`** (`admin_check.dfy`, module `AdminCheck`). This hook decides whether the signed-in user is an admin.
  - It is the class `AdminHook`, with one method per callback. `OnAuthStateChanged` is the auth observer up to the awaited token fetch. `OnTokenResult` is the rest of that callback once the fetch settles. `OnSnapshot` and `OnSnapshotError` are the document listener. `Teardown` is the effect cleanup.
  - The ghost set `liveDocs` holds the document subscriptions that are open. The object invariant `Valid()` says every live subscription is the one held in `docUnsub`. So at most one is live, and none is out of reach of the handle.
  - The role test (`RoleIsAdmin`, `DocGrantsAdmin`) is checked against an independent definition: the word "admin", in any ASCII casing, with white space on either side.
- **`AdminGuard`** (`admin_guard.dfy`). This component gates the admin pages.
  - `RedirectEffect` returns what the effect does: clear the `sb_admin` cookie and redirect, or nothing.
  - `SelectView` returns which of the four views is rendered.
  - The scenario methods drive an `AdminHook` through whole event sequences and state which view and effect result.
- **`useSubscription`** (`subscription.dfy`, module `Subscription`).
  - The trial functions work on integer milliseconds.
  - The class `SubscriptionHook` holds the auth and snapshot state updates.
- **`PromoCodeModal`** (`promo_code.dfy`, module `PromoCode`). This is the dialog for entering a promo or referral code.
  - It is the class `PromoCodeModal`. Its methods are the open effect, the input's `onChange`, and `handleApply`. `handleApply` is split at its `await` into `ApplyStart` and `ApplyFinish`. The remote redeem result is a parameter of `ApplyFinish`.
- `js_string.dfy` (module `JsString`) models the JavaScript string operations these pieces use: the `\s` / `trim` white-space class, `replace(/\s+/g, '')`, `trim()`, ASCII case mapping and `message || fallback`.

How the model reads the source:

- **No generation guard in `useAdmin`.** Sign-in and the token result are separate events, and the token result carries the user it was fetched for. The source has no per-user generation guard, so the model applies a late result like any other.
  - `StaleClaimScenario`: a late admin claim for an earlier user makes the current user see the protected content.
  - `UserSwitchScenario`: a snapshot of the previous user's document arrives before the new user's token result. `SwitchSettlesScenario` shows the new user's token result replacing that subscription.
  - `LateTokenAfterTeardownScenario`: a token result that arrives after cleanup opens a subscription that nothing disposes.
- **A failed token fetch.** The code records the error and leaves `loading` and `isAdmin` as earlier events left them.
  - On a first sign-in with no other result in between, the guard keeps showing "Checking admin permissions..." and the error is not displayed (`TokenFailureScenario`).
  - A stale admin claim or admin snapshot for an earlier user can have set `isAdmin` and ended loading. The failure then shows the error view (`TokenFailureAfterStaleClaimScenario`).
  - The failure itself never sets `loading` or `isAdmin`.
- **Error view.** The guard shows its error view only to a signed-in admin.
- **Sign-in with `loading` already false.** After an earlier sign-out, `loading` stays false when a new user signs in. So the guard redirects that user home before their own check runs (`SignInAfterSignOutScenario`). The same happens on a direct switch from a user whose check has settled (`UserSwitchScenario`).
- **Snapshot error.** Firestore delivers nothing more on a listener after its error callback. `OnSnapshotError` therefore removes that listener from the live set.
- **Lower-casing.** `toLowerCase` is modelled on ASCII letters only. This gives the same answer as the full mapping for the comparison `=== 'admin'`. No non-ASCII character lower-cases to one of the letters a, d, m, i, n on its own.

## Model

| member | source | states |
|---|---|---|
| `JsString.StripWhitespace` | src/components/ui/PromoCodeModal.tsx:53 | the result has no white space and is never longer than the input |
| `JsString.StripWhitespaceKeeps` | src/components/ui/PromoCodeModal.tsx:53 | a string without white space comes back unchanged |
| `JsString.StripWhitespaceEmptyIff` | src/components/ui/PromoCodeModal.tsx:53 | the result is empty iff the input is all white space |
| `JsString.StripWhitespaceSubMultiset` | src/components/ui/PromoCodeModal.tsx:53 | every character of the result comes from the input |
| `JsString.StripWhitespaceConcat` | src/components/ui/PromoCodeModal.tsx:53 | removing white space from a concatenation removes it from each part |
| `JsString.StripWhitespaceIdempotent` | src/components/ui/PromoCodeModal.tsx:53 | sanitising an already sanitised code changes nothing |
| `JsString.TrimStartShape` | src/hooks/useAdmin.ts:68 | the part cut from the front is white space and the kept part is the rest of the input |
| `JsString.TrimEndShape` | src/hooks/useAdmin.ts:68 | the part cut from the back is white space and the kept part is the start of the input |
| `JsString.Trim` | src/hooks/useAdmin.ts:68 | `trim()` leaves no white space at either end and never lengthens the string |
| `JsString.TrimSplits` | src/hooks/useAdmin.ts:68 | the input is the trimmed string with white space before and after it |
| `JsString.TrimOfPadded` | src/hooks/useAdmin.ts:68 | a word with no white space at its ends, padded by white space, trims back to exactly that word |
| `JsString.TrimNoWhitespace` | src/components/ui/PromoCodeModal.tsx:28 | a string without white space is its own trim |
| `JsString.MessageOr` | src/hooks/useAdmin.ts:76 | the `message or fallback` idiom keeps a non-empty message, otherwise gives the fallback, and is never empty when the fallback is not |
| `AdminCheck.LowerIsAdminIff` | src/hooks/useAdmin.ts:68-69 | a string lower-cases to "admin" iff it is "admin" in some mix of upper and lower case |
| `AdminCheck.RoleIsAdminSplits` | src/hooks/useAdmin.ts:68-69 | a matching role is "admin" in some casing, padded by white space |
| `AdminCheck.PaddedAdminMatches` | src/hooks/useAdmin.ts:68-69 | "admin" in any casing, padded by white space, matches |
| `AdminCheck.RoleIsAdminIff` | src/hooks/useAdmin.ts:68-69 | a string role matches iff it is "admin" in any casing, padded by white space on either side |
| `AdminCheck.SnapshotDecision` | src/hooks/useAdmin.ts:64-71 | a snapshot grants admin iff the document exists and either its role is a string spelling padded "admin" or its `isAdmin` is exactly `true`; a missing document or a non-string role never matches through the role |
| `AdminCheck.AdminHook.constructor` | src/hooks/useAdmin.ts:17-24 | starts signed out, not admin, loading, without error or document subscription, with the auth observer registered |
| `AdminCheck.AdminHook.DisposeHeld` | src/hooks/useAdmin.ts:55 | calling `docUnsub()` closes the held subscription and leaves the handle in place |
| `AdminCheck.AdminHook.OnAuthStateChanged` | src/hooks/useAdmin.ts:24-37 | records the user and clears `error` and `isAdmin`; on sign-out ends loading, disposes the document subscription and clears the handle; on sign-in starts the token fetch and leaves `loading` as it was |
| `AdminCheck.AdminHook.OnTokenResult` | src/hooks/useAdmin.ts:39-84 | a true `admin` claim sets `isAdmin`, ends loading and disposes the subscription with none opened; any other claim sets `loading`, disposes the previous subscription and opens exactly one fresh one; a failed fetch records the message or the default and changes nothing else |
| `AdminCheck.AdminHook.SettleAsAdmin` | src/hooks/useAdmin.ts:45-49 | a true claim sets `isAdmin`, ends loading, disposes the held subscription and clears the handle |
| `AdminCheck.AdminHook.Resubscribe` | src/hooks/useAdmin.ts:53-56 | disposes the held subscription and holds one new subscription, for the user's document, under an id never used before; it is then the only live one |
| `AdminCheck.AdminHook.OnSnapshot` | src/hooks/useAdmin.ts:56-73 | sets `isAdmin` to the snapshot's decision and ends loading |
| `AdminCheck.AdminHook.OnSnapshotError` | src/hooks/useAdmin.ts:74-78 | records the error message or 'Failed to check admin permissions' and ends loading |
| `AdminCheck.AdminHook.Teardown` | src/hooks/useAdmin.ts:87 | the cleanup leaves no document subscription live and unregisters the auth observer |
| `AdminCheck.AtMostOneLiveSubscription` | src/hooks/useAdmin.ts:55-56 | in every reachable state at most one document subscription is live, and it is the one `docUnsub` holds |
| `AdminGuard.RedirectEffect` | src/components/admin/AdminGuard.tsx:11-26 | while loading, nothing; without a user, clear the cookie and go to /login; with a non-admin user, clear the cookie and go to /; nothing exactly when loading or the user is an admin |
| `AdminGuard.SelectView` | src/components/admin/AdminGuard.tsx:28-52 | "checking" iff loading; "redirecting" iff settled and no user or not admin; the error view iff settled, signed in, admin and the error is non-empty; the children otherwise |
| `AdminGuard.EffectMatchesView` | src/components/admin/AdminGuard.tsx:11-36 | the guard redirects (and clears the cookie) exactly when it shows "Redirecting..." |
| `AdminGuard.GuardOnHookState` | src/components/admin/AdminGuard.tsx:36-52 | on any hook state, the children show iff settled, signed in, admin and no error; the error view shows only to a signed-in admin |
| `AdminGuard.ClaimedAdminScenario` | src/hooks/useAdmin.ts:45-50 | with an admin claim the guard shows the children and does not redirect; no document subscription was ever opened and none is live |
| `AdminGuard.RoleFallbackScenario` | src/hooks/useAdmin.ts:52-73 | without the claim, a document role " Admin " lets the user in |
| `AdminGuard.MissingDocScenario` | src/hooks/useAdmin.ts:64-65 | a user without a document is redirected home with no error |
| `AdminGuard.SignOutDuringFallbackScenario` | src/hooks/useAdmin.ts:33-36 | the document subscription is live before the sign-out and none is live after it, and the guard redirects to /login |
| `AdminGuard.TokenFailureScenario` | src/hooks/useAdmin.ts:79-84 | a failed token fetch on first sign-in records the default error and leaves the guard on "checking" |
| `AdminGuard.TokenFailureAfterStaleClaimScenario` | src/hooks/useAdmin.ts:45-47 | after an earlier user's late admin claim, the current user's failed fetch shows the error view with the default message |
| `AdminGuard.SignInAfterSignOutScenario` | src/hooks/useAdmin.ts:24-37 | after a sign-out, the next user to sign in is redirected home before their own check runs |
| `AdminGuard.StaleClaimScenario` | src/hooks/useAdmin.ts:24-50 | an admin claim that arrives after a later sign-in shows the later user the protected content |
| `AdminGuard.UserSwitchScenario` | src/hooks/useAdmin.ts:24-27 | after a user switch the new user is redirected at once, and a stale snapshot of the old document lets them in |
| `AdminGuard.SwitchSettlesScenario` | src/hooks/useAdmin.ts:52-56 | once the new user's token result arrives, the held subscription is a new one on the new user's document, and a missing document redirects them home |
| `AdminGuard.LateTokenAfterTeardownScenario` | src/hooks/useAdmin.ts:87 | a token result after cleanup opens a document subscription: it is held and live while the auth observer is already gone |
| `Subscription.CeilDays` | src/hooks/useSubscription.ts:50-51 | the result is the ceiling of the milliseconds divided by one day |
| `Subscription.TrialDaysRemaining` | src/hooks/useSubscription.ts:46-53 | 0 without a subscription or end date; otherwise 0 iff the end is not after now, and else the number of started days left |
| `Subscription.DaysRemainingNonIncreasing` | src/hooks/useSubscription.ts:50-52 | with the end date fixed, the days remaining never increase as time passes |
| `Subscription.TrialActiveIff` | src/hooks/useSubscription.ts:55-58 | the trial is active iff there is a subscription whose status is `trial` and whose end date is strictly after now |
| `Subscription.SubscriptionHook.constructor` | src/hooks/useSubscription.ts:21-23 | starts with no user, no record, loading, and no document listener |
| `Subscription.SubscriptionHook.OnAuthStateChanged` | src/hooks/useSubscription.ts:26-41 | records the user; sign-out clears the record and ends loading; sign-in opens one more listener and keeps the record and loading flag |
| `Subscription.SubscriptionHook.OnSnapshot` | src/hooks/useSubscription.ts:30-34 | an existing document replaces the record, a missing one leaves it; loading ends either way |
| `Subscription.SubscriptionHook.Teardown` | src/hooks/useSubscription.ts:43 | only the auth observer is unregistered |
| `PromoCode.ApplyEnabledIffNonEmpty` | src/components/ui/PromoCodeModal.tsx:65 | for a typed code, Apply is enabled iff nothing is loading and the code is non-empty |
| `PromoCode.AppliedCodeOfTyped` | src/components/ui/PromoCodeModal.tsx:34 | for a typed code, `onApplied` receives that code upper-cased, of the same length and with no lower-case ASCII letter |
| `PromoCode.PromoCodeModal.constructor` | src/components/ui/PromoCodeModal.tsx:14-16 | starts with an empty code, not loading and without error |
| `PromoCode.PromoCodeModal.SetOpen` | src/components/ui/PromoCodeModal.tsx:19-25 | opening the dialog resets the code to empty and the error to none; any other prop change leaves them |
| `PromoCode.PromoCodeModal.OnChange` | src/components/ui/PromoCodeModal.tsx:53 | the stored code is the input without white space, so it never holds any |
| `PromoCode.PromoCodeModal.ApplyStart` | src/components/ui/PromoCodeModal.tsx:27-33 | an empty trimmed code changes nothing; otherwise it sets loading, clears the error and sends the code |
| `PromoCode.PromoCodeModal.ApplyFinish` | src/components/ui/PromoCodeModal.tsx:33-40 | on success reports the sent code trimmed and upper-cased and asks to close; on failure records the message or 'Failed to apply code' and stays open; loading ends in both cases |
| `PromoCode.PromoCodeModal.Render` | src/components/ui/PromoCodeModal.tsx:43-66 | a closed dialog renders nothing; an open one shows the code and disables the input and Cancel while loading; it shows the error's own text iff the error is non-empty; it disables Apply unless Apply is enabled; the Apply label is "Applying…" iff loading, "Apply" otherwise |
| `PromoCode.ApplyScenario` | src/components/ui/PromoCodeModal.tsx:27-41 | typing a code with white space around and inside it and applying it successfully reports the code without white space, upper-cased, asks to close and ends loading |

## Left out

- Logging: every `console.log` and `console.error` call in `useAdmin`. They only observe.
- Asynchrony in `useAdmin` beyond the await of the token fetch. Firestore and the auth SDK decide the order of callbacks, so any order the methods' preconditions allow is modelled.
- Firebase and Firestore themselves: the token fetch, the document reads and the sign-in state. Their results are event parameters.
- The document fields other than `role` and `isAdmin`, and token claims other than `admin`.
- `AdminGuard`: the cookie write and `router.replace` are performed by the browser. The model returns them as an `Effect` value.
- `AdminGuard`: when the effect runs is decided by React's dependency list. The model gives the effect's decision for any values.
- `Subscription.TrialDaysRemaining`: computes on exact integers. `Math.ceil` on the floating-point quotient gives the same result for realistic millisecond values.
- `Subscription.TrialDaysRemaining`: the trial end is an integer millisecond count. Conversion of a stored Firestore value through `new Date(...)` is not part of this model.
- `Subscription.SubscriptionHook.OnAuthStateChanged`: no claim is made about closing the document listeners it opens. The unsubscribe it returns is discarded, so the listeners are only recorded.
- `PromoCode.AppliedCode`: upper-cases ASCII letters only. JavaScript's `toUpperCase` also maps non-ASCII letters (for example "ß" becomes "SS").
- `PromoCode.PromoCodeModal.ApplyStart`: requires that no request is in flight. Its only caller is the Apply button, which is disabled while loading.
- `PromoCode.PromoCodeModal.ApplyFinish`: does not model an exception thrown by the caller's `onApplied` or `onClose` callbacks.
- The dialog's focus timer, styling, what the Cancel button and backdrop clicks do (both call `onClose`), and the input's `pattern` and `maxLength` attributes. The browser applies these.
- `useAuth`, the network clients (`adminApi`, `stripeClient`, `referralsClient`), the Next.js configuration and the page components. They are SDK glue, `fetch` wrappers, static tables or rendering.
