# Pandit Ji: session gate, route table, pandit directory, booking dialog, auth form, navigation bar

A Dafny model of the decision logic in the Pandit Ji web client. In this app, requesters ("users") book
service providers ("pandits"). The model covers these parts:

- **Access gate** (`AccessGate`, `protected_route.dfy`). This is the `ProtectedRoute` wrapper. From the
  session (`loading`, `user`, `profile`) and its two flags `requirePandit` and `requireUser`, its effect
  picks a redirect and its render picks a spinner, nothing, or the children. The two chains of
  conditions are proved to agree.
- **Route table** (`Routes`, `routes.dfy`). This is the path → page/guard table of the app. `Visit` gives
  the redirect the app performs on arriving at a path, from the route's guard or from the auth page's own
  redirect. The lemmas show that every redirect lands on a declared route and that redirects settle
  within two steps. They also tie the navigation bar's links to the gate.
- **Pandit directory** (`Directory`, `directory.dfy`, with the string operations in `Text`). This is the
  case-insensitive search over name, specialization and address. The filter is shown to select exactly
  the matching pandits, in fetched order.
- **Booking dialog** (`Booking`, `booking.dfy`, with dates in `Dates`). It covers the offered choice
  lists, the required-field check, and the row inserted into `bookings`, including the two-hour total
  and the `yyyy-MM-dd` date with its read-back. It also covers the cost panel and the page state
  (`BookingPage`) that the "Book Now", form and "Submit Booking" handlers update.
- **Auth page** (`AuthScreen`, `auth.dfy`). It covers the redirect for a signed-in visitor, sign-in versus
  sign-up, the blank-name check, the outcomes, and the form state (`AuthForm`). The form state includes
  every write to `loading`.
- **Navigation bar** (`Navigation`, `navigation.dfy`). It covers the desktop and mobile links by session
  and role, the account panel, the menu toggle and sign-out.

The session data (`Session`, `session.dfy`) keeps two separate role columns. The gate reads `isPandit`
(`is_pandit`). The navigation bar reads `userType` (`user_type`). `Routes.RolesAgree` names the
condition under which they agree. Calls to the database and to the authentication provider are not
modelled. Their answers are parameters: `FetchReply`, `insertSucceeds`, `AuthReply` and
`signOutResolves`. Navigation is a returned path.

What the code checks, and what it leaves unchecked:

- At submission the booking handler checks only that puja type, date, time and address are present. It
  does not compare the puja type or the time with the offered lists, and it does not reject a past date
  (`Booking.SubmitChecksPresenceOnly`).
- Past days are refused only by the calendar. It also refuses today at any moment after midnight,
  because it compares a day as its midnight with the current instant (`Dates.SelectableDaysAreNotPast`).
- The booking handler does not check that the selected pandit still exists, or that the requester is not
  that pandit.
- The client has no cart contents, and no operations to cancel, list or confirm bookings. The shop and
  bookings pages are placeholders.
- The navigation bar decides the role by `user_type`; the gate decides it by `is_pandit`.

## Model

| member | source | states |
|---|---|---|
| `AccessGate.Redirect` | src/components/ProtectedRoute.tsx:15-32 | No navigation while loading. `/auth` exactly when settled with no user. `/dashboard` exactly when a requester profile is on a pandit-only view. `/pandit-dashboard` exactly when a pandit profile is on a requester-only view. No other target. |
| `AccessGate.Render` | src/components/ProtectedRoute.tsx:34-54 | Spinner exactly while loading. Children exactly when settled, signed in, and neither role mismatch holds. |
| `AccessGate.EffectAgreesWithRender` | src/components/ProtectedRoute.tsx:15-54 | Children render iff the session is settled and the effect does not navigate. The render is blank iff the effect navigates. |
| `AccessGate.PendingNeverRedirects` | src/components/ProtectedRoute.tsx:15-40 | While loading: spinner and no redirect, whatever the user and profile. |
| `AccessGate.MissingProfilePassesEveryGuard` | src/components/ProtectedRoute.tsx:22-30 | A signed-in user whose profile is still null gets the children with no redirect, under any flags. |
| `AccessGate.UnflaggedAdmitsEverySignedInUser` | src/components/ProtectedRoute.tsx:11-30 | With both flags at their default false, every signed-in user sees the children. |
| `AccessGate.BothFlagsAdmitNoLoadedProfile` | src/components/ProtectedRoute.tsx:22-30 | With both flags set, no loaded profile gets through. The target depends only on `is_pandit`. |
| `Routes.TableShape` | src/App.tsx:28-57 | `/` and `/auth` are unguarded. `/pandit-dashboard` alone is pandit-only. `/dashboard`, `/shop`, `/book-pandit` and `/bookings` are requester-only. No route sets both flags. A path reaches NotFound iff it is undeclared. |
| `Routes.RedirectsLandOnRoutes` | src/App.tsx:28-57 | Every redirect, from the gate or from the auth page, targets a declared route, never NotFound. |
| `Routes.AtMostOneRoleRedirect` | src/App.tsx:31-40 | From a guarded path with a loaded profile, a role redirect's target neither redirects again nor blanks its children. |
| `Routes.SettlesWithinTwoSteps` | src/App.tsx:28-57 | For every session and path, two steps of redirects reach a path that does not redirect. |
| `Routes.PanditOnAuthPageTakesTwoSteps` | src/pages/Auth.tsx:26-30 | A signed-in pandit on `/auth` goes to `/dashboard` and then to `/pandit-dashboard`, where it stays. |
| `Routes.NavigationLinksAreRoutes` | src/components/Navigation.tsx:37-96 | Every link target of the bar is a declared route. |
| `Routes.AgreeingRolesFollowLinksWithoutRedirect` | src/components/Navigation.tsx:40-59 | When `user_type` is 'pandit' exactly for `is_pandit` profiles, no link of the bar leads to a redirect. |
| `Routes.DisagreeingPanditIsBouncedByEveryLink` | src/components/Navigation.tsx:40-59 | A loaded `is_pandit` profile whose `user_type` is not 'pandit' gets the four requester links. Every one of them redirects to `/pandit-dashboard`. |
| `Text.Includes` | src/pages/BookPandit.tsx:178-180 | `includes` is true iff the query occurs as a contiguous block at some position. |
| `Text.TrimEmptyIffBlank` | src/pages/Auth.tsx:53 | `trim()` yields the empty string iff every character is JavaScript whitespace. |
| `Directory.Filter` | src/pages/BookPandit.tsx:177-181 | A pandit is in the result iff it was fetched and its lower-cased name, non-null specialization or non-null address contains the lower-cased query. The result is no longer than the input. |
| `Directory.FilterCounts` | src/pages/BookPandit.tsx:177-181 | Each matching pandit occurs as often as it was fetched. Non-matching pandits do not occur. |
| `Directory.FilterSelectsKeptPositions` | src/pages/BookPandit.tsx:177-181 | The k-th shown pandit is the pandit at the k-th matching position of the fetched list. Positions are increasing and every match is included, so the result is an order-preserving selection. |
| `Directory.FilterKeepsNewestFirst` | src/pages/BookPandit.tsx:83-90 | A list ordered newest-first by `created_at` stays newest-first after filtering. |
| `Directory.EmptyQueryKeepsAll` | src/pages/BookPandit.tsx:177-181 | The empty query shows the whole fetched list. |
| `Directory.FilterIgnoresQueryCase` | src/pages/BookPandit.tsx:178-180 | Queries that lower-case alike give the same result. |
| `Directory.FilterByLoweredQuery` | src/pages/BookPandit.tsx:178-180 | A query gives the same cards as its lower-cased form. |
| `Directory.NullFieldsNeverMatch` | src/pages/BookPandit.tsx:179-180 | With null specialization and address, a pandit matches iff its name contains the query. |
| `Directory.FilterIdempotent` | src/pages/BookPandit.tsx:177-181 | Filtering again with the same query changes nothing. |
| `Directory.VaranasiSearch` | src/scripts/populateTestData.ts:56-90 | Over the three seeded pandits, "Varanasi" finds only the one whose address is Varanasi. |
| `Dates.SelectableDaysAreNotPast` | src/pages/BookPandit.tsx:339 | A day the calendar allows lies after today, or is today at exactly midnight. |
| `Dates.FormatIsoRoundTrip` | src/pages/BookPandit.tsx:141 | The `yyyy-MM-dd` text of every calendar date reads back as that date. |
| `Dates.FormatIsoLength` | src/pages/BookPandit.tsx:141 | Before year 10000 the text is exactly ten characters. |
| `Booking.ChoicesAreNonEmpty` | src/pages/BookPandit.tsx:39-59 | There are 13 puja types and 15 time slots. Every choice is non-empty, so a chosen value passes the presence check. |
| `Booking.TotalAmount` | src/pages/BookPandit.tsx:146 | An amount exists iff the rate is non-null and non-zero. The amount is even, and half of it is the rate. |
| `Booking.SeedRateTotal` | populate-data.js:124 | A rate of 1500 books 3000. |
| `Booking.Prepare` | src/pages/BookPandit.tsx:121-147 | Skip iff there is no user or no selected pandit. Missing information iff both exist and a required field is empty. Otherwise a `pending` row for that user and that pandit's id. |
| `Booking.ReadyRowRecordsForm` | src/pages/BookPandit.tsx:137-147 | The inserted row's date reads back as the form's date. Type, time and address are copied. Special requirements are null iff empty, else copied. The total is the two-hour amount. |
| `Booking.SubmitChecksPresenceOnly` | src/pages/BookPandit.tsx:122-131 | A puja type and a time outside the offered lists, and a date the calendar now refuses, still produce an insert. |
| `Booking.ZeroRateShowsStrayZero` | src/pages/BookPandit.tsx:382-387 | As written, a zero rate renders the text "0" in place of the panel, while no amount is booked. |
| `Booking.Estimate` | src/pages/BookPandit.tsx:382-387 | The panel is shown iff a pandit is selected and a total will be booked. It shows exactly that total and never a stray "0". |
| `Booking.EstimateDiffersOnlyAtZeroRate` | src/pages/BookPandit.tsx:382-387 | The intended panel differs from the panel as written iff the selected pandit's rate is 0. |
| `Booking.PanelShowsBookedTotal` | src/pages/BookPandit.tsx:146 | The intended panel is shown iff the row that a submission would insert carries a total, and it shows that total. |
| `Booking.BookingPage.constructor` | src/pages/BookPandit.tsx:64-78 | Empty list, loading, empty query, no selection, empty form, dialog closed, nothing inserted. |
| `Booking.BookingPage.FinishLoading` | src/pages/BookPandit.tsx:80-104 | Loading ends. The list becomes the fetched rows, or empty for null data, or stays as it was on error. |
| `Booking.BookingPage.EditSearchQuery` | src/pages/BookPandit.tsx:216-221 | The query becomes the typed text. |
| `Booking.BookingPage.CostPanel` | src/pages/BookPandit.tsx:382-391 | The dialog's panel, in its corrected form: never a stray "0", shown iff the selected pandit's rate gives a total, and showing that total. |
| `Booking.BookingPage.HandleBookPandit` | src/pages/BookPandit.tsx:106-119 | Without a user nothing changes and the dialog stays as it was. With a user: that pandit is selected, `panditId` becomes its id, the other fields are kept, and the dialog opens. |
| `Booking.BookingPage.SelectPujaType` | src/pages/BookPandit.tsx:305-307 | Only the puja type changes. |
| `Booking.BookingPage.PickDate` | src/pages/BookPandit.tsx:335-341 | Only the date changes, and only to a day the calendar allows. |
| `Booking.BookingPage.SelectTime` | src/pages/BookPandit.tsx:348-350 | Only the time changes. |
| `Booking.BookingPage.EditAddress` | src/pages/BookPandit.tsx:368 | Only the address changes. |
| `Booking.BookingPage.EditSpecialRequirements` | src/pages/BookPandit.tsx:378 | Only the special requirements change. |
| `Booking.BookingPage.CloseDialog` | src/pages/BookPandit.tsx:393-400 | The dialog closes and the form is kept. |
| `Booking.BookingPage.SubmitBooking` | src/pages/BookPandit.tsx:121-175 | A skipped or incomplete submission changes nothing. A successful insert records exactly the prepared row, closes the dialog and empties the form. A failed insert keeps the dialog and the form. No insert is in flight afterwards, and an open dialog still belongs to the selected pandit. |
| `AuthScreen.AuthRedirect` | src/pages/Auth.tsx:26-30 | A signed-in visitor is sent to `/dashboard`. Nobody else is redirected. |
| `AuthScreen.Submission` | src/pages/Auth.tsx:32-86 | It navigates iff sign-in is answered without error, and then to `/dashboard`. Sign-in always calls `signIn` with the typed credentials. Sign-up calls nothing or `signUp` with the typed fields. The notice is non-destructive iff a call was made and answered without error. When a call was made, an error reply shows the error's message verbatim, and a thrown call shows the generic 'An error occurred' notice. |
| `AuthScreen.SignInErrorShowsMessage` | src/pages/Auth.tsx:37-45 | A sign-in error shows the error's message verbatim, as a destructive notice, and does not navigate. |
| `AuthScreen.SignUpErrorShowsMessage` | src/pages/Auth.tsx:63-69 | With a non-blank name, a sign-up error (a taken email, for example) calls `signUp` with the typed fields, shows the provider's message verbatim as a destructive notice, and does not navigate. |
| `AuthScreen.ThrownCallShowsGenericNotice` | src/pages/Auth.tsx:77-82 | When the call throws, in either mode, the notice is the destructive 'An error occurred' / 'Please try again later.' one, and there is no navigation. |
| `AuthScreen.SignUpNeedsNonBlankName` | src/pages/Auth.tsx:53-63 | Sign-up calls nothing iff the name is all whitespace. Otherwise it passes the name untrimmed. |
| `AuthScreen.SignUpNeverNavigates` | src/pages/Auth.tsx:63-76 | Sign-up never navigates, not even on success. |
| `AuthScreen.AuthForm.constructor` | src/pages/Auth.tsx:13-19 | Sign-in mode, empty fields, requester account type, password hidden, not loading. |
| `AuthScreen.AuthForm.ToggleMode` | src/pages/Auth.tsx:187 | The mode link flips `isLogin`. |
| `AuthScreen.AuthForm.ChooseAccountType` | src/pages/Auth.tsx:165 | `isPandit` becomes true iff the radio value is 'pandit'. |
| `AuthScreen.AuthForm.AccountTypeValue` | src/pages/Auth.tsx:165 | The radio group shows 'pandit' iff `isPandit` holds. |
| `AuthScreen.AuthForm.ToggleShowPassword` | src/pages/Auth.tsx:155 | The eye button flips password visibility. |
| `AuthScreen.AuthForm.EditEmail` | src/pages/Auth.tsx:134 | The email becomes the typed text. |
| `AuthScreen.AuthForm.EditPassword` | src/pages/Auth.tsx:147 | The password becomes the typed text. |
| `AuthScreen.AuthForm.EditFullName` | src/pages/Auth.tsx:121 | The name becomes the typed text. |
| `AuthScreen.AuthForm.HandleSubmit` | src/pages/Auth.tsx:32-86 | The result is `Submission` of the current fields. `loading` is written true first and false last on every path, with an extra false on the blank-name path. It is false afterwards. |
| `Navigation.TargetsBySession` | src/components/Navigation.tsx:37-96 | No user: only `/auth`. A 'pandit' `user_type`: only `/pandit-dashboard`. Any other signed-in session, a null profile included: `/dashboard`, `/shop`, `/book-pandit` and `/bookings`. |
| `Navigation.DesktopAndMobileAgree` | src/components/Navigation.tsx:115-187 | The mobile menu offers the same targets as the desktop row. Each mobile link is a desktop link with the same caption, and each closes the menu. |
| `Navigation.DisplayName` | src/components/Navigation.tsx:74 | The profile's name when there is a profile with a non-empty name. Otherwise exactly 'User'. Never empty. |
| `Navigation.RoleLabel` | src/components/Navigation.tsx:77 | 'Pandit' iff `user_type` is 'pandit', otherwise 'User'. |
| `Navigation.NavBar.constructor` | src/components/Navigation.tsx:15 | The mobile menu starts closed. |
| `Navigation.NavBar.ToggleMenu` | src/components/Navigation.tsx:104 | The menu button flips `isOpen`. |
| `Navigation.NavBar.FollowMobileLink` | src/components/Navigation.tsx:121 | Following a mobile link closes the menu. |
| `Navigation.NavBar.VisibleMobileLinks` | src/components/Navigation.tsx:112-188 | No mobile links are shown iff the menu is closed. When it is open, the links shown are the session's mobile links. |
| `Navigation.NavBar.HandleSignOut` | src/components/Navigation.tsx:19-22 | `signOut` is called once, first. Navigation to `/` follows iff `signOut` resolves. There are exactly two effects when it resolves and one when it rejects. |

## Findings

| source | as written | input that shows it | evidently intended | confidence | as-written member | corrected member |
|---|---|---|---|---|---|---|
| src/pages/BookPandit.tsx:382-387 | The cost panel is guarded by the hourly rate through a logical and. A rate of 0 makes the whole expression the number 0, which React renders as text. | A selected pandit whose `rate_per_hour` is 0 | No panel and no stray text when no amount will be booked (the booked `total_amount` is null) | medium; not executed | `Booking.ZeroRateShowsStrayZero` | `Booking.Estimate` |

## Left out

- Database calls: the fetch of pandits and the booking insert. The model takes their answers as
  parameters (`FetchReply`, `insertSucceeds`), and ordering by `created_at` as the precondition
  `NewestFirst`. Error objects and console logging are not modelled.
- The authentication provider: `signIn`, `signUp`, `signOut` and session restore. Their answers are
  parameters, and the context that supplies `user`, `profile` and `loading` is not part of this model.
  Duplicate-identity and credential errors appear only as an error message.
- Notices (toasts) are values in the model: `Notice` on the auth page, `SubmitOutcome` and the
  `HandleBookPandit` result on the booking page. Their presentation is not modelled.
- Rendering, styling and the placeholder pages (home, dashboards, shop, bookings) are not modelled.
- Router matching is modelled as exact string comparison. The router's case-insensitive and
  trailing-slash matching is not modelled.
- The browser's form validation is not modelled. The `required` and `type="email"` inputs stop the
  submit event before the handler runs.
- Asynchronous interleaving: each handler is one sequential step. `loading` and `bookingLoading` are true
  only inside that step. The submit buttons' `disabled` state shows up as the `Valid()` invariants, not as
  concurrent presses.
- `Text.LowerChar`: models `toLowerCase` only for Basic Latin and Latin-1. Other scripts' case mappings,
  including ones that change length, are not modelled.
- `Dates`: local-time semantics are not modelled. "Now" is given as today's date and the milliseconds
  since midnight. The calendar is assumed never to report a disabled day.
- `Booking.BookingPage.CostPanel`: shows the corrected panel (`Booking.Estimate`). For a rate of 0 the page
  as written renders the text "0" instead; that behaviour is `Booking.EstimateAsWritten` (see Findings).
- `rate_per_hour` is an integer. Fractional rates are not modelled.
- The spinner of the booking page while loading and the empty-result message are not modelled beyond
  `loading` and `Shown()`.
