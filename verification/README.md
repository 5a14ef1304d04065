# SocialBoost dashboard: state logic

A model of the state logic behind the SocialBoost dashboard, a single-page social-media
automation app. Nearly all of the app is markup. Its event handlers, though, keep a few pieces
of state whose updates can be stated exactly:

- **Automations screen** (`Automations.dfy`, module `Automations`): the automation list, with
  pause/resume, delete and "new automation" submit. It also holds the open-dropdown cell, the
  form record and the modal flag, and formats statistic keys into labels.
- **Settings screen** (`Settings.dfy`, module `Settings`): profile, password and subscription
  records edited one field at a time, and the password-change checks. It also covers the
  two-level notification switches, the connected-accounts table with its invariant
  "connected exactly when status is active", and the avatar initials.
- **Page frame** (`Layout.dfy`, module `Layout`): the dismissable notification list, the bell
  badge and panel, the mobile-menu and panel toggles, and the order of effects on logout.
- **Application root** (`App.dfy`, module `Session`): the `isAuthenticated`/`user`/`loading` cells.
  These are driven by the initial session check and by the authentication provider's events. The
  module also covers what `login` and `logout` report, and the route table gated on loading and
  authentication.
- `IdLists.dfy` defines once the two list updates that every screen uses, over any record type:
  drop the records with one id (`filter`) and rewrite the records with one id (`map`). It proves
  that dropping keeps the order of the rest, removes every copy, and is idempotent. It proves that
  rewriting touches only the matching positions. `Optional.dfy` holds the `null`-or-value type.

Each screen is modelled the same way. Its state cells are the fields of a class (`AutomationsPage`,
`SettingsPage`, `LayoutState`, `App`). Each handler is a method whose `ensures` gives the new
field values as a pure function of the old ones. The properties are proved about those functions:
frames ("nothing else changes"), fresh ids, invariants kept, round trips and their failures. The
provider's answers are inputs, and so is the clock reading used as an account id. These answers
are how the session query settles, each event, and the result of a sign-in or sign-out request.

## Model

| member | source | states |
|---|---|---|
| Automations.ToggledDropdown | src/pages/Automations.jsx:98-104 | the dropdown closes exactly when the clicked id is the open one; otherwise the clicked id is open |
| Automations.ToggledDropdownTwice | src/pages/Automations.jsx:98-104 | clicking the same menu twice restores the previous cell exactly when nothing else was open |
| Automations.Toggled | src/pages/Automations.jsx:108-115 | an active record becomes paused and any other becomes active; pausing shows "Paused" as the next run; resuming keeps the next run; no other field changes |
| Automations.ToggledTwiceNextRun | src/pages/Automations.jsx:109-113 | after a pause and a resume, in either order, the next run reads "Paused" |
| Automations.ToggledTwiceRoundTrip | src/pages/Automations.jsx:109-113 | toggling twice gives back the record exactly when its status was active or paused and its next run already read "Paused" |
| Automations.ToggleStatusById | src/pages/Automations.jsx:107-117 | same length and order; records with the id are toggled; every other record is unchanged |
| Automations.ToggleStatusKeepsIds | src/pages/Automations.jsx:107-117 | toggling keeps the id sequence, so distinct ids stay distinct |
| Automations.ToggleStatusByIdTwice | src/pages/Automations.jsx:106-117 | toggling one id twice restores its status (active/paused) but leaves "Paused" as its next run; other records are untouched |
| Automations.DeleteById | src/pages/Automations.jsx:122 | a record survives exactly when it was present and has another id |
| Automations.DeleteByIdSpec | src/pages/Automations.jsx:121-124 | deletion keeps the rest in order and drops every copy with the id; an absent id changes nothing; distinct ids stay distinct |
| Automations.MaxId | src/pages/Automations.jsx:129 | the largest id of a non-empty list: no id exceeds it and some record carries it |
| Automations.NextId | src/pages/Automations.jsx:129 | the new id exceeds every existing id (so it is fresh); on a non-empty list it is the largest plus one |
| Automations.NewAutomation | src/pages/Automations.jsx:133-146 | the new record carries the given id and the form's four fields, status "active", last run "Never", next run "Today at 3:00 PM" and both statistics at 0 |
| Automations.Submitted | src/pages/Automations.jsx:129-147 | the old list followed by exactly one record whose id is NextId (one past the largest, so above every old id), status "active", last run "Never", next run "Today at 3:00 PM", both statistics at 0, carrying the form's fields |
| Automations.SubmittedKeepsDistinct | src/pages/Automations.jsx:129-147 | submitting keeps ids distinct |
| Automations.WithField | src/pages/Automations.jsx:438-496 | typing into one form input sets that field and leaves the others |
| Automations.NewIdAsWritten | src/pages/Automations.jsx:129 | `Math.max(...ids) + 1` as written; on an empty list it is minus infinity |
| Automations.NewIdAsWrittenAgrees | src/pages/Automations.jsx:129 | on a non-empty list the written computation equals NextId |
| Automations.EmptiedListRepeatsIds | src/pages/Automations.jsx:129 | after the list is emptied, two successive submissions get the same id (minus infinity) |
| Ascii.ToUpper | src/pages/Automations.jsx:358 | a lower-case ASCII letter becomes the upper-case letter at the same alphabet position; any other character is unchanged |
| Ascii.ToLower | src/App.jsx:102-117 | an upper-case ASCII letter becomes the lower-case letter at the same alphabet position (the router's case-insensitive match); any other character is unchanged |
| Ascii.LowerString | src/App.jsx:102-117 | same length, every character lower-cased |
| Ascii.LowerStringIdempotent | src/App.jsx:102-117 | lower-casing twice is lower-casing once |
| Automations.SpaceBeforeUpper | src/pages/Automations.jsx:358 | one extra character per upper-case letter; each upper-case letter is directly preceded by a space |
| Automations.CapitalizeFirst | src/pages/Automations.jsx:358 | same length; only the first character is upper-cased |
| Automations.StatLabel | src/pages/Automations.jsx:358 | label length is key length plus the number of upper-case letters; every later upper-case letter follows a space; the first character is not lower case |
| Automations.StatLabelContents | src/pages/Automations.jsx:358 | for any key, dropping each space before an upper-case letter from the label gives the key with its first character upper-cased |
| Automations.SpaceBeforeUpperRoundTrip | src/pages/Automations.jsx:358 | for any key, dropping each space before an upper-case letter gives back the key (an original space is never followed by a capital once the spaces are inserted) |
| Automations.AutomationsPage.constructor | src/pages/Automations.jsx:6-96 | the five fixture records, no dropdown open, modal closed, default form; the invariant "ids are distinct" holds |
| Automations.AutomationsPage.ToggleDropdown | src/pages/Automations.jsx:98-104 | the dropdown cell becomes ToggledDropdown of the old one |
| Automations.AutomationsPage.ToggleAutomationStatus | src/pages/Automations.jsx:106-119 | the list becomes ToggleStatusById of the old one, the dropdown closes, and the invariant is kept |
| Automations.AutomationsPage.DeleteAutomation | src/pages/Automations.jsx:121-124 | the list becomes DeleteById of the old one, the dropdown closes, and the invariant is kept |
| Automations.AutomationsPage.HandleNewAutomationSubmit | src/pages/Automations.jsx:126-157 | the list becomes Submitted(old list, old form), the invariant is kept, the form resets to its defaults and the modal closes |
| Automations.AutomationsPage.SetFormField | src/pages/Automations.jsx:438-496 | the form becomes WithField of the old form |
| Automations.AutomationsPage.OpenNewAutomationModal | src/pages/Automations.jsx:227 | the modal flag is set |
| Automations.AutomationsPage.CloseNewAutomationModal | src/pages/Automations.jsx:517 | the modal flag is cleared |
| Settings.WithProfileField | src/pages/Settings.jsx:83-89 | the named profile field takes the value; the other fields are unchanged |
| Settings.WithPasswordField | src/pages/Settings.jsx:92-98 | the named password field takes the value; the other fields are unchanged |
| Settings.WithPlan | src/pages/Settings.jsx:112-117 | the plan changes; cycle, billing date and payment method do not |
| Settings.WithBillingCycle | src/pages/Settings.jsx:120-125 | the billing cycle changes; plan, billing date and payment method do not |
| Settings.OutcomeToast | src/pages/Settings.jsx:183-194 | a mismatch raises the error toast "New passwords do not match!", a short password the error toast "Password must be at least 8 characters!", and only an accepted change the success toast "Password changed successfully!" |
| Settings.OutcomeToastsDiffer | src/pages/Settings.jsx:183-194 | each outcome has its own toast text |
| Settings.CheckPassword | src/pages/Settings.jsx:183-191 | mismatch exactly when the two new entries differ (checked first); too short exactly when they agree and are under 8 long; accepted otherwise |
| Settings.ToggleFlag | src/pages/Settings.jsx:101-109 | fails exactly on an unknown channel; otherwise exactly that one flag is negated (a missing flag counts as off), channels are kept, and every other stored flag is unchanged |
| Settings.ToggleFlagTwice | src/pages/Settings.jsx:101-109 | flipping a switch twice restores the preferences exactly when that setting was stored |
| Settings.InitialAccountsConsistent | src/pages/Settings.jsx:54-76 | every initial account is connected exactly when its status is "active" |
| Settings.DisconnectById | src/pages/Settings.jsx:146-151 | records with the id become (false, "disconnected") with id, platform and username kept; other records are untouched; the invariant is kept |
| Settings.ReconnectById | src/pages/Settings.jsx:157-162 | records with the id become (true, "active") with id, platform and username kept; other records are untouched; the invariant is kept |
| Settings.RemoveAccountById | src/pages/Settings.jsx:168-169 | an account survives exactly when it was present with another id; the invariant is kept |
| Settings.RemoveAccountSpec | src/pages/Settings.jsx:168-169 | removal keeps the rest in order, drops every copy with the id, and is idempotent |
| Settings.NewAccount | src/pages/Settings.jsx:133-139 | the new account has the clock reading as id, the platform, username "johndoe_" + platform, and is connected and active, so it is consistent |
| Settings.ConnectAccount | src/pages/Settings.jsx:128-142 | the old table followed by exactly one connected, active account for the platform, named "johndoe_" + platform, with the supplied id; the invariant is kept |
| Settings.Split | src/pages/Settings.jsx:314 | `split(' ')` always yields at least one piece |
| Settings.SplitNoSpace | src/pages/Settings.jsx:314 | no piece of `split(' ')` contains a space |
| Settings.SplitConcat | src/pages/Settings.jsx:314 | splitting at an inserted space splits each side on its own and concatenates the pieces |
| Settings.SplitJoin | src/pages/Settings.jsx:314 | joining the pieces with single spaces gives back the name |
| Settings.FirstLetters | src/pages/Settings.jsx:314 | at most one letter per piece |
| Settings.FirstLettersOfPiece | src/pages/Settings.jsx:314 | a single piece contributes its first character, or nothing when it is empty |
| Settings.FirstLettersConcat | src/pages/Settings.jsx:314 | the letters of two runs of pieces are the letters of each, in order |
| Settings.Initials | src/pages/Settings.jsx:314 | the initials contain no space and are no longer than the name |
| Settings.InitialsConcat | src/pages/Settings.jsx:314 | the initials of "a b" are the initials of a followed by those of b |
| Settings.InitialsOfWord | src/pages/Settings.jsx:314 | a non-empty name without spaces has its first character as its initials |
| Settings.InitialsOfTwoWords | src/pages/Settings.jsx:314 | two space-free non-empty words joined by one space give their two first letters |
| Settings.InitialProfileInitials | src/pages/Settings.jsx:11-17 | the starting profile "John Doe" shows "JD" |
| Settings.SettingsPage.constructor | src/pages/Settings.jsx:12-80 | the starting records, and the account invariant holds |
| Settings.SettingsPage.HandleProfileChange | src/pages/Settings.jsx:83-89 | the profile becomes WithProfileField of the old one |
| Settings.SettingsPage.HandlePasswordChange | src/pages/Settings.jsx:92-98 | the password form becomes WithPasswordField of the old one |
| Settings.SettingsPage.HandleNotificationToggle | src/pages/Settings.jsx:101-109 | on a known channel the preferences become ToggleFlag of the old ones; on an unknown channel (where the handler throws) they are unchanged |
| Settings.SettingsPage.HandlePlanChange | src/pages/Settings.jsx:112-117 | the subscription becomes WithPlan of the old one |
| Settings.SettingsPage.HandleBillingCycleChange | src/pages/Settings.jsx:120-125 | the subscription becomes WithBillingCycle of the old one |
| Settings.SettingsPage.HandleConnectAccount | src/pages/Settings.jsx:128-143 | the table becomes ConnectAccount(old table, chosen platform, clock reading), the modal closes, and the invariant is kept |
| Settings.SettingsPage.HandleDisconnectAccount | src/pages/Settings.jsx:146-154 | the table becomes DisconnectById of the old one, and the invariant is kept |
| Settings.SettingsPage.HandleReconnectAccount | src/pages/Settings.jsx:157-165 | the table becomes ReconnectById of the old one, and the invariant is kept |
| Settings.SettingsPage.HandleRemoveAccount | src/pages/Settings.jsx:168-171 | the table becomes RemoveAccountById of the old one, and the invariant is kept |
| Settings.SettingsPage.ChangePassword | src/pages/Settings.jsx:180-199 | reports CheckPassword of the form; an accepted change clears all three fields, and a rejected one leaves the form unchanged |
| Settings.SettingsPage.SetConnectPlatform | src/pages/Settings.jsx:1289 | the platform picked in the connect dialog is stored |
| Settings.SettingsPage.OpenConnectModal | src/pages/Settings.jsx:1245 | the connect dialog opens |
| Settings.SettingsPage.CloseConnectModal | src/pages/Settings.jsx:1318 | the connect dialog closes |
| Layout.WithoutNotification | src/components/Layout.jsx:43-45 | an entry survives exactly when it was present with another id |
| Layout.WithoutNotificationSpec | src/components/Layout.jsx:43-45 | dismissal keeps the rest in order and drops every copy with the id; an absent id changes nothing; dismissing twice equals dismissing once |
| Layout.BadgeShown | src/components/Layout.jsx:67 | the bell badge is shown exactly when there is at least one notification |
| Layout.PanelView | src/components/Layout.jsx:72-98 | the panel is closed exactly when the flag is off; it shows "No new notifications" exactly when open with an empty list; otherwise it lists the entries, and the badge is on |
| Layout.BadgeExcludesEmptyText | src/components/Layout.jsx:67-98 | the badge is shown exactly when the open panel does not show "No new notifications" |
| Layout.BadgeAfterDismiss | src/components/Layout.jsx:43-67 | after a dismissal the badge stays exactly when an entry with another id remains |
| Layout.LayoutState.constructor | src/components/Layout.jsx:16-22 | menu and panel closed; the three starting notifications, so the badge is on |
| Layout.LayoutState.HandleLogout | src/components/Layout.jsx:26-29 | the application's logout is called first, then navigation to "/login" |
| Layout.LayoutState.ToggleMobileMenu | src/components/Layout.jsx:31-33 | the menu flag is negated and nothing else changes |
| Layout.LayoutState.CloseMobileMenu | src/components/Layout.jsx:35-37 | the menu flag is false (so closing again changes nothing) |
| Layout.LayoutState.ToggleNotifications | src/components/Layout.jsx:39-41 | the panel flag is negated and nothing else changes |
| Layout.LayoutState.ClearNotification | src/components/Layout.jsx:43-45 | the list becomes WithoutNotification of the old one |
| Session.AfterSessionCheck | src/App.jsx:30-39 | a found session signs in with its user and clears loading; no session only clears loading; a rejected query changes nothing |
| Session.AfterEvent | src/App.jsx:45-57 | "SIGNED_IN" with a session signs in with its user from any state; "SIGNED_OUT" signs out and clears the user from any state; anything else changes nothing; loading is never touched |
| Session.EventToasts | src/App.jsx:46-56 | a sign-in with a session raises the success toast "Successfully signed in!"; a sign-out raises the info toast "Signed out"; anything else raises none |
| Session.LoginResult | src/App.jsx:65-82 | `login` resolves to false exactly when the provider returns an error or throws |
| Session.LoginToasts | src/App.jsx:65-82 | a failed login raises exactly one error toast, carrying the provider's message when there is one and "An error occurred during login" when the request throws; a successful login raises none |
| Session.LogoutToasts | src/App.jsx:84-90 | logout raises a toast only when sign-out throws, and it is the error toast "Error signing out"; a returned error raises none |
| Session.Step | src/App.jsx:30-90 | one input's effect: `login` and `logout` leave the state unchanged (only the provider's events change it); every step keeps "authenticated exactly when a user is stored"; no step sets loading again |
| Session.RunKeepsConsistent | src/App.jsx:30-82 | any sequence of checks, events, logins and logouts keeps "authenticated exactly when a user is stored" |
| Session.ReachableConsistent | src/App.jsx:24-82 | every state reachable from the initial one is consistent |
| Session.SignInOnlyByProvider | src/App.jsx:30-82 | a trace that ends signed in from a signed-out start contains a found session check or a "SIGNED_IN" event with a session; login and logout never sign in |
| Session.LoadingClears | src/App.jsx:26-39 | from a loading state, loading ends exactly when some session check settles without rejecting |
| Session.LoadingStaysClear | src/App.jsx:26-57 | once loading has ended, no input brings it back |
| Session.TrimTrailingSlashes | src/App.jsx:102-117 | the location with its trailing slashes dropped: a prefix, only slashes removed, no slash left at the end except the root's |
| Session.ProtectedPage | src/App.jsx:105-116 | after trimming and lower-casing, "/" shows Dashboard, "/automations" Automations, "/analytics" Analytics and "/settings" Settings; every other location, "/login" included, shows no protected page |
| Session.IsLoginPath | src/App.jsx:103 | the login route's match; "/login" matches it, and no location matches both it and a protected page |
| Session.Render | src/App.jsx:92-118 | a spinner exactly while loading; once loaded, the login route shows the login page, a protected route shows its page when signed in and redirects to "/login" when signed out, and any other location matches nothing |
| Session.TrailingSlashIgnored | src/App.jsx:102-117 | a trailing slash does not change what is rendered |
| Session.CaseIgnored | src/App.jsx:102-117 | letter case does not change what is rendered |
| Session.SignedOutLocksPages | src/App.jsx:52-118 | after "SIGNED_OUT" no protected page renders, and every protected path redirects to login |
| Session.App.constructor | src/App.jsx:24-26 | not authenticated, no user, loading, no toasts |
| Session.App.CheckSession | src/App.jsx:30-39 | the state becomes AfterSessionCheck of the old one |
| Session.App.OnAuthStateChange | src/App.jsx:44-58 | the state becomes AfterEvent of the old one, and the event's toasts are appended |
| Session.App.Login | src/App.jsx:65-82 | returns LoginResult, appends LoginToasts, and leaves the authentication state alone |
| Session.App.Logout | src/App.jsx:84-90 | appends LogoutToasts and leaves the authentication state alone |
| IdLists.RemoveId | src/pages/Automations.jsx:122 | an element survives exactly when it was present with another id; never longer than the input |
| IdLists.UpdateId | src/pages/Automations.jsx:107-117 | same length; elements with the id are rewritten and all others are unchanged |
| IdLists.RemoveIdKeepsOrder | src/pages/Settings.jsx:168-169 | the survivors are a subsequence of the input |
| IdLists.RemoveIdCounts | src/components/Layout.jsx:43-45 | every element with the id is gone and every other keeps its number of copies |
| IdLists.RemoveAbsentId | src/components/Layout.jsx:43-45 | removing an id no element carries changes nothing |
| IdLists.RemoveIdIdempotent | src/pages/Settings.jsx:168-169 | removing the same id twice equals removing it once |
| IdLists.UpdateIdKeepsIds | src/pages/Settings.jsx:146-162 | a rewrite that keeps ids keeps the id sequence |

`Layout.MenuToggleClient` is a client method. It shows that two toggles of either flag undo each
other and that a second close changes nothing.

## Where the code departs from the expected behaviour

The model follows the code in each case.

- Session check: a session check that fails might be expected to fall back to "not signed in".
  In the code, `checkSession` only clears `loading` after `getSession()` resolves. If the query
  rejects, the handler stops early and the spinner stays. `AfterSessionCheck` models the
  `Rejected` case that way, and `LoadingClears` states it.
- Logout errors: `logout` might be expected to report any failed sign-out. The code only reports
  a thrown exception. An error returned by `signOut()` is ignored (`LogoutToasts`).

## Findings

| source | as written | input that shows it | evidently intended | confidence | as-written member | corrected member |
|---|---|---|---|---|---|---|
| src/pages/Automations.jsx:129 | the new id is `Math.max(...ids) + 1`, which is minus infinity when the list is empty | delete all five automations, then submit the form twice: both new records get id -Infinity, so pausing or deleting one also hits the other | a fresh id: one more than the largest, or 1 on an empty list | high for the arithmetic; not executed | Automations.NewIdAsWritten | Automations.NextId |

`Automations.EmptiedListRepeatsIds` exhibits the repeated id. `Automations.NewIdAsWrittenAgrees`
shows that the two computations agree on every non-empty list. The class uses `NextId`, and
`Automations.SubmittedKeepsDistinct` proves that submission keeps ids distinct.

## Left out

- The analytics and dashboard screens are left out. Their series come from random numbers and
  the current date, and the rest is fixed chart data.
- All markup, CSS classes, icons, platform colour tables and animations are left out; they are
  presentation only. So is the settings screen's tab switch. The browser's `required` check on the
  new automation's name input is left out, so `HandleNewAutomationSubmit` also accepts an empty
  name the browser would block; every property proved for submission still holds. Likewise the
  `required` current, new and confirm password inputs are not enforced, so `ChangePassword`
  reports `Changed` for an empty current password the browser would block.
- The authentication provider's calls are not modelled; their outcomes are inputs. `Login` takes
  the sign-in result rather than email and password, because the root only forwards those.
- Async scheduling is not modelled. `Run` takes inputs in any order, which covers every
  interleaving of the check and the events. The subscription's registration and unsubscribe at
  teardown are left out.
- Toasts are kept as a log only at the root. The settings screen's toasts are left out;
  `ChangePassword` returns its outcome instead, and `OutcomeToast` gives the toast for it.
- The Login page and ProtectedRoute components are not part of this model. `Render` assumes that
  ProtectedRoute shows its child when signed in and redirects to "/login" otherwise.
- Navigation is an effect value, not a router. The clock reading used as a new account id is a
  parameter; equal readings give equal ids, as in the app, and the id operations then treat
  those accounts together.
- Form edits are modelled for the input names the screens render. A computed key outside those
  names would add a new property; that is not modelled.
- Automations.StatLabel: upper-casing covers ASCII only (`Ascii.ToUpper`). JavaScript's `toUpperCase` on a non-ASCII
  first character (for example "ß" to "SS") is not modelled.
- Settings.Initials: `n[0]` takes the first UTF-16 code unit. The model takes the first character,
  so names with characters outside the Basic Multilingual Plane differ.
- Settings.CheckPassword: the length is counted in characters, not UTF-16 code units.
- Settings.SettingsPage.HandleNotificationToggle: the TypeError thrown for an unknown channel is
  modelled as `ok == false` with no state change.
- Session.Render: the route match follows React Router version 6 defaults (trailing slashes
  ignored, letters compared case-insensitively), on ASCII letters only. Percent-decoding of the
  location, a base name and case folding of non-ASCII letters are not modelled.
