# Bioloop Hub, modelled in Dafny

Bioloop Hub is a Next.js front end for a waste-collection service. Users sign up and verify an e-mail code. They log waste for points, schedule pickups and see them split into upcoming and completed ones, edit a profile with an avatar, and look at rewards. A route guard keeps signed-out users and non-admins away from pages. It is all a thin layer over a hosted backend, but each page has small rules of its own. This project models those rules and proves what they guarantee.

One Dafny module per source file:

- `SchedulePage` (`schedule.dfy`): splitting fetched pickups into upcoming and completed ones, the status badge colour and the status label. `fetchSchedules` is a class method that updates the two lists and `loading`.
- `LogWaste` (`log_waste.dfy`): the waste-type cards, the points formula with its case-sensitive rate table, the submit rule and the logged record.
- `VerifyPage` (`verify.dfy`): the one-time-code sanitiser, the verify checks and their order, and the verify, resend and code-change handlers as methods of a `Verification` class.
- `SignUpPage` (`signup.dfy`): the password checks and their order, the `signUp` request, the redirect to the verify page, and `handleSubmit` as a method.
- `NewSchedulePage` (`schedule_new.dfy`): the form record's field updates, the submit rule, the pickup record, the success-redirect parameters and the location-share handler.
- `ScheduleSuccess` (`schedule_success.dfy`): the pickup details read back from the URL with their defaults, and the round trip from the new-pickup form.
- `ProfilePage` (`profile.dfy`): the update record, and the ordered save steps that stop at the first failure. It also covers the avatar path and the upload handler.
- `DashboardLayout` (`dashboard_layout.dfy`): display name, initials and the active menu item.
- `ProtectedRoute` (`protected_route.dfy`): the admit-or-redirect decision, the auth-event handler and the render condition.
- `Rewards` (`rewards.dfy`): the reward table, redeemability and the redeem button.
- `Remote` (`remote.dfy`) and `JsStrings` (`js_strings.dfy`): shared vocabulary. A backend answer is `Ok`, `Err(message)` or `Threw`, and router navigation is a `Route`. JavaScript string behaviour is written out: truthiness, `<` on strings, `toUpperCase` on ASCII letters, `startsWith`, `split(..)[0]`, `split(..).pop()` and `substr`.

Remote calls, the clock and randomness are parameters. Every handler that calls the backend is a method that takes the backend's answers as arguments and records the calls it makes in a `calls` log (`Schedules`, `Verification`, `SignUp`, `Profile` and `Guard`). Pushed routes go in `pushed`, and toasts or alerts in their own logs. So each handler's contract states the whole new state, including which calls were made, in which order, and which were not.

Some behaviours of the code the model makes visible:

- The points table is keyed `Plastic`, `Paper`, …, but the cards select `plastic`, `paper`, …. Every card the user can pick therefore earns the default 5 points per kg (`LogWaste.SelectableIdsEarnDefaultRate`). The 5.2 kg metal example comes to 78 points only for the key `Metal`; the card id `metal` gives 26 (`LogWaste.MetalExample`).
- `handleSave` has no `catch`. A step that throws leaves `loading` true, and so does a save with no profile loaded, where `profile.id` throws before any call. `handleUpload` is the same with `uploading`.
- A profile row without an e-mail counts as changed for any non-empty form e-mail.
- Resend with an empty e-mail only sets the error. It leaves an earlier success message in place.
- The auth-event handler sets the session user without checking the role, even on an admin route (`ProtectedRoute.ListenerSkipsRoleCheck`). A non-admin who was sent away from an admin page then gets its children rendered (`ProtectedRoute.NonAdminRendersAfterAuthEvent`).
- The rewards page says logging earns 100 points per kg. No card earns more than 20 (`Rewards.OneKgEarnsLessThanAdvertised`).

## Model

| member | source | states |
|---|---|---|
| JsStrings.LexLessIrreflexive | app/dashboard/schedule/page.tsx:60 | no date is strictly before itself (used by `SchedulePage.TodayIsUpcoming`) |
| JsStrings.LexLessTransitive | app/dashboard/schedule/page.tsx:65 | the string order on dates is transitive (used by `SchedulePage.PastStaysCompleted`) |
| JsStrings.LexLessTotal | app/dashboard/schedule/page.tsx:60-65 | two different dates are ordered one way or the other (used by `SchedulePage.PastStaysCompleted`) |
| JsStrings.Upper | app/dashboard/schedule/page.tsx:174 | upper-casing keeps the length and maps each character through the ASCII upper-case map |
| JsStrings.BeforeFirst | components/dashboard-layout.tsx:54 | `split(sep)[0]` is a prefix of the input without `sep`, and is followed by `sep` when shorter than the input |
| JsStrings.AfterLastIsSuffix | app/profile/page.tsx:71 | `split(sep).pop()` is a suffix without `sep`, preceded by `sep` when shorter than the input |
| JsStrings.Substr | app/dashboard/schedule/success/page.tsx:19 | `substr(start, length)` has at most `length` characters, copied in order from `start` on |
| SchedulePage.Upcoming | app/dashboard/schedule/page.tsx:59-62 | the upcoming list holds exactly the fetched pickups dated today or later whose status is neither completed nor cancelled |
| SchedulePage.Completed | app/dashboard/schedule/page.tsx:64-67 | the completed list holds exactly the fetched pickups dated before today or completed or cancelled |
| SchedulePage.ClassifiedExactlyOnce | app/dashboard/schedule/page.tsx:59-67 | the two filters are complements; closed pickups are never upcoming; past ones are always completed; open statuses dated today or later are upcoming |
| SchedulePage.TodayIsUpcoming | app/dashboard/schedule/page.tsx:59-61 | an open pickup dated today itself is upcoming and not completed |
| SchedulePage.PastStaysCompleted | app/dashboard/schedule/page.tsx:64-65 | a pickup dated before one day is completed, and never upcoming, on every later day too |
| SchedulePage.PartitionOfFetched | app/dashboard/schedule/page.tsx:59-67 | the two lists together are the fetched pickups as a multiset, and their lengths add up |
| SchedulePage.UpcomingKeepsOrder | app/dashboard/schedule/page.tsx:44-62 | pickups fetched in ascending date order stay in that order in the upcoming list |
| SchedulePage.CompletedKeepsOrder | app/dashboard/schedule/page.tsx:44-67 | pickups fetched in ascending date order stay in that order in the completed list |
| SchedulePage.Schedules.constructor | app/dashboard/schedule/page.tsx:26-28 | both lists start empty, the page starts loading, and no call has been made |
| SchedulePage.Schedules.FetchSchedules | app/dashboard/schedule/page.tsx:35-76 | the user lookup is always made, and the `pickups` query for that user only when there is one; with a user and an error-free query, the lists become the two filters of the rows against today's ISO date; no user, a query error or a throw leaves them unchanged; `loading` ends false |
| SchedulePage.StatusColor | app/dashboard/schedule/page.tsx:78-93 | every status gets one of the five classes, and the gray one exactly when it is not scheduled, confirmed, pending or cancelled |
| SchedulePage.UnknownStatusLooksCompleted | app/dashboard/schedule/page.tsx:86-91 | any status outside the five known ones gets the same class as `completed` |
| SchedulePage.KnownStatusesDistinct | app/dashboard/schedule/page.tsx:79-89 | the five known statuses get pairwise different classes |
| SchedulePage.StatusLabel | app/dashboard/schedule/page.tsx:174 | the label has the status's length; only its first character is upper-cased and the rest is unchanged |
| SchedulePage.StatusLabelIdempotent | app/dashboard/schedule/page.tsx:174 | labelling a label changes nothing |
| SchedulePage.KnownStatusLabels | app/dashboard/schedule/page.tsx:174 | `scheduled`, `completed` and `cancelled` show as `Scheduled`, `Completed` and `Cancelled` |
| LogWaste.SelectableIds | app/dashboard/log-waste/page.tsx:16-53 | the selectable ids are the six card ids, in table order |
| LogWaste.Rate | app/dashboard/log-waste/page.tsx:93-101 | a key of the table gets its table rate, any other key the default 5; the rate is positive |
| LogWaste.CalculatePoints | app/dashboard/log-waste/page.tsx:92-102 | the points are the largest integer not above amount × rate |
| LogWaste.SelectableIdsEarnDefaultRate | app/dashboard/log-waste/page.tsx:16-53 | no card id is a table key, so every selectable type earns rate 5 and `floor(amount × 5)` points |
| LogWaste.MetalExample | app/dashboard/log-waste/page.tsx:96 | 5.2 kg under the key `Metal` earns 78 points, under the id `metal` 26 |
| LogWaste.PointsMonotone | app/dashboard/log-waste/page.tsx:101 | for a fixed type, a larger amount never earns fewer points |
| LogWaste.PointsSign | app/dashboard/log-waste/page.tsx:101 | a non-negative amount earns non-negative points, a non-positive one non-positive points |
| LogWaste.SubmitEnabledExactly | app/dashboard/log-waste/page.tsx:287 | submit is enabled exactly when type, amount, date and time are all non-empty, and the fresh form cannot submit |
| LogWaste.HandleSubmit | app/dashboard/log-waste/page.tsx:66-90 | the logged record copies the form and the parsed amount, earns `calculatePoints` of them, is attributed to `current-user-id`, and the page goes to `/dashboard` |
| LogWaste.LoggedCardEarnsFive | app/dashboard/log-waste/page.tsx:70-78 | a log made from any card earns exactly `floor(amount × 5)` |
| VerifyPage.DigitsOf | app/verify/page.tsx:103 | removing non-digits keeps only digits, never lengthens the text, and a character appears in the result exactly when it is a digit of the input |
| VerifyPage.DigitsOfChar | app/verify/page.tsx:103 | a single character is kept exactly when it is a digit; with `DigitsOfAppend` this fixes the result on every string, in input order |
| VerifyPage.DigitsOfAppend | app/verify/page.tsx:103 | removing non-digits from a concatenation concatenates the results |
| VerifyPage.DigitsOfDigits | app/verify/page.tsx:103 | text made of digits is left unchanged |
| VerifyPage.SanitiseCode | app/verify/page.tsx:102-105 | the code holds only digits, at most six, and is the first min(6, number of digits) digits of the input in order |
| VerifyPage.SanitiseIdempotent | app/verify/page.tsx:103 | sanitising a sanitised code changes nothing |
| VerifyPage.SanitiseIgnoresTail | app/verify/page.tsx:103 | once six digits are typed, further input does not change the code |
| VerifyPage.ValidateVerify | app/verify/page.tsx:38-48 | the call may go ahead exactly when the e-mail is non-empty and the code has six characters; an empty field reports the both-required error first, otherwise a wrong length reports the six-digit error |
| VerifyPage.SanitisedCodeAccepted | app/verify/page.tsx:38-48 | a code entered through the input passes exactly when the e-mail is non-empty and at least six digits were typed |
| VerifyPage.EmailFromParam | app/verify/page.tsx:24-30 | the page starts with the `email` parameter when it is non-empty, and with an empty e-mail otherwise |
| VerifyPage.Verification.constructor | app/verify/page.tsx:17-30 | a page opened with an `email` parameter starts with that e-mail, an empty code, no error or success, and nothing loading |
| VerifyPage.Verification.HandleCodeChange | app/verify/page.tsx:102-105 | the code becomes the sanitised input and nothing else changes |
| VerifyPage.Verification.HandleVerify | app/verify/page.tsx:32-71 | a failed check sets its message and makes no call; otherwise exactly one `verifyOtp` call with the e-mail, the code and `signup`, then the success message, the error message or the unexpected-error text; `loading` ends false |
| VerifyPage.Verification.ResendDisabled | app/verify/page.tsx:178 | the resend button is disabled while a resend runs or while the e-mail is empty; `HandleResendCode` states that an enabled button leads to exactly one `resend` call |
| VerifyPage.Verification.HandleResendCode | app/verify/page.tsx:73-100 | an empty e-mail only sets the error and makes no call; with the button enabled, exactly one `resend` call is made; otherwise one `resend` call, the error or success cleared and then set from the answer, and `resendLoading` ends false |
| SignUpPage.ValidatePasswords | app/signup/page.tsx:34-46 | the call may go ahead exactly when the passwords match and have at least six characters; a mismatch is reported before the length |
| SignUpPage.MismatchReportedFirst | app/signup/page.tsx:35-46 | a short pair that differs reports the mismatch, not the length |
| SignUpPage.SignUpRequest | app/signup/page.tsx:49-60 | the request carries the form's e-mail, password and names, and the role is always `user` |
| SignUpPage.VerifyRoute | app/signup/page.tsx:66 | a successful sign-up goes to `/verify` with the e-mail as its only parameter |
| SignUpPage.VerifyRouteCarriesEmail | app/verify/page.tsx:24-30 | the verify page opened from that route starts with the e-mail that signed up |
| SignUpPage.SignUp.constructor | app/signup/page.tsx:16-27 | the form starts empty, with no error, nothing loading, no call and no navigation |
| SignUpPage.SignUp.HandleSubmit | app/signup/page.tsx:29-74 | a failed check sets its message and makes no call; otherwise exactly one `signUp` call, then the redirect on success or the error text; `loading` ends false |
| NewSchedulePage.SubmitEnabledExactly | app/dashboard/schedule/new/page.tsx:229-235 | submit is enabled exactly when all five fields are non-empty, and the fresh form cannot submit |
| NewSchedulePage.PickupRecord | app/dashboard/schedule/new/page.tsx:30-34 | the record has every form field plus `userId` and `status`; the form's values are kept and `status` is `scheduled` |
| NewSchedulePage.RedirectParams | app/dashboard/schedule/new/page.tsx:39-44 | the redirect parameters are exactly date, time, wasteType and location, copied from the matching form fields |
| NewSchedulePage.LocationText | app/dashboard/schedule/new/page.tsx:74 | the location text is the latitude, a comma and a space, then the longitude |
| NewSchedulePage.LocationAlert | app/dashboard/schedule/new/page.tsx:77-84 | a failed lookup and missing geolocation each show their own alert |
| NewSchedulePage.NewSchedule.constructor | app/dashboard/schedule/new/page.tsx:17-23 | the form starts with the five fields empty |
| NewSchedulePage.NewSchedule.HandleChange | app/dashboard/schedule/new/page.tsx:53-58 | only the named field takes the new value; every other field is unchanged |
| NewSchedulePage.NewSchedule.HandleSelectChange | app/dashboard/schedule/new/page.tsx:60-65 | only the named field takes the new value; every other field is unchanged |
| NewSchedulePage.NewSchedule.HandleSubmit | app/dashboard/schedule/new/page.tsx:25-51 | the form is unchanged, the record is the pickup record, and the success page is pushed with the redirect parameters |
| NewSchedulePage.NewSchedule.HandleLocationShare | app/dashboard/schedule/new/page.tsx:67-85 | a position sets only `location`; otherwise the form is unchanged and one alert is shown |
| ScheduleSuccess.ParamOr | app/dashboard/schedule/success/page.tsx:19-23 | a present, non-empty parameter is used; a missing or empty one gives the fallback |
| ScheduleSuccess.GeneratedId | app/dashboard/schedule/success/page.tsx:19 | a generated id starts with `PU-` and has at most 12 characters |
| ScheduleSuccess.Details | app/dashboard/schedule/success/page.tsx:18-24 | each detail is its parameter or its default: a generated id, today's ISO date, `09:00`, `Mixed Waste` and `Home Address` |
| ScheduleSuccess.DefaultsWithoutParams | app/dashboard/schedule/success/page.tsx:18-24 | without parameters every detail shows its default |
| ScheduleSuccess.SubmittedFormRoundTrip | app/dashboard/schedule/success/page.tsx:20-23 | a submittable new-pickup form comes back with exactly its date, time, waste type and location, and a generated id |
| ProfilePage.BuildUpdates | app/profile/page.tsx:108-113 | the update record always has the three name fields from the form, and `profile_pic` exactly when the form's is non-empty |
| ProfilePage.SavePlanSteps | app/profile/page.tsx:114-135 | the profile row is updated first; the e-mail step is planned exactly for a non-empty changed e-mail and comes second, the password step exactly for a non-empty password and comes last; the plan holds one step plus one per condition met, so nothing else is planned |
| ProfilePage.Executed | app/profile/page.tsx:114-135 | the steps sent are a non-empty prefix of the plan; every step before the last one answered `Ok`; a step that failed is the last one sent |
| ProfilePage.ExecutedCons | app/profile/page.tsx:114-135 | a step is sent, and the rest only if it answered `Ok` |
| ProfilePage.ExecutedAllWhenAllOk | app/profile/page.tsx:114-135 | when every step succeeds, every planned step is sent |
| ProfilePage.StopsAtFirstFailure | app/profile/page.tsx:114-135 | a failed step is the last one sent, so no later step is sent |
| ProfilePage.SaveFailureTitle | app/profile/page.tsx:116-131 | a failed profile, e-mail or password step has the title `Error updating profile`, `Error updating email` or `Error updating password` |
| ProfilePage.SaveToasts | app/profile/page.tsx:115-136 | a save ends with at most one toast: the success toast when the last step answered `Ok`, the destructive toast with that step's title and the error message when it answered an error, none when it threw |
| ProfilePage.UploadPathShape | app/profile/page.tsx:71-72 | the path is `avatars/<profile id>.` followed by the text after the file name's last `.`, or the whole name when it has none |
| ProfilePage.Profile.HandleSave | app/profile/page.tsx:105-138 | with a profile, the calls made are the executed prefix of the save plan; `loading` ends true only when the last step threw; the toasts follow the last answer. Without a profile nothing is called and `loading` stays true |
| ProfilePage.Profile.HandleUpload | app/profile/page.tsx:68-89 | no file: nothing changes; a failed upload touches neither form nor profile; after an upload, only a successful update sets both pictures to the public URL; `uploading` ends false unless a step threw |
| DashboardLayout.DisplayName | components/dashboard-layout.tsx:50-55 | `first last` when both names are set; otherwise the e-mail's text before its first `@`, or `User` when that is empty; never empty |
| DashboardLayout.DisplayNameFromEmail | components/dashboard-layout.tsx:54 | without both names, an e-mail not starting with `@` shows its text before the first `@` |
| DashboardLayout.Initials | components/dashboard-layout.tsx:57-62 | the first character of each name as written; otherwise the upper-cased first e-mail character, or `U` |
| DashboardLayout.NameInitialsKeepCase | components/dashboard-layout.tsx:58-59 | initials taken from names are not upper-cased |
| DashboardLayout.ScheduleActiveOnPrefix | components/dashboard-layout.tsx:92-94 | the Schedule item is active exactly on paths starting with its route, `/dashboard/schedule-pickup` included |
| DashboardLayout.OtherItemsExact | components/dashboard-layout.tsx:93 | every other item is active only on its exact route |
| DashboardLayout.OtherRoutesOutsideSchedule | components/dashboard-layout.tsx:14-19 | no other item's route starts with the Schedule route |
| DashboardLayout.AtMostOneActive | components/dashboard-layout.tsx:14-19 | no two menu items are active on the same path |
| ProtectedRoute.RoleOf | components/protected-route.tsx:33 | the role is the metadata role when it is non-empty, and `user` otherwise |
| ProtectedRoute.Decide | components/protected-route.tsx:21-47 | an error, no user or a throw redirects to `/signin`; a non-admin on an admin route is redirected to `/dashboard`; otherwise the user is admitted, and admitted users on admin routes are admins |
| ProtectedRoute.DefaultRoleAdmitsSignedIn | components/protected-route.tsx:15 | with the default required role, any user the lookup returns without error is admitted |
| ProtectedRoute.AuthEventEffect | components/protected-route.tsx:54-60 | `SIGNED_OUT` or no session goes to `/signin`; otherwise the session's user, if any, is set |
| ProtectedRoute.ListenerSkipsRoleCheck | components/protected-route.tsx:35-59 | a non-admin that the check sends to `/dashboard` is still set as the user by a later auth event |
| ProtectedRoute.Guard.constructor | components/protected-route.tsx:15-17 | the guard starts loading with no user, no navigation and no call |
| ProtectedRoute.Guard.CheckUser | components/protected-route.tsx:21-47 | exactly one `getUser` call is made; a redirect pushes its route and leaves the user; an admission sets the user and pushes nothing; `loading` ends false on every path; on a fresh guard the children render afterwards exactly when the user was admitted |
| ProtectedRoute.Guard.RendersChildren | components/protected-route.tsx:65-76 | the children render only when loading is over and a user is set |
| ProtectedRoute.NonAdminRendersAfterAuthEvent | components/protected-route.tsx:21-76 | on an admin route, a non-admin is pushed to `/dashboard` and then, after an auth event other than `SIGNED_OUT` with their session, the admin page's children render |
| ProtectedRoute.Guard.OnAuthStateChange | components/protected-route.tsx:54-60 | the handler pushes `/signin` or sets the session user as decided, and leaves `loading` and the call log alone |
| Rewards.Button | app/dashboard/rewards/page.tsx:87-96 | the button is disabled exactly when the balance is below the option's cost, and reads `Not Enough Points` then and `Redeem` otherwise |
| Rewards.OptionsAscending | app/dashboard/rewards/page.tsx:7-32 | the options cost strictly more down the list, and the cheapest costs the stated minimum |
| Rewards.RedeemableIsPrefix | app/dashboard/rewards/page.tsx:67 | a balance that redeems an option also redeems every cheaper one listed before it |
| Rewards.NothingRedeemableBelowMinimum | app/dashboard/rewards/page.tsx:7-8 | below the minimum nothing is redeemable, and with the page's balance of 0 every button is disabled |
| Rewards.OneKgEarnsLessThanAdvertised | app/dashboard/rewards/page.tsx:117 | one kg logged earns at most 20 points, whatever the waste type |

## Left out

- Rendering, styling and the marketing pages (`app/page.tsx`, `app/about/page.tsx`, `app/contact/page.tsx`, `app/faq/page.tsx`): they show text and hold no logic.
- `lib/database.ts` and `lib/supabase.ts` are not part of this model. They wrap the hosted backend's client. Every remote call is reduced to its answer, passed to the handler as a parameter: `Ok`, `Err(message)` or `Threw` for the auth, storage and update calls, and a datatype of its own for the reads that return data (`UserLookup` and `PickupQuery` on the schedule page, `GetUserResult` in the route guard).
- `app/onboarding/page.tsx`, `app/dashboard/page.tsx`, `app/dashboard/history/page.tsx` and `app/dashboard/schedule-pickup/page.tsx` are not part of this model. They hold upload plumbing, remote filtering, static data or a log line.
- Floating point: `amount` and `parseFloat` are a `real` given as a parameter. IEEE rounding is not modelled, nor is `parseFloat` of text that is not a number (NaN).
- Clock and randomness: `new Date().toISOString()` is the parameter `now`, and the text of `Math.random().toString(36)` is the parameter `random36`. The `setTimeout` redirect after a successful verification is not modelled.
- Library behaviour:
  - URL parameters are a map, and their encoding and decoding are not modelled.
  - `getPublicUrl` is the parameter `publicUrlOf`.
  - Geolocation coordinates are the text `toFixed(6)` would give.
- Characters: JavaScript strings are UTF-16, while the model's strings are sequences of characters. Lengths and the `<` order agree only where every character is a single UTF-16 unit.
  - `toUpperCase` is modelled on ASCII letters only.
  - A waste type naming a built-in object property (`constructor`, say) would make the rate lookup find a non-number. The model treats every key outside the table as missing.
- `handleDeletePic` (app/profile/page.tsx:91-103): the path it deletes depends on the storage's public-URL format, which is not visible.
- `fetchProfile` (app/profile/page.tsx:27-56) is not modelled. It sends a visitor with no user to `/signin`, shows a destructive toast when the profile read fails, and otherwise keeps the row and fills the form from it and from the user's e-mail, with `""` for each missing value and an empty password. Its result appears only as the state `HandleSave` and `HandleUpload` start from, which may hold no profile.
- `handleFileChange`, the profile and sign-up `handleChange`, the verify page's e-mail input, and `handleLogout` and the user lookup of the dashboard layout: plain state setters or remote reads with no rule of their own. Their effect appears only as the state the modelled handlers start from.
- `NewSchedulePage.NewSchedule.HandleLocationShare`: the handler's callback updates the form captured when the button was pressed. An edit made while the position is being looked up is lost in the source, but the model applies the update to the current form.
- SignUpPage.VerifyRouteCarriesEmail: the round trip holds only because URL encoding and decoding are left out. The verify page applies `decodeURIComponent` (app/verify/page.tsx:28) to a parameter the router has already decoded, so the e-mail is decoded twice. An e-mail containing `%` comes back altered (`a%41@x.io` becomes `aA@x.io`), or makes the decode throw so that the page keeps an empty e-mail (`100%@x.io`). The model promises the round trip only as if neither step existed.
- ProfilePage.Profile.HandleUpload: after its two awaits the source spreads the `form` and `profile` captured when the upload began (app/profile/page.tsx:84-85), so an edit typed during the upload is lost. The model's method runs in one step and updates the current form and profile.
- The auth listener's subscription and unsubscription (components/protected-route.tsx:52-63): only the handler's decision is modelled.
- Since the handlers are methods that change state, their contracts use `old`. Their meaning rests on the pure functions they are stated against (`Upcoming`, `Executed`, `Decide` and so on), whose properties are proved as lemmas.
