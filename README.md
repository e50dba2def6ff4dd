# Subscription manager: dashboard logic, statistics and logout

A Dafny model of the parts of the subscription-tracking web application that
carry logic of their own. Everything else in the application is views and
calls to a hosted backend.

- **`SubscriptionForm`** (`subscription_form.dfy`): the subscription form of the
  dashboard page. It holds the guard chain that both the "new" and the "edit"
  submit handlers run: four emptiness checks in a fixed order, then a range
  check on the billing day, then a positivity check on the monthly cost. An
  accepted form becomes the row that is inserted or the columns that are
  updated, and `openEditModal` maps a stored subscription back to a form.
  JavaScript's `Number(text)` is a parameter `parse` whose result keeps NaN and
  the two infinities. The guards therefore compare exactly as JavaScript does:
  a billing day of 1.5 is accepted, and a cost of plus infinity is accepted.
- **`DashboardPage`** (`dashboard_page.dfy`): the page component's state as a
  class `Dashboard`. It covers the loaded list, the statistics, and the
  new/edit/delete modals with their forms, selections and error texts. Each
  handler is a method, and each backend answer is a parameter. The class
  invariant says the edit and the delete modal are each open exactly when
  they have a subscription selected, that the statistics agree with
  themselves (average × count = total), and that while the list is non-empty
  they are the statistics of that list, which is what the summary section
  shows.
- **`Aggregate`** and **`DashboardStats`** (`aggregate.dfy`,
  `dashboard_stats.dfy`): the total/count/average fold over monthly costs, with
  the zero-count guard. `getSubscriptionStats` treats a null query result as
  all zeros and a null cost as 0. Costs are exact reals.
- **`UserMenu`** (`user_menu.dfy`): `handleLogout` of the user menu. If
  `signOut` reports an error, nothing else happens. Otherwise local storage is
  cleared, and the cookie string is split on `;`. Each piece loses its leading
  spaces, and everything from its first `=` to the end of its line becomes
  `=;expires=<date>;path=/`. A piece without `=` is written back as trimmed.
  Then the router goes to `/login` and refreshes. The browser operations are
  recorded as a sequence of effects.
- **`Common`** (`common.dfy`): `Option`, `Result`, and the value a `catch`
  receives, with the text each handler shows for it.

A billing day is a `number` (`billing_day: number`, page.tsx:14), and the range
check (page.tsx:140) tests only `1 <= day <= 31`, not that the day is whole. So
the model's billing day is a real, and a day of 1.5 is stored as 1.5
(`FractionalDayAccepted`). The model also keeps one behaviour of the page as
written: a reload that returns an empty list sets the list to empty
(page.tsx:88) but leaves the statistics in the state as they were
(page.tsx:91-98), so after the last subscription is deleted the state still
holds its totals (`StatsKeptWhenListEmpties`). Nothing shows them, because the
summary is rendered only while the list is non-empty (page.tsx:327), and
only once no load is pending (page.tsx:283-289, `Dashboard.Summary`).

## Model

| member | source | states |
|---|---|---|
| `Common.Shown` | src/app/dashboard/page.tsx:170-172 | a caught `Error` shows its message; any other thrown value shows the handler's fallback text |
| `Aggregate.Sum` | src/components/dashboard/DashboardStats.tsx:14 | the reduce with initial value 0: an empty list sums to 0 and a single cost to itself (concatenation and bounds in the lemmas below) |
| `Aggregate.Of` | src/components/dashboard/DashboardStats.tsx:14-16 | count is the number of costs; the triple is consistent (average × count = total); no costs give all zeros |
| `Aggregate.SumAppend` | src/components/dashboard/DashboardStats.tsx:14 | the reduce of a concatenation is the sum of the reduces of its parts |
| `Aggregate.SumBounds` | src/components/dashboard/DashboardStats.tsx:14 | costs all in [lo, hi] sum to between lo·n and hi·n |
| `Aggregate.AverageWithinBounds` | src/components/dashboard/DashboardStats.tsx:16 | the average of a non-empty list lies between its smallest and largest cost |
| `DashboardStats.Contribution` | src/components/dashboard/DashboardStats.tsx:14 | the cost or 0: a present cost contributes itself, and the contribution is 0 exactly for a null cost or a cost of 0 |
| `DashboardStats.Contributions` | src/components/dashboard/DashboardStats.tsx:14 | one contribution per row, in order; a null cost contributes 0 |
| `DashboardStats.GetSubscriptionStats` | src/components/dashboard/DashboardStats.tsx:7-23 | a null result gives total 0, count 0, average 0; otherwise count is the number of rows and average × count = total, with an empty list giving zeros |
| `DashboardStats.TotalIsSumOfPresent` | src/components/dashboard/DashboardStats.tsx:14 | the total equals the sum of the non-null costs alone (a reference definition that drops null rows) |
| `DashboardStats.NullRowCountsWithoutCost` | src/components/dashboard/DashboardStats.tsx:14-15 | a row with a null cost raises the count by one and leaves the total unchanged |
| `DashboardStats.AverageBetweenCosts` | src/components/dashboard/DashboardStats.tsx:16 | with at least one row, the average lies between the smallest and largest contribution |
| `SubscriptionForm.Below` | src/app/dashboard/page.tsx:140 | `n < k`: false for NaN; for any other number exactly one of below, equal, above holds |
| `SubscriptionForm.Above` | src/app/dashboard/page.tsx:140 | `n > k`: false for NaN; for any other number the negation of `n <= k` |
| `SubscriptionForm.AtMost` | src/app/dashboard/page.tsx:143 | `n <= k`: holds exactly for k itself, a smaller finite number, or minus infinity, so never for NaN |
| `SubscriptionForm.Message` | src/app/dashboard/page.tsx:132-145 | every reason has a non-empty message (distinctness in `MessagesDistinct`) |
| `SubscriptionForm.WithField` | src/app/dashboard/page.tsx:417-480 | an `onChange` sets the one input it belongs to and leaves the other four as they were |
| `SubscriptionForm.Validate` | src/app/dashboard/page.tsx:132-145 | an accepted form has a billing day that parsed to a finite number in [1, 31] and a cost equal to its parse, which is positive or plus infinity |
| `SubscriptionForm.InsertRow` | src/app/dashboard/page.tsx:153-164 | the inserted row is the user's; name, category and colour are the form's verbatim (an empty colour stays empty); the numbers are the parsed ones |
| `SubscriptionForm.UpdateFields` | src/app/dashboard/page.tsx:218-225 | the update copies name and category, carries the parsed numbers and the timestamp, and its colour is never empty: the form's when set |
| `SubscriptionForm.ColorOrDefault` | src/app/dashboard/page.tsx:223 | the updated colour is never empty: the form's colour when set, otherwise `#3b82f6` |
| `SubscriptionForm.StoredColor` | src/app/dashboard/page.tsx:186 | an absent or empty stored colour opens the edit form with `#3b82f6`, any other colour as stored |
| `SubscriptionForm.FormOf` | src/app/dashboard/page.tsx:179-187 | the edit form copies name and category, shows both numbers through `String`, and never has an empty colour |
| `SubscriptionForm.MessagesDistinct` | src/app/dashboard/page.tsx:132-145 | the six validation messages are pairwise different |
| `SubscriptionForm.FirstMissingReported` | src/app/dashboard/page.tsx:132-135 | the i-th "required" error is reported exactly when the i-th input (service name, cost, billing day, category) is empty and all earlier ones are filled |
| `SubscriptionForm.RangeChecksAfterRequired` | src/app/dashboard/page.tsx:132-145 | a day or cost error is reported only when all four required inputs are filled, so a missing category wins over a bad cost |
| `SubscriptionForm.DayRejectedIff` | src/app/dashboard/page.tsx:137-142 | with the required inputs filled, the billing-day error is reported exactly when the day does not parse to a finite number in [1, 31] |
| `SubscriptionForm.CostRejectedIff` | src/app/dashboard/page.tsx:143-145 | with the required inputs filled and the day accepted, the cost error is reported exactly when the cost parses to NaN or a value ≤ 0 |
| `SubscriptionForm.AcceptedIff` | src/app/dashboard/page.tsx:132-145 | a form is accepted exactly when all four required inputs are filled, the day is acceptable and the cost is acceptable |
| `SubscriptionForm.FractionalDayAccepted` | src/app/dashboard/page.tsx:137-142 | a billing day that parses to 1.5 is accepted and kept as 1.5 |
| `SubscriptionForm.InfiniteCostAccepted` | src/app/dashboard/page.tsx:138-145 | a cost that parses to plus infinity passes the cost check |
| `SubscriptionForm.InsertAndUpdateAgree` | src/app/dashboard/page.tsx:153-225 | for the same accepted form, the inserted row and the update agree on name, category and both numbers, and differ in colour exactly when the form's colour is empty (the insert keeps it empty, the update defaults it) |
| `SubscriptionForm.EditRoundTrip` | src/app/dashboard/page.tsx:179-225 | submitting the edit form of a stored subscription untouched is accepted exactly when the stored values pass the checks, and then writes the stored values back with the colour defaulted |
| `DashboardPage.Costs` | src/app/dashboard/page.tsx:92 | one cost per subscription, in list order |
| `DashboardPage.StatsAfterLoad` | src/app/dashboard/page.tsx:91-98 | a non-empty list gives total = sum of costs, count = length, average × count = total; a null or empty list keeps the previous statistics; consistency is preserved |
| `DashboardPage.StatsKeptWhenListEmpties` | src/app/dashboard/page.tsx:91-98 | after a one-subscription load, a load of an empty list leaves count 1 and that subscription's cost in the state |
| `DashboardPage.LoadError` | src/app/dashboard/page.tsx:77-101 | a load shows an error exactly when `getUser` failed or returned no user, or `select` failed, and then always the same fixed message |
| `DashboardPage.NewSubmitError` | src/app/dashboard/page.tsx:130-172 | the new handler shows the validation message first, then the auth error, then "not authenticated", then the insert error; no error once the insert succeeds |
| `DashboardPage.EditSubmitError` | src/app/dashboard/page.tsx:203-238 | the edit handler shows the validation message, then the update error; no error once the update succeeds |
| `DashboardPage.SubmitsAgreeOnValidation` | src/app/dashboard/page.tsx:125-216 | the new and the edit handler refuse the same forms with the same message, and both accept exactly the forms `Validate` accepts |
| `DashboardPage.Dashboard.Summary` | src/app/dashboard/page.tsx:283-345 | the summary is shown exactly when no load is pending and the list is non-empty (src/app/dashboard/page.tsx:283-289 shows only the loading indicator otherwise), and then its total is the sum of the listed costs, its count the list's length, and average × count = total |
| `DashboardPage.Dashboard.constructor` | src/app/dashboard/page.tsx:26-64 | the initial state: empty list, loading, zero statistics, all modals closed with empty forms |
| `DashboardPage.Dashboard.BeginLoad` | src/app/dashboard/page.tsx:72-75 | starting a load sets loading and clears the page error, nothing else |
| `DashboardPage.Dashboard.FinishLoad` | src/app/dashboard/page.tsx:72-105 | on success the list becomes the rows (empty for null) and the statistics follow `StatsAfterLoad`; on failure the list and statistics stay and the load message is shown; loading ends |
| `DashboardPage.Dashboard.OpenNewSubscriptionModal` | src/app/dashboard/page.tsx:108-118 | a fresh form with the default colour, no error, the modal open |
| `DashboardPage.Dashboard.CloseNewSubscriptionModal` | src/app/dashboard/page.tsx:120-123 | the modal closed and its error cleared; the form is kept |
| `DashboardPage.Dashboard.EditNewField` | src/app/dashboard/page.tsx:417-480 | one input of the new form takes the typed text; the rest of the form is kept |
| `DashboardPage.Dashboard.HandleNewSubmit` | src/app/dashboard/page.tsx:125-176 | a row is sent exactly when the form is valid and a user is signed in, and it is `InsertRow` of the form; the error shown is `NewSubmitError`; success closes the modal and starts a reload; loading ends |
| `DashboardPage.Dashboard.OpenEditModal` | src/app/dashboard/page.tsx:179-190 | the subscription is selected, the form is `FormOf` it, no error, the modal open |
| `DashboardPage.Dashboard.CloseEditModal` | src/app/dashboard/page.tsx:192-196 | closed, nothing selected, no error |
| `DashboardPage.Dashboard.EditEditField` | src/app/dashboard/page.tsx:520-583 | one input of the edit form takes the typed text; the rest of the form is kept |
| `DashboardPage.Dashboard.HandleEditSubmit` | src/app/dashboard/page.tsx:198-242 | with nothing selected nothing changes; otherwise an update for the selected id is sent exactly when the form is valid, the error shown is `EditSubmitError`, and success closes and deselects and starts a reload |
| `DashboardPage.Dashboard.OpenDeleteModal` | src/app/dashboard/page.tsx:245-249 | the subscription is selected, no error, the modal open |
| `DashboardPage.Dashboard.CloseDeleteModal` | src/app/dashboard/page.tsx:251-255 | closed, nothing selected, no error |
| `DashboardPage.Dashboard.HandleDelete` | src/app/dashboard/page.tsx:257-274 | with nothing selected nothing changes; otherwise the selected id is sent, success closes and deselects and starts a reload, failure shows the error and keeps the selection |
| `UserMenu.Split` | src/components/UserMenu.tsx:21 | `split(";")` gives at least one piece and no piece contains the separator |
| `UserMenu.JoinSplit` | src/components/UserMenu.tsx:21 | joining the pieces with the separator gives back the cookie string |
| `UserMenu.SplitCount` | src/components/UserMenu.tsx:21 | there is one more piece than there are separators |
| `UserMenu.LeadingSpaces` | src/components/UserMenu.tsx:23 | the run `^ +` matches fits in the piece and stops at the first character that is not a space |
| `UserMenu.LeadingSpacesAreSpaces` | src/components/UserMenu.tsx:23 | every character of that run is a space (tabs and other blanks are not removed) |
| `UserMenu.TrimKeepsRest` | src/components/UserMenu.tsx:23 | trimming removes only a run of leading spaces; the rest of the piece is kept and does not start with a space |
| `UserMenu.TrimLeadingSpaces` | src/components/UserMenu.tsx:23 | `replace(/^ +/, "")` never lengthens the piece and leaves it not starting with a space (full content in `TrimKeepsRest`) |
| `UserMenu.IndexOf` | src/components/UserMenu.tsx:24 | the position found is within the text and holds the character searched for, when it is not the end; it is not the end whenever the character occurs |
| `UserMenu.IndexOfFirst` | src/components/UserMenu.tsx:24 | no earlier position holds the character, and the end is returned exactly when the character is absent |
| `UserMenu.DotRun` | src/components/UserMenu.tsx:24 | `.*` stops at a line terminator or at the end of the text |
| `UserMenu.DotRunSkipsLine` | src/components/UserMenu.tsx:24 | every character `.*` takes is not a line terminator |
| `UserMenu.ReplaceValue` | src/components/UserMenu.tsx:24 | `replace(/=.*/, …)`: a piece without `=` is unchanged; with one, the result is at least as long as the name and the expiry text together (content in `ExpiredNameMatches`, `ExpiredSingleLine`) |
| `UserMenu.ExpireCookie` | src/components/UserMenu.tsx:22-24 | one iteration: a piece with no `=` after trimming is not matched and is written back as its trimmed self |
| `UserMenu.ExpiredNameMatches` | src/components/UserMenu.tsx:24 | an expired piece keeps its cookie name: the text before its first `=` |
| `UserMenu.ExpiredSingleLine` | src/components/UserMenu.tsx:24 | a single-line piece with `=` becomes its trimmed name followed by `=;expires=<date>;path=/` |
| `UserMenu.ExpireCookies` | src/components/UserMenu.tsx:21-25 | one write per piece, in order, each the expiry of that piece with the date the clock gave in that iteration |
| `UserMenu.HandleLogout` | src/components/UserMenu.tsx:11-33 | a sign-out error means no effect at all; otherwise clear storage, then one cookie write per piece in order (each with its iteration's date), then navigate to `/login`, then refresh |

## Left out

- Backend calls (`auth.getUser`, `select`, `insert`, `update`, `delete`, `signOut`): not modelled. Their answers are parameters of the handlers. Row ordering by the database is the database's business.
- Asynchrony: each handler is modelled by the state it leaves once its awaited calls have answered. The `…Loading` flags are true only while a call is pending, and that window, like user actions during it, is not represented.
- The reload a successful submit or delete starts is not awaited by the handler. Its synchronous start is `BeginLoad`, and its completion is a separate `FinishLoad` step.
- `Number(text)` and `String(number)`: not modelled. They are the parameters `parse` and `show`, because they are JavaScript library behaviour. `EditRoundTrip` assumes, only for the subscription's two stored numbers, that `show` gives a non-empty text that `parse` reads back as the same finite number.
- IEEE doubles: costs, sums and averages are exact reals. Rounding of sums and divisions is not modelled.
- The page's statistics add `monthly_cost` without a null guard (page.tsx:92). The page's subscriptions carry a real cost, so a null cost there is not modelled.
- Currency formatting (`Intl.NumberFormat`), `toFixed`, and the clock (`toISOString`, `toUTCString`): not modelled. The update timestamp is a parameter, and so are the cookie dates, one per cookie piece because the callback reads the clock on every iteration. The statistics are numbers, not formatted text.
- `ReplaceValue`: inserts the expiry text literally and does not model the `$&`, `` $` ``, `$'` and `$$` patterns of `String.prototype.replace`, because the replacement text contains `$` only if the date does, and `toUTCString` never produces one.
- The loop at page.tsx:226-229 that deletes undefined keys: not modelled. No field of the update can be undefined, so it removes nothing, and `UpdateRow` carries all six columns.
- Browser-side form constraints (`required`, `min`, `max`, `type="number"`, the category select): not modelled. The handlers are modelled on arbitrary input text, as their own code allows.
- The dashboard page's own `handleLogout` (page.tsx:276-281): not modelled. It is a fixed, unconditional sequence of service and browser calls with no logic.
- What the browser does with each `document.cookie` write, `localStorage.clear()`, and the router: these are browser I/O, recorded only as effects. A throw from one of them, which the `catch` would log, is not modelled.
- `console.error` logging, the rendering, and the user menu's open/closed toggle: presentation only.
- The profile pages, the subscription list with its change feed, the authentication status, the header, the button and the layouts: not modelled. They are pass-through views and forwarding to the backend.
