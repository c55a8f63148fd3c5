# Fleet back office rules in Dafny

This project models the logic of a ride-hailing back office, a React
application over a hosted database with one serverless payment function.
All input and output is removed. What remains:

- **Trip payments.** The serverless function validates a request, splits the
  amount into the platform commission and the driver's share, asks the
  payment provider for a checkout and records a pending payment. The
  payments hook sends the request and sums succeeded payments. The payment
  dialog previews the split and guards its submit button.
- **Goals and bonuses.** Goal progress, the statistics for one driver, and
  the bonus status change with its `paid_at` stamp. The goals section covers
  the driver filter, the active/completed split, the bonus totals, the
  progress clamp and the potential bonus. The goal dialog covers the driver
  list, the end date and the attribute defaults.
- **Driver earnings.** The driver, search and date filters, the totals,
  average and month-over-month change, and the per-day chart grouping.
- **Support.** The ticket number encoder and its base-36 timestamp, ticket
  and message inserts, the ticket search and status tabs, badge fallbacks,
  and the ticket dialog's status change and message box.
- **Scheduled trips.** The shared/individual filter, the status tabs and the
  confirm, cancel and join actions.
- **Maintenance.** The status and day filters, the summary cards, the
  calendar highlights and the status transitions offered by the list.
- **Notifications.** The notification list and unread counter, kept by the
  realtime insert and update handlers.

One module per source file; shared modules: `Wrappers` (Option, Result),
`Seqs` (`filter`, `reduce`, `slice` and facts about them), `Text` (case,
trim, substring search, string order), `Radix` (`toString(36)` and decimal
printing with their parsers), `Calendar` (dates as instants with their local
calendar fields).

Pure view logic (filters, reductions, lookup tables) is written as functions
and lemmas. State that the source updates step by step becomes a class:

- the payments, goals and tickets hooks' fetched lists and `loading` flags;
- the payment and goal forms;
- the ticket conversation;
- the notification centre.

The per-day chart fills a dictionary in a loop, so it is a method with loop
invariants. It is proved against a specification function. The payment
handler reassigns its customer id step by step, so it is a method too.

Money is `int` (whole pesos) and percentages are whole numbers, so JavaScript's
`Math.round(n / 100)` on an integer `n` is `(n + 50) / 100`. Divisions that
JavaScript performs in floating point (progress, average, monthly change,
potential bonus) are `real`. Goal progress keeps JavaScript's answers for a
zero target: `Infinity`, `-Infinity` or `NaN`.

The serverless function rejects a request only when `!amount || !userName`.
It does not check for negative amounts or for percentages outside 0..100, and
the model adds no such validation. A zero percentage from the settings is
replaced by 15 before it is sent (`|| 15`). An absent percentage in the
request also becomes 15, but through the destructuring default.

## Model

| member | source | states |
|---|---|---|
| TripPaymentFunction.RoundHundredth | supabase/functions/create-trip-payment/index.ts:42 | the result is the nearest integer to n/100, with halves rounded up |
| TripPaymentFunction.ComputeSplit | supabase/functions/create-trip-payment/index.ts:42-43 | commission + driver == amount exactly; the commission is within half a unit of amount·pct/100; for a non-negative amount and a percentage in [0, 100] both shares lie in [0, amount] |
| TripPaymentFunction.SplitBounds | supabase/functions/create-trip-payment/index.ts:42-43 | for amount ≥ 0 and 0 ≤ pct ≤ 100, both the commission and the driver share lie in [0, amount] |
| TripPaymentFunction.SplitExamples | supabase/functions/create-trip-payment/index.ts:42-43 | 999 at 15 % gives 150/849 (half-up rounding); 1000 gives 150/850; a negative amount is split too |
| TripPaymentFunction.SplitExtremes | supabase/functions/create-trip-payment/index.ts:42-43 | at 0 % the driver receives everything; at 100 % the platform does |
| TripPaymentFunction.RequestPercentage | supabase/functions/create-trip-payment/index.ts:33 | the percentage is 15 when the field is absent, and otherwise the one sent |
| TripPaymentFunction.OrElse | supabase/functions/create-trip-payment/index.ts:68 | `o \|\| fallback`: the value when it is truthy, otherwise the fallback |
| TripPaymentFunction.OrNull | supabase/functions/create-trip-payment/index.ts:94-95 | `o \|\| null`: the value is kept exactly when it is truthy |
| TripPaymentFunction.MetadataFor | supabase/functions/create-trip-payment/index.ts:79-85 | the trip id is the request's or "direct"; the driver name defaults to ""; the commission and driver strings parse back to the split |
| TripPaymentFunction.CheckoutFor | supabase/functions/create-trip-payment/index.ts:59-86 | one item of amount·100 centavos in mxn; a known customer replaces the email; the success and cancel urls; the product description only with a driver |
| TripPaymentFunction.RecordFor | supabase/functions/create-trip-payment/index.ts:91-104 | the row is pending, holds the split, which sums to the amount, has trip_id null iff the trip id is falsy, description "Pago de viaje" by default, and the payment intent or null |
| TripPaymentFunction.ErrorResponse | supabase/functions/create-trip-payment/index.ts:122-129 | a thrown error is answered with status 500 and the message |
| TripPaymentFunction.HandleRequest | supabase/functions/create-trip-payment/index.ts:15-130 | OPTIONS gets an empty answer; a missing key or a rejected request fails with 500 before any lookup, checkout or insert; the customer is searched iff an email is given; the insert happens only after the checkout exists; a failed insert still answers 200 with the url and no payment id; the checkout is built for the first customer the search returned, or for none, so it carries that customer without an email, or the email when no usable customer was found |
| PaymentsHook.EffectiveCommissionPercentage | src/hooks/usePayments.ts:101 | the configured percentage, or 15 when it is missing or 0; never 0 |
| PaymentsHook.InvokeBody | src/hooks/usePayments.ts:98-103 | the body carries the input's fields and the effective percentage, so the function's own default never applies |
| PaymentsHook.CreatePaymentSucceeded | src/hooks/usePayments.ts:105-124 | createPayment reports success iff there is no error and the answer carries a truthy url |
| PaymentsHook.GetPaymentStats | src/hooks/usePayments.ts:150-165 | total is the list length and pending + completed ≤ total; StatsOfEmpty and the three append lemmas fix every field by induction on the list |
| PaymentsHook.StatsOfEmpty | src/hooks/usePayments.ts:150-165 | the stats of an empty list are all zero |
| PaymentsHook.StatsReconcile | src/hooks/usePayments.ts:151-153 | if every row has commission + driver == amount, then totalCommission + totalDriverAmount == totalAmount |
| PaymentsHook.StatsAppendUnsucceeded | src/hooks/usePayments.ts:151-155 | appending a payment that has not succeeded leaves the three money totals and the completed count unchanged |
| PaymentsHook.StatsAppendSucceeded | src/hooks/usePayments.ts:151-155 | appending a succeeded payment adds its amount, commission and driver amount to the three totals and one to the completed count |
| PaymentsHook.StatsAppendCounts | src/hooks/usePayments.ts:154-155 | appending any payment adds one to the total count, and one to the pending or completed count exactly when it has that status |
| PaymentsHook.PaymentsStore.constructor | src/hooks/usePayments.ts:32-34 | no payments, no settings, loading |
| PaymentsHook.PaymentsStore.BeginFetch | src/hooks/usePayments.ts:38 | fetchPayments raises the loading flag |
| PaymentsHook.PaymentsStore.PaymentsFetched | src/hooks/usePayments.ts:44-54 | the loading flag drops; on success the rows replace the list; on error the list is kept |
| PaymentsHook.PaymentsStore.SettingsFetched | src/hooks/usePayments.ts:64-68 | only a found active row replaces the settings; an error or no row keeps them |
| PaymentsHook.PaymentsStore.Stats | src/hooks/usePayments.ts:150-165 | the result is GetPaymentStats of the current list |
| CreatePaymentDialog.PreviewSplit | src/components/CreatePaymentDialog.tsx:42-44 | the previewed commission and driver share sum to the amount and lie in [0, amount] for an in-range percentage |
| CreatePaymentDialog.EmptyAsUndefined | src/components/CreatePaymentDialog.tsx:54-56 | `value \|\| undefined`: absent iff the text is empty |
| CreatePaymentDialog.SubmittedInput | src/components/CreatePaymentDialog.tsx:50-57 | the input passes amount, user name and trip id through and turns empty optional texts into undefined |
| CreatePaymentDialog.PreviewMatchesStoredSplit | src/components/CreatePaymentDialog.tsx:42-57 | for the body the dialog produces, the function uses the effective percentage, rejects it iff the amount is 0 or the user name is empty, and otherwise stores exactly the previewed split |
| CreatePaymentDialog.PaymentForm.constructor | src/components/CreatePaymentDialog.tsx:33-40 | prefilled values replace falsy defaults; email and description are empty; not loading |
| CreatePaymentDialog.PaymentForm.Preview | src/components/CreatePaymentDialog.tsx:42-44 | the form's preview sums to its amount |
| CreatePaymentDialog.PaymentForm.BeginSubmit | src/components/CreatePaymentDialog.tsx:46-57 | the loading flag rises; the input is built from the form; the form is unchanged |
| CreatePaymentDialog.PaymentForm.FinishSubmit | src/components/CreatePaymentDialog.tsx:59-69 | the loading flag drops; on success the dialog closes and the form resets to 0 and empty strings; on failure the form is unchanged |
| CreatePaymentDialog.SubmitGuard | src/components/CreatePaymentDialog.tsx:188 | when not loading, the submit button is disabled exactly when the serverless function would reject the body the submission sends |
| CreatePaymentDialog.BreakdownBounds | src/components/CreatePaymentDialog.tsx:160 | a shown breakdown (positive amount) at a percentage in [0, 100] shows both shares within [0, amount] |
| PaymentsPage.StatusBadge | src/pages/Payments.tsx:48-56 | the four status labels and variants; any other status gets the pending badge |
| PaymentsPage.PaymentIcon | src/pages/Payments.tsx:164-173 | the check icon iff the payment succeeded, the clock otherwise |
| PaymentsPage.RedirectToast | src/pages/Payments.tsx:30-46 | success=true wins over canceled=true; with neither there is no toast |
| DriverGoalsHook.GoalProgress | src/hooks/useDriverGoals.ts:214-216 | with a nonzero target, progress·target == current·100; with a zero target the result is +∞, −∞ or NaN by the sign of current |
| DriverGoalsHook.ProgressAgainstTarget | src/hooks/useDriverGoals.ts:214-216 | with a positive target, progress is 100 iff current == target and ≥ 100 iff current ≥ target; progress grows with current |
| DriverGoalsHook.GetDriverStats | src/hooks/useDriverGoals.ts:218-237 | counts that driver's active and completed goals (together ≤ that driver's goals); sums that driver's paid and pending bonuses |
| DriverGoalsHook.DriverStatsOwnRows | src/hooks/useDriverGoals.ts:219-220 | the stats of the whole lists equal the stats of that driver's own rows |
| DriverGoalsHook.DriverStatsIgnoresOthers | src/hooks/useDriverGoals.ts:219-220 | appending goals and bonuses of other drivers changes nothing |
| DriverGoalsHook.BonusUpdate | src/hooks/useDriverGoals.ts:194-198 | the update has the new status, and paid_at is present iff the status is "paid", at the current time |
| DriverGoalsHook.ApplyBonusPatch | src/hooks/useDriverGoals.ts:200-203 | the stored bonus takes the patched fields and keeps every other field, and keeps paid_at when the patch has none |
| DriverGoalsHook.BonusStatusChange | src/hooks/useDriverGoals.ts:194-203 | marking paid stamps paid_at; any other status keeps the earlier paid_at |
| DriverGoalsHook.GoalsStore.constructor | src/hooks/useDriverGoals.ts:54-56 | no goals, no bonuses, loading |
| DriverGoalsHook.GoalsStore.BeginFetchAll | src/hooks/useDriverGoals.ts:90-91 | fetchAll raises the loading flag |
| DriverGoalsHook.GoalsStore.GoalsFetched | src/hooks/useDriverGoals.ts:59-75 | on success the goals are replaced (an empty answer gives []); on error they are kept |
| DriverGoalsHook.GoalsStore.BonusesFetched | src/hooks/useDriverGoals.ts:77-88 | on success the bonuses are replaced; on error they are kept |
| DriverGoalsHook.GoalsStore.EndFetchAll | src/hooks/useDriverGoals.ts:92-93 | the loading flag drops once both fetches are done |
| DriverGoalsHook.GoalsStore.Stats | src/hooks/useDriverGoals.ts:218-237 | the result is GetDriverStats of the current goal and bonus lists for that driver |
| GoalsSection.FilteredGoals | src/components/GoalsSection.tsx:18-20 | "all" keeps every goal; any other value keeps exactly the goals of that driver, in order |
| GoalsSection.FilteredBonuses | src/components/GoalsSection.tsx:22-24 | "all" keeps every bonus; any other value keeps exactly the bonuses of that driver, in order |
| GoalsSection.ActiveCompletedSplit | src/components/GoalsSection.tsx:26-27 | active and completed goals are disjoint subsequences of the filtered goals |
| GoalsSection.BonusTotals | src/components/GoalsSection.tsx:29-35 | both totals split over concatenation; with non-negative amounts pending + paid ≤ the sum of all bonuses |
| GoalsSection.SectionMatchesDriverStats | src/components/GoalsSection.tsx:18-35 | for one driver, the section's counts and totals equal the hook's driver stats |
| GoalsSection.DisplayedProgress | src/components/GoalsSection.tsx:54 | `Math.min(progress, 100)`: never above 100, equal to the progress or to 100; +∞ becomes 100; −∞ and NaN pass through |
| GoalsSection.DisplayedProgressOfGoal | src/components/GoalsSection.tsx:54 | with a positive target the bar is finite, at most 100, and full iff current ≥ target |
| GoalsSection.PotentialBonus | src/components/GoalsSection.tsx:56 | bonus·100 == bonus_amount·100 + current·pct; with pct 0 it is the bonus amount |
| GoalsSection.PotentialBonusMonotone | src/components/GoalsSection.tsx:56 | with a non-negative percentage the potential bonus grows with current |
| GoalsSection.ShownCompletedGoals | src/components/GoalsSection.tsx:239 | the first min(6, n) completed goals |
| GoalsSection.ShownBonuses | src/components/GoalsSection.tsx:258 | the first min(10, n) bonuses |
| GoalsSection.GoalTypeLabel | src/components/GoalsSection.tsx:44-51 | daily, weekly and monthly are translated; any other type is returned unchanged |
| CreateGoalDialog.DriverChoices | src/components/CreateGoalDialog.tsx:42 | the sorted, duplicate-free truthy driver names of the payments |
| CreateGoalDialog.EndDateOffset | src/components/CreateGoalDialog.tsx:44-56 | one day for daily, one week for weekly, one month for monthly and any other type |
| CreateGoalDialog.GoalData | src/components/CreateGoalDialog.tsx:62-74 | start date today; end date from the offset; target trips undefined iff empty; bonus amount and percentage 0 iff empty, parsed otherwise |
| CreateGoalDialog.EmptyBonusFields | src/components/CreateGoalDialog.tsx:72-73 | empty bonus fields give zero bonus amount and percentage |
| CreateGoalDialog.GoalForm.constructor | src/components/CreateGoalDialog.tsx:30-39 | a blank form with type monthly; not loading |
| CreateGoalDialog.GoalForm.BeginSubmit | src/components/CreateGoalDialog.tsx:58-74 | the loading flag rises; the data is built from the form with the end date of its goal type |
| CreateGoalDialog.GoalForm.FinishSubmit | src/components/CreateGoalDialog.tsx:76-85 | whatever createGoal returned, the loading flag drops, the form is blank again and the dialog closes |
| CreateGoalDialog.SubmitGuard | src/components/CreateGoalDialog.tsx:180 | a blank form cannot be submitted; when the button is enabled nothing is loading, the target amount is filled in and the record names a driver |
| DriverEarnings.TruthyDriverNames | src/pages/DriverEarnings.tsx:54-56 | one name per payment with a truthy driver name, in the payments' order; so exactly the truthy driver names occur |
| DriverEarnings.DriverNames | src/pages/DriverEarnings.tsx:53-58 | strictly sorted (so duplicate-free), and a name is in it iff it is a truthy driver name of some payment |
| DriverEarnings.FilteredPayments | src/pages/DriverEarnings.tsx:61-96 | an order-preserving subsequence that keeps exactly the payments passing the driver, search and date filters |
| DriverEarnings.NoFilterKeepsAll | src/pages/DriverEarnings.tsx:61-96 | driver "all", an empty search and range "all" keep every payment |
| DriverEarnings.FilterGuarantees | src/pages/DriverEarnings.tsx:64-91 | a chosen driver keeps only that driver's payments; "month" keeps only the current month; "3months" drops everything before three months ago |
| DriverEarnings.SearchIgnoresCase | src/pages/DriverEarnings.tsx:69-77 | the search outcome does not depend on the case typed, and a payment is found by its own user name |
| DriverEarnings.GetEarningsStats | src/pages/DriverEarnings.tsx:99-138 | trips counts succeeded payments; the average and the change are AveragePerTrip and MonthlyChange of its own total, trips and month fields; EarningsStatsOfEmpty and EarningsStatsAppend fix the sums |
| DriverEarnings.AveragePerTrip | src/pages/DriverEarnings.tsx:106 | 0 without trips; otherwise the average times the trip count is the total |
| DriverEarnings.MonthlyChange | src/pages/DriverEarnings.tsx:125-127 | 0 when last month is not positive; otherwise the change times last month is 100 times the difference |
| DriverEarnings.EarningsMatchPaymentStats | src/pages/DriverEarnings.tsx:100-105 | the page's total earnings and trip count equal the payments hook's driver total and completed count over the same list |
| DriverEarnings.EarningsStatsOfEmpty | src/pages/DriverEarnings.tsx:99-138 | with no payments every sum and count is 0, and so are the average and the change |
| DriverEarnings.EarningsStatsAppend | src/pages/DriverEarnings.tsx:100-123 | appending a payment adds its driver amount to the total iff it succeeded, to the pending sum iff it is pending, to this month iff it succeeded on or after the month's start, and to last month iff it succeeded in the previous month; trips grows by one iff it succeeded |
| DriverEarnings.MonthsWithinTotal | src/pages/DriverEarnings.tsx:114-123 | with non-negative driver amounts, this month and last month together are at most the total |
| DriverEarnings.MonthRangeHasNoChange | src/pages/DriverEarnings.tsx:84-127 | under the "month" range this month's earnings are the total, last month's are 0, and so the monthly change is 0 |
| DriverEarnings.EntriesOf | src/pages/DriverEarnings.tsx:150-151 | one point per key, in key order, holding that day's total |
| DriverEarnings.DayKeysDistinct | src/pages/DriverEarnings.tsx:143-148 | the dictionary's keys are distinct |
| DriverEarnings.DayKeysCover | src/pages/DriverEarnings.tsx:143-148 | every payment's day is a key, and every key is some payment's day |
| DriverEarnings.DayKeysFirst | src/pages/DriverEarnings.tsx:143-148 | the first key is the day of the first payment |
| DriverEarnings.EntriesSum | src/pages/DriverEarnings.tsx:143-151 | before truncation the day totals add up to the sum of the driver amounts |
| DriverEarnings.ChartTotals | src/pages/DriverEarnings.tsx:141-151 | the chart's days are distinct and, before truncation, add up to the page's total earnings |
| DriverEarnings.GroupByDay | src/pages/DriverEarnings.tsx:141-147 | the loop over succeeded payments leaves one key per day, in the order days first appear, each holding the sum of that day's driver amounts |
| DriverEarnings.ChartData | src/pages/DriverEarnings.tsx:141-152 | the chart is the dictionary's entries in key order, cut by `slice(-14)` |
| DriverEarnings.ChartWindowAsWritten | src/pages/DriverEarnings.tsx:152 | `slice(-14)`: the last min(14, n) entries |
| DriverEarnings.RecentChartWindow | src/pages/DriverEarnings.tsx:152 | the first min(14, n) entries, which are the most recent days |
| DriverEarnings.ChartWindowDropsNewestDay | src/pages/DriverEarnings.tsx:141-153 | with payments newest first and more than 14 days, the chart as written leaves out the newest day, and the intended window starts with it |
| Calendar.LabelIgnoresYear | src/pages/DriverEarnings.tsx:146 | the "dd MMM" key of two dates with the same day and month is the same, whatever their years |
| Calendar.MonthWindows | src/pages/DriverEarnings.tsx:110-123 | a date in the current month is on or after its start; no date is in both the current and the previous month; a date in the previous month is before the current month's start |
| Radix.ToRadixString | src/hooks/useSupportTickets.ts:35 | the digits of n in the given base, most significant first, in canonical form: "0" for zero and no leading zero otherwise |
| Radix.ParseRoundTrip | src/hooks/useSupportTickets.ts:35 | parsing the base-b digits of n gives back n |
| Radix.Base36UpperRoundTrip | src/hooks/useSupportTickets.ts:35 | the upper-cased base-36 text uses only 0-9 and A-Z and decodes to n |
| Radix.IntToStringRoundTrip | supabase/functions/create-trip-payment/index.ts:83-84 | `toString()` of an integer parses back to it |
| SupportTicketsHook.Substring | src/hooks/useSupportTickets.ts:36 | `substring(2, 6)` with JavaScript's clamping: a slice of at most 4 characters |
| SupportTicketsHook.GenerateTicketNumber | src/hooks/useSupportTickets.ts:33-38 | "TKT-", then the upper-cased base-36 timestamp, then "-", then the upper-cased random part |
| SupportTicketsHook.TicketNumberRoundTrip | src/hooks/useSupportTickets.ts:33-38 | the timestamp segment of a ticket number uses only 0-9 and A-Z and decodes to the timestamp |
| SupportTicketsHook.TicketNumbersDistinct | src/hooks/useSupportTickets.ts:33-38 | ticket numbers generated at different milliseconds differ, whatever the random parts |
| SupportTicketsHook.CreateTicket | src/hooks/useSupportTickets.ts:82-105 | the insert is the input plus the generated number; the result is the number on success and null on an insert error |
| SupportTicketsHook.AddMessage | src/hooks/useSupportTickets.ts:130-149 | the message is inserted with ticket_id set; the result is true iff the insert succeeded |
| SupportTicketsHook.GetTicketMessages | src/hooks/useSupportTickets.ts:151-164 | an error gives []; otherwise exactly the messages of that ticket, in table order |
| SupportTicketsHook.AddedMessageReadBack | src/hooks/useSupportTickets.ts:130-164 | a message added successfully is read back as the last message of its ticket, and other tickets' messages are unchanged |
| SupportTicketsHook.TicketsStore.constructor | src/hooks/useSupportTickets.ts:41-42 | no tickets, loading |
| SupportTicketsHook.TicketsStore.BeginFetch | src/hooks/useSupportTickets.ts:46 | fetchTickets raises the loading flag |
| SupportTicketsHook.TicketsStore.TicketsFetched | src/hooks/useSupportTickets.ts:52-62 | the loading flag drops; on success the tickets are replaced; on error they are kept |
| SupportPage.FilteredTickets | src/pages/Support.tsx:35-40 | an order-preserving subsequence that keeps exactly the tickets whose number, subject or user name contains the lowered query |
| SupportPage.SearchProperties | src/pages/Support.tsx:35-40 | an empty query keeps every ticket in order; a ticket is found by its own number, typed in any case |
| SupportPage.TabsPartition | src/pages/Support.tsx:42-44 | the three tabs are disjoint subsequences; a ticket of any other status is in none of them |
| SupportPage.TotalCardBound | src/pages/Support.tsx:216 | the Total card (all tickets) is at least the three tab sizes together |
| SupportPage.StatusBadge | src/pages/Support.tsx:46-55 | four status badges; an unknown status gets the open badge |
| SupportPage.PriorityBadge | src/pages/Support.tsx:57-66 | four priority badges; an unknown priority gets the normal badge |
| SupportPage.CategoryIconOf | src/pages/Support.tsx:68-77 | four category icons; an unknown category gets the "other" icon |
| SupportPage.TabBadges | src/pages/Support.tsx:42-55 | each tab shows its own statuses' badges |
| TicketDetailDialog.StatusChangePatch | src/components/TicketDetailDialog.tsx:74-79 | the new status, and resolved_at is the current time iff the status is "resolved", null otherwise |
| TicketDetailDialog.ApplyTicketPatch | src/components/TicketDetailDialog.tsx:74-79 | the stored ticket takes the status and resolved_at and keeps every other field |
| TicketDetailDialog.CloseClearsResolvedAt | src/components/TicketDetailDialog.tsx:74-79 | a resolved ticket that is then closed or reopened loses its resolution time |
| TicketDetailDialog.CategoryLabel | src/components/TicketDetailDialog.tsx:103-111 | seven category labels; any other category has none |
| TicketDetailDialog.TicketConversation.constructor | src/components/TicketDetailDialog.tsx:42-44 | no messages, empty text, not loading |
| TicketDetailDialog.TicketConversation.MessagesLoaded | src/components/TicketDetailDialog.tsx:52-55 | the messages are replaced by what was read |
| TicketDetailDialog.TicketConversation.Type | src/components/TicketDetailDialog.tsx:249 | the typed text replaces the text being written |
| TicketDetailDialog.TicketConversation.BeginSend | src/components/TicketDetailDialog.tsx:57-65 | nothing is sent iff the text is only whitespace; otherwise the loading flag rises and the trimmed, non-empty text is sent as "user" under the ticket's user name |
| TicketDetailDialog.TicketConversation.FinishSend | src/components/TicketDetailDialog.tsx:67-71 | the text is cleared and the messages reloaded only on success; the loading flag drops either way |
| TicketDetailDialog.SendGuard | src/components/TicketDetailDialog.tsx:257 | the send button is disabled exactly while sending or when the text is only whitespace, which is when BeginSend sends nothing |
| TicketDetailDialog.TicketConversation.ChangeStatus | src/components/TicketDetailDialog.tsx:74-79 | the patch carries the new status, with resolved_at the current time iff "resolved"; nothing in the open dialog changes |
| TicketDetailDialog.StaleInputAfterClose | src/components/TicketDetailDialog.tsx:74-79 | closing a ticket from its open dialog stores a closed row, yet the dialog still shows the message box for the row it was opened with |
| TicketDetailDialog.InputAfterStatusChange | src/components/TicketDetailDialog.tsx:244 | a dialog opened on the row as stored after a status change shows the message box exactly when the new status is not closed |
| ScheduledTrips.FilteredTrips | src/pages/ScheduledTrips.tsx:30-34 | "shared" keeps shared trips, "scheduled" keeps the others, "all" keeps every trip, in order |
| ScheduledTrips.FilterPartition | src/pages/ScheduledTrips.tsx:30-34 | "all" is the identity; shared and scheduled are disjoint and their sizes sum to the list's |
| ScheduledTrips.TabsPartition | src/pages/ScheduledTrips.tsx:36-38 | the three tabs are disjoint subsequences holding at most the filtered trips; in-progress and cancelled trips are in none |
| ScheduledTrips.SharedCount | src/pages/ScheduledTrips.tsx:216 | the Compartidos card is the size of the shared filter over all trips |
| ScheduledTrips.SharedCardBound | src/pages/ScheduledTrips.tsx:216 | under any filter the card counts at least the shared trips shown |
| ScheduledTrips.Actions | src/pages/ScheduledTrips.tsx:113-146 | Join iff shared and pending; Confirm and Cancel iff pending; nothing for other trips |
| ScheduledTrips.ActionRequest | src/pages/ScheduledTrips.tsx:119-140 | Join opens the join dialog; Confirm sends status "confirmed"; Cancel deletes the trip |
| ScheduledTrips.ApplyRequest | src/pages/ScheduledTrips.tsx:132-140 | a status update changes only the status of that trip; a delete removes it and keeps every other trip in order |
| ScheduledTrips.ConfirmAndCancel | src/pages/ScheduledTrips.tsx:127-144 | confirming a pending trip moves it from the pending tab to the confirmed tab; cancelling removes it from the list |
| ScheduledTrips.TripStatusLabel | src/pages/ScheduledTrips.tsx:48-55 | five status labels; any other status has none |
| MaintenanceList.StatusChangeUpdate | src/components/MaintenanceList.tsx:46-52 | the new status, and completed_date iff the status is completed, at the current time |
| MaintenanceList.ApplyMaintenancePatch | src/components/MaintenanceList.tsx:46-52 | the stored row takes the patched fields and keeps every other field, and keeps completed_date when the patch has none |
| MaintenanceList.Transitions | src/components/MaintenanceList.tsx:118-143 | scheduled offers in progress and completed; in progress offers completed; every other status offers nothing |
| MaintenanceList.TransitionsMoveForward | src/components/MaintenanceList.tsx:118-143 | every offered change moves forward in the lifecycle, none leads to scheduled or cancelled, and each lands on its status |
| MaintenanceList.TransitionsEnd | src/components/MaintenanceList.tsx:118-143 | after two offered changes no further change is offered |
| MaintenanceList.CompletionStamp | src/components/MaintenanceList.tsx:46-52 | completing stamps completed_date; starting keeps the earlier value |
| MaintenanceList.StatusLabel | src/components/MaintenanceList.tsx:16-37 | the four status labels; any other status has no entry |
| MaintenanceList.PriorityLabel | src/components/MaintenanceList.tsx:39-44 | the four priority labels; any other priority has no entry |
| MaintenanceList.ListViewOf | src/components/MaintenanceList.tsx:54-87 | an empty list renders only the empty-state card; a list with a service whose status or priority has no entry fails to render; otherwise one card per service |
| MaintenancePage.FilteredMaintenances | src/pages/Maintenance.tsx:24-30 | a service is listed iff its status matches (or "all") and, with a day selected, it falls on that day; the list keeps their order |
| MaintenancePage.NoDateSelected | src/pages/Maintenance.tsx:26-28 | with no day selected only the status filter applies; with "all" as well every service is listed |
| MaintenancePage.ScheduledDates | src/pages/Maintenance.tsx:20-22 | one highlight per scheduled service, in order: the i-th is the date of the i-th scheduled service, so every scheduled service's date is highlighted and nothing else is |
| MaintenancePage.HighlightedDayHasService | src/pages/Maintenance.tsx:20-30 | selecting a highlighted day with the scheduled filter lists at least one service |
| MaintenancePage.UrgentWithinUpcoming | src/pages/Maintenance.tsx:32-33 | urgent scheduled services ≤ scheduled services == number of highlights |
| MaintenancePage.ThisMonthCountAsWritten | src/pages/Maintenance.tsx:79-82 | Este Mes as written counts services whose month number matches, in any year |
| MaintenancePage.ThisMonthCount | src/pages/Maintenance.tsx:79-82 | the intended Este Mes: current month of the current year, never more than the card as written |
| MaintenancePage.ThisMonthCountsOtherYears | src/pages/Maintenance.tsx:79-82 | a service of the same month one year earlier is counted by the card as written and not by the intended count |
| NotificationsHook.NewestFifty | src/hooks/useNotifications.ts:24-28 | the first at most 50 rows of the table, newest first |
| NotificationsHook.ReplaceById | src/hooks/useNotifications.ts:81-83 | same length; each element with the updated id is replaced in place; the others stay |
| NotificationsHook.ReplaceByIdEffects | src/hooks/useNotifications.ts:81-89 | an update for an id not in the list changes nothing; a read update leaves that notification read and the unread count no higher |
| NotificationsHook.InsertToast | src/hooks/useNotifications.ts:63-67 | the toast shows title and message, and is destructive iff the type is error |
| NotificationsHook.ApplyReadUpdate | src/hooks/useNotifications.ts:99-121 | the selected rows become read; nothing else changes |
| NotificationsHook.ReadUpdateEffects | src/hooks/useNotifications.ts:99-121 | marking all as read leaves no unread row; marking one leaves it read and the other rows as they were |
| NotificationsHook.NotificationCenter.constructor | src/hooks/useNotifications.ts:17-18 | an empty list and a zero counter, which agree |
| NotificationsHook.NotificationCenter.Loaded | src/hooks/useNotifications.ts:30-38 | on error nothing changes; otherwise the list is the rows and the counter their unread number |
| NotificationsHook.NotificationCenter.OnInsert | src/hooks/useNotifications.ts:55-68 | the notification is prepended, the counter grows by one even if it is read, and the toast announces it; an accurate counter stays accurate iff it was unread |
| NotificationsHook.NotificationCenter.OnUpdate | src/hooks/useNotifications.ts:77-90 | the list is the in-place replacement by id and the counter is recomputed, so it agrees with the list |
| NotificationsHook.NotificationCenter.MarkAsRead | src/hooks/useNotifications.ts:99-109 | the update selects exactly that id and local state is not touched |
| NotificationsHook.NotificationCenter.MarkAllAsRead | src/hooks/useNotifications.ts:111-121 | the update selects exactly the unread rows and local state is not touched |

## Left out

- Database, payment provider, realtime channels, edge-function transport, toasts and `window.open`: their answers are parameters (Result or Option values) and nothing is sent anywhere.
- Asynchrony: each awaited step is a separate method, called in the source's order. Interleavings of concurrent fetches are not modelled.
- Floating point: money is an integer number of pesos and percentages are whole numbers. Fractional amounts, `toFixed` and currency formatting are not modelled.
- Clocks and randomness: `Date.now()`, `new Date()` and `Math.random()` text are inputs. date-fns results that are not plain field comparisons are inputs too (`subMonths(now, 3)`, the formatted end date).
- Calendar.Instant: dates carry their local calendar fields beside the milliseconds. Parsing ISO strings and time zones are not modelled.
- Text: `toLowerCase` and `toUpperCase` are modelled for ASCII letters only; other letters are left unchanged. `trim` removes exactly the ECMAScript WhiteSpace and LineTerminator characters: tab, vertical tab, form feed, U+FEFF, line feed, carriage return, U+2028, U+2029 and the Unicode 15 space separators (U+0020, U+00A0, U+1680, U+2000 to U+200A, U+202F, U+205F, U+3000). A later Unicode version with other space separators is not modelled. String sorting compares characters, which matches JavaScript's UTF-16 order only below U+10000.
- CreateGoalDialog.GoalData: `parseFloat`/`parseInt` is a parameter `string -> int`, so non-numeric text (NaN targets) and fractional values are not modelled.
- Record lookups on inherited property names (a status such as "constructor" finding an object prototype member) are not modelled; such keys count as unknown.
- `data || []` on a successful fetch with no data is modelled as an empty list.
- `updatePaymentStatus`, the trip, ticket and maintenance CRUD hooks, and the form dialogs that only copy fields are not part of this model.
- Rendering: the badges' colour classes are reduced to a style tag, and icons to a tag.
- The Enter key in the ticket dialog calls the send handler without the button's loading check. A second send can start while the first is in flight. BeginSend models this by not requiring `!loading`.
- TripPaymentFunction.RequestPercentage: a JSON `null` commission percentage does not take the destructuring default of 15, and JavaScript then computes `amount * null / 100`, a commission of 0. `Option<int>` has no such case. The only caller in the app, `createPayment`, always sends a number, falling back to 15 (src/hooks/usePayments.ts:101).
- TicketDetailDialog.TicketConversation: the dialog's ticket is the row it was opened with, and a status change does not update it (see Findings). The refreshed row is seen only by a dialog opened anew.
- DriverEarnings.ChartData models the chart as the code writes it, with `slice(-14)`. The intended window is given separately (see Findings).

## Findings

| source | as written | input that shows it | evidently intended | confidence | as-written member | corrected member |
|---|---|---|---|---|---|---|
| src/pages/DriverEarnings.tsx:150-152 | payments arrive newest first, so the day keys are inserted newest first; `slice(-14)` then keeps the 14 oldest days | succeeded payments on 15 distinct days, listed newest first: the newest day is missing from the chart | the 14 most recent days, as the "Last 14 days" comment says | not executed | DriverEarnings.ChartWindowAsWritten (shown by DriverEarnings.ChartWindowDropsNewestDay) | DriverEarnings.RecentChartWindow |
| src/components/TicketDetailDialog.tsx:74-79 | the status change only writes to the database; the open dialog keeps the ticket it was opened with (src/pages/Support.tsx:83, 316) | open a ticket that is open and choose "closed": the stored row is closed, but the message box at line 244, the badge and the select still show the old status until the dialog is reopened | the dialog follows the new status, so a closed ticket offers no message box | not executed | TicketDetailDialog.StaleInputAfterClose | TicketDetailDialog.InputAfterStatusChange |
| src/pages/Maintenance.tsx:79-82 | Este Mes compares `getMonth()` only | a service scheduled one year ago in the current month is counted | services in the current month of the current year | not executed | MaintenancePage.ThisMonthCountAsWritten (shown by MaintenancePage.ThisMonthCountsOtherYears) | MaintenancePage.ThisMonthCount |

Other behaviours the source shows, modelled as written:

- The unread counter grows on every insert, even for a notification already read (NotificationsHook.NotificationCenter.OnInsert).
- A bonus moved from paid back to pending keeps its `paid_at` (DriverGoalsHook.BonusStatusChange).
- A resolved ticket that is closed loses its `resolved_at` (TicketDetailDialog.CloseClearsResolvedAt).
- The chart's "dd MMM" day key merges the same day of different years (Calendar.LabelIgnoresYear).
