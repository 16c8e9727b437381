# 52-week savings challenge: allocation engine and ledger replay

This project models in Dafny the arithmetic core of a Django savings-club application and proves properties about it.

- **Weekly schedule.** The 52-week savings challenge requires week *i* to be paid *i* × 10,000.
- **Deposit evaluator** (`evaluate_deposit`). A deposit, plus whatever balance was carried forward, pays weeks in full from the member's current week upward. It stops at the first week it cannot cover.
- **Posting** (`process_user_deposit`). A new deposit continues from the member's most recent transaction.
- **Dashboard** (`wsc_member_dashboard`). It reads the most advanced transaction and reports the total saved, the current week, the carried balance and the current week's target.
- **Admin recomputation** (`SavingsTransactionAdmin.save_model`). Whenever a deposit is saved in the admin, it replays all of the owner's other deposits from week 1 and rewrites their derived fields. It then evaluates the saved deposit last.
- **Goat-farming payments.** Payments buy whole goats at 600,000 each, at most 10. The rest counts as management fees.
- **Smaller rules from the models:**
  - Account-number and goat/offspring ID generation.
  - The club's available savings and monthly progress.
  - The check `ClubFixedSavings.clean` applies before fixing savings.
  - Goat counts.

## Files

| file | module | contents |
|---|---|---|
| `wrappers.dfy` | `Wrappers` | `Option` |
| `decimal_text.dfy` | `DecimalText` | `str(n)`, `zfill`, and `int()` on digit strings, with the round trip `int(str(n).zfill(w)) == n` |
| `models.dfy` | `Models` | the deposit record `SavingsTransaction` as a class whose four derived fields are rewritten in place; account numbers; serial IDs; goat counts; club savings and `clean` |
| `views.dfy` | `Views` | target schedule; the evaluator, as a reference function `Allocate` and as the loop `EvaluateDeposit`; posting; dashboard; goat allocation |
| `ledger.dfy` | `Ledger` | the replay as a specification (`Step`, `Run`, `Row`); replay consistency of a ledger; conservation, contiguity and monotonicity over a whole ledger; agreement of posting and the dashboard with the replay |
| `admin.dfy` | `Admin` | `save_model` as written (`ReplayRows`, `EvaluateLast`, `SaveModel`); the backdated-edit counterexample; the date-ordered save `SaveModelInOrder` |

### How the model is set up

- **Transaction store.** The ORM query results become an input sequence `store` (or `previous`) of the owner's `SavingsTransaction` objects. It is in ascending `date_saved` order wherever the source sorts that way.
- **Replay consistency.** A ledger is *replay-consistent* (`Ledger.ReplayConsistent`) when every row's derived fields equal what replaying the amounts in sequence order from (total 0, carry 0, week 1) gives at that row.
- **Chronological.** A ledger is *chronological* (`Ledger.Chronological`) when its dates strictly increase.
- **Date order of the recomputation.** `save_model` announces a recalculation of all transactions in ascending `date_saved` order (mcs/admin.py:100) and treats the other transactions as "prior" (mcs/admin.py:110). It nevertheless evaluates the saved record after all of them, whatever its own date (mcs/admin.py:123-128). The model follows the code, and the first finding below shows the difference when the saved record is backdated.
- **Atomicity.** `save_model` (mcs/admin.py:95-130) rewrites the rows one `save()` at a time, without `transaction.atomic`. Each write is modelled as an in-place update of the row's object; partial failure is not modelled.

## Model

| member | source | states |
|---|---|---|
| Views.WeeklyTargets | mcs/views.py:15-17 | exactly 52 targets, and entry i is (i+1) × 10,000 |
| Views.WeeklyTargetsTotal | mcs/views.py:146 | the 52 targets sum to 13,780,000, the total the dashboard's percentage divides by |
| Views.Allocate | mcs/views.py:19-44 | the reference evaluator never moves the week back, and covers exactly next week − current week weeks |
| Views.AllocateConserves | mcs/views.py:27-35 | deposit + carry equals the targets of the covered weeks plus the remaining balance; a non-negative balance leaves a remainder between 0 and itself |
| Views.AllocateCoversConsecutiveWeeks | mcs/views.py:31-42 | covered weeks are current week, current week + 1, …; next week never passes 53 when starting at or before 53; past week 52 nothing is covered and the balance is returned whole |
| Views.AllocateStopsAtShortfall | mcs/views.py:33-38 | when next week ≤ 52, the remainder is strictly less than that week's target |
| Views.AllocateCoversEveryAffordableRun | mcs/views.py:31-38 | every run of weeks up to week 52 that the balance can pay for is covered, so the evaluator is greedy-maximal |
| Views.Evaluate | mcs/views.py:19-44 | `evaluate_deposit` as a value: deposit + carry equals the targets of the covered weeks plus the remaining balance, and the remainder falls short of the next week's target while weeks remain |
| Views.EvaluateDeposit | mcs/views.py:19-44 | the loop returns exactly the reference evaluation; conservation; contiguous covered weeks; next week = current week + number covered; the stop condition; the case past week 52; next week ≤ 53 |
| Views.AllocateIsTheOnlyStoppedRun | mcs/views.py:31-38 | any contiguous run from the current week that pays exactly and stops short of the next target is the evaluator's result (uniqueness) |
| Views.LatestByDate | mcs/views.py:47-49 | null exactly for an empty store; otherwise a member of the store dated no earlier than any other |
| Views.ProcessUserDeposit | mcs/views.py:46-66 | with no transaction: week 1, carry 0, cumulative = deposit; otherwise continues from the latest transaction's next week, remaining balance and cumulative total |
| Views.MostAdvanced | mcs/views.py:135 | null exactly for an empty store; otherwise a member that sorts first by descending next week, then descending date |
| Views.WscDashboardSummary | mcs/views.py:135-149 | defaults are total 0, week 1, carry 0; otherwise the most advanced row's figures; the current week's target is targets[week−1] for weeks 1–52, week 52's target for a stored 0 (Python index −1), and 0 past 52 |
| Views.PaymentTotal | mcs/views.py:617-644 | the sum over completed or pending payment and management-fee transactions: 0 when none counts, non-negative for non-negative amounts |
| Views.PaymentTotalAppend | mcs/views.py:617-644 | one more transaction adds its amount exactly when it is a completed or pending payment or management fee |
| Views.GoatPaymentAllocation | mcs/views.py:642-654 | the allocation splits exactly the payment total into goats and fees, buying between 0 and 10 goats for a non-negative total |
| Views.GoatPaymentAllocationIgnoresOthers | mcs/views.py:617-644 | a cancelled or failed transaction, or one of another type, leaves the allocation unchanged |
| Views.AllocateGoatPayments | mcs/views.py:646-654 | goats + fees = total deposits; goats = purchased × 600,000 with at most 10 purchased; for non-negative totals the fees are ≥ 0 and below 600,000 unless 10 goats were bought; negative totals buy none |
| Ledger.Step | mcs/admin.py:112-117 | one replayed row never moves the week back |
| Ledger.Run | mcs/admin.py:106-119 | the replay's week never moves back |
| Ledger.RunExtends | mcs/admin.py:111-119 | the replay state after row i is the state carried out of row i |
| Ledger.RowFollowsPreviousRow | mcs/admin.py:112-119 | row i+1 is evaluated from row i's next week, remaining balance and cumulative total |
| Ledger.RowOfPrefix | mcs/admin.py:111-119 | a row depends only on the amounts up to it |
| Ledger.RunTotalIsSum | mcs/admin.py:106-113 | the replay's cumulative total is the sum of the amounts replayed |
| Ledger.RowCumulativeTotal | mcs/admin.py:106-117 | row i's cumulative total is the sum of amounts 0..i |
| Ledger.RunWeekMonotone | mcs/admin.py:119 | the replay's week after i rows is at most the week after j ≥ i rows |
| Ledger.RowNextWeekMonotone | mcs/admin.py:119 | next week never decreases along the replay |
| Ledger.RunStaysInSchedule | mcs/admin.py:106-119 | with non-negative amounts the week stays in 1..53 and the carry is ≥ 0 and, before week 53, below that week's target |
| Ledger.StepConserves | mcs/admin.py:112-118 | one deposit: covered targets + carry before + deposit = covered targets + carry after |
| Ledger.LedgerConservation | mcs/admin.py:106-119 | the sum of all amounts is the targets of weeks 1..week−1 plus the carry |
| Ledger.LedgerCoversEachWeekOnce | mcs/admin.py:106-119 | the weeks covered across the whole replay are 1, 2, …, week−1, each exactly once |
| Ledger.ChronologicalLastIsLatest | mcs/views.py:47-49 | in a chronological ledger the latest-dated row is the last |
| Ledger.ProcessAgreesWithReplay | mcs/views.py:46-66 | on a replay-consistent chronological ledger, posting a deposit gives exactly the replay's next row |
| Ledger.LastRowHoldsFinalState | mcs/admin.py:111-119 | the last replay-consistent row holds the replay's final state |
| Ledger.ConsistentExtends | mcs/admin.py:123-128 | evaluating a record with the final replay state extends a replay-consistent ledger |
| Ledger.ConsistentLastHoldsSum | mcs/admin.py:124-128 | the last row's cumulative total is the sum of every amount |
| Ledger.ReplayedNextWeeksNonDecreasing | mcs/admin.py:119-125 | next week never decreases along a replay-consistent ledger |
| Ledger.ChronologicalLastIsMostAdvanced | mcs/views.py:135 | in a chronological ledger with non-decreasing next weeks, the dashboard's most advanced row is the last |
| Ledger.DashboardAgreesWithReplay | mcs/views.py:135-149 | on a replay-consistent chronological ledger, the dashboard shows the sum of all amounts and the replay's final week and carry, with week in 1..53 and carry below the current week's target |
| Admin.Reevaluate | mcs/admin.py:112-117 | a row's four derived fields become the evaluation of its amount from the given state; its amount, date and receipt number are unchanged |
| Admin.ReplayOne | mcs/admin.py:111-120 | one loop iteration writes row k of the replay and carries its state on |
| Admin.ReplayRows | mcs/admin.py:101-120 | the loop leaves the rows replay-consistent and returns the final state; entered fields are untouched; rows already consistent keep their derived fields |
| Admin.ReplayIsIdempotent | mcs/admin.py:96-128 | two replay-consistent states of the same entries hold identical derived fields |
| Admin.EvaluateLast | mcs/admin.py:123-128 | the saved record evaluated with the final state: ledger replay-consistent with it last, its cumulative total is the sum of all amounts, next weeks non-decreasing, only derived fields written |
| Admin.SaveModel | mcs/admin.py:95-130 | previous rows followed by the saved record form a replay-consistent ledger; the saved record's cumulative total is the sum of all amounts; next weeks non-decreasing; amounts, dates and receipts unchanged; saving again with nothing changed rewrites nothing |
| Admin.BackdatedEditExample | mcs/admin.py:101-128 | saving a 10,000 deposit dated before an existing 20,000 deposit leaves the ledger consistent in the order later, edited |
| Admin.BackdatedEditOutcome | mcs/admin.py:123-128 | in that ledger the earlier deposit is credited with week 2 and the later with week 1, and the ledger is not replay-consistent in date order |
| Admin.DateOrderIsNotConsistent | mcs/admin.py:100-103 | a 10,000 row holding week 2 cannot be the first row of a date-ordered replay, which would give it week 1 |
| Admin.BackdatedRepostPaysWeekTwice | mcs/views.py:46-60 | the next deposit of 20,000 continues from the later-dated row and covers week 2 again |
| Admin.InsertionPoint | mcs/admin.py:101-103 | the position after every entry dated no later than the saved record and before the first dated later |
| Admin.InsertByDate | mcs/admin.py:101-103 | the saved record inserted by date: a permutation of previous + saved, distinct, sorted by date, and chronological when all dates differ |
| Admin.InsertByDateOfLatest | mcs/admin.py:100-128 | when the saved record is dated no earlier than every other, the date insertion is previous + [saved], the very ledger `SaveModel` replays: the corrected save differs only on backdated saves |
| Admin.SaveModelInOrder | mcs/admin.py:100-128 | the date-ordered save: the ledger is the date insertion, sorted, replay-consistent, chronological when dates differ, with only derived fields written |
| Models.SavingsTransaction.constructor | mcs/models.py:60-69 | a new deposit record starts with no covered weeks, next week 1, zero balance and zero total |
| Models.UpperAscii | mcs/models.py:43 | a lower-case ASCII letter becomes its upper-case letter; every other character is kept |
| Models.Initial | mcs/models.py:43 | `name[:1].upper()`: empty for an empty name, otherwise the first character upper-cased |
| Models.AccountNumber | mcs/models.py:43-49 | "MCSTGF-" + uppercased initials (last name first) + a suffix of exactly 4 digits, or more without a leading zero, reading back as earlier + 1 |
| Models.UserProfile.Save | mcs/models.py:41-53 | an existing account number is kept; a missing or empty one is generated |
| Models.LastSerial | mcs/models.py:644 | 0 for an ID without the prefix; otherwise `int()` of the suffix, failing exactly when the suffix is empty or not all digits, and otherwise a number whose decimal spelling, zero-padded to the suffix's length, is the suffix itself (so "GF0042" reads 42 and "GF7" reads 7) |
| Models.SerialId | mcs/models.py:645 | the prefix followed by exactly three digits, or more without a leading zero, that read back as n |
| Models.LastSerialOfSerialId | mcs/models.py:644-645 | reading back a generated ID gives the number it was generated from |
| Models.FirstSerialId | mcs/models.py:647 | serial 1 is prefix + "001" |
| Models.NextSerialId | mcs/models.py:641-647 | prefix + "001" with no previous ID; otherwise the last number + 1, with 0 for an ID lacking the prefix; fails exactly when `int()` would raise |
| Models.NextSerialIdDiffersFromLast | mcs/models.py:641-647 | a generated ID never equals the ID it was generated from |
| Models.Goat.Save | mcs/models.py:639-647 | a caller-supplied goat ID is kept; otherwise the next "GF" serial is assigned, or nothing changes when generation raises |
| Models.GoatOffspring.Save | mcs/models.py:701-709 | the same rule with prefix "OFF" |
| Models.GoatFarmingPackage.TotalInitialGoats | mcs/models.py:457-462 | female + male, with a missing count read as 0 |
| Models.GoatFarmingInvestment.Save | mcs/models.py:520-526 | the current total becomes initial + offspring; the counts are unchanged |
| Models.Club.MonthlyProgress | mcs/models.py:140-144 | 0 for a non-positive target; otherwise at most 100, equal to 100 exactly when the collection reaches the target, and below that exactly collection / target × 100 |
| Models.Club.AvailableSavings | mcs/models.py:147-151 | deposits less withdrawals less active fixed savings; with no active fixed saving, deposits less withdrawals |
| Models.TotalOfTypeAppend | mcs/models.py:148-149 | a club transaction adds its amount to the total of its own type only |
| Models.ActiveFixedTotalAppend | mcs/models.py:150 | a fixed saving adds its amount to the fixed total only when active |
| Models.AvailableSavingsAfterTransaction | mcs/models.py:147-151 | a deposit raises and a withdrawal lowers available savings by its amount |
| Models.AvailableSavingsAfterFixing | mcs/models.py:147-151 | fixing an active amount lowers available savings by it |
| Models.Clean | mcs/models.py:199-212 | never refuses an absent or non-positive amount; refuses exactly when the amount exceeds available savings plus the stored amount of the record being updated |
| Models.CleanCorrected | mcs/models.py:199-212 | the same check adding back the stored amount only when that record is active; agrees with `clean` otherwise |
| Models.CleanCorrectedKeepsAvailableNonNegative | mcs/models.py:199-212 | an amount accepted by the corrected check never drives available savings below 0 |
| Models.CleanCorrectedAcceptsWhatFits | mcs/models.py:199-212 | the corrected check accepts every positive amount that keeps available savings ≥ 0 once the record is saved active with it; with `Models.CleanCorrectedKeepsAvailableNonNegative`, it accepts exactly those amounts |
| Models.CleanAcceptsOvercommitOfInactiveRecord | mcs/models.py:203-211 | the check as written accepts re-fixing an inactive record with money already fixed elsewhere, leaving −100 available |
| DecimalText.DecimalString | mcs/models.py:48 | `str(n)`: at least one digit, only digits, and a leading zero only in the one-character "0" |
| DecimalText.ParseDecimal | mcs/models.py:644 | `int(s)` succeeds exactly on non-empty digit strings |
| DecimalText.ZFill | mcs/models.py:48 | the longer of the width and the string's length, every padding character '0', and the string as the suffix |
| DecimalText.ZFillRoundTrip | mcs/models.py:48 | `int(str(n).zfill(w)) == n` |
| DecimalText.ParsedSpellsBack | mcs/models.py:644 | the other direction: for a non-empty digit string s, `str(int(s)).zfill(len(s)) == s` |
| DecimalText.ValueZeroIsZeros | mcs/models.py:644 | a digit string that `int()` reads as 0 consists of zeros only |

## Left out

- ORM queries, `.save()` persistence and the admin framework. The owner's transactions are an input sequence, and a row's `.save()` is the in-place update of its object.
- Atomicity of recomputation. `save_model` runs without `transaction.atomic`, so nothing is modelled about partial failure.
- Authentication, rendering, messages and JSON output in mcs/views.py. mcs/urls.py and mcs/decorators.py are not part of this model.
- Interest, maturity, expected-interest and days-remaining computations. They use float rates, `Decimal(float)`, dates and the wall clock.
- The float progress percentage `round(total / 13780000 * 100, 2)` at mcs/views.py:146. Only its divisor is modelled (`Views.WeeklyTargetsTotal`).
- The float conversions at mcs/views.py:53-54 and mcs/admin.py:118. Balances are integers, since every amount is an integer and every target a multiple of 10,000.
- Views.EvaluateDeposit: requires current week ≥ 1, so it does not reproduce the Python negative-index read at mcs/views.py:32 for a week ≤ 0.
- Views.LatestByDate, Views.MostAdvanced: the source has no tie-break for equal ordering keys. The model picks the later element of the input on a full tie.
- DecimalText.ParseDecimal: accepts only plain ASCII digit strings. `int()` also accepts a sign, surrounding whitespace, underscores and non-ASCII digits, and those forms are treated as the `ValueError` case.
- Models.UpperAscii: `str.upper()` is modelled on ASCII letters only.
- Models.Clean: the club is always present. The `self.club` guard for a fixed saving without a club is not modelled.
- Models.Club.MonthlyProgress: the month's collection is a parameter, because `get_monthly_collection` filters by the current date. The percentage is an exact `real`, so `Decimal` rounding of the quotient at 28 significant digits is not modelled.
- Money amounts of clubs and goat farming (`Club.monthly_target`, `ClubTransaction.amount`, `ClubFixedSavings.amount_fixed`, `GoatFarmingTransaction.amount` at mcs/models.py:121,175,190,737) are `DecimalField`s with two decimal places; the model counts them in whole units as `int`, so fractional amounts are not modelled.
- Column bounds of `SavingsTransaction`: `amount` is a `PositiveIntegerField` (at most 2^31 − 1, mcs/models.py:62), and `cumulative_total` and `remaining_balance` are `DecimalField(max_digits=10, decimal_places=2)` (below 10^8, mcs/models.py:66,69). The model's integers are unbounded, so the database error on saving a row past these bounds is not modelled; after week 52 every deposit adds to `remaining_balance`, so a long-running ledger can reach it.
- The dashboard's `float(...)` conversions of the cumulative total and the carry at mcs/views.py:138,140: the model keeps the integers, which a float holds exactly up to 2^53.
- Views.PaymentTotal, Views.GoatPaymentAllocation: the status filter (`completed` or `pending`) and the type filter (`payment` or `management_fee`) are folded into one predicate over each transaction; the order of the query does not matter to a sum.
- Admin.SaveModel: it takes the other transactions already sorted by date (`order_by('date_saved')`) and distinct, as the query returns them.

## Findings

| source | as written | input that shows it | evidently intended | confidence | as-written member | corrected member |
|---|---|---|---|---|---|---|
| mcs/admin.py:101-128 | the saved record is evaluated after all the owner's other transactions, whatever its own `date_saved` | an existing deposit of 20,000 on day 2, then a deposit of 10,000 saved with day 1: the day-2 row gets week 1, the day-1 row gets week 2 (total 30,000), and a next deposit of 20,000 posted through `process_user_deposit` continues from the day-2 row and covers week 2 again (a next deposit saved through the admin instead replays the two rows in date order and repairs both) | replay every transaction, the saved one included, in ascending date order, so that each row equals the chronological replay | not executed | Admin.BackdatedEditOutcome | Admin.SaveModelInOrder |
| mcs/models.py:203-211 | on update, the stored `amount_fixed` is added back to the available savings even when the stored record is inactive, although `available_savings` only subtracts active records | deposits 100; another active fixed saving of 100; the edited record stored inactive with 100 and re-saved active with 100: the check passes and available savings become −100 | add the stored amount back only when the stored record is active | not executed | Models.CleanAcceptsOvercommitOfInactiveRecord | Models.CleanCorrectedKeepsAvailableNonNegative |
