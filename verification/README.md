# ez-ledger in Dafny

This project models the money rules of ez-ledger, a multi-tenant credit-card ledger. The system keeps three append-only ledgers:

- a statement ledger of transactions, payments, refunds, fees, interest, adjustments and rewards;
- a points ledger of points earned and redeemed;
- a cashback ledger of cashback earned, clawed back and redeemed.

Around the ledgers sit the credit cards themselves (limits, APRs, status and available credit) and billing cycles with their statements. A fee engine, an interest engine and a payment state machine act on both. A reconciliation service fans one business event out to the statement and points ledgers.

The model covers the following:

- **Values.** Ledger rows, cards, cycles, rules and results are datatypes. Money and rates are `real`. Timestamps are whole hours since 0001-01-01 00:00 UTC, with a proleptic Gregorian calendar.
- **Store.** The database is one `Store.Database` object. Its fields hold the tables: the three ledgers, the category rules and the cycles as sequences, and the cards as a map keyed by id. It also holds the last id handed out.
- **Ids.** Ids are naturals and `0` plays the nil UUID. `Database.FreshId` hands out the next id.
- **Services.** Each service operation is a method that writes, by appending rows or by updating rows in place, only the tables named in its `modifies` clause. The payment transitions also update the `Payment` object they are given.
- **Lookups.** Every SQL lookup is a function over the table it reads. Every balance view is the sum of the rows it would cover.
- **Payments.** A payment is a `Payments.Payment` object whose status and timestamps the payment service updates in place, as the Go code does.
- **Clock.** `now` is a parameter wherever the Go code calls `time.Now()`.

Decimal arithmetic is modelled explicitly:

- `Money.Round` rounds half away from zero, as `decimal.Round` does. `Round2` is its two-place case.
- `Money.Trunc` truncates toward zero, as `decimal.IntPart` does.
- `Calendar.WholeDays` is the truncated day count behind `int(d.Hours() / 24)`.
- `Calendar.AddDate` follows Go's month normalisation. It first folds month overflow into the year, then adds the days.

## Model

| member | source | states |
|---|---|---|
| Money.Round | src/services/interest_service.go:140 | The result is a whole number of units of 10^-places. It lies within half a unit of the input, and a tie goes away from zero: for x ≥ 0 the interval is (x − ½u, x + ½u], for x < 0 it is [x − ½u, x + ½u). It keeps the input's sign. |
| Money.RoundCharacterised | src/services/interest_service.go:140 | That contract determines the result: any grid point in the same half-open interval equals `Round(x, places)`. |
| Money.Round2 | src/models/cashback.go:139 | The result is a whole number of cents within half a cent of the input, a half cent going away from zero. It never flips the sign. |
| Money.Trunc | src/models/points_ledger.go:103 | The integer part: `r <= x < r + 1` for non-negative `x`, and `r - 1 < x <= r` for negative `x`. |
| Money.PercentOf | src/models/credit_card.go:183 | `amount * percent / 100`, stated as `r * 100 == amount * percent`. |
| Money.RoundExact | src/services/interest_service.go:153 | A value that already has the requested number of places is left unchanged by rounding. |
| Money.Round2Cents | src/services/interest_service.go:153 | Whole cents are fixed points of `Round2`. |
| Money.RoundNegate | src/models/cashback.go:139 | Rounding commutes with negation: `Round(-x) == -Round(x)`. |
| Money.RoundMonotone | src/models/cashback.go:139 | Rounding preserves order. |
| Money.UnsignedMonotone | src/models/cashback.go:139 | Rounding of non-negative values preserves order. |
| Money.Round2HalfCent | tests/unit/cashback_test.go:176-181 | 0.075 rounds to 0.08 and -0.075 rounds to -0.08: a half cent goes away from zero. |
| Calendar.HourOf | src/models/billing_cycle.go:118 | The hour of day lies in 0..23. |
| Calendar.Midnight | src/models/billing_cycle.go:118 | Midnight of a day is on that day, at hour 0. |
| Calendar.WholeDays | src/models/billing_cycle.go:118 | `int(later.Sub(earlier).Hours() / 24)`: the day count truncated toward zero, bracketed on both signs. |
| Calendar.DaysInMonth | src/models/credit_card.go:198-221 | Every month has 28 to 31 days. |
| Calendar.MonthLength | src/models/credit_card.go:198-221 | A month in the linear month numbering has 28 to 31 days. |
| Calendar.ToCivil | src/models/credit_card.go:198-221 | Turns a day number into a valid date with that day number. |
| Calendar.CivilRoundTrip | src/models/credit_card.go:198-221 | Date → day number → date is the identity on valid dates. |
| Calendar.SameDayNumber | src/models/credit_card.go:198-221 | Distinct valid dates have distinct day numbers. |
| Calendar.AddDate | src/services/billing_service.go:400-404 | `t.AddDate(0, months, days)` keeps the hour of day. |
| Calendar.AddDateAtMidnight | src/services/billing_service.go:400-404 | At midnight, AddDate is Go's normalised `time.Date(y, m+months, d+days)`. |
| Calendar.AddDays | src/services/billing_service.go:79-83 | Adding days adds 24 hours per day. |
| Calendar.MonthsBefore | src/services/fee_service.go:532-550 | `NOW() - INTERVAL 'k months'` keeps the hour and is strictly earlier for k > 0. |
| Calendar.MonthsBeforeEarlier | src/services/fee_service.go:532-550 | A day that falls within the month k months back lies before the current day. |
| Calendar.MonthsLater | src/models/credit_card.go:210-219 | Moving a day-1..28 date by k months keeps the day and shifts the month index by exactly k. |
| Calendar.MonthsLaterInverse | src/models/credit_card.go:210-219 | Moving forward and then back by k months returns the original date. |
| Calendar.GoDateMonthsLater | src/models/credit_card.go:210-219 | Go's normalised `time.Date(y, m+k, d)` equals the k-month shift. |
| Calendar.MonthContaining | src/models/credit_card.go:198-221 | Finds the month whose day range contains a given day. |
| Calendar.FirstOfMonthOrdered | src/models/credit_card.go:198-221 | Month starts are ordered like the months. |
| Calendar.DayInMonth | src/models/credit_card.go:198-221 | A valid date lies within its own month's day range. |
| StatementLedger.SignedAmount | src/models/statement_ledger.go:94-99 | `|signed| == |amount|`, non-negative exactly for debits and non-positive for credits. |
| StatementLedger.IsDebitByType | src/models/statement_ledger.go:72-89 | Transaction, cash advance, every fee and returned reward are debits. Payment, refund, reward, credit, cashback redeemed and unknown types are credits. Adjustment and cashback earned are debits iff amount > 0. |
| StatementLedger.TypeGroupsPartition | src/models/statement_ledger.go:72-89 | Every known type falls in exactly one of the three sign groups. |
| StatementLedger.AdjustmentSignedAmount | src/models/statement_ledger.go:82-99 | For an adjustment, the signed amount is the stored amount whatever its sign. |
| StatementLedgerService.CreateEntry | src/services/statement_ledger_service.go:26-54 | Appends exactly one row and leaves earlier rows alone. A fresh id is assigned only when the id is nil. |
| StatementLedgerService.ClearMatching | src/services/statement_ledger_service.go:57-70 | The UPDATE: same length, each row rewritten only by the pending-with-this-id rule. |
| StatementLedgerService.PendingCountPositive | src/services/statement_ledger_service.go:72-83 | The affected-row count is positive iff a pending row with that id exists. |
| StatementLedgerService.ClearEntry | src/services/statement_ledger_service.go:57-86 | Errors, with the ledger unchanged, iff no pending row has the id. Otherwise the ledger becomes `ClearMatching`. |
| StatementLedgerService.ClearingOnlyPending | src/services/statement_ledger_service.go:57-70 | Clearing turns matching pending rows to cleared with the new timestamp and changes nothing else in any row. |
| StatementLedgerService.ClearTwiceFails | src/services/statement_ledger_service.go:58-83 | After clearing, no pending row with the id remains, so a second clear errors and changes nothing. |
| StatementLedgerService.CalculateStatementBalance | src/services/statement_ledger_service.go:162-194 | With no rows, the balance is the opening balance. |
| StatementLedgerService.PeriodTotalAppend | src/services/statement_ledger_service.go:168-185 | The period total of concatenated ledgers is the sum of their totals. |
| StatementLedgerService.PeriodTotalPermutation | src/services/statement_ledger_service.go:168-185 | The statement balance does not depend on the order of the rows. |
| StatementLedgerService.UnclearedIgnored | src/services/statement_ledger_service.go:181-184 | A row that is not cleared, wherever it sits, does not change the balance. |
| StatementLedgerService.PeriodAmountMatchesSign | src/services/statement_ledger_service.go:168-179 | The SQL sign table agrees with `GetSignedAmount` on adjustments, and on the listed debit and credit types with a non-negative amount. |
| StatementLedgerService.UncountedDebits | src/services/statement_ledger_service.go:168-179 | Interest, annual, over-limit and cash-advance fees and cash advances are debits yet add 0 to the statement balance. |
| StatementLedgerService.CountedEntryMoves | src/services/statement_ledger_service.go:168-193 | A cleared in-period row of the tenant moves the balance by its SQL period amount. |
| PointsLedger.SignedPoints | src/models/points_ledger.go:76-78 | The signed points are the stored points; the sign lives in the row. |
| PointsLedger.EarningRedemptionDisjoint | src/models/points_ledger.go:55-72 | No row is both earning and redemption; adjustments and unknown types are neither. |
| PointsLedger.PointsEarned | src/models/points_ledger.go:98-110 | 0 below the minimum amount. Otherwise `Trunc(amount * pointsPerDollar)`, lowered to `maxPoints` when a cap is set and exceeded. |
| PointsLedger.PointsEarnedBounds | src/models/points_ledger.go:98-110 | For non-negative inputs, `0 <= points <= amount * rate`. |
| PointsLedgerService.CreateEntry | src/services/points_ledger_service.go:24-54 | Appends exactly one row. A fresh id is assigned only when the id is nil. |
| PointsLedgerService.PointsBalanceAppend | src/services/points_ledger_service.go:57-86 | The balance is the tenant's sum of signed points; an appended row moves it by its points only for that tenant. |
| PointsLedgerService.ValidateRedemption | src/services/points_ledger_service.go:135-147 | Errors iff the request exceeds the balance; requesting exactly the balance is allowed. The error carries both figures. |
| PointsLedgerService.RedemptionEntry | src/services/points_ledger_service.go:164-172 | A redeemed_spent row of `-pointsSpent` for the tenant. |
| PointsLedgerService.RecordRedemption | src/services/points_ledger_service.go:150-179 | Validates before writing. On error nothing is appended. On success exactly one redemption row is appended, the balance falls by the points spent and stays non-negative. |
| PointsLedgerService.RedemptionKeepsBalance | src/services/points_ledger_service.go:141-172 | A redemption row keeps the balance non-negative iff validation passes. |
| Cashback.SignedAmount | src/models/cashback.go:67-69 | The signed amount is the stored amount. |
| Cashback.EarningDeductionDisjoint | src/models/cashback.go:55-64 | No row is both earning and deduction; an adjustment is neither. |
| Cashback.IsActiveOn | src/models/cashback.go:98-109 | Active iff the category is active and the date lies within the optional start and end bounds, inclusive. |
| Cashback.EarningRate | src/models/cashback.go:130-136 | The larger of base and bonus rate when the category is active on the date, else the base rate. |
| Cashback.CalculateCashback | src/models/cashback.go:120-147 | (0, 0) below the minimum transaction. Otherwise `Round2(amount * rate / 100)` at the earning rate, capped when a cap is set. |
| Cashback.DefaultCashbackRule | src/models/cashback.go:181-187 | The default rule has the given base rate, minimum 0.01, no cap and no categories. |
| Cashback.DefaultRuleEarnsBaseRate | src/models/cashback.go:181-187 | Under the default rule, any purchase of at least 0.01 earns `Round2` of the base percentage. |
| Cashback.FiveDollarsAtOneAndAHalfPercent | tests/unit/cashback_test.go:176-181 | 5.00 at 1.5% earns 0.08. |
| Cashback.CashbackBounds | src/models/cashback.go:120-147 | For non-negative inputs the cashback is non-negative and at most the unrounded percentage plus half a cent. |
| CashbackService.CategoryMapLastWins | src/services/cashback_service.go:506-558 | A category code maps to the last active category row for the card with that code, and only such rows appear. |
| CashbackService.EarningRule | src/services/cashback_service.go:506-558 | None iff the card is missing. Otherwise the default rule at the card's rate, with the card's active categories. |
| CashbackService.NoCategoriesMeansDefault | src/services/cashback_service.go:506-558 | With no category rows for the card, the rule is exactly the default rule. |
| CashbackService.CategoryBonus | src/services/cashback_service.go:68-73 | The bonus is recorded iff the category's bonus rate exceeds the base rate, and then equals their difference. |
| CashbackService.EarnedEntry | src/services/cashback_service.go:75-95 | An earned row of the computed cashback, linked to the statement entry, carrying the purchase amount and the merchant category of its metadata. |
| CashbackService.EarnCashback | src/services/cashback_service.go:40-101 | Returns no entry when cashback is disabled and an error when the card is unknown; both leave the ledger alone. Otherwise it appends one earned row, linked to the purchase, iff the computed cashback is positive. |
| CashbackService.FindByStatementEntry | src/services/cashback_service.go:561-593 | None iff no row links to the statement entry; otherwise the first such row. |
| CashbackService.RefundDeduction | src/services/cashback_service.go:128-141 | `Round2(original * refund / transaction)` when the transaction amount is recorded and non-zero, else the full original. Never above the original. |
| CashbackService.FullRefundTakesAll | src/services/cashback_service.go:128-141 | Refunding the whole transaction claws back exactly the original cashback. |
| CashbackService.DeductionNonNegative | src/services/cashback_service.go:128-141 | For non-negative inputs, the deduction lies between 0 and the original cashback. |
| CashbackService.RefundEntry | src/services/cashback_service.go:143-150 | An earned_refund row of minus the deduction, linked to the refund. |
| CashbackService.AdjustCashbackForRefund | src/services/cashback_service.go:114-167 | Appends nothing when no cashback row is linked to the original. Otherwise appends one earned_refund row of minus the capped deduction. |
| CashbackService.CashbackBalanceAppend | src/services/cashback_service.go:262-301 | The balance is the card's plain sum of amounts; an appended row moves it by its amount only for that card. |
| CashbackService.RedemptionCheck | src/services/cashback_service.go:190-199 | Passes iff minimum ≤ amount ≤ available. An insufficient balance is reported ahead of a below-minimum amount. |
| CashbackService.RedemptionKeepsBalance | src/services/cashback_service.go:190-215 | A redemption that passes the check leaves the balance non-negative. |
| CashbackService.RedeemCashback | src/services/cashback_service.go:179-259 | On error nothing changes. On success one redeemed row of `-amount` is appended, plus a cashback_redeemed statement row of `amount` only for a statement credit. The link is set on the returned row only. |
| CashbackService.PeriodRedeemedNonNegative | src/services/cashback_service.go:320-334 | The statement's redeemed figure (minus the redeemed rows) is never negative. |
| CashbackService.EffectiveRate | src/services/cashback_service.go:336-341 | 0 without purchases, else `Round2(earned / purchases * 100)`, which is non-negative for non-negative earnings. |
| CashbackService.UniformRate | src/services/cashback_service.go:336-341 | When everything was earned at one rate, the effective rate is that rate rounded to cents. |
| CashbackService.GetCashbackStatement | src/services/cashback_service.go:304-397 | Earned, redeemed (non-negative) and purchases are the period sums of the summary query. The effective rate follows `EffectiveRate` and the ending balance is the card's cashback balance. The breakdown is one summary per category group, in descending order of cashback earned. |
| CashbackService.GroupKeys | src/services/cashback_service.go:352-364 | The group keys are distinct, and a key is present iff some earned row of the card in the period carries it. |
| CashbackService.CategorySummary | src/services/cashback_service.go:352-391 | The label is the category, or "unknown" without one. The rate is computed like the statement's. A key no row carries has count 0 and earns 0. |
| CashbackService.AbsentKeyIsEmpty | src/services/cashback_service.go:352-364 | A key no earned row of the period carries has an empty group. |
| CashbackService.InsertByEarned | src/services/cashback_service.go:364 | Insertion keeps every summary and keeps a descending list descending. |
| CashbackService.SortByEarned | src/services/cashback_service.go:364 | The result is a permutation of the input, in descending order of cashback earned. |
| CashbackService.DescendingEverywhere | src/services/cashback_service.go:364 | In a descending list, no summary earns more than any summary before it. |
| CashbackService.CategoryBreakdown | src/services/cashback_service.go:352-394 | The breakdown is a permutation of the per-group summaries, largest cashback first. |
| CashbackService.SumOfGroupsStep | src/services/cashback_service.go:352-364 | One more row moves the sum over distinct keys by its amount exactly when it is an earned row of the period with one of those keys. |
| CashbackService.GroupsCoverEarnings | src/services/cashback_service.go:315-394 | The groups' earnings add up to the statement's cashback earned. |
| CreditCards.Validate | src/models/credit_card.go:99-118 | Succeeds iff every check holds. Otherwise it reports the first failing check, in the order limit, APR, cycle day, minimum percent. |
| CreditCards.CanTransact | src/models/credit_card.go:121-129 | Errors exactly for frozen (ErrCardFrozen) and closed (ErrCardClosed) cards. |
| CreditCards.HasAvailableCredit | src/models/credit_card.go:132-137 | Errors iff the amount exceeds the available credit; the exact available credit is allowed. |
| CreditCards.EffectiveApr | src/models/credit_card.go:140-152 | The penalty APR if delinquent, else the introductory APR while it runs, else the purchase APR. |
| CreditCards.PenaltyOverridesIntroductory | src/models/credit_card.go:140-152 | Delinquency wins over an active introductory rate. |
| CreditCards.DailyPeriodicRate | src/models/credit_card.go:156-159 | `apr / 365 / 100`, non-negative for a non-negative APR. |
| CreditCards.MinimumPayment | src/models/credit_card.go:163-179 | 0 for a non-positive balance. Otherwise the larger of the percentage and the fixed minimum, never above the balance, and positive when the fixed minimum is positive. |
| CreditCards.PercentBounds | src/models/credit_card.go:163-179 | A percentage of a positive amount lies in [0, amount] for percent in [0, 100]. |
| CreditCards.InternationalFee | src/models/credit_card.go:182-184 | `amount * rate / 100` with no rounding, non-negative for non-negative inputs. |
| CreditCards.CashAdvanceFee | src/models/credit_card.go:188-195 | The larger of the flat fee and the percentage fee. |
| CreditCards.PeriodMonths | src/models/credit_card.go:210-219 | A period is one month, or three for quarterly cards. |
| CreditCards.NextBillingPeriod | src/models/credit_card.go:198-221 | The due date is the period end plus the payment-due days. |
| CreditCards.NextBillingPeriodSpec | src/models/credit_card.go:198-221 | For cycle days 1..28, the start is at midnight on the cycle day, not before `from`, and one period earlier is before `from`. The end is the midnight of the day before the start shifted by one period. Quarterly starts fall in January, April, July or October. |
| CreditCards.PeriodStartSpec | src/models/credit_card.go:198-221 | The start is a cycle-day midnight not before `from`, and the same day one period earlier is before `from`; quarterly starts are on the quarter grid. |
| CreditCards.IsInGracePeriod | src/models/credit_card.go:224-227 | Holds iff the current time is at most the statement date plus the grace days, inclusive. |
| CreditCards.Defaults | src/models/credit_card.go:230-253 | The default card is monthly and active. |
| CreditCards.DefaultsValidWithLimit | src/models/credit_card.go:230-253 | The defaults pass validation once a positive limit is set. |
| Statements.OpeningBalance | src/models/statement.go:47-49 | Opening balance plus cleared payments equals the previous balance. |
| Statements.MinimumPayment | src/models/statement.go:53-55 | Exactly the statement balance times the fraction, with no floor, cap or fixed minimum: 0 when either is 0, and between 0 and the balance for a fraction in [0, 1]. |
| Statements.OpeningBalanceMonotone | src/models/statement.go:47-49 | Each extra cleared payment lowers the opening balance by its amount. Paying the whole previous balance gives 0. |
| BillingCycles.CalculateNewBalance | src/models/billing_cycle.go:78-92 | The new balance is the six debit terms minus the three credit terms, with no clamp. |
| BillingCycles.NewBalanceComponents | src/models/billing_cycle.go:78-92 | Each debit term raises the balance and each credit term lowers it by exactly its change. Cashback earned has no effect. |
| BillingCycles.OverpaymentIsCredit | tests/unit/billing_cycle_test.go:46-63 | 100 owed and 200 paid gives -100: the balance is not clamped. |
| BillingCycles.RemainingBalance | src/models/billing_cycle.go:95-97 | Remaining plus payments made equals the new balance. |
| BillingCycles.RemainingMinimum | src/models/billing_cycle.go:100-106 | `max(0, minimum - paid)`: never negative, and 0 exactly when the minimum is met. |
| BillingCycles.DaysOverdue | src/models/billing_cycle.go:114-119 | 0 unless overdue, otherwise the truncated whole days past due; never negative. |
| BillingCycles.PaidInFullIffNothingRemains | src/models/billing_cycle.go:122-124 | Paid in full iff the remaining balance is at most 0. |
| BillingCycles.OverdueFromTheDayAfter | src/models/billing_cycle.go:109-119 | Not overdue on the due date itself; 5 days overdue five days later. |
| BillingCycles.CalculateAverageDailyBalance | src/models/billing_cycle.go:135-147 | The accumulation loop computes 0 for no records, else `Round2(sum / n)`. |
| BillingCycles.SumOfConstant | src/models/billing_cycle.go:141-143 | The sum of n equal balances is n times that balance. |
| BillingCycles.ConstantAverage | tests/unit/billing_cycle_test.go:220-269 | A constant whole-cent balance averages to itself. |
| BillingCycles.SumBetween | src/models/billing_cycle.go:141-143 | Balances between lo and hi sum to between n·lo and n·hi. |
| BillingCycles.AverageBetween | src/models/billing_cycle.go:135-147 | The average lies within half a cent of the balance range. |
| BillingCycles.ToSummary | src/models/billing_cycle.go:167-189 | Copies the cycle's figures. The remaining balance is `GetRemainingBalance`. Days until due count only before the due date and days overdue only after it. Both are non-negative. |
| BillingCycles.NewBillingCycle | src/models/billing_cycle.go:197-247 | A built cycle is open and keeps the given card, number, dates, previous balance and APR. Each other amount is 0, one by one: payments, purchases, cash advances, refunds, fees, interest, adjustments, cashback earned and redeemed, new balance, minimum payment, average daily balance, payments made and last payment amount. The statement date is the zero time (0), and no payment date or closing time is recorded. The days in the cycle are the whole days from start to end, plus 1. |
| BillingService.PopulateCycleAmounts | src/services/billing_service.go:422-458 | Aggregation keeps the previous balance, interest and dates of the cycle. |
| BillingService.CycleAmountsAppend | src/services/billing_service.go:428-443 | Only pending or cleared rows of the tenant posted within the cycle add to the sums, each by its own amounts. |
| BillingService.CreditLowersAdjustments | src/services/billing_service.go:436-441 | A credit row lowers the adjustments sum by its amount. |
| BillingService.PendingCountsInCycleOnly | src/services/billing_service.go:428-443 | A pending row counts in the cycle sums but not in the cleared-only statement balance. |
| BillingService.RowNetIsEffect | src/services/billing_service.go:428-443 | A row's cycle sums move the new balance by the row's effect on the balance. |
| BillingService.NetIsCycleEffect | src/services/billing_service.go:428-443 | The aggregated sums move the new balance by the total effect of the cycle's rows. |
| BillingService.PopulatedNewBalance | src/services/billing_service.go:422-458 | After aggregation, the new-balance formula equals the previous balance plus interest plus the rows' effect. |
| BillingService.CycleById | src/services/billing_service.go:491-518 | Returns a cycle row with that id; with unique ids it is the row. |
| BillingService.FindCycle | src/services/billing_service.go:491-518 | None iff no row has the id; otherwise a row with the id. |
| BillingService.SetCycleStatus | src/services/billing_service.go:539-547 | The status update keeps the table length. |
| BillingService.SetCycleStatusAt | src/services/billing_service.go:539-547 | Rows with the id get the new status and timestamp; other rows are untouched. |
| BillingService.ApplyPayment | src/services/billing_service.go:183-196 | Payments made rise by the amount and the minimum-met flag is recomputed. The status becomes paid_full if fully paid, else paid if the minimum is met, else unchanged. Nothing else changes. |
| BillingService.PaymentFlagsAgree | src/services/billing_service.go:183-196 | After a payment: paid in full implies status paid_full; the minimum-met flag holds iff the remaining minimum is 0; a cycle with its minimum met is never overdue. |
| BillingService.PaymentsCompose | src/services/billing_service.go:183-196 | Two payments have the effect of one payment of their sum. |
| BillingService.RecordPaymentRows | src/services/billing_service.go:199-214 | The stored update writes the payment fields into rows with the id only. |
| BillingService.ProcessPaymentTowardsBillingCycle | src/services/billing_service.go:170-221 | Errors, with the table unchanged, iff the cycle is missing. Otherwise the cycle row takes the applied payment and the other rows are unchanged. |
| BillingService.PaymentTouchesOneRow | src/services/billing_service.go:170-221 | With unique ids, the update replaces exactly the row found by the lookup. |
| BillingService.LatestCycle | src/services/billing_service.go:521-536 | None iff the card has no cycle; otherwise the card's cycle with the highest number. |
| BillingService.PreviousBalance | src/services/billing_service.go:64-70 | The previous balance plus the prior payments equals the prior new balance; with no prior cycle it is 0. |
| BillingService.NextCycleNumberIsNew | src/services/billing_service.go:72-76 | The next cycle number is above every existing number for the card. |
| BillingService.NewCycleStart | src/services/billing_service.go:386-397 | The day after the previous end, or the card's creation with no prior cycle. |
| BillingService.NewCycleEndIsEveOfNextPeriod | src/services/billing_service.go:398-404 | The end is the day before the start shifted by one period. |
| BillingService.StartNewBillingCycle | src/services/billing_service.go:372-419 | Appends one open cycle numbered after every existing one. It starts the day after the previous end and its previous balance is the prior remaining balance. |
| BillingService.StatementFigures | src/services/billing_service.go:64-125 | The statement cycle's previous balance, number, dates, interest (only when not waived), new balance and minimum payment follow the statement rules. |
| BillingService.InterestRows | src/services/interest_service.go:283-293 | At most one row, a fee_interest of the charge, present iff the charge is positive and not waived. |
| BillingService.InterestRowsSameCycle | src/services/interest_service.go:283-293 | The interest row depends only on the cycle's id and end date. |
| BillingService.ClosedRowStored | src/services/billing_service.go:539-547 | The stored closed row differs from the returned cycle only in closed_at. |
| BillingService.ChargeStatementInterest | src/services/billing_service.go:98-118 | Interest is computed for the cycle and accrued: at most one interest row is appended. |
| BillingService.StampStatementDates | src/services/billing_service.go:550-566 | Only the card's statement dates change: last = cycle end, next = one month later. |
| BillingService.SetCycleStatusAbsent | src/services/billing_service.go:539-547 | Updating a missing id changes nothing. |
| BillingService.SetCycleStatusAppend | src/services/billing_service.go:539-547 | A status update on a freshly appended unique row touches only that row. |
| BillingService.InterestInFeeSummary | src/services/fee_service.go:454-507 | Appending an interest row raises the fee summary's interest subtotal and the total by its amount. |
| BillingService.BuildStatementCycle | src/services/billing_service.go:52-125 | Builds the statement cycle from the draft, the aggregation and the interest result, appending the interest row if any. |
| BillingService.GenerateStatement | src/services/billing_service.go:52-167 | The statement cycle is numbered after every existing one. Interest is waived iff the grace check passes. The cycle is stored closed and the card's statement dates are stamped. The fee summary and cashback statement are taken after the writes. |
| BillingService.GeneratedCycleAppended | src/services/billing_service.go:127-163 | The stored table is the old table plus the closed cycle. |
| BillingService.SweepCandidates | src/services/billing_service.go:228-241 | Exactly the closed cycles with the minimum unmet, past due, on a known card and with no live late fee, in table order. |
| BillingService.MarkedPastDue | src/services/billing_service.go:539-547 | Marking keeps the table length. |
| BillingService.MarkedPastDueAt | src/services/billing_service.go:539-547 | Cycles that were assessed become past_due; the others are untouched. |
| BillingService.RaisedLateCountsSpec | src/services/billing_service.go:569-577 | Each card's late count rises by the number of its assessed cycles; nothing else changes. |
| BillingService.SweepEntry | src/services/fee_service.go:95-110 | The sweep's late fee row is a fee_late of the card's late fee, tagged with the cycle. |
| BillingService.SweepEntries | src/services/billing_service.go:250-287 | One late-fee row per assessed cycle. |
| BillingService.SweepResults | src/services/billing_service.go:250-287 | One assessment result per assessed cycle. |
| BillingService.SweepRow | src/services/billing_service.go:250-287 | Assessing one candidate appends its late fee, marks it past due and raises the card's late count. |
| BillingService.CheckAndAssessLatePaymentFees | src/services/billing_service.go:224-290 | Only candidates are assessed, each exactly once, each with one late-fee row. They are marked past_due and their cards' late counts are raised. With unique ids every candidate is assessed. |
| FeeService.FeeEntry | src/services/fee_service.go:95-110 | A pending fee row of the given type and amount, posted on the given date. |
| FeeService.LateFeeLedger | src/services/fee_service.go:68-125 | The ledger is unchanged unless the fee applies; otherwise exactly one fee_late row is appended. |
| FeeService.AssessLatePaymentFee | src/services/fee_service.go:68-125 | Assesses iff the cycle is overdue, the minimum is unmet and no live fee_late exists for the cycle. Then it appends one fee_late of the card's late fee, tagged with the cycle. |
| FeeService.LateFeeOnce | src/services/fee_service.go:83-89 | Once an assessment has appended a late fee, a second assessment on that ledger appends nothing; a second one on the same day never appends. |
| FeeService.AssessFailedPaymentFee | src/services/fee_service.go:138-173 | Always assesses the card's failed-payment fee, with no dedupe. |
| FeeService.AssessInternationalFee | src/services/fee_service.go:187-231 | Appends nothing when `amount * rate / 100` ≤ 0, else one fee row of that amount. |
| FeeService.AssessOverLimitFee | src/services/fee_service.go:241-286 | Appends one fee row iff the balance is strictly over the limit and the fee is positive. |
| FeeService.AssessCashAdvanceFee | src/services/fee_service.go:354-391 | Always assesses the larger of the flat and percentage fees. |
| FeeService.AssessAnnualFee | src/services/fee_service.go:296-342 | Appends one fee_annual iff the fee is positive and no live annual fee was posted within 11 months. |
| FeeService.AnnualFeeBlocksRepeat | src/services/fee_service.go:532-550 | Once an annual fee is posted within the 11-month window, a second one does not apply. |
| FeeService.FindEntry | src/services/fee_service.go:553-588 | None iff no row has the id; otherwise a row of the ledger with that id. |
| FeeService.WaiverEntry | src/services/fee_service.go:410-420 | The waiver is a credit of the waived amount for the fee's tenant and statement. |
| FeeService.WaiveFee | src/services/fee_service.go:394-436 | Errors when the fee is missing or the waiver exceeds it, and then nothing changes. Otherwise it appends one credit. |
| FeeService.WaiverInPeriodBalance | src/services/statement_ledger_service.go:168-179 | For the fee types the statement balance counts, the fee plus its waiver never goes below 0. For the others the fee counts 0 and the waiver lowers the balance by its amount. |
| FeeService.GetFeeSummary | src/services/fee_service.go:454-507 | The grand total is the sum of the seven subtotals. |
| FeeService.GrandTotalIsFeeSum | src/services/fee_service.go:454-507 | The grand total is the sum of the known fee rows in the period, and the count is the number of fee rows. |
| InterestService.DefaultInterestConfig | src/services/interest_service.go:66-73 | ADB method, minimum charge 0.50, two places, no daily compounding. |
| InterestService.AdbInterest | src/services/interest_service.go:147-154 | 0 for a non-positive ADB, else `Round2(adb * dpr * days)`; never negative. |
| InterestService.AdbInterestExamples | src/services/interest_service_test.go:10-66 | 1000 at 0.0005 for 30 days is 15.00; 1234.56 at 0.000345 for 31 days is 13.20; a negative ADB gives 0. |
| InterestService.DailyBalanceInterest | src/services/interest_service.go:158-167 | No days gives 0. |
| InterestService.CalculateDailyBalanceInterest | src/services/interest_service.go:158-167 | The loop computes `Round2` of the interest summed over positive days. |
| InterestService.PositiveDayInterestNonNegative | src/services/interest_service.go:158-167 | The daily-balance interest is never negative. |
| InterestService.AllPositiveDays | src/services/interest_service.go:158-167 | When every day is positive, the sum is the balance total times the DPR. |
| InterestService.NonPositiveDayIgnored | src/services/interest_service.go:161-163 | A non-positive day contributes nothing. |
| InterestService.MonthlyRate | src/services/interest_service.go:177-178 | `apr / 12 / 100`. |
| InterestService.AdjustedBalanceInterest | src/services/interest_service.go:171-180 | 0 when previous minus payments ≤ 0, else `Round2` of that times the monthly rate; never negative for a non-negative APR. |
| InterestService.PriorPaidFull | src/services/interest_service.go:249-258 | None iff no prior-cycle row with status paid_full exists; otherwise such a row. |
| InterestService.UnpaidPriorStillQualifies | src/services/interest_service.go:253-267 | Without a paid_full prior row, even a prior cycle that is only paid, the grace check passes. |
| InterestService.ShortPaidFullDenies | src/services/interest_service.go:268-273 | A paid_full prior row whose payments fall short denies grace. |
| InterestService.ApplyMinimum | src/services/interest_service.go:122-126 | The floor applies only to 0 < charge < minimum. |
| InterestService.FloorNeverLiftsZero | src/services/interest_service.go:122-126 | A zero method charge stays zero, and a small positive one becomes the minimum. |
| InterestService.UnknownMethodIsAdb | src/services/interest_service.go:108-110 | An unknown method falls back to ADB. |
| InterestService.FinalChargeNonNegative | src/services/interest_service.go:100-140 | For a non-negative APR, the charge is never negative. |
| InterestService.CalculateInterest | src/services/interest_service.go:77-143 | The APR, DPR, days, ADB and method follow the card and the cycle. If the grace check passes, the charge is 0 and waived. Otherwise the method charge is floored and rounded. |
| InterestService.InterestEntry | src/services/interest_service.go:287-298 | A pending fee_interest of the charge, posted at the cycle end and tied to the cycle. |
| InterestService.InterestEntrySameCycle | src/services/interest_service.go:287-298 | The row depends only on the cycle's id and end date. |
| InterestService.AccrueInterest | src/services/interest_service.go:277-316 | Appends nothing for a charge ≤ 0; otherwise exactly one fee_interest row. |
| InterestService.CalculateProjectedInterest | src/services/interest_service.go:329-357 | Interest is 0 for a non-positive balance, else `Round2(balance * dpr * days)`. The total is the balance plus the interest. |
| InterestService.ProjectionIsAdbCharge | src/services/interest_service.go:329-357 | The projected interest is the ADB charge at the APR's daily rate; for a non-negative APR and day count the total if unpaid is at least the current balance. |
| InterestService.ProjectionExample | src/services/interest_service_test.go:178-228 | 1000 at 18.25% for 30 days projects 15.00, totalling 1015.00. |
| Payments.TransitionTable | src/models/payment.go:129-163 | The allowed moves are exactly pending→{processing, cancelled}, processing→{cleared, failed, cancelled}, cleared→{returned, reversed} and failed→{pending}. |
| Payments.TransitionShape | src/models/payment.go:129-163 | Terminal and unknown statuses move nowhere, no status moves to itself, only pending moves to processing, and no move reaches an unknown status. |
| Payments.TerminalIffNoExit | src/models/payment.go:147-170 | A status is terminal iff its transition list is empty. |
| Payments.SoftFailures | src/models/payment.go:253-266 | R01, R06, R08, R09 and unknown codes are soft failures; each hard failure has a description. |
| Payments.StatusPredicates | src/models/payment.go:166-185 | Successful excludes pending-processing and terminal; pending-processing excludes terminal; CanRetry implies a move to pending is allowed; terminal allows no move. |
| Payments.Payment.constructor | src/models/payment.go:274-288 | A new payment is pending with 0 attempts, 3 retries, USD, no timestamps but initiation, and effective now. |
| Payments.Payment.DaysUntilEffective | src/models/payment.go:188-193 | Never negative, 0 once effective, otherwise the truncated whole-day difference. |
| Payments.Payment.WithTenant | src/models/payment.go:291-295 | Sets the tenant and card only. |
| Payments.Payment.WithAmount | src/models/payment.go:298-302 | Sets the amount and the applied amount to the same value. |
| Payments.Payment.WithPaymentNumber | src/models/payment.go:305-308 | Sets the payment number only. |
| Payments.Payment.WithMethod | src/models/payment.go:311-314 | Sets the method only. |
| Payments.Payment.WithType | src/models/payment.go:317-320 | Sets the type only. |
| Payments.Payment.WithSourceAccount | src/models/payment.go:323-328 | Sets the three source-account fields only. |
| Payments.Payment.WithScheduledDate | src/models/payment.go:331-335 | Sets the scheduled date and the effective date together. |
| Payments.Payment.WithBillingCycle | src/models/payment.go:338-341 | Sets the billing cycle only. |
| Payments.Payment.WithCreatedBy | src/models/payment.go:344-347 | Sets the creator only. |
| PaymentService.MoveRecord | src/services/payment_service.go:124-131 | The audit record of an allowed move goes from the old status to the target. |
| PaymentService.ClearingEntry | src/services/payment_service.go:164-177 | A payment row of the applied amount, posted at the effective date; it lowers the statement balance by that amount. |
| PaymentService.ReversalEntryAsWritten | src/services/payment_service.go:261-274 | The adjustment of `-applied` as written, which lowers the balance by the applied amount (see Findings). |
| PaymentService.ReversalEntry | src/services/payment_service.go:261-274 | The corrected reversal: an adjustment of `+applied`, raising the balance by the applied amount. |
| PaymentService.ReversalUndoesClearing | src/services/payment_service.go:164-177 | A cleared payment row followed by the corrected reversal leaves the statement balance unchanged. |
| PaymentService.ReversalAsWrittenCreditsTwice | src/services/payment_service.go:268 | With the reversal as written, the balance falls by twice the applied amount: for 100, it ends 200 lower. |
| PaymentService.ValidatePaymentAmount | src/services/payment_service.go:589-603 | Errors iff the amount is not positive. |
| PaymentService.BuildPayment | src/services/payment_service.go:64-70 | The built payment carries the request's fields and the builder defaults. |
| PaymentService.AddRequestOptions | src/services/payment_service.go:72-86 | The optional schedule, cycle and source account are applied only when given. |
| PaymentService.InitiatePayment | src/services/payment_service.go:59-104 | Rejects amounts ≤ 0. Otherwise returns a pending payment with the request's fields and exactly one transition, "" → pending. |
| PaymentService.ProcessPayment | src/services/payment_service.go:107-136 | Errors, with the payment unchanged, unless pending → processing is allowed. Otherwise it moves with one record, counts one more attempt and records the processor reference. |
| PaymentService.ClearPayment | src/services/payment_service.go:139-184 | Errors, with the payment unchanged, unless the move is allowed. Otherwise it moves to cleared with one record and returns the payment row when a ledger is configured. |
| PaymentService.FailPayment | src/services/payment_service.go:187-224 | Errors, with the payment unchanged, unless the move is allowed. Otherwise it fails with one record and sets the next retry 24 hours on only when a retry remains. |
| PaymentService.ReturnPayment | src/services/payment_service.go:227-283 | Errors, with the payment unchanged, unless cleared → returned. Otherwise it records the ACH code and description and, with a ledger, returns the reversal row as written: an adjustment of `-AppliedAmount` (see Findings). |
| PaymentService.CancelPayment | src/services/payment_service.go:286-315 | Errors, with the payment unchanged, unless the move is allowed. Otherwise it cancels from pending or processing with one record. |
| PaymentService.ReversePayment | src/services/payment_service.go:318-365 | Errors, with the payment unchanged, unless cleared → reversed. Otherwise it reverses with one record and, with a ledger, returns the reversal row as written: an adjustment of `-AppliedAmount` (see Findings). |
| PaymentService.RetryPayment | src/services/payment_service.go:368-403 | Errors, with the payment unchanged, unless CanRetry holds. Otherwise the payment is pending again with the retry time cleared. |
| PaymentService.AssessFailedPaymentFee | src/services/payment_service.go:406-429 | Errors unless the status is failed or returned and a fee service is present. Otherwise it assesses the card's failed-payment fee. |
| PaymentService.LatestCleared | src/services/payment_service.go:546-552 | Any index found is a cleared payment. |
| PaymentService.LargestIsMaximum | src/services/payment_service.go:541-544 | The largest payment is non-negative, at least every amount, and is either 0 or one of the amounts. |
| PaymentService.LatestClearedIsLatest | src/services/payment_service.go:546-552 | None iff no payment cleared; otherwise the first payment with the latest clearing time. |
| PaymentService.GroupCountsBounded | src/services/payment_service.go:528-540 | The cleared, pending, failed and returned counts together are at most the number of payments. |
| PaymentService.RunningTotals | src/services/payment_service.go:524-526 | The running tally counts every payment and sums every amount. |
| PaymentService.RunningGroup | src/services/payment_service.go:528-540 | The running tally counts and sums exactly the payments of each status group. |
| PaymentService.RunningExtremes | src/services/payment_service.go:541-552 | The running tally keeps the largest amount and the latest cleared payment. |
| PaymentService.TallyPayment | src/services/payment_service.go:524-553 | One loop step adds one payment to the tally. |
| PaymentService.CalculatePaymentSummary | src/services/payment_service.go:509-563 | The counts and amounts per group, the total, the largest payment, the last cleared payment and the average `Round2(total / n)` all follow from the payments. |
| PaymentService.RetryQueueMembers | src/services/payment_service.go:576-586 | The queue holds exactly the payments that can retry and are due. |
| PaymentService.RetryQueueAppend | src/services/payment_service.go:576-586 | The queue keeps input order: the queue of a concatenation is the concatenation of queues. |
| PaymentService.GetPendingPaymentsForRetry | src/services/payment_service.go:576-586 | The loop returns exactly the due retries, in input order. |
| PaymentService.DeterminePaymentType | src/services/payment_service.go:606-633 | Without a statement the type is regular. With one, checked in order: full iff the amount covers the remaining balance; statement iff it does not and equals the new balance; minimum iff neither and it equals the minimum payment or the remaining minimum; regular iff none of these. |
| PaymentService.PaymentTypeClasses | src/services/payment_service.go:606-633 | Full iff the amount covers the remaining balance. Statement only when payments made are negative. Minimum only below the remaining balance. |
| CreditCardService.SetAvailableCredit | src/services/credit_card_service.go:753-761 | Only the named card's available credit changes. |
| CreditCardService.SetLastPayment | src/services/credit_card_service.go:764-777 | Only the named card's last-payment date and amount change. |
| CreditCardService.PendingEntry | src/services/credit_card_service.go:155-168 | A pending statement row of the given type, dates and amount for the card's tenant. |
| CreditCardService.NewCard | src/services/credit_card_service.go:53-69 | A new card is active with available credit equal to the limit, no late count and its first statement date set. |
| CreditCardService.NewCardStatementDate | src/services/credit_card_service.go:60-66 | A valid new card's next statement date is on its cycle day and not before creation. |
| CreditCardService.CreateCreditCard | src/services/credit_card_service.go:44-103 | An invalid configuration or a duplicate id is rejected before any insert. Otherwise exactly the new valid card is added. |
| CreditCardService.ForeignFeeCharged | src/services/credit_card_service.go:179-196 | Positive iff the purchase is international, the rate is positive and the fee is positive, and then equals the international fee. |
| CreditCardService.ForeignFeeCanOverdraw | src/services/credit_card_service.go:179-196 | An accepted purchase never overdraws by itself, but its international fee can push available credit below 0. |
| CreditCardService.RecordTransaction | src/services/credit_card_service.go:131-231 | Writes nothing when the card cannot transact or lacks credit. Otherwise it appends the purchase and any international fee and earns cashback when enabled. Available credit falls by the amount and fee, and the new balance is limit minus available. |
| CreditCardService.RecordCashAdvance | src/services/credit_card_service.go:252-328 | Writes nothing when gated. Otherwise it always assesses the fee, and available credit falls by the amount and the fee. |
| CreditCardService.CreditBack | src/services/credit_card_service.go:385-389 | `min(available + amount, limit)`: a payment or refund never lifts available credit above the limit. |
| CreditCardService.CreditAfterFailure | src/services/credit_card_service.go:470-481 | Available credit falls by the payment and the fee, with no floor. |
| CreditCardService.CreditAfterAdjustment | src/services/credit_card_service.go:626-638 | Available credit moves by minus the adjustment, with no cap. |
| CreditCardService.PaymentThenFailure | src/services/credit_card_service.go:439-481 | A payment followed by its failure leaves available credit lower by the fee. |
| CreditCardService.AdjustmentRow | src/services/credit_card_service.go:603-620 | Negative adjustments are stored as a credit and others as an adjustment, of `|amount|`. The row moves the statement balance by the signed amount. |
| CreditCardService.AdjustmentMirrorsCredit | src/services/credit_card_service.go:603-638 | The statement balance and available credit move in opposite directions by the same amount. |
| CreditCardService.RecordPayment | src/services/credit_card_service.go:350-408 | Appends one pending payment row. Available credit becomes `CreditBack` and the last payment is recorded. |
| CreditCardService.RecordFailedPayment | src/services/credit_card_service.go:426-493 | Adds back a positive adjustment of the original amount and a failed-payment fee; available credit falls by both. |
| CreditCardService.RecordRefund | src/services/credit_card_service.go:516-586 | Appends one refund row and claws back cashback when enabled and linked. Available credit becomes `CreditBack`. |
| CreditCardService.RecordAdjustment | src/services/credit_card_service.go:599-645 | Appends the adjustment row and moves available credit without a cap. |
| CreditCardService.ParseAprType | src/services/credit_card_service.go:714-723 | Only "purchase", "cash_advance" and "penalty" are accepted, each mapped to its rate. |
| CreditCardService.WithApr | src/services/credit_card_service.go:714-723 | Sets exactly the chosen APR field. |
| CreditCardService.UpdateCreditCardAPR | src/services/credit_card_service.go:707-728 | Errors, with cards unchanged, on any other type. Otherwise only the chosen APR of that card changes. |
| ReconciliationService.TransactionEntry | src/services/ledger_reconciliation_service.go:62-75 | A pending transaction row that raises the balance by the amount once cleared. |
| ReconciliationService.EarnedPoints | src/services/ledger_reconciliation_service.go:80-90 | No points without EarnPoints. |
| ReconciliationService.EarnedPointsBounds | src/services/ledger_reconciliation_service.go:80-104 | Points are never negative. Positive points require EarnPoints and equal the rule's result. For non-negative inputs they stay within amount times rate. A custom rule overrides the default. |
| ReconciliationService.EarningWithinRate | src/models/points_ledger.go:98-110 | Positive points mean the minimum was met and stay within `Trunc(amount * rate)`. |
| ReconciliationService.EarningEntry | src/services/ledger_reconciliation_service.go:91-101 | An earned_transaction row linked to the statement entry, recording the amount and rate. |
| ReconciliationService.RecordTransaction | src/services/ledger_reconciliation_service.go:50-111 | Appends one pending transaction row. A linked points row is appended iff the earned points are positive, and the points balance rises by them. |
| ReconciliationService.PaymentEntry | src/services/ledger_reconciliation_service.go:126-146 | A payment row that lowers the balance by the amount once cleared. |
| ReconciliationService.RecordPayment | src/services/ledger_reconciliation_service.go:126-146 | Appends one payment row and leaves the points ledger unchanged. |
| ReconciliationService.RefundEntry | src/services/ledger_reconciliation_service.go:172-186 | A refund row that lowers the balance by the amount once cleared. |
| ReconciliationService.FindOriginalEarningIsFirst | src/services/ledger_reconciliation_service.go:191-205 | None iff no earned_transaction row links to the original; otherwise the first such row's points. |
| ReconciliationService.RefundDeduction | src/services/ledger_reconciliation_service.go:206-212 | `min(Trunc(amount * rate), original)`: at most each, equal to one, and non-negative for non-negative inputs. |
| ReconciliationService.RefundPointsEntry | src/services/ledger_reconciliation_service.go:213-223 | An earned_refund row of minus the deduction, linked to the refund row. |
| ReconciliationService.RecordRefund | src/services/ledger_reconciliation_service.go:162-232 | Always appends one refund row. Points are taken back iff AdjustPoints holds and the original earned positive points; the balance then falls by the deduction and by no more than the original. |
| ReconciliationService.FullRefundCancelsEarning | src/services/ledger_reconciliation_service.go:162-232 | Refunding a whole purchase takes back exactly the points it earned, restoring the balance. |
| ReconciliationService.FindAfterUnmatched | src/services/ledger_reconciliation_service.go:191-205 | Rows that do not link to the original do not affect the lookup. |
| ReconciliationService.RedeemedEntry | src/services/ledger_reconciliation_service.go:264-276 | A redeemed_spent row of minus the points, dated at the redemption. |
| ReconciliationService.RewardEntry | src/services/ledger_reconciliation_service.go:279-298 | A pending reward row of the credit amount, lowering the balance once cleared. |
| ReconciliationService.RecordRewardRedemption | src/services/ledger_reconciliation_service.go:248-308 | Validates before any write; on failure neither ledger changes. On success it appends the points row then the reward row, and the returned points row links to the reward row. The balance falls by the points and stays ≥ 0. |
| ReconciliationService.ClearedRowsMoveBalance | src/services/ledger_reconciliation_service.go:62-298 | Once cleared, the transaction raises the statement balance by its amount. The payment, refund and reward rows lower it by theirs. |
| ReconciliationService.PendingRowsLeaveBalance | src/services/statement_ledger_service.go:181-184 | While pending, none of these rows changes the statement balance. |
| Store.Database.constructor | src/services/statement_ledger_service.go:20-23 | A new store has empty tables and has handed out no ids. |
| Store.Database.FreshId | src/services/statement_ledger_service.go:34-36 | Each fresh id is new, non-nil and one above the last. |

## Left out

- SQL text, transactions and drivers are not modelled. Each query is a function over the in-memory table.
- Atomicity and isolation are not modelled. The Go code opens a transaction but the inner `CreateEntry` calls write through the plain handle, so only the validate-before-write order is modelled.
- Database errors are not modelled, nor are the per-row errors that the late-fee sweep logs and skips. Every write in the model succeeds.
- The `statement_balances` and `points_balances` views are not part of the source. The points balance is taken as the tenant's sum of points and the cashback balance as the card's sum of amounts. The statement ledger's `GetBalance` reads the unseen view and is not modelled.
- The daily balances behind interest (the recursive query in `getDailyBalances`) are an input sequence.
- Descriptions, metadata maps and formatted strings are not modelled. Where a row needs one, the model stores `""`, or the plain id text for reference ids. The one metadata key that is modelled is the `merchant_category` of an earned cashback row, because the statement's category breakdown groups by it.
- CashbackService.CategoryBreakdown: SQL leaves the order of groups with equal cashback earned unspecified; the model keeps them in order of first appearance. The summary's `CategoryName`, which the source never fills, is not modelled.
- Time zones and daylight saving are not modelled. Timestamps are UTC hours and every day has 24 of them. The source builds billing dates in `fromDate.Location()` (src/models/credit_card.go:205 and :212) and stamps rows with the server's local `time.Now()`. In a zone with daylight saving a day can last 23 or 25 hours, so `int(Hours()/24)` there can differ from the model's `WholeDays`, `DaysOverdue` and `DaysUntilEffective`.
- CreditCards.CreditCard has no `CardNumber`, `CardholderName`, `UpdatedAt` or `ClosedAt` field. The model therefore does not capture the `updated_at` stamp that every card update writes (for example src/services/credit_card_service.go:725, :758 and :772).
- UUIDs and payment numbers are parameters or counter values, and `time.Now()` is a parameter.
- Timestamps are whole hours; sub-hour precision is not modelled.
- Division is exact real division. The decimal library's precision limit on non-terminating quotients is not modelled.
- `InexactFloat64` is display-only and is not modelled.
- These read-only queries are not modelled:
  - `GetCreditCard` and `GetCreditCardByTenant`;
  - `GetBillingHistory`, `GetCurrentBillingCycle` and `GetUpcomingStatementDates`;
  - `GetAccrualSchedules` and `GetRecentEarnings`;
  - `GetEntriesByTenant` and `GetEntriesByStatement`;
  - `GetPaymentHistory` and `GenerateReconciliationReport`, which only read the two balances.
- `SetCategoryBonusRate` only writes a configuration row; category rows are an input table.
- `FreezeCard`, `UnfreezeCard` and `CloseCard` are single-field status writes and are not modelled.
- SQL `QueryRow` without `ORDER BY` returns an unspecified row. The model takes the first row in storage order. This applies to `FindOriginalEarning`, `CashbackService.FindByStatementEntry` and `InterestService.PriorPaidFull` (a `LIMIT 1` with no `ORDER BY`, interest_service.go:253-260). `BillingService.LatestCycle` orders by cycle number descending with `LIMIT 1` (billing_service.go:523-528); among cycles that share the top number the order is unspecified and the model takes the first in storage order.
- InterestService.InterestConfig: `roundingPrecision` is a `nat`, while the source's `RoundingPrecision` is an `int32` (interest_service.go:61, applied at :140). A negative precision, which rounds to tens, hundreds and so on, is not modelled.
- The demo programs under `cmd/` and the data-only `tenant.go` are not part of this model.
- BillingService.CheckAndAssessLatePaymentFees: the assessed list equals every candidate only when cycle ids are unique. Without that, the model proves only that each assessed cycle is a candidate, assessed once.
- BillingService.PopulateCycleAmounts: its own contract states only what aggregation keeps. The sums themselves are stated by `CycleAmountsAppend`, `NetIsCycleEffect` and `PopulatedNewBalance`.
- StatementLedgerService.CalculateStatementBalance: its own contract states only the empty case. The fold is stated by `PeriodTotalAppend`, `CountedEntryMoves`, `UnclearedIgnored` and `PeriodTotalPermutation`.

## Findings

| source | as written | input that shows it | evidently intended | confidence | as-written member | corrected member |
|---|---|---|---|---|---|---|
| src/services/payment_service.go:268 (and the same line at :352) | `ReturnPayment` and `ReversePayment` build and return, for posting, an `adjustment` of `-AppliedAmount`. An adjustment counts by its own sign, so the balance falls again instead of regaining the payment. | A cleared payment of 100 followed by its return: the statement balance ends 200 lower rather than unchanged. | An adjustment of `+AppliedAmount`, which undoes the cleared payment, as `RecordFailedPayment` does with a positive adjustment. | medium; not executed | PaymentService.ReversalAsWrittenCreditsTwice | PaymentService.ReversalUndoesClearing |
