# Rent management, verified

A Dafny model of the backend's bookkeeping: calendar and rent proration, the due and payment ledger, tenancies and
beds, and monthly electricity billing. `dafny verify dfyconfig.toml` checks all of it.

How it is laid out:

- `Calendar`, `Text`, `DateText`, `Numbers`, `Proration`: the JavaScript date arithmetic the backend relies on (a time is
  a count of milliseconds, months and days carry over as in section 21.4.1 of ECMA-262), date texts, rounding, rent.
- `ElectricityUtils`, `Allocation`, `BillShares`: tenant-days, the equal split, the allocation engine of a billing run, and
  whom it bills how much.
- `PaymentLock`: the lock key and the cache that holds it.
- `Tables`: the rows. `State` is the whole database as a value, `Database` the object whose fields the services update.
- `DueRules`, `PaymentRules`, `TenancyRules`, `ElectricityRules`: for every service call, the reply and the database it
  leaves, as a function of the database before. `DueService`, `PaymentService`, `TenancyService`, `ElectricityService`:
  the same calls statement by statement on a `Database`, with the loops of the source, proved to have exactly that effect
  (`Queries` reads rows, `Admission` says from the rows when each tenancy call is accepted).
- `Invariants` says what a sound database is. `DueProofs`, `PaymentProofs`, `TenancyProofs`, `ShiftMoney` and
  `ElectricityProofs` prove it of each call; `System` makes the calls the steps of one transition system and proves it of
  every run; `Safety` spells out what that means for rooms, tenants, dues and payments.
- `TenancyHistory` (the status machine over runs), `BillingSafety` (re-running a month), `MeterChain` (readings over the
  months), `Readings` (which readings are accepted and where meters start), `RunShares` (a billing run told from the rows),
  `PoolBilling` (whom the shared pool bills), `RoundTrips` (what one call undoes of another), `Flows` (calls in
  sequence), `Isolation` (what owners can change for each other), `Concurrency` (pre-flight reads and locked transactions
  that interleave), `WebhookRaces` (overlapping webhook deliveries).

Money and units are exact reals. A lookup that may return any of several rows is given the row it returned, a query the
order in which its rows came back; the services choose both freely. Hash verification of a webhook is a boolean of the
delivery. The clock (today, now, the current month) is an argument.

Where code and comments disagree the code is followed: a payment lock lasts 840 seconds, not the 30 of its comment.

What the proofs found, each with the exact condition:

- A due can be added with a negative amount, for one tenant (`DueProofs.AddDueLedgerCondition`) or for a room
  (`DueProofs.RoomDueLedgerCondition`); nothing else breaks the invariant (`System.StepKeepsInvExactly`).
- Cash is collected in whole rupees, so a balance with paise can never be cleared in cash, in however many collections
  (`DueProofs.CashNeverClearsPaise`).
- A gateway payment that is older than the balance overpays the due (`Flows.DeliveryOverpaysExactly`,
  `Flows.StalePaymentOverpays`).
- If the due of a pending single-due payment is deleted, its success is settled but never recorded
  (`PaymentProofs.WebhookAtMostOnce`, `Flows.DeletedDueDetaches`).
- Two overlapping deliveries of one success can pay twice (`WebhookRaces.OverlappingDeliveries`,
  `WebhookRaces.PartialPaymentPaysTwice`).
- The requests to add and to collect dues do not look at the owner, so other owners can make them
  (`Isolation.OwnersAreIsolated`, `Isolation.AnyOwnerAddsAndCollects`).
- A cross-property shift loses metrics when the old property has no row for a month (`ShiftMoney.ShiftConservesMetrics`).
- Revoking an exit can overfill a room (`TenancyProofs.RevokeCapacityCondition`), and then a tenant who was shifted out
  of it cannot be shifted straight back (`RoundTrips.ShiftUndone`).
- A re-activated tenancy is not billed for the shared pool in the months after the one it once left in
  (`PoolBilling.ReactivatedInPool`).
- Resubmitting an earlier month can break the chain of readings (`MeterChain.EarlierResubmission`,
  `MeterChain.SubmissionJoinsChain`, `MeterChain.LateCorrectionBreaksChain`).
- Exits and shifts that commit on an old plan can falsify the occupancy (`Concurrency.StaleExit`,
  `Concurrency.StaleShift`, `Concurrency.OverlappingExitsLoseABed`, `Concurrency.ShiftAfterExitLosesABed`).

## Model

| member | source | states |
|---|---|---|
| `Calendar.ClosedFormAgrees` | src/utils/Proration.utils.ts:47-54 | Day numbers counted month by month from the epoch equal the standard's: the closed form of the year plus, in every month of every year, the days of the year before it, leap day included (DayFromYear and the table of MonthFromTime in section 21.4.1 of ECMA-262) |
| `Calendar.CivilBijection` | src/utils/Proration.utils.ts:69-75 | Day numbers and civil dates are in bijection: every day of every month, leap years and years before the epoch included, is read back as itself |
| `Calendar.DateUTCLands` | src/utils/Proration.utils.ts:47-54 | `Date.UTC` with months and days outside their ranges carries over to the right midnight, in milliseconds; the years 0 to 99 land in the twentieth century |
| `DateText.ToDateOnlyIsMidnight` | src/utils/Proration.utils.ts:69-75 | Stripping the time keeps the calendar day exactly for the years outside 0..99, which `Date.UTC` reads as 1900..1999 |
| `DateText.ParseOfFormat` | src/utils/Proration.utils.ts:47-89 | Parsing a printed date gives the date without its time, for every instant, exactly from the year 0 on (a minus sign makes a fourth part) |
| `DateText.FormatOfParse` | src/utils/Proration.utils.ts:47-89 | Every string of the full-date shape of section 5.6 of RFC 3339 parses, and printing gives the string back exactly when it names a real day and its year is at least 1000 |
| `Proration.CycleDaysLand` | src/utils/Proration.utils.ts:173-212 | After any number of advances the billing date is the cycle day of its own month: no month is skipped and nothing drifts |
| `Proration.BillingDatesLand` | src/utils/Proration.utils.ts:173-212 | That holds for every number of advances exactly when the first cycle end is in the year 100 or later |
| `Proration.BillingPeriodsTile` | src/utils/Proration.utils.ts:173-212 | Consecutive billing periods touch, fall in consecutive months and have 28 to 31 days; the first has 1 to 58 |
| `Proration.CalculateProratedRent` | src/utils/Proration.utils.ts:114-158 | The month-segment loop terminates and its result is the sum of rent over month length, day by day over the period, rounded to paise |
| `Proration.SegmentsRefineDays` | src/utils/Proration.utils.ts:129-151 | From any midnight inside the period, what the loop still adds is the per-day rent of the days that are left |
| `Proration.ProrationIsPerDay` | src/utils/Proration.utils.ts:123-151 | The loop total equals the per-day sum over [joining day, first cycle end), across month and year ends and for any rent |
| `Proration.ChargeNearPerDaySum` | src/modules/tenancy/tenancy.service.ts:533-538 | The first rent charged lies above the exact per-day rent minus half a paisa and at most 99.5 paise above it |
| `ElectricityUtils.TenantDaysCountDays` | src/modules/electricity/utils/electricity-billing.utils.ts:17-37 | Tenant-days are the number of calendar days of the month inside the stay, open or closed |
| `ElectricityUtils.TenantDaysSoFar` | src/modules/electricity/utils/electricity-billing.utils.ts:17-37 | Summed up to any month, tenant-days are the days from joining to the end of that month, cut at leaving |
| `ElectricityUtils.TenantDaysTelescope` | src/modules/electricity/utils/electricity-billing.utils.ts:17-37 | Over all months of a stay, tenant-days sum to exactly leaving day - joining day + 1, for any span of years |
| `ElectricityUtils.BillingPeriodIsTheMonth` | src/modules/electricity/utils/electricity-billing.utils.ts:39-44 | The billing period is exactly the calendar month and the due date its last day |
| `ElectricityUtils.SplitIsExactAndFair` | src/modules/electricity/utils/electricity-billing.utils.ts:46-53 | The shares sum to the total, differ by at most 1, and the larger ones come first |
| `Allocation.GroupByMeteredRoom` | src/modules/electricity/electricity-billing.service.ts:283-290 | The grouping loop lists each occupied metered room once, in order of first appearance, with its tenancies in order |
| `Allocation.AbsorbVacantRooms` | src/modules/electricity/electricity-billing.service.ts:292-303 | The loop adds exactly the readings of the metered rooms that no tenancy occupies |
| `Allocation.BillMeteredRooms` | src/modules/electricity/electricity-billing.service.ts:305-327 | The nested loops bill each occupied metered room its ceiled reading, split over its tenancies |
| `Allocation.CalculateAllocations` | src/modules/electricity/electricity-billing.service.ts:254-383 | The engine computes the allocation function about which unit conservation and the money bound are proved |
| `BillShares.BillsAreShares` | src/modules/electricity/electricity-billing.service.ts:283-382 | The bills of the engine are exactly these: each tenancy of a metered room pays an equal part of its units and a whole part of its rounded price, the first ones the odd rupees; if the pool, vacant rooms included, is positive and somebody has days, each carrier pays the part of it that its tenant-days are of all carriers' days, rounded up; and the recorded days and rate are those |
| `BillShares.NobodyPaysTwice` | src/modules/electricity/electricity-billing.service.ts:305-380 | No tenancy has two bills for its room or two for the pool |
| `Allocation.UnitsBilled` | src/modules/electricity/electricity-billing.service.ts:283-382 | For any input, billed units plus an unbilled pool are the raw pool plus all readings: nothing is billed twice or lost elsewhere |
| `Allocation.UnitConservation` | src/modules/electricity/electricity-billing.service.ts:283-382 | The billed units are exactly the main-meter units if and only if the effective pool is empty or somebody has tenant-days |
| `Allocation.MoneyBound` | src/modules/electricity/electricity-billing.service.ts:306-380 | The billed total is at least units * price and exceeds it by less than one rupee per occupied metered room and pool entry |
| `PaymentLock.LockKeyCanonical` | src/modules/payment/cache/payment.cache.service.ts:30-34 | Two lists of due ids have the same lock key exactly when one is a permutation of the other |
| `PaymentLock.PaymentCache.GetLockKey` | src/modules/payment/cache/payment.cache.service.ts:30-34 | Sorts the caller's array in place, ascending and with the same ids, and answers the prefix and the ids joined by colons |
| `PaymentLock.PaymentCache.LockPayment` | src/modules/payment/cache/payment.cache.service.ts:9-13 | Stores the canonical key until 840 seconds from now (the code's value; its comment says 30) |
| `PaymentLock.PaymentCache.UnlockPayment` | src/modules/payment/cache/payment.cache.service.ts:15-19 | Removes exactly the canonical key |
| `PaymentLock.PaymentCache.IsPaymentLocked` | src/modules/payment/cache/payment.cache.service.ts:21-29 | Answers whether the canonical key is stored and has not expired, and changes no lock |
| `PaymentLock.LockCoversPermutations` | src/modules/payment/cache/payment.cache.service.ts:9-29 | Locking a list locks exactly its permutations, until expiry; unlocking any permutation frees exactly those |
| `DueService.AddDueToTenant` | src/modules/due/due.service.ts:49-95 | Succeeds exactly if the tenant has a tenancy in the property that is active, on notice or pending and not deleted, and then adds exactly one unpaid due of the rounded-up amount for such a tenancy |
| `DueService.AddDueToRoom` | src/modules/due/due.service.ts:97-181 | Succeeds exactly if the room is in the property and somebody lives in it, and then adds for each such tenancy, pending ones and those on notice included, exactly one unpaid due of the rounded-up share; no other due changes |
| `DueService.CreateDueForTenant` | src/modules/billing/billing.service.ts:30-139 | Succeeds exactly for a live tenancy, the property's owner and a positive amount, and then adds exactly one unpaid due of that amount; a refusal changes nothing and a sound database stays sound |
| `DueService.DeleteDue` | src/modules/billing/billing.service.ts:141-171 | A refusal changes nothing; otherwise exactly the unpaid due goes and pending payments lose their pointer to it. In a sound database ownership, status and payment lines alone decide, and it stays sound |
| `DueService.EditDue` | src/modules/billing/billing.service.ts:173-230 | Succeeds exactly for the owner's due that is neither paid nor partly paid and a positive new total; then the given fields of that row change, the balance follows a given amount, and nothing else; a refusal changes nothing and the database stays sound |
| `DueService.CollectDue` | src/modules/due/due.service.ts:384-446 | Succeeds exactly for a due that is not paid or waived and a rounded amount in 1..balance; then one payment row of the due's tenancy and property is added, the amount moves from balance to paid, and in a sound database the sum of the due's payments grows by it; a refusal changes nothing |
| `DueProofs.AddDueLedgerCondition` | src/modules/due/due.service.ts:61-79 | The request's amount is unchecked: the ledger survives exactly when the amount rounds up to zero or more |
| `DueProofs.RoomDueLedgerCondition` | src/modules/due/due.service.ts:116-155 | The room request's amount is unchecked too: the ledger survives exactly when the rounded share is not negative |
| `DueProofs.DeletableExactly` | src/modules/billing/billing.service.ts:141-158 | In a sound database a due can be deleted exactly if it is the owner's, unpaid, and on no payment line |
| `DueProofs.AddedDueIsAsked` | src/modules/due/due.service.ts:61-79 | The new due is the requested tenant's, of the requested type and month, unpaid, asks at least the amount and less than one rupee more, and no other due changes |
| `DueProofs.RoomDuesAreAsked` | src/modules/due/due.service.ts:116-155 | Each live tenancy of the room gets exactly one due, all of the same share, and together they cover the total with less than one rupee per tenant on top |
| `DueProofs.EditIsExact` | src/modules/billing/billing.service.ts:185-230 | An edit changes exactly the given fields, the balance follows the new total, and repeating it changes nothing |
| `DueProofs.RoomShareBounds` | src/modules/due/due.service.ts:134-134 | The ceiled shares together cover the requested total with less than one rupee per tenant on top |
| `DueProofs.CollectTakesFromBalance` | src/modules/due/due.service.ts:405-413 | Collecting moves exactly the collected whole rupees from balance to paid and never overpays |
| `DueProofs.CashClearsWholeBalances` | src/modules/due/due.service.ts:403-415 | Some single collection clears a due exactly when its balance is a positive whole number of rupees |
| `DueProofs.CashNeverClearsPaise` | src/modules/due/due.service.ts:403-415 | No sequence of collections, however split, clears a due whose balance has paise; and one exists for every other open due |
| `DueProofs.ZeroBalanceIsPaidOrFree` | src/modules/due/due.service.ts:413-415 | In a reachable ledger the balance is 0 exactly for paid dues and dues with total 0 |
| `RoundTrips.AddedDueDeleted` | src/modules/billing/billing.service.ts:141-158 | Deleting a due that was just added restores every table |
| `RoundTrips.EditUndone` | src/modules/billing/billing.service.ts:185-230 | Editing back to the old total, type and month restores the whole database |
| `PaymentService.CheckAmounts` | src/modules/payment/helper/payment.helper.service.ts:56-80 | The loop accepts exactly non-empty line lists with non-zero amounts that sum to the declared total; rounding each partial sum to paise changes nothing |
| `PaymentService.ValidateDueAndAmount` | src/modules/payment/helper/payment.helper.service.ts:51-114 | Accepts exactly the payments whose lines name pairwise distinct payable dues of the given tenancies in one property, and answers that property |
| `PaymentProofs.AcceptsIsSound` | src/modules/payment/helper/payment.helper.service.ts:82-105 | Pigeonhole: comparing the fetched row count with the number of lines is the distinctness check, both ways |
| `PaymentProofs.PaymentAcceptedExactly` | src/modules/payment/payment.service.ts:228-260 | A payment of several dues is accepted exactly if its lines are different dues of tenancies of this tenant that are active, on notice or pending and not deleted, all open and of one property with a gateway, each line a positive whole amount within the balance, and the lines add up to the total |
| `PaymentService.InitiatePayment` | src/modules/payment/payment.service.ts:298-397 | Succeeds exactly for a due of the tenant that is open, with a balance, in a property with a gateway; then one transaction over the whole balance is added such that its verified success, coming next, pays the due off to the last paisa; a refusal changes nothing |
| `PaymentService.MakePayment` | src/modules/payment/payment.service.ts:220-297 | Outside the lock succeeds exactly for a fair payment of the tenant's own dues, opens one transaction with its lines, and locks the dues for 840 seconds so that they are refused in any order; a refusal changes nothing and a sound database stays sound |
| `PaymentService.ProcessSingleDuePayment` | src/modules/payment/payment.service.ts:607-686 | A paid due is not paid again; otherwise the sum of its payments grows by exactly the transaction amount and the whole ledger stays sound; the transaction succeeds |
| `PaymentService.ProcessMultiDuePayment` | src/modules/payment/payment.service.ts:709-793 | In a sound database each line is taken from its due unless that was paid already, the money that came in is the line total without those lines, the ledger stays sound and the transaction succeeds; without lines nothing changes |
| `PaymentService.HandleWebhook` | src/modules/payment/payment.service.ts:399-580 | A delivery for an unknown or decided transaction changes nothing and reports what is known; any other decides only its own transaction, to the outcome that hash, status and gateway dictate, reports it, and a sound database stays sound |
| `PaymentProofs.WebhookSetsOutcome` | src/modules/payment/payment.service.ts:431-558 | A delivery changes the status of its own transaction only, to the outcome that hash, status and gateway dictate |
| `PaymentProofs.WebhookAtMostOnce` | src/modules/payment/payment.service.ts:431-441 | Any delivery for a decided transaction changes nothing at all; a verified success decides it unless its due was deleted |
| `PaymentProofs.WebhookDecidesOnce` | src/modules/payment/payment.service.ts:431-558 | No delivery changes any other transaction or a decided one |
| `PaymentProofs.PayLinesConserves` | src/modules/payment/payment.service.ts:737-779 | Over any line list, new payments plus skipped lines are the sum of the lines |
| `PaymentProofs.MultiDueConservation` | src/modules/payment/payment.service.ts:709-793 | On success the new payments plus the lines skipped as already paid add up to the transaction amount |
| `PaymentProofs.UnchangedBalancesDropExactly` | src/modules/payment/payment.service.ts:737-779 | If balances are as accepted, each due of the payment loses exactly its line, nothing is overpaid, and other dues are untouched |
| `Flows.DeliveryOverpaysExactly` | src/modules/payment/payment.service.ts:650-675 | A verified success for one due leaves paid + balance = total exactly if its amount does not exceed the balance; otherwise the due is overpaid |
| `Flows.LineOverpaysExactly` | src/modules/payment/payment.service.ts:737-770 | The same for each due of a payment of several |
| `Flows.StalePaymentOverpays` | src/modules/payment/payment.service.ts:298-372 | Initiation, then a cash collection, then the verified success: the due is overpaid exactly if the cash did not clear it |
| `Flows.DeletedDueDetaches` | src/modules/billing/billing.service.ts:151-158 | Initiation, then deletion of the due, then the verified success: it is settled, but nothing is paid and the transaction stays INITIATED |
| `WebhookRaces.UninterruptedDelivery` | src/modules/payment/payment.service.ts:416-529 | A delivery with nothing in between is the checks followed by the finishing part whose late execution is studied |
| `WebhookRaces.LateDelivery` | src/modules/payment/payment.service.ts:416-529 | A success that is processed late, in any sound state, keeps the database sound and settles at most once, but pays again exactly if a due of the transaction is not paid off, and overrides another outcome |
| `WebhookRaces.OverlappingDeliveries` | src/modules/payment/payment.service.ts:416-529 | Two deliveries that both read INITIATED: the second settles nothing and pays again exactly if the first did not pay its dues off |
| `WebhookRaces.PartialPaymentPaysTwice` | src/modules/payment/payment.service.ts:220-529 | A tenant opens a payment and its success is delivered twice at once: the second delivery pays again exactly if a line is below its due's balance, while the property is credited once |
| `WebhookRaces.StaleDueRow` | src/modules/payment/payment.service.ts:617-674 | Paid, balance and status written from a due row that was read earlier, whatever happened to the due since, keep the ledger sound exactly if nothing was paid into it since and an edited balance leaves the same rest |
| `Flows.InitiatedPaymentClears` | src/modules/payment/payment.service.ts:298-529 | Initiation followed by its verified success pays the due exactly to its total and settles exactly its former balance |
| `Flows.AcceptedPaymentPaysItsLines` | src/modules/payment/payment.service.ts:220-297 | An accepted payment followed by its verified success takes from each due exactly its line and settles the declared total |
| `TenancyService.RunPreFlightChecks` | src/modules/tenancy/tenancy.service.ts:135-220 | Admits exactly the requests with sound amounts and dates, at most ninety days ahead, of the property's owner, for a free bed and somebody not residing there; in a sound database the transaction of an admitted one would go through now and keep it sound |
| `TenancyService.RunTransaction` | src/modules/tenancy/tenancy.service.ts:267-467 | Succeeds exactly if the room, looked at again, has a free bed; for a valid request exactly one tenancy, one bed, one rent due over the rounded-up prorated rent and, if positive, one deposit due over the rounded-up deposit are then added and the invariant is kept; a refusal changes nothing |
| `TenancyService.CreateTenant` | src/modules/tenancy/tenancy.service.ts:519-614 | Succeeds exactly for an admitted request, and then exactly one tenancy, one bed, one rent due over the rounded-up prorated rent and, if positive, one deposit due are added; a refusal changes nothing and the database stays sound |
| `TenancyService.ShiftPreFlight` | src/modules/tenancy/tenancy.service.ts:725-803 | Admits exactly the tenancies that reside in a property of the owner, for another room with a free bed in a property of the owner; in a sound database the planned transaction would go through now and keep it sound |
| `Flows.OnboardingCharges` | src/modules/tenancy/tenancy.service.ts:395-432 | After onboarding the tenancy has exactly one unpaid rent due, over the rounded-up prorated rent, and exactly one deposit due if the deposit is positive, in the requested property and month, and no other due has appeared; the tenancy is pending exactly if joining lies ahead |
| `Flows.FreshTenantCannotLeave` | src/modules/tenent/tenent.service.ts:441-455 | A tenant who has just been onboarded owes the first rent, so the exit is refused |
| `TenancyService.GroupByMonth` | src/modules/tenancy/tenancy.service.ts:893-912 | The accumulating loop over the open dues computes, for each month, the sums of totals, paid amounts and balances |
| `TenancyService.MoveMetrics` | src/modules/tenancy/tenancy.service.ts:914-948 | The loop over the buckets moves every bucket from the old property's row, if there is one, to the new property's |
| `TenancyService.ShiftTransaction` | src/modules/tenancy/tenancy.service.ts:805-948 | Succeeds exactly if rooms and tenancy exist and the new room, looked at again, has a free bed; a plan that fits then moves exactly the tenancy, one bed, what it still owes and, month by month, the metrics of that, and keeps the invariant; a refusal changes nothing |
| `TenancyService.ShiftTenantRoom` | src/modules/tenancy/tenancy.service.ts:725-1049 | In a sound database succeeds exactly for an admitted shift, and then moves exactly the tenancy, one bed, what it still owes and, month by month, the metrics of that; a refusal changes nothing, and invariant and status machine are kept |
| `ShiftMoney.BucketsPartition` | src/modules/tenancy/tenancy.service.ts:893-912 | The month buckets partition the open dues: totals, paid amounts and balances all add up |
| `ShiftMoney.ShiftConservesMetrics` | src/modules/tenancy/tenancy.service.ts:914-948 | Every month's metrics summed over both properties are unchanged exactly when the old property has a row for each month in which money moves |
| `ShiftMoney.CrossPropertyShiftMovesMoney` | src/modules/tenancy/tenancy.service.ts:881-948 | A cross-property shift re-assigns exactly the open dues, keeps all their amounts, and conserves the metrics under that condition |
| `ShiftMoney.BucketsMoveTheMoney` | src/modules/tenancy/tenancy.service.ts:894-948 | For every month that the tenancy owes something for, generated, paid and unpaid sums of those dues are added to the new property's row, created if missing, and taken from the old property's, if there is one; no other row changes |
| `RoundTrips.ShiftUndone` | src/modules/tenancy/tenancy.service.ts:739-879 | After an accepted shift inside a property, the shift back is accepted exactly if the old room was within its capacity, and then restores the whole database; otherwise it changes nothing |
| `RoundTrips.CrossShiftUndone` | src/modules/tenancy/tenancy.service.ts:739-948 | After an accepted shift to another property, the shift back is accepted exactly if the old room was within its capacity, and then rooms, tenancies and dues are as before and the metrics were moved there and back |
| `RoundTrips.MetricsMovedBack` | src/modules/tenancy/tenancy.service.ts:914-948 | There and back, the new property's metrics are restored always, the old property's exactly when it had the rows |
| `TenancyService.DeleteTenant` | src/modules/tenent/tenent.service.ts:395-493 | Succeeds exactly for a live tenancy of the tenant in the owner's property that owes nothing and whose room exists; then exactly its row is exited and exactly one bed of its room freed; a refusal changes nothing, and invariant and status machine are kept |
| `TenancyService.RevokeTenancyExit` | src/modules/tenent/tenent.service.ts:495-545 | Succeeds exactly for an exited tenancy of the owner whose room exists; then it is active without a leaving day and exactly its bed is taken, free or not; a refusal changes nothing and the database stays sound |
| `TenancyService.ReActiveTenancy` | src/modules/tenancy/tenancy.service.ts:1821-1884 | Succeeds exactly for an exited tenancy of the named property of the owner whose room has a free bed; then it is active with its leaving day and that bed is taken; a refusal changes nothing and the database stays sound |
| `TenancyService.PutOnNoticePeriod` | src/modules/tenancy/tenancy.service.ts:1051-1121 | Succeeds exactly for a residing tenancy of the owner and a date from today on and after joining, and then changes exactly its status; a refusal changes nothing; the status machine and the invariant are kept |
| `TenancyService.CancelNoticePeriod` | src/modules/tenancy/tenancy.service.ts:1123-1162 | Succeeds exactly for a tenancy on notice of the owner, and then changes exactly its status to active; a refusal changes nothing; the status machine and the invariant are kept |
| `TenancyService.ApproveMoveOutRequest` | src/modules/tenancy/tenancy.service.ts:1248-1316 | Succeeds exactly for an active tenancy, the owner of the request's property and a date from today on and after joining, and then changes exactly the status to notice; a refusal changes nothing; the status machine and the invariant are kept |
| `TenancyService.ConfirmMoveIn` | src/modules/tenancy/tenancy.service.ts:1524-1647 | Succeeds exactly for a tenancy of the owner that is pending, or active before its joining day, and was not confirmed before; then it is active and recorded as moved in and no other row changes; a refusal changes nothing and the invariant is kept |
| `TenancyService.UpdateTenancyDetails` | src/modules/tenancy/tenancy.service.ts:616-686 | Succeeds exactly for a residing tenancy of the owner without a date, with a cleared one or with one from today on and after joining; a given date changes exactly the status to notice, a cleared one to active; a refusal changes nothing; the status machine and the invariant are kept |
| `TenancyProofs.RevokeCapacityCondition` | src/modules/tenent/tenent.service.ts:515-524 | Revoking an exit never looks at the capacity: the room stays within it exactly when it had a free bed |
| `RoundTrips.ExitUndone` | src/modules/tenent/tenent.service.ts:495-524 | Revoking or re-activating an exit restores every table except the tenancy's status and leaving day, which are given exactly |
| `PoolBilling.PoolBillsItsCarriers` | src/modules/electricity/electricity-billing.service.ts:337-380 | The shared pool bills exactly the tenancies that carry it and have tenant-days, and nobody if it is not billed |
| `PoolBilling.RunBillsByDays` | src/modules/electricity/electricity-billing.service.ts:124-156 | In a billing run of a sound database the pool bills a tenancy exactly if the pool is billed, the tenancy carries it, and it has tenant-days in the month |
| `PoolBilling.ReturnedDays` | src/modules/tenancy/tenancy.service.ts:1873-1882 | A re-activated tenancy has no tenant-days in a month exactly if it left before its first day there, and as many as after a revoked exit exactly if it left on the last day or later |
| `PoolBilling.ReactivatedInPool` | src/modules/electricity/electricity-billing.service.ts:351-380 | In any billing run, a tenancy that is back with its old leaving day is billed by the pool exactly if the pool is billed, it carries it and it left no earlier than its first day; never for a month after the one it left in |
| `ElectricityService.GetExpectedPreviousReadings` | src/modules/electricity/electricity.service.ts:55-114 | In a sound database the loop gives exactly the metered rooms, each with where its month starts: at the month's stored previous reading, else at the last reading of the month before, else at the reading of the installed meter, else at 0 |
| `ElectricityService.CheckRooms` | src/modules/electricity/electricity.service.ts:424-474 | The loops accept exactly one series of readings for the metered rooms, each repeating the expected previous reading and not running backwards |
| `ElectricityService.ValidateReadings` | src/modules/electricity/electricity.service.ts:394-500 | Accepts exactly the submissions that continue every meter, cover the metered rooms, stay within the main meter and come before any collection |
| `ElectricityService.SubmitAllReadings` | src/modules/electricity/electricity.service.ts:388-582 | In a sound database succeeds exactly for the owner of the property, a well-formed submission for no future month that starts every meter where its rows say, reads exactly the metered rooms, stays within the main meter and comes before any collection; then exactly those readings are stored, other rooms and months stay, and the run waits with these units; a refusal changes nothing |
| `Readings.AcceptedExactly` | src/modules/electricity/electricity.service.ts:394-500 | That condition, told from the table rows: a month starts with its own previous reading, else with the last reading of the calendar month before, else with the initial meter reading |
| `Readings.SubmissionIsStored` | src/modules/electricity/electricity.service.ts:500-582 | An accepted submission is stored as it is, a room listed twice with its last reading, and the run waits with the units of main meter, rooms and pool |
| `Readings.RunsStartAtInstallation` | src/modules/electricity/electricity.service.ts:85-110 | In every state of every run from an unused database, in whatever order months were submitted, each series of readings begins with the installed reading of its room, the main meters at 0 |
| `Readings.ConsumptionIsCounted` | src/modules/electricity/electricity.service.ts:55-114 | With submissions in order, the units of all months are the main meter's last reading and, for each metered room, its last reading beyond the initial meter reading |
| `ElectricityService.SumReadings` | src/modules/electricity/electricity-billing.service.ts:112-115 | The accumulated private units are the total of all stored readings of the month |
| `ElectricityService.RunBilling` | src/modules/electricity/electricity-billing.service.ts:44-221 | In a sound database succeeds exactly if the property exists and the month is completed, or its readings are there and nothing of it was collected or is on a payment line; a refusal or a completed month changes nothing; otherwise the month is billed as `RunShares.RunBillsTheMonth` says |
| `RunShares.RunBillsTheMonth` | src/modules/electricity/electricity-billing.service.ts:80-221 | From the rows: every active tenancy that carries the pool has a bill over RunPool * days / all carriers' days units at the month's price, rounded up; every one in a metered room a bill over its equal part of the reading; nobody two of a kind, nobody else any; the bills are exactly the month's electricity dues; the run records units, days and rate; all other dues, payments, tenancies and readings stay |
| `RunShares.RunAcceptedExactly` | src/modules/electricity/electricity-billing.service.ts:44-110 | A run is accepted exactly under that condition |
| `ElectricityProofs.AllocationsBillTenancies` | src/modules/electricity/electricity-billing.service.ts:306-380 | Every allocation bills an active tenancy of the property with a non-negative amount |
| `MeterChain.ResubmissionIsIdempotent` | src/modules/electricity/electricity.service.ts:388-582 | Submitting the same readings again is accepted and changes nothing |
| `MeterChain.MetersTelescope` | src/modules/electricity/electricity.service.ts:55-111 | In every state of a run from an unused database with submissions in order, the units of all months of the main meter, and of each metered room if there are any, are the last current minus the first previous reading, across year ends |
| `MeterChain.SubmissionJoinsChain` | src/modules/electricity/electricity.service.ts:403-555 | After an accepted submission main meter and metered rooms are one unbroken chain exactly when its month touches the submitted ones and every meter ends where the next month, if there is one, starts |
| `MeterChain.EarlierResubmission` | src/modules/electricity/electricity.service.ts:403-555 | Resubmitting a month that has a successor keeps the chain exactly when the main meter and every metered room end it with their old readings |
| `MeterChain.LateCorrectionBreaksChain` | src/modules/electricity/electricity.service.ts:388-582 | After two months submitted in order, the first one again with a main reading one unit further is accepted, and the readings are no chain any more |
| `MeterChain.PreviousReadingsArePermanent` | src/modules/electricity/electricity.service.ts:403-474 | Over any run a stored previous reading never changes |
| `MeterChain.MeterChainHolds` | src/modules/electricity/electricity.service.ts:388-582 | Over every run from an unused database the readings of a property, main meter and metered rooms, form one chain in all states exactly when every accepted submission after the first joins it |
| `System.StepKeepsInv` | src/modules/tenancy/tenancy.service.ts:267-467 | Each of the 21 service calls that creates no negative due keeps occupancy, debts, ledger, transactions, settlements, pending amounts and readings sound |
| `System.StepKeepsInvExactly` | src/modules/due/due.service.ts:49-181 | A service call keeps the database sound exactly when it creates no negative due |
| `System.RunsKeepInv` | src/modules/tenancy/tenancy.service.ts:725-948 | Every state of every run of service calls satisfies the invariant |
| `System.RunsProgress` | src/modules/payment/payment.service.ts:431-441 | Over any stretch of any run paid dues, payments, settlements and decided transactions never change |
| `System.StepKeepsRooms` | src/modules/tenancy/tenancy.service.ts:868-879 | No service call creates, removes, moves or resizes a room: only bed counters move |
| `Safety.OccupancyIsExact` | src/modules/tenancy/tenancy.service.ts:293-465 | In every reachable state occupiedBeds is the number of ACTIVE, NOTICE_PERIOD and PENDING tenancies, deletedAt is null exactly for those, and each tenancy is in its room's property |
| `Safety.NoDebtLeaves` | src/modules/tenent/tenent.service.ts:395-465 | In every reachable state an open due belongs to a tenancy that has not exited, in the same property, also after cross-property shifts |
| `Safety.LedgerIsSound` | src/modules/due/due.service.ts:405-446 | In every reachable state paid is the sum of the payments, balance is max(0, total - paid), and UNPAID, PARTIAL and PAID mean what they say |
| `Safety.PaidIsFinal` | src/modules/payment/payment.service.ts:635-648 | Once paid, a due's row and its payments are the same in every later state |
| `Safety.DecidedIsFinal` | src/modules/payment/payment.service.ts:431-441 | Once out of INITIATED, a transaction's status, amount and property are the same in every later state, whatever is delivered |
| `Safety.SettlementsFollowSuccess` | src/modules/payment/payment.service.ts:498-529 | In every reachable state a transaction that still has its dues is settled exactly when it succeeded, and each pending amount is the sum of the settlement rows |
| `TenancyHistory.StepIsLegal` | src/modules/tenancy/tenancy.service.ts:1093-1156 | Every service call moves every tenancy along the status machine or not at all, keeps its tenant, dates and landlord, and moves rooms only while active or on notice |
| `TenancyHistory.TenanciesContinue` | src/modules/tenancy/tenancy.service.ts:725-803 | Over any run no tenancy row disappears, changes hands or changes its landlord, however often it is shifted, and none becomes PENDING again |
| `Isolation.StepReachesExactly` | src/modules/due/due.controller.ts:31-169 | A call of an owner who does not own a property leaves all of it untouched exactly if it is neither an accepted request to add dues in it nor an accepted collection of one of its dues |
| `Isolation.OwnersAreIsolated` | src/modules/tenancy/tenancy.service.ts:739-786 | Over any run of calls by other owners, rooms, tenancies, readings, billing runs and metrics of a property stay as they are and its dues are at most paid into or joined by new ones; all of it is untouched exactly if none of the calls was such a due request |
| `Isolation.AnyOwnerAddsAndCollects` | src/modules/due/due.service.ts:49-60 | The failing calls: for a tenant just onboarded, an owner of other properties adds a due and then collects it |
| `BillingSafety.RunLeavesItsBills` | src/modules/electricity/electricity-billing.service.ts:159-221 | A run leaves exactly one electricity due per allocation for the month, and no other |
| `BillingSafety.RepeatedRunIsNoOp` | src/modules/electricity/electricity-billing.service.ts:54-63 | Running a completed month again changes nothing |
| `BillingSafety.CollectedMonthIsClosed` | src/modules/electricity/electricity-billing.service.ts:65-78 | Once a due of the month is partly or fully paid, neither submission nor run is accepted |
| `BillingSafety.CollectedMonthIsFrozen` | src/modules/electricity/electricity.service.ts:487-500 | From then on, over any run without manual changes to its dues, the month's readings, run and bills stay as they are |
| `BillingSafety.CompletedMonthShowsLastRun` | src/modules/electricity/electricity-billing.service.ts:159-221 | From any state in which the month is not completed: whenever it is COMPLETED, some run completed it, and its electricity dues are exactly the allocations of the last such run, without duplicates |
| `BillingSafety.RunConservesUnits` | src/modules/electricity/electricity-billing.service.ts:80-144 | In any reachable database a run bills exactly the main-meter units if and only if the effective pool is empty or somebody carries it |
| `BillingSafety.RunMoneyBound` | src/modules/electricity/electricity-billing.service.ts:80-144 | In any reachable database the new dues cover the price with less than one rupee per occupied metered room and pool entry on top |
| `BillingSafety.RunRecordBalances` | src/modules/electricity/electricity-billing.service.ts:193-221 | The completed run row adds up: pool and private units are the main-meter units plus the vacant rooms' own units, and rate times days is the pool |
| `Concurrency.CapacityUnderConcurrency` | src/modules/tenancy/tenancy.service.ts:295-322 | Any interleaving of any number of onboardings, shifts and exits, each with a stale read before its locked transaction, keeps every room within its capacity |
| `Concurrency.UndisturbedIsAtomic` | src/modules/tenancy/tenancy.service.ts:790-842 | A request that begins and commits with nothing in between is the atomic service call |
| `Concurrency.StaleExit` | src/modules/tenent/tenent.service.ts:441-470 | An exit committed on an old plan keeps the occupancy exact if and only if the tenancy still lives in the planned room, and the whole invariant if and only if, besides, it still owes nothing |
| `Concurrency.StaleShift` | src/modules/tenancy/tenancy.service.ts:805-879 | A shift committed on an old plan keeps the occupancy exact, and the whole invariant, if and only if the tenancy still lives in the old room |
| `Concurrency.ShiftAfterExitLosesABed` | src/modules/tenancy/tenancy.service.ts:805-879 | A failing interleaving: a shift that passed its pre-flight commits after the tenant's exit, and the old room counts one tenancy too few |
| `Concurrency.InvUnderConcurrency` | src/modules/tenancy/tenancy.service.ts:790-879 | Over any interleaving of requests and sound other services, every state is sound if and only if every commit finds its plan still fitting |
| `Concurrency.OverlappingExitsLoseABed` | src/modules/tenent/tenent.service.ts:461-470 | The shortest failing interleaving: two exits of one tenancy whose reads both passed give up two beds |

## Left out

- IEEE 754 rounding and the two decimal places of stored amounts: sums, products and ceilings are exact.
- Time values beyond the range of a JavaScript Date, and numeric spellings other than decimal digits in a date text.
- Proration.ProrationIsPerDay: stated from the year 100 on, because `Date.UTC` reads the years 0 to 99 as 1900 to 1999; so are `Proration.CalculateProratedRent` and `Proration.ChargeNearPerDaySum`.
- ElectricityUtils.TenantDaysTelescope: stated from the year 100 on, for the same reason; so is `ElectricityUtils.TenantDaysSoFar`.
- Users, tenant profiles, phone numbers, move-out dates (stored per user), due titles, due dates and notes: no rule modelled here reads them.
- Move-out and shift requests as rows: approving a move-out request is the notice step with the request's property, approving a shift request is the shift step.
- Property metrics other than the month buckets of a room shift.
- DueService.DeleteDue: does not model the metrics update after the deletion, which fails when the metrics row is missing although the due is gone.
- Creating, editing and deleting rooms and properties: rooms and their meters are fixed during a run, and stored readings belong to metered rooms.
- The single-meter submission methods (src/modules/electricity/electricity.service.ts:161-269), which no controller calls; every stored main reading is therefore a submitted one.
- The payment lock is part of the payment service method but not of the transition system, which therefore allows more payments than the backend.
- PaymentService.MakePayment: does not model a gateway call that fails after the transaction rows were written; it leaves an INITIATED transaction that nothing answers, as if no webhook ever came.
- All calls are atomic steps of the transition system. The two phases of onboarding, shift and exit interleave in `Concurrency`, where the capacity theorem leaves out revocation, re-activation and resizing of rooms because they do not check capacity under a lock; overlapping webhook deliveries are in `WebhookRaces`.
- WAIVED, OVERDUE and EVICTED are statuses of the model that no call sets, as in the source.
- At most one live tenancy per tenant and property: onboarding does not look at pending tenancies, so it does not hold.
- Foreign keys other than those that protect or detach dues, and one id counter per table: all tables share one counter.
- System.StepKeepsInv: the two add-due requests are assumed to create no negative due, because they do not check; `System.StepKeepsInvExactly` says that this is the exact condition.
- Isolation.OwnersAreIsolated: approving a move-out looks at the request's property only, so the request is taken to be one that the tenancy raised where it lived, under the landlord it still has.
- Maintenance staff: they act for an owner, and the controllers check them against the property before the service is called.
- BillingSafety.CollectedMonthIsFrozen: assumes that nobody edits, deletes, adds or moves the month's electricity dues by hand, because those calls are free to change them.
- PaymentProofs.WebhookAtMostOnce: a verified success is not recorded when the due of the transaction was deleted before; `Flows.DeletedDueDetaches` is that case.
- Controllers, guards, messaging, storage, queues, OTP, JWT, reports and redirect URLs: no state of the four parts above depends on them.
