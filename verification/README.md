# The ledger and its planners, verified

A Dafny model of an event-sourced double-entry ledger and of the planners that feed it, with proofs of what it
promises. The log of events is folded into books: accounts, entries, fiscal years and bills. A command reads the head,
checks the write-locked books, and appends a batch of events that is recorded whole or not at all. Year-end close,
reopening and the division of the result among partners are batches of several events behind a fence. The planners turn
a service's remote events into entries and period totals, an Amazon order report into one entry a shipment, a list of
paths into accounts, and pair the two sides of the clearing account.

Amounts are unbounded integers, except where the code checks for overflow (`Commands.CheckedTotal`, `Money`,
`AccountPaths`). Dates are day numbers. Accounts, entries and bills are named by the order they were recorded in. A
reference is a structured key rather than its text.

`dafny verify dfyconfig.toml` checks the whole project.

## Files

- `Ledger`, `Commands`, `Calendar`: the books, what an event does to them, what each command decides, fiscal years and
  reporting periods.
- `Invariants`, `Runs`, `Undoing`, `Payables`: what every command keeps, over runs; what takes what back; bills against
  their control account.
- `Acceptance`, `Refusals`: exactly when each command goes through, and what is so when it does not.
- `Sweeping`, `ClosingTheYear`, `CloseLoops`, `ClosedYears`: what a close posts and moves, the two routes to the
  partners, reopening, and what a closed year is protected from.
- `Witnesses`: runs of a small shop, from empty books, in which a promise fails without the rule it is made under.
- `EventStores`, `Concurrency`: the append-only store as a class, the retry loop, and any number of clients against it.
- `Rollups`, `Grouping`, `Syncs`, `SyncRuns`, `HistoryRollups`, `Rereading`: a period's sales as one entry, one sync's
  plan, sync after sync, replacing posted history by totals, and reading it again.
- `AmazonOrders`, `ItemSignatures`, `AmazonCharges`, `AmazonImports`, `AmazonReimports`, `FirstImports`, `Reconciling`:
  restated settlements, shipments, entries and references, importing once and again, and pairing.
- `PathNames`, `AccountPaths`, `Money`: names along a path, accounts along paths; printing and reading money.
- `Options`, `Sums`, `Sorting`, `Counting`, `Texts`: the small theories the others use.

## Where the code does less than its documentation says

The lemma named first says exactly when, or by exactly how much; the one after it, where there is one, is an instance.

- A caller may hand in the reference a close or an allocation will use. Reopening the year voids that caller's entry,
  and the ledger is restored exactly when no one held the allocation's reference (`ClosingTheYear.ReopenUndoesClose`,
  `Witnesses.HeldAllocationIsVoided`). What a reopen takes out of a window is what the holders of the two references did
  there (`ClosedYears.ReopenMovesExactly`), which may be inside another closed year
  (`Witnesses.SquattedReferenceMovesAClosedYear`).
- Nothing checks the kind of a partner's capital account. One that is a revenue or expense account is left at zero by
  a close exactly when its shares cancel (`ClosingTheYear.CloseToPartnersSweepsIncome`,
  `Witnesses.CapitalOnRevenueMovesAClosedYear`).
- A bill whose debit account is the payable account, or a payment made from it, breaks the control account, and nothing
  refuses either (`Payables.ReceiveKeepsAgreement`, `Witnesses.BillOnItsOwnAccount`; `Payables.PaymentKeepsAgreement`,
  `Witnesses.PaymentFromItsOwnAccount`).
- A payment of zero or less, and a new account with a blank or ill-formed number or a blank name, pass the command's own
  check and are refused only by the store (`Invariants.CommandsKeepInvariant`, `Witnesses.PaymentOfNothing`,
  `Invariants.BlankAccountIsRefused`).
- A year that closes on a net result of zero has no line on the year account, so dividing it reports that there is no
  year account, never that there is nothing to divide (`ClosingTheYear.ZeroResultReportsNoYearAccount`,
  `Witnesses.YearThatComesToNothing`).
- An event whose period is already totalled is consumed and counts no error, and the books stay as they were exactly
  when the total's reference is held (`SyncRuns.LateEventIsLost`). A sync without trouble brings the money of what it
  consumes, less that of the events whose reference was held (`SyncRuns.CleanSyncBrings`).
- A batch that stops at an event repeating an id it has consumed totals that event, and those after it up to the first
  new id, while it holds them back for the next sync (`Syncs.PlanAccountsForEverything`,
  `Syncs.RepeatedIdIsTakenEarly`).
- Reading again an event whose entry was rolled up finds the total exactly when the event rolls up, at the service's
  frequency and since the day it took effect, into a period that has one; else its money is booked a second time
  (`Rereading.ReplacedEventReread`).
- A negative amount in the Amazon report becomes a debit or credit of its size, and unbalances the entry unless items
  and settlements are negative by the same amount (`AmazonImports.ChargeEntryBalances`).
- A refund in the books makes a charge of the same size, order and card count as imported
  (`AmazonImports.RefundHidesACharge`).
- A charge that is not found in the books, but whose reference is there, is lost and no error is counted
  (`FirstImports.HeldReferenceLosesACharge`). Only a charge with an earlier one's legacy key can be lost so
  (`FirstImports.OnlyRepeatsMeetTheirReference`).
- A title that is an item's text, a record separator and another title, in sorted order, lets one item pass for two; no
  other title lets it (`ItemSignatures.ForgeriesCollide`).
- The least 64-bit amount is printed by `cents_to_dollars` and refused when read back (`Money.DollarsReadBack`).

The greedy pairing may match fewer than a better one would: never less than half (`Reconciling.GreedyIsHalfOptimal`),
and once just half (`Reconciling.HalfIsTight`). When it is the best possible is not characterised.

## Model

| member | source | states |
|---|---|---|
| Commands.CheckedTotalIsTotal | src/commands/entry_commands.rs:398-416 | The overflow-checked sum of an entry's lines, when there is one, is their exact sum |
| Commands.CheckAccounts | src/commands/entry_commands.rs:75-107 | An entry's accounts pass exactly when every one exists and is active |
| Ledger.Holder | src/commands/entry_commands.rs:175-186 | Finds a live entry with the reference, and finds none only when there is none |
| Ledger.RecordConcat | src/store/event_store.rs:476-558 | Recording two batches in one is recording one after the other |
| Ledger.BalanceSplits | src/commands/closing_commands.rs:314-389 | A window's movement is its closing balance less its opening one |
| Calendar.FiscalYearsTile | src/domain/fiscal_year.rs:60-75 | Fiscal years are never empty, follow each other without a gap, and share no day |
| Calendar.FiscalYearContaining | src/commands/fiscal_year_commands.rs:112-120 | The fiscal year found for a day contains it, and is the only one that does |
| Calendar.PeriodsTile | src/domain/reporting.rs:77-100 | A reporting period contains its day; two of one frequency are the same or apart |
| Calendar.PeriodKeysAreInjective | src/domain/reporting.rs:151-160 | A period's first day names it among those of its frequency |
| Calendar.YearStarts | src/domain/fiscal_year.rs:60-75 | The first of January falls on the day that counting 365 a year and the leap days gives |
| Calendar.MonthLengths | src/domain/reporting.rs:113-122 | Months have the Gregorian lengths |
| Calendar.FiscalYearRuns | src/domain/fiscal_year.rs:60-75 | A fiscal year runs from the first of its month, in the year that names it, to the eve of that day a year on |
| Calendar.PeriodsAre | src/domain/reporting.rs:77-100 | Daily periods are single days, weekly ones Monday to Sunday, monthly ones whole months |
| Calendar.TheEpochIsAThursday | src/domain/reporting.rs:81-90 | 1 January 1970 is a Thursday, three days into its week |
| Calendar.ClosedMeans | src/domain/reporting.rs:172-180 | A period is closed exactly on the days after its last |
| Invariants.CommandsKeepInvariant | src/commands/entry_commands.rs:398-674 | Every command keeps the books sound: entries of two lines or more that sum to zero, one live entry a reference, closed years sealed by their entry, bills never overpaid; what it builds is recorded exactly when it is neither a payment that is not positive nor an account with a blank or ill-formed number or a blank name |
| Invariants.BlankAccountIsRefused | src/events/validation.rs:1301-1316 | An account without number and name passes the command's check and is refused by the store |
| Ledger.NumberOkMeans | src/events/validation.rs:1760-1776 | An account number is well formed exactly when it is not empty and made of letters, digits, hyphens and points |
| Invariants.HolderIsUnique | src/commands/entry_commands.rs:175-186 | In sound books at most one live entry holds a reference |
| Invariants.CloseKeeps | src/commands/closing_commands.rs:794-981 | A close is recorded whole, leaves exactly its posts, the opened year and the fence, and keeps the books sound; it never closes a closed year |
| Invariants.ReopenKeeps | src/commands/closing_commands.rs:985-1024 | A reopen voids the allocation and the closing entry, lifts the fence, and keeps the books sound |
| Invariants.AllocateKeeps | src/commands/closing_commands.rs:1316-1340 | Dividing a closed year's result is always recorded and keeps the books sound |
| Runs.RunsKeepInvariant | src/commands/entry_commands.rs:695-723 | Every state reachable by commands is sound |
| Acceptance.PostAccepted | src/commands/entry_commands.rs:398-535 | An entry goes through exactly when it has two lines, sums to zero without passing i64 on the way, is on accounts in use, on a day in no closed year, under a reference no live entry carries; and it is posted as handed in |
| Acceptance.VoidAccepted | src/commands/entry_commands.rs:598-622 | A void goes through exactly for a live entry that is no closing one in a closed year |
| Acceptance.UnvoidAccepted | src/commands/entry_commands.rs:632-674 | An unvoid goes through exactly for a void entry whose reference no live one carries |
| Acceptance.ReassignAccepted | src/commands/entry_commands.rs:449-521 | A reassignment goes through exactly for a line of a live entry and another account in use |
| Acceptance.ReceiveAccepted | src/commands/bill_commands.rs:84-190 | A bill goes through exactly when its amount is positive, its accounts are in use, its day is open and its reference free; what it appends |
| Acceptance.PaymentAccepted | src/commands/bill_commands.rs:200-282 | In sound books a payment goes through exactly for a standing bill not paid in full, for no more than is left, from accounts in use on an open day; what it appends |
| Acceptance.VoidBillAccepted | src/commands/bill_commands.rs:291-330 | A bill is voided exactly when it stands unpaid and its entry is live |
| Acceptance.StatusSaysWhatIsPaid | src/store/projections.rs:1824-1831 | In sound books a standing bill is paid, partial or open exactly as what is paid on it is all, some or nothing |
| Acceptance.CreateAccepted | src/commands/account_commands.rs:532-562 | An account goes through exactly when no other has its number, and begins in use |
| Acceptance.UseAccepted | src/commands/account_commands.rs:835-880 | An account is put out of use exactly when it is in use and holds nothing, and back exactly when it is out of use |
| Acceptance.OutOfUse | src/commands/account_commands.rs:835-880 | Out of use it takes no entry, and putting it back restores the books |
| Acceptance.CloseAccepted | src/commands/closing_commands.rs:753-887 | Exactly when a close to an account goes through, in balances, accounts in use, references and days |
| Acceptance.CloseToPartnersAccepted | src/commands/closing_commands.rs:753-981 | Exactly when a close to the partners does |
| Acceptance.ReopenAccepted | src/commands/closing_commands.rs:985-1024 | A year is reopened exactly when it is closed or a live entry carries its closing reference |
| Acceptance.AllocateAccepted | src/commands/closing_commands.rs:1254-1340 | Exactly when a closed year's result is divided |
| Acceptance.OpenYearAccepted | src/commands/fiscal_year_commands.rs:136-168 | A year is opened exactly when it does not exist, with the days it was given |
| Acceptance.DrawAccountsAre | src/commands/closing_commands.rs:580-600 | The draws swept are those of the accounts linked as draws |
| Refusals.RefusalsAreTrue | src/commands/entry_commands.rs:67-186 | Whatever any command is refused for is so: the account it names is missing or out of use, the entry it names carries the reference, the day is closed, the balance or the missing share is there |
| Undoing.VoidIsUndone | src/commands/entry_commands.rs:598-674 | A void takes out exactly what the entry did; the unvoid is then accepted and restores the very books |
| Undoing.ReassignMovesOneLine | src/commands/entry_commands.rs:449-521 | A reassignment moves one line's amount between two accounts from its day on, and the reverse one restores the books |
| Undoing.BillIsUndone | src/commands/bill_commands.rs:113-330 | A bill received and voided leaves every balance and what is owed as they were, and frees its reference |
| Payables.ReceiveKeepsAgreement | src/commands/bill_commands.rs:113-190 | Receiving a bill keeps the payable account equal to what is owed exactly when its other side is another account |
| Payables.PaymentKeepsAgreement | src/commands/bill_commands.rs:200-282 | A positive payment keeps it exactly when it is paid from another account |
| Payables.VoidKeepsAgreement | src/commands/bill_commands.rs:291-330 | Voiding a bill keeps it |
| Payables.PayablesAgreeOverRuns | src/commands/bill_commands.rs:113-330 | Over any interleaving on one payable account no bill is overpaid and the account holds minus what is owed |
| Sweeping.SweptIsComplete | src/commands/closing_commands.rs:314-389 | The sweep lists exactly the accounts of a kind that hold something, with what they hold, and its lines take each to zero |
| Sweeping.ClosingEffect | src/commands/closing_commands.rs:846-863 | What each account gets from the closing entry: income accounts minus what they hold, the year account minus the net result |
| Sweeping.ClosingEntryIsSound | src/commands/closing_commands.rs:846-887 | The closing entry, which bypasses the entry check, has two lines and sums to zero |
| Sweeping.SharesAddBack | src/commands/closing_commands.rs:477-578 | Accepted shares add back to the result to the cent and go to linked capital accounts |
| Sweeping.SharesAre | src/commands/closing_commands.rs:477-578 | Shares are accepted exactly when it is a partnership with partners in the year, each has just one capital account and the split adds back; each partner's share is then what the split gives him, on that account |
| Sweeping.SharesRefused | src/commands/closing_commands.rs:477-578 | Why they are refused: the first rule that fails, the first partner without just one capital account |
| Sweeping.AllocationIsSound | src/commands/closing_commands.rs:1203-1238 | The allocation has two lines, sums to zero and gives each account minus its share |
| CloseLoops.Sweep | src/commands/closing_commands.rs:846-855 | The loop's lines and total are those of the sweep |
| CloseLoops.PartnerCapitalLines | src/commands/closing_commands.rs:477-578 | The loops over partners, links and shares decide as specified, refusals in the same order |
| CloseLoops.BuildCloseBooks | src/commands/closing_commands.rs:794-981 | The step-by-step close decides exactly what the specified one does |
| ClosingTheYear.DebitsEqualCredits | src/commands/closing_commands.rs:430-443 | In sound books debits equal credits at every date |
| ClosingTheYear.UnbalancedIsUnreachable | src/commands/closing_commands.rs:753-783 | No close of sound books is refused as unbalanced |
| ClosingTheYear.CloseMoves | src/commands/closing_commands.rs:794-981 | What a close without draws does to every account at every date |
| ClosingTheYear.PartnerTakesOwnShare | src/commands/closing_commands.rs:918-941 | A capital account that is one partner's alone loses, from the year end on, that partner's own part of the split |
| ClosingTheYear.ClosePostsAre | src/commands/closing_commands.rs:846-941 | What a close posts is marked as closing, dated the year end, in the books' currency, under the year's two references |
| ClosingTheYear.CloseSweepsIncome | src/commands/closing_commands.rs:794-981 | A close to an account takes every revenue and expense account, active or not, to zero at the year end, moves the year account by minus the net result, and touches no asset or liability |
| ClosingTheYear.CloseToPartnersSweepsIncome | src/commands/closing_commands.rs:794-981 | A close to the partners leaves an income account at zero exactly when its shares of the result cancel, and always when it is no partner's |
| ClosingTheYear.NetResultIsThisYears | src/commands/closing_commands.rs:601-624 | The net result is what revenue and expense did inside the year alone |
| ClosingTheYear.ClosingEntryTellsAll | src/commands/closing_commands.rs:1092-1108 | The posted closing entry alone gives back the result and, when it is not zero, the year account |
| ClosingTheYear.TwoRoutesAgree | src/commands/closing_commands.rs:1254-1340 | Closing to the partners is accepted exactly when closing to the account and then dividing is, and the two leave what they posted the same; a linked year account makes the second step fail |
| ClosingTheYear.YearAccountIsPassedThrough | src/commands/closing_commands.rs:918-941 | Closed to the partners, the year account has at every date the balance it had before |
| ClosingTheYear.ZeroResultReportsNoYearAccount | src/commands/closing_commands.rs:1254-1312 | A year closed on nothing reports no year account when divided |
| ClosingTheYear.ReopenUndoesClose | src/commands/closing_commands.rs:985-1024 | Reopening after a close frees both references, lifts the fence, and restores everything exactly when no caller held the allocation's reference |
| ClosingTheYear.RestoredBooksReadTheSame | src/commands/closing_commands.rs:985-1024 | Restored books give every balance, and debits and credits, at every date as before |
| ClosingTheYear.ReopenUndoesCloseAndAllocation | src/commands/closing_commands.rs:985-1024 | The same after a close and an allocation |
| ClosingTheYear.ClosingAgainIsTheSame | src/commands/closing_commands.rs:794-981 | Closing the reopened year again gives the same lines and net result |
| ClosedYears.ClosedYearIsSealed | src/commands/entry_commands.rs:129-143 | A closed year has exactly one live closing entry, dated its last day, and voiding it is refused |
| ClosedYears.OnlyReopenUnseals | src/commands/entry_commands.rs:598-622 | Every command but the reopening of that year leaves its fence and its closing entry |
| ClosedYears.CloseZeroes | src/commands/closing_commands.rs:794-981 | Over a year being closed, draws or not, an income account's movement is zero |
| ClosedYears.ReopenMovesExactly | src/commands/closing_commands.rs:985-1024 | What a reopen takes out of any account in any window is what the entries it voids did there |
| ClosedYears.ClosedYearsStayQuiet | src/commands/entry_commands.rs:108-125 | Over runs of fenced commands, with no caller holding a close's references, every income account's movement inside every closed year is zero |
| ClosedYears.OrdinaryMeans | src/commands/entry_commands.rs:108-125 | Which commands those runs are of |
| Witnesses.SquattedReferenceMovesAClosedYear | src/commands/closing_commands.rs:985-1024 | From empty books: with the earlier year's closing reference held by a sale, reopening that year moves an income account inside another closed year |
| Witnesses.HeldAllocationIsVoided | src/commands/closing_commands.rs:985-1024 | From empty books: a sale that holds the allocation's reference is void once the year is closed and reopened |
| Witnesses.CapitalOnRevenueMovesAClosedYear | src/commands/partnership_commands.rs:782-803 | From empty books, by ordinary commands: a capital account that is the revenue account, and the closed year's movement on it is not zero |
| Witnesses.YearThatComesToNothing | src/commands/closing_commands.rs:1254-1312 | From empty books: a year closed on zero, whose division reports no year account |
| Witnesses.BillOnItsOwnAccount | src/commands/bill_commands.rs:113-190 | From empty books: a bill on its own payable account is accepted and breaks the agreement |
| Witnesses.PaymentFromItsOwnAccount | src/commands/bill_commands.rs:200-282 | From empty books: a payment from the payable account is accepted and breaks it |
| Witnesses.PaymentOfNothing | src/commands/bill_commands.rs:200-282 | From empty books: a payment of zero passes the command's check and is not recorded |
| EventStores.EventStore.AppendChecked | src/store/event_store.rs:476-558 | One transaction: head compared, checked on the books as they are, all events recorded or none |
| EventStores.Submit | src/commands/entry_commands.rs:695-723 | The loop decides on exactly the books it extends, whatever rivals did meanwhile, and starts over no more often than they appended |
| Concurrency.InterleavingsAreSerial | src/commands/closing_commands.rs:1035-1082 | However clients with stale heads interleave, the tables are the fold of the log and a serial run of the appended commands, each decided on the state it extends; retries are bounded by others' batches |
| Rollups.SummedKeepsTotals | src/commands/event_service_commands.rs:1476-1515 | Summing lines by account and currency keeps every key's total, drops zeros, repeats no key |
| Rollups.SummedIsOrdered | src/commands/event_service_commands.rs:1476-1515 | A total's lines come by account, then by currency, each pair of them once |
| Rollups.PlanSalesRollup | src/commands/event_service_commands.rs:1469-1543 | The gathering loop computes the specified total |
| Rollups.RollupRefinesPostings | src/commands/event_service_commands.rs:1469-1543 | A rollup puts on every account and currency exactly what the events' own entries would |
| Rollups.RollupOutcome | src/commands/event_service_commands.rs:1469-1543 | A batch is refused exactly when a sale or refund cannot be planned, and is an entry exactly when it then comes to something on some account and currency; its date, reference and source |
| Rollups.SalesOnKeyMeans | src/commands/event_service_commands.rs:1481-1504 | What a batch comes to there is what its sales and refunds plan there |
| Rollups.RollupIgnoresOrder | src/commands/event_service_commands.rs:1476-1480 | Any order of the events gives the same entry, line for line |
| Rollups.RollupIsSound | src/commands/event_service_commands.rs:1517-1543 | Balanced plans roll up to an entry of two lines or more that sums to zero |
| Grouping.GroupingIsComplete | src/commands/event_service_commands.rs:1549-1567 | Each group holds exactly what falls in its period, in order, and nothing is left out |
| Syncs.PlanServiceSync | src/commands/event_service_commands.rs:1880-1945 | The planning loops compute the specified plan |
| Syncs.PlanAccountsForEverything | src/commands/event_service_commands.rs:1880-1964 | What is consumed is a prefix of closed periods, the rest is held, the cursor is the last consumed id; when nothing fails the plan puts on every account what planning each consumed event alone would, and what the events it takes past its stop would; it takes none exactly when the event it stops at repeats no consumed id |
| Syncs.RepeatedIdIsTakenEarly | src/commands/event_service_commands.rs:1919-1925 | A sale that repeats a consumed id is totalled while its period runs and the batch is held from it |
| Syncs.EveryEventLandsOnce | src/commands/event_service_commands.rs:1907-1932 | Every consumed event is in the group of its own period or stands alone as one of an entry, a bill, nothing or a failure; only what is taken past the stop is in a group besides |
| Syncs.RollsMeans | src/commands/event_service_commands.rs:1947-1964 | Which events roll up, in their kind and date and the service's frequency and first day |
| Syncs.TotalsAreOver | src/commands/event_service_commands.rs:1897-1925 | In a batch that repeats no id, only events of periods that ended before the day of the sync are totalled |
| Syncs.ConsumedEventIsPlanned | src/commands/event_service_commands.rs:1907-1925 | A consumed event is in the totals if it rolls up, and else its own entry or bill is in the plan |
| Syncs.PlanIsOldestFirst | src/commands/event_service_commands.rs:1934-1935 | A plan posts oldest first, nothing but what stands alone and the totals, each once |
| Syncs.FailuresAre | src/commands/event_service_commands.rs:1907-1917 | A lone event is reported as failed exactly when it cannot be planned |
| Syncs.PeriodFailuresAre | src/commands/event_service_commands.rs:1926-1932 | A period is reported as failed exactly when a sale or refund in it cannot be planned |
| Syncs.TotalIsDated | src/commands/event_service_commands.rs:1517-1543 | A total is dated the last day of its period, under the period's reference |
| SyncRuns.PostRollups | src/commands/event_service_commands.rs:2174-2299 | Posts the plan against the store, counts what went wrong, moves the cursor only when nothing did |
| SyncRuns.CommandsInOrder | src/commands/event_service_commands.rs:2200-2264 | A plan's entries are attempted first, in its order, then its bills |
| SyncRuns.TroubledMeans | src/commands/event_service_commands.rs:2208-2264 | What counts as an error: an entry not recorded, unless it is valid and its reference is held; a bill not recorded, for whatever reason |
| SyncRuns.Attempt | src/commands/event_service_commands.rs:2208-2264 | A post changes nothing or adds one entry under a free reference; unless it counts as an error its reference is held after |
| SyncRuns.RunsKeepAccounts | src/commands/event_service_commands.rs:2174-2299 | Over every run of syncs and other work, nothing beyond the furthest read is posted, all the cursor passed is settled, and no event is counted twice |
| SyncRuns.ExactlyOnce | src/commands/event_service_commands.rs:2174-2274 | The service's entries hold each event's money at most once, all of it once the cursor has passed, and exactly the sum of the individual plans when the cursor has caught up |
| SyncRuns.CleanSyncCatchesUp | src/commands/event_service_commands.rs:2266-2274 | A sync without trouble leaves the cursor caught up |
| SyncRuns.LateEventIsLost | src/commands/event_service_commands.rs:2222-2237 | In a sync without trouble an event alone in a closed period is consumed, and the books change exactly when its period's reference was not held |
| SyncRuns.LateEventIsSilent | src/commands/event_service_commands.rs:2222-2237 | With its total's reference held, a late event counts no error, as long as it balances and does not overflow |
| SyncRuns.CleanSyncBrings | src/commands/event_service_commands.rs:2174-2274 | Whatever the books and however the batch is ordered, a sync without trouble adds to every account the money of what it consumes, less that of the events whose reference was held |
| HistoryRollups.PlanHistoryRollup | src/commands/event_service_commands.rs:2344-2442 | The gathering and replacing loops compute the specified plan |
| HistoryRollups.PlanReplaces | src/commands/event_service_commands.rs:2344-2442 | No entry is replaced twice; each total stands for exactly the service's live entries of one period in range; only periods that cancel are left |
| HistoryRollups.ReplacedAre | src/commands/event_service_commands.rs:2355-2442 | A total replaces exactly the live entries under a reference of one of the service's events, dated in the range and in its period; its date, reference and source |
| HistoryRollups.HistoryOldestFirst | src/commands/event_service_commands.rs:2355-2366 | History is read oldest first |
| HistoryRollups.ReplacementIsSound | src/commands/event_service_commands.rs:2404-2442 | Each total is a valid balanced entry |
| HistoryRollups.HistoryRollupMovesNothing | src/commands/event_service_commands.rs:2344-2442 | Voiding and posting as planned all goes through and leaves every balance as it was on every day not strictly inside a rolled period |
| HistoryRollups.TotalsAreNeverRolledUp | src/commands/event_service_commands.rs:2355-2371 | No plan, at any frequency and range, takes in a period's total |
| HistoryRollups.PlanningAgainFindsNothing | src/commands/event_service_commands.rs:2344-2442 | Planning again over the same range finds nothing |
| Rereading.ReplacingKeepsBalance | src/commands/event_service_commands.rs:2344-2442 | Replacing history leaves what the service's live entries hold on every account |
| Rereading.ReplacedEventReread | src/commands/event_service_commands.rs:2427-2438 | Read again without trouble, a replaced event brings nothing exactly when it rolls up into a period with a total, and otherwise its money once more |
| Rereading.SameFrequencyFindsTheTotal | src/commands/event_service_commands.rs:2427-2438 | Replaced at the service's own frequency, an event that rolls up and is dated as its entry finds the total |
| Reconciling.Pair | src/commands/amazon_reconcile.rs:246-299 | The loop over buckets computes the greedy pairing by position, and sorts what is left |
| Reconciling.FindBest | src/commands/amazon_reconcile.rs:273-281 | The search of a bucket finds its first line at the fewest days |
| Reconciling.CompatibleMeans | src/commands/amazon_reconcile.rs:273-281 | Lines can pair exactly when they are for one amount and at most ninety days apart |
| Reconciling.OldestFirst | src/commands/amazon_reconcile.rs:263-268 | Orders have their turn oldest first |
| Reconciling.OrdersLeftAre | src/commands/amazon_reconcile.rs:270-291 | The orders left are those that took nothing, in order |
| Reconciling.FeedLeftAre | src/commands/amazon_reconcile.rs:293-299 | The feed lines left are those nothing took |
| Reconciling.BucketFindsBest | src/commands/amazon_reconcile.rs:250-281 | Looking in the amount's bucket finds what looking through the whole feed would |
| Reconciling.GreedyIsMaximal | src/commands/amazon_reconcile.rs:246-299 | Pairs have equal amounts at most 90 days apart, no line is used twice, each order takes the nearest free line, and no order is left beside a free line it could take |
| Reconciling.GreedyIsHalfOptimal | src/commands/amazon_reconcile.rs:246-299 | No valid pairing matches more than twice as many |
| Reconciling.HalfIsTight | src/commands/amazon_reconcile.rs:246-299 | The bound is met |
| Reconciling.PairingConserves | src/commands/amazon_reconcile.rs:246-299 | Matched and left over add up to both sides |
| Reconciling.LoadClearingLines | src/commands/amazon_reconcile.rs:142-197 | Splits the rows by who wrote them, drops zeros, and sums the balance |
| Reconciling.RowsAre | src/commands/amazon_reconcile.rs:146-168 | The account's rows are the lines on it of live entries, told by their entry's reference |
| Reconciling.RowsOldestFirst | src/commands/amazon_reconcile.rs:149-154 | The rows are read oldest first, none lost or added |
| Reconciling.IsAmazonMeans | src/commands/amazon_reconcile.rs:182-190 | An order's row is told by a reference that begins with the import's name |
| Reconciling.SideIs | src/commands/amazon_reconcile.rs:170-195 | A side's lines are its rows that are not zero, by their size, in order |
| Reconciling.ClearingBalanceIsLeftovers | src/commands/amazon_reconcile.rs:106-197 | The clearing balance is the feed left over less the orders left over, exactly when lines the wrong way round cancel |
| AmazonOrders.OrderRows.DropRestatedPayments | src/commands/amazon_commands.rs:240-283 | Updates the order to the specified one and says how many keys went |
| AmazonOrders.DroppingIsSettled | src/commands/amazon_commands.rs:240-283 | Dropping is done once; either nothing changes or what is left, the first statement of each amount on each card, foots to the net total |
| AmazonOrders.DropsExactlyWhen | src/commands/amazon_commands.rs:240-283 | Restatements are dropped exactly when there is a net total that the settlements miss and their first statements, by amount and card, meet; what is left is those, in order, as they were |
| AmazonCharges.ChargesForOrder | src/commands/amazon_commands.rs:297-344 | The loop over pools computes the specified shipments |
| AmazonCharges.ChargesPartition | src/commands/amazon_commands.rs:297-344 | Every settlement is in one shipment, once; a shipment is one settlement that foots, or all the short ones of one item signature |
| AmazonCharges.FootingStandsAlone | src/commands/amazon_commands.rs:297-344 | A settlement that foots to its items is a shipment by itself, on its own date |
| AmazonCharges.PartsListTheSameItems | src/commands/amazon_commands.rs:297-344 | Where no item is a forgery, a shipment paid in parts is paid by exactly the short settlements that list its items, row order aside |
| ItemSignatures.SignatureTellsItems | src/commands/amazon_commands.rs:348-358 | Unless the text of an item is two items' texts joined in order, signatures agree exactly when the item lists are permutations |
| ItemSignatures.ForgeriesCollide | src/commands/amazon_commands.rs:348-358 | One item has the signature of another list exactly when its text is two items' texts joined in order |
| ItemSignatures.ForgeriesHoldBoth | src/commands/amazon_commands.rs:348-358 | Such an item's title holds both separators |
| AmazonImports.Primary | src/commands/amazon_commands.rs:158-168 | The primary settlement is one of the charge's, of the largest amount, the earliest such, and the first by key of those |
| AmazonImports.ReferencesAre | src/commands/amazon_commands.rs:621-659 | A reference names the order and the day, amount and card of the largest settlement, and that settlement's id exactly where an earlier charge has the rest |
| AmazonImports.ImportedMeans | src/commands/amazon_commands.rs:692-702 | A charge counts as imported exactly when a live entry is under a reference of its own order and a settlement's card, with no settlement id, for that settlement's amount or, unless it is negative, as much the other way |
| AmazonImports.AssignReferences | src/commands/amazon_commands.rs:646-659 | Assigns the legacy key, and the settlement's id with it where an earlier charge has that key |
| AmazonImports.ReferencesAreDistinct | src/commands/amazon_commands.rs:646-659 | No two charges share a reference, and the first of each colliding group keeps the legacy key |
| AmazonImports.ChargeEntryBalances | src/commands/amazon_commands.rs:540-591 | A planned entry balances exactly when items and settlements are negative by the same amount, and credits clearing once a settlement |
| AmazonImports.ItemLinesAre | src/commands/amazon_commands.rs:540-560 | There is a line on the parking account for each item that cost something, of its size |
| AmazonImports.ChargeLinesAreHere | src/commands/amazon_commands.rs:540-591 | A charge's entry touches the parking and clearing accounts only, in the one currency |
| AmazonImports.PlanAmazonEntries | src/commands/amazon_commands.rs:496-594 | Plans the charges not in the books, by order, size and card, refusing a missing account only when there is something to post |
| AmazonImports.WaitingAre | src/commands/amazon_commands.rs:510-524 | What is posted are the charges that do not count as imported, in order |
| AmazonImports.RefundHidesACharge | src/commands/amazon_commands.rs:692-702 | A booked refund of the same size makes a charge count as imported |
| AmazonReimports.ReportReferencesAreDistinct | src/commands/amazon_commands.rs:646-659 | All references of a whole report differ |
| AmazonReimports.ReportChargesAre | src/commands/amazon_commands.rs:240-344 | A report's charges are those of its orders, each order's restatements dropped |
| AmazonReimports.ReportsAlike | src/commands/amazon_commands.rs:240-344 | Moving payment dates moves no settlement to another shipment |
| AmazonReimports.ReimportIsANoOp | src/commands/amazon_commands.rs:692-702 | After an import that posted, the same report with any payment dates moved plans nothing |
| FirstImports.FirstImportPostsEachOnce | src/commands/amazon_commands.rs:496-594 | Where no live entry is under a reference of the report's orders, an import that goes through adds one live entry a charge, under its reference and with its lines, and takes every settlement's size out of the clearing account |
| FirstImports.UnimportedArePostedOnce | src/commands/amazon_commands.rs:496-594 | So it does where only references are about under which no charge counts as imported, and no repeat's |
| FirstImports.HeldReferenceLosesACharge | src/commands/amazon_commands.rs:637-659 | An import that goes through adds exactly the posts whose reference was free, in order, and loses the others without an error |
| FirstImports.OnlyRepeatsMeetTheirReference | src/commands/amazon_commands.rs:637-702 | Of the charges not found in the books, only one with an earlier charge's legacy key can have its reference there |
| AccountPaths.NextFreeNumber | src/commands/account_commands.rs:338-353 | The least free number from just above the parent's, or the kind's base |
| AccountPaths.GrownChartsAreForests | src/commands/account_commands.rs:417-447 | A chart to which accounts were added under ones already there is a forest |
| PathNames.SegmentsConcat | src/commands/account_commands.rs:450-454 | A colon parts the names before it from those after it |
| PathNames.SegmentsOfOne | src/commands/account_commands.rs:450-454 | A text without a colon is one name, its spaces trimmed off, or none if it is blank |
| PathNames.SegmentsOfJoin | src/commands/account_commands.rs:450-454 | Names joined by colons are read back as they were, in order |
| PathNames.CanonicalReads | src/commands/account_commands.rs:450-454 | A path without blank names or stray spaces is what its names join to |
| Texts.TrimmingTakesSpaces | src/commands/account_commands.rs:452 | Trimming takes spaces off both ends, and all there are |
| Texts.SignedDigitsRead | src/commands/account_commands.rs:427-430 | A number is read from digits under a sign or none, spaces around them or not, if an i64 holds it |
| Texts.OnlySignedDigitsRead | src/commands/account_commands.rs:427-430 | And from nothing else |
| AccountPaths.EnsureAccountPaths | src/commands/account_commands.rs:396-524 | Terminates, is refused exactly for want of a path or of a character that names, never by the number fence, and grows the chart by exactly the missing accounts |
| AccountPaths.LeavesReadBack | src/commands/account_commands.rs:274-299 | Each leaf's path is the requested one, and blanks dropped if it has any |
| AccountPaths.NewAccountsAre | src/commands/account_commands.rs:461-513 | A new account is in use, of the kind asked for, named by a name along a path, at the path up to it, under the account at the path before it |
| AccountPaths.NewNumbersAreLeast | src/commands/account_commands.rs:301-353 | Its number is the least that no account before it has, above its parent's, or from its kind's thousand on |
| AccountPaths.MintedOnce | src/commands/account_commands.rs:461-513 | Each new account is the first and only one minted with its path |
| AccountPaths.MintedNumbersDiffer | src/commands/account_commands.rs:467-472 | A new account's number reads as an i64, and is the number and the text of no account before it |
| AccountPaths.BatchIsRecorded | src/events/validation.rs:1301-1316 | The store's own rules refuse no such batch: it is recorded whole and gives the grown chart |
| AccountPaths.EnsuringAgainIsNothing | src/commands/account_commands.rs:396-524 | The same paths again append nothing and name the same accounts |
| Money.CentsToDollars | src/main.rs:2861-2873 | The loop prints the sign, the digits grouped by commas, and the cents |
| Money.PrintedParts | src/main.rs:2861-2906 | What the three forms print: sign, dollar sign or parentheses, whole dollars without leading zeros, a point, two digits |
| Money.GroupedByThrees | src/main.rs:2861-2873 | Commas stand before every three digits from the end, and nowhere else |
| Money.TypedIsRead | src/main.rs:2876-2897 | Digits with a point and up to two more, plain, with a minus or in parentheses, are read as the cents they say exactly when these fit in an i64 |
| Money.DollarsReadBack | src/main.rs:2861-2897 | Reading back what it prints gives the cents, for every i64 but the least |
| Money.FormatAmountReadsBack | src/main.rs:2004-2013 | So does reading back the parenthesised form |
| Money.ShowCentsReadsBack | src/main.rs:2899-2906 | And the plain form |
| Money.ReadingIsExact | src/main.rs:2876-2897 | Whatever is accepted is exact and inside i64 |

## Left out

- Records of the wider store: hashing, signatures, mirrored events, SQL and JSON text, HTTP, the command line's other
  commands, documents, tax forms, depreciation, warnings, memos and the reasons given for a void.
- The store also refuses a blank memo, reason or vendor, and a currency code that is not three capitals. Those texts are
  no part of the commands here, and every `Currency` is such a code.
- Letters and digits of an account number are the ASCII ones; the code takes any that Unicode calls so.
- Fresh identifiers are positions in creation order. That a minted UUID collides with none is assumed by this.
- References are structured keys. That their texts differ when the keys do, and the letter case of the `LIKE` lookups
  over them, are not modelled.
- AmazonImports.PlanAmazonEntries: of the wildcard in its lookup, only the day and the sign it stands for are modelled;
  an order id or a settlement id that itself reads like the rest of the pattern is not.
- Accounts are listed in creation order; the code lists them by number where order matters only for which account an
  error names.
- `FencedOn` asks whether any closed year contains the day; the code reads one such row. They differ only where fiscal
  windows overlap, which the invariants exclude.
- Entries and accounts of one day or list are ordered by when they were recorded where the code orders them by their
  identifiers, which are random; only which of two equal lines is paired or listed first depends on it.
- The tax-line mapping event that a close may append is not modelled; it touches no table the model has.
- The partner register, the links and the splitter are a constant; who shares how much, and changes of the register
  between a close and its allocation, are not modelled.
- How a remote event becomes lines (`plan_remote_event` and what it calls) is a parameter that does not change over a
  run: a mapping edited between syncs is not modelled.
- Invariants.CommandsKeepInvariant: updating and deleting accounts are not commands of the model; reparenting is allowed
  for in `AccountPaths`, which asks only that the chart be a forest.
- ClosedYears.ClosedYearsStayQuiet: void, unvoid, reassign and voiding a bill are not fenced by year in the code, so the
  zero-movement half does not extend to them; they are in every other invariant.
- ClosingTheYear.CloseMoves: draws are left out of the claims about the net result, because the preview and the
  allocation do not count what the builder sweeps of them; `ClosedYears.CloseZeroes` covers closes with draws.
- SyncRuns.ExactlyOnce: asks that a roll-up period's events have all arrived by the day it is over, that they never go
  backwards, and that no id repeats; without the first two `SyncRuns.CleanSyncBrings` says what each sync adds. Progress
  of the cursor past a failed batch with bills is not claimed: a bill's duplicate refusal is counted as an error.
- SyncRuns.PostRollups: the summary event a sync appends is not recorded.
- HistoryRollups.HistoryRollupMovesNothing: entries are taken in date order, ties in creation order.
- Reconciling.LoadClearingLines: the card named in a memo, and the table of cards, are left out.
- AmazonReimports.ReimportIsANoOp: settlements carry a reference id. Without one the report's own key holds the date,
  and moving it regroups the rows.
- AccountPaths.EnsureAccountPaths: asks that account numbers leave room below the i64 limit for the accounts to be
  minted; at the limit the code's increment overflows.
- Money.ReadingIsExact: white space is the ASCII kind and the two Latin-1 ones, here and wherever text is trimmed.
- Several currencies in one entry: the entry check adds them up as the code does, and the balance claims are about that
  sum.
