# Vending orders over a wallet ledger and a stock allocator

A Dafny model of the backend's order protocol: what a customer pays, what a machine dispenses and
what every failure on the way leaves behind. The services that change stored collections are classes
whose methods are proved against functions over values; the theorems are about those functions, over
every input, every run of whole calls, or every interleaving of single database steps.

| file | models |
|---|---|
| Common, Arithmetic | result types, JavaScript rounding and flooring, division facts |
| Wallet, WalletInterleaving | the ledger and its service; the same calls one database step at a time |
| Pricing | promotions and the three-stage discount |
| Batches, Cups, Timers | food batches, coffee grams and cups, calibration timers |
| WireFormat, OldFirmware | the command string, the acknowledgement parser, old status words |
| Machines | the machine collection and its service |
| Orders, OrdersService | the order state machine; the imperative service proved against it |
| Placement | placement and rollback under every combination of faults |
| Outcomes | what single calls come to, told from the request, the stored order and the machine alone |
| OrderBooks, Balances, Lifecycle, Exclusivity | money, status and machine exclusivity over every run |
| Conservation, Shelves, Sweeping | units of a food item and the batch dispensed over every run; the timeout sweep |
| LegacyOrders | the old mobile app's multi-item order |
| Memberships | membership sales |
| WakeProtocol | the retained wake message |
| FailingRuns | runs from a fresh start in which a promise fails |

`dafny verify dfyconfig.toml` checks everything.

## How it is modelled

- What a call comes to is stated twice: each method against the function of the protocol, and that function
  against what the request, the stored order and the machine say, with the conditions written out
  (`Outcomes`, `LegacyOrders.AnsweredResultsAreTrue`).
- Money, grams, milliseconds and quantities are integers; percentages are reals between 0 and 100 and
  prices are rounded by floor(x + 1/2). Clock readings, generated numbers and looked-up records are parameters.
- A call to the database, the wallet or the broker that can leave something half-done is a fault
  parameter: every read, save, wallet call, stock update and flag of a placement, of the settling events,
  of each order of a sweep, of a top-up and of a legacy request can fail, in any combination. A call that
  fails before its service has changed anything leaves the state alone and has no parameter of its own.
  Throwing is an outcome value. "Whatever fails" below means this.
- Order, batch and printed numbers are unique. An order's `_id` is its position in the collection.
  `tx.id` is taken to be the id of the saved transaction, so a charged order has a `transactionId`
  (src/orders/orders.service.ts:343); the stored field is modelled as Unpaid, Bypass or Paid.
- The positional updates of `restoreBatchStock` act on the first batch meeting all the listed
  conditions. The batch restored need not be the batch deducted, so stock theorems speak of sums per item.
- The two acknowledgement handlers share one callback slot (src/mqtt/mqtt.service.ts:151-153), so
  they are alternative events; a run may contain both.
- Runs of the order protocol are serial whole calls. Interleaving of single steps is modelled for the
  wallet and for the wake protocol, where the code claims to be safe under it.
- A time limit of 30 seconds and a cron of 15 seconds are what the timeout code has
  (src/machines/machines.service.ts:764-773); its comment says three minutes and one minute. The
  cutoff is a parameter here.

## What the proofs found

Where a promise does not hold as stated, the exact condition under which it holds is proved, with a
run, or a state and call, in which it fails.

- A charge whose save failed, with the handler's, stays stored as pending and unpaid. Failing or
  cancelling that order, or ordering again, drops it without giving its money back (`EventKeepsMoneyIff`;
  `FailedUnsavedChargeIsLost`, `CancelledUnsavedChargeIsLost`, `ReplacedUnsavedChargeIsLost`).
- A failure that is stored while both refunds fail keeps the money (`PlacedOrderConsistentIff`;
  `FailedOrderKeepsMoney`), and no sweep makes up for it (`LostRefundIsNotRetried`, `LostRefundStaysLost`).
- The two refunds of a failed placement share a key, but if the inner refund moves the money and fails
  to record it, the outer handler pays again (`ChargedPlacementRepaysIff`; `FailedPublishPaysTwice`).
- A failed publish refunds an admin test order nobody paid for (`BypassPlacementMoney`; `FailedTestOrderPaysAdmin`).
- A refund key is paid at most once exactly when no refund of it moves its money after one has
  (`PaidOnceIff`). It is enough that none passes the guard beside another that has passed it and left no
  record, running or ended (`ClaimedOnceIff`, `NoSlipPaysOnce`). Two refunds that overlap are both paid
  (`OverlapRefundsTwice`), and one that ended without its record is paid again by the next, with no overlap
  (`OrphanedRefundIsPaidAgain`).
- A slip whose approval stops after the money moved stays pending and is paid again by the next approval
  (`ApprovalPaysOnceIff`, `UnsavedApprovalPaysAgain`).
- A balance is more or less than its records explain by exactly what calls moved without a record
  (`EveryRunBacksTheBalances`).
- An admin refund credits an order that was never charged (`AdminRefundSettlesIff`; `UnpaidOrderIsRefunded`);
  the timeout and the machine handler make the same call.
- Late acknowledgements break the match of money and status (`ConsistentAfterIffSafe`;
  `CompletedAfterTimeoutIsRefunded`), and can leave two live orders on a machine
  (`EveryRunKeepsOneLiveIff`; `RevivedOrderMakesTwoLive`).
- A legacy request that succeeds for two items makes two live orders on one machine
  (`LegacyKeepsOneLiveIff`; `TwoItemsMakeTwoLive`).
- Failing an order, or cancelling it through the order service, does not put food back
  (`SettlingConservesIff`; `FailedOrderLosesUnits`). A completed report that is short of the order, which
  is how old firmware's half-completed arrives, loses the rest (`ShortReportLosesUnits`; `ShortReportLosesABun`).
- A timeout loses the units of an order whose refund throws or whose item has no batch left
  (`SweepConservesIff`; `TimeoutAfterRemovalLosesUnits`).
- A restore that stops between its two updates can leave units on a depleted batch, where no order finds
  them (`HalfRestoreStrandsIff`, `StrandedUnitsServeNoOrder`; `HalfRestoreHidesBuns`).
- An acknowledgement that names a nozzle twice leaves a wrong cup count (`AckAgreesIff`; `TwoPartAckMiscountsCups`).
  One that reports more than is left drives the stock below nothing, and cups loaded then do not show
  (`LoadRaisesCupsIff`, `LoadThenUnloadIsIdentityIff`; `OverreportSwallowsCups`).
- Item names with a dash lose their quantity (`DashedNameRecoveredIff`; `DashedNameIsReadAsNothing`).
- Old firmware's half-completed is read as completed (`HalfCompletedClosesAsCompleted`).
- Two clears of the wake message can come with no disconnection between them, from a machine offline with
  one win still to be cleared or any with two (`OneClearBetweenFalseWritesIff`; `DelayedClearsMeet`), and a
  machine that reconnects as busy comes online without clearing it (`FlipsAreClearsAndUnowedWrites`,
  `BusyReconnectionIsNotCleared`).

The calibration endpoint demands both timers (src/machines/dto/update-machine.dto.ts:59-65, enforced by
src/main.ts:84), so every entry it stores leads and every command leads (`EveryUpdateRunPublishesLead`).
What the service would do with a lone timer, or with an entry that holds one, is given by
`UpdateKeepsLeadIff`, `LoneTimerBreaksLead` and `PublishedLeadIff`; only data written around that schema
gets there.

## Model

| member | source | states |
|---|---|---|
| `Wallet.WalletService.CreateWallet` | src/wallet/wallet.service.ts:38-42 | Creates an empty wallet once; an existing wallet keeps its balance |
| `Wallet.WalletService.Topup` | src/wallet/wallet.service.ts:68-97 | One atomic credit, then its record with the balances around it; a missing wallet or a failing database changes nothing, except that a failing record leaves the money moved |
| `Wallet.WalletService.Deduct` | src/wallet/wallet.service.ts:99-154 | Succeeds exactly when the wallet exists and covers the amount; a failing record puts the money back unless that fails too |
| `Wallet.WalletService.RefundPayment` | src/wallet/wallet.service.ts:156-198 | Credits once per user and reference; a repeated call returns the earlier record and changes nothing |
| `Wallet.WalletService.AgentTopup` | src/wallet/wallet.service.ts:328-372 | Rejects amounts outside 1 to 50 000 and otherwise credits the customer under the agent's reference |
| `Wallet.WalletService.SubmitTopupRequest` | src/wallet/wallet.service.ts:405-425 | Refuses an amount that is not positive, otherwise appends a pending request; slips that have one credit each keep it |
| `Wallet.WalletService.ApproveTopupRequest` | src/wallet/wallet.service.ts:457-490 | In any state has the effect of the approval function; slips with one recorded credit each keep it exactly when no credit is recorded and then left unsaved |
| `Wallet.ApprovalPaysOnceIff` | src/wallet/wallet.service.ts:457-490 | The same for the approval function: approved slips have exactly one recorded credit afterwards if and only if the save does not fail after a recorded credit |
| `Wallet.UnsavedApprovalPaysAgain` | src/wallet/wallet.service.ts:457-490 | After an approval that stops once the money moved, by a failing record or a failing save, the slip can be approved again and the customer is paid twice |
| `Wallet.WalletService.RejectTopupRequest` | src/wallet/wallet.service.ts:503-527 | Rejects exactly the pending requests, in any state; no money moves, and slips that have one credit each keep it |
| `Wallet.FindRefundIffCounted` | src/wallet/wallet.service.ts:161-170 | The idempotency guard answers exactly when a refund is on record for the key |
| `Wallet.RefundIsIdempotent` | src/wallet/wallet.service.ts:161-170 | Refunding a key twice leaves the ledger as one refund does, whatever the second amount |
| `Wallet.UnrecordedDebitIsNotBacked` | src/wallet/wallet.service.ts:139-151 | If neither the record nor the repayment of a debit succeeds, the balance is short of the records unless the amount is 0 |
| `WalletInterleaving.EveryInterleavingAccounts` | src/wallet/wallet.service.ts:68-198 | In every interleaving of the database steps of top-ups, agent top-ups, refunds and deductions, any step failing: no balance is negative, each equals its records plus the movements in flight, and every record gives the true balances around its own update, no update being recorded twice |
| `WalletInterleaving.QuiescentLedgerReconcilesIff` | src/wallet/wallet.service.ts:105-151 | Once all calls have ended, a balance is its records plus the movements that failing steps of the run gave up, so the records explain it exactly when those cancel out |
| `WalletInterleaving.AloneIsTheCall` | src/wallet/wallet.service.ts:68-198 | The steps of one call without interference have the effect of the sequential call |
| `WalletInterleaving.AloneWithFailedRecord` | src/wallet/wallet.service.ts:139-151 | For every kind of call run without interference, a failed debit record is compensated and a failed record of a credit or refund is not, as in the sequential call |
| `WalletInterleaving.StepClaimsOnceIff` | src/wallet/wallet.service.ts:161-181 | With at most one claim on a key, recorded or past the guard, a step leaves at most one exactly when it does not pass the guard beside another claim that has no record |
| `WalletInterleaving.ClaimedOnceIff` | src/wallet/wallet.service.ts:161-181 | Throughout an interleaving in which only refunds use the refund category, a key is claimed at most once, by a record or by a refund past the guard, if and only if no such step occurs |
| `WalletInterleaving.PaidOnceIff` | src/wallet/wallet.service.ts:161-181 | Throughout such an interleaving a key is paid at most once, on record or not, if and only if no refund past the guard moves its money when the key has been paid |
| `WalletInterleaving.NoSlipPaysOnce` | src/wallet/wallet.service.ts:161-181 | A key no refund of which slips past the guard is paid at most once |
| `WalletInterleaving.OrphanedRefundIsPaidAgain` | src/wallet/wallet.service.ts:161-181 | A refund that ends with its record failed is paid again by a later one, from every state |
| `WalletInterleaving.OverlapRefundsTwice` | src/wallet/wallet.service.ts:161-181 | From every state, two refunds that pass the guard together are both paid and recorded |
| `Pricing.BestIsMaximal` | src/promotions/promotions.service.ts:66-77 | The promotion found is live, applies to the item or to all items, and has the highest discount; none is found only if none applies |
| `Pricing.PriceIsNearest` | src/orders/orders.service.ts:254 | A price is the nearest whole number to what the discount leaves of the base price, a half going up |
| `Pricing.CascadeChargesTheMinimum` | src/orders/orders.service.ts:244-294 | The charge is the least rounded price over every discount the customer may claim, lies between 0 and the base price, and the stored fields name a discount attaining it |
| `Batches.PrecheckMatchesAllocator` | src/orders/orders.service.ts:153-163 | The stock check before the charge accepts exactly the orders the allocator can serve |
| `Batches.PricedIsDispensedIff` | src/machines/machines.service.ts:1026-1045 | On any array, the batch that was priced is the batch dispensed exactly when no other batch that can serve was loaded earlier |
| `Batches.ChronologicalPricedIsDispensed` | src/machines/machines.service.ts:1026-1045 | On an array in load order the first match and the filter-and-stable-sort choose the same batch |
| `Batches.AllocatedIsEarliest` | src/machines/machines.service.ts:1026-1045 | On any array the allocator takes the earliest loaded batch that serves, and the first of those loaded at that time |
| `Batches.SortSpec` | src/machines/machines.service.ts:1033-1036 | The sort orders by load time and keeps exactly the given batches |
| `Batches.DeductSpec` | src/machines/machines.service.ts:1018-1062 | A deduction takes the units off the one batch chosen and changes no other |
| `Batches.RestoreSpec` | src/machines/machines.service.ts:1076-1103 | Where no units are stranded, a restore puts all units on one active or depleted batch and leaves it active, or does nothing when there is none |
| `Batches.DeductUnits` | src/machines/machines.service.ts:1018-1062 | The item loses exactly the ordered units, other items none |
| `Batches.RestoreUnits` | src/machines/machines.service.ts:1076-1103 | The units come back exactly when the first update works and an active or depleted batch of the item remains |
| `Batches.HalfRestoreStrandsIff` | src/machines/machines.service.ts:1081-1099 | A restore that stops after its first update strands its units if and only if the batch it put them on is depleted |
| `Batches.StrandedUnitsServeNoOrder` | src/machines/machines.service.ts:1064-1075 | Units so stranded change no stock check: every order finds the batch it would have found without them |
| `Batches.ExpireUnits` | src/machines/machines.service.ts:1319-1345 | Expiry changes no quantity |
| `Batches.RemoveUnits` | src/machines/machines.service.ts:994-1010 | A removal takes away exactly the units of the removed batch |
| `Batches.StockStep` | src/machines/machines.service.ts:885-1103 | Every stock operation, a half-done restore included, keeps quantities natural, active batches positive, numbers unique and the array in load order |
| `Batches.EveryStockRun` | src/machines/machines.service.ts:885-1103 | Over every run of stock operations the shelf stays good, an expired batch never changes, and the priced batch is always the dispensed one |
| `Batches.ExpiringExpires` | src/machines/machines.service.ts:1319-1345 | An expiry in such a run expires exactly the active batches whose expiry is before now |
| `Batches.CompleteRestoresStrandNone` | src/machines/machines.service.ts:885-1103 | Over every run in which no restore stops half-way, depleted batches hold no units |
| `Machines.MachinesService.LoadBatch` | src/machines/machines.service.ts:885-927 | Appends an active batch to a food machine and refuses other machines |
| `Machines.MachinesService.RemoveBatch` | src/machines/machines.service.ts:994-1010 | Drops exactly the batch named, or fails if there is none |
| `Machines.MachinesService.DeductBatchStock` | src/machines/machines.service.ts:1018-1062 | The read, filter, sort and positional update do what the allocation function says, or throw and change nothing |
| `Machines.MachinesService.RestoreBatchStock` | src/machines/machines.service.ts:1076-1103 | The two updates, either of which can fail, do what the restore function says |
| `Machines.MachinesService.CheckBatchExpiry` | src/machines/machines.service.ts:1319-1345 | Every machine and every batch keeps its place; a food machine's batch that was active with its expiry before now is expired and otherwise unchanged, and everything else is as it was |
| `Machines.MachinesService.UpdateInventory` | src/machines/machines.service.ts:581-613 | Field by field, the new entry is the specified one |
| `Machines.MachinesService.UpdateCalibration` | src/machines/machines.service.ts:615-660 | Refuses timers that do not lead; otherwise stores the specified entry |
| `Machines.MachinesService.UpdateMachineStock` | src/agents/agents.service.ts:602-666 | Loads or unloads a batch on a food machine, cups of grams on a coffee machine, with every error case: unknown machine, another agent's machine, no nozzle, no batch that can serve, item not in the inventory |
| `Machines.MachinesService.ConsumeAck` | src/machines/machines.service.ts:266-328 | The loop over an acknowledgement returns the sum of the reported quantities and deducts grams as specified, or stops after the parts it got to |
| `Cups.UpdateAgreesIff` | src/machines/machines.service.ts:586-612 | The stored cup count is right exactly when neither grams nor grams per cup are negative, or in the two degenerate negative cases |
| `Cups.InventoryAfterUpdate` | src/machines/machines.service.ts:586-612 | An update writes the item's first entry, or a new one, each field from the request, else from the stored entry, else the default; no other entry changes |
| `Cups.LoadRaisesCupsIff` | src/agents/agents.service.ts:643-660 | Loading q cups raises the count by exactly q if and only if the stock was not negative |
| `Cups.UnloadLowersCups` | src/agents/agents.service.ts:643-660 | Unloading q cups leaves max(0, count - q), whatever the grams |
| `Cups.LoadThenUnloadIsIdentityIff` | src/agents/agents.service.ts:643-660 | Loading then unloading q cups restores grams and count if and only if the stock was not negative |
| `Cups.AckAgreesIff` | src/machines/machines.service.ts:274-326 | After an acknowledgement a count is right exactly when the last part naming the nozzle carries everything dispensed there, or already empties it |
| `Cups.AckNamingOnceKeepsAgreement` | src/machines/machines.service.ts:274-326 | An acknowledgement naming each nozzle once keeps every count right |
| `Cups.CupsAgreeThroughoutIff` | src/machines/machines.service.ts:274-326 | Over every run of inventory updates, agents' moves and acknowledgements all cup counts stay right if and only if each event's guard on its numbers, on the debt it makes up for or on its last parts holds |
| `Timers.UpdateKeepsLeadIff` | src/machines/machines.service.ts:622-655 | An accepted update keeps the 100 ms lead on every stored entry exactly when a timer sent alone fits the timer stored beside it |
| `Timers.CompleteUpdateKeepsLead` | src/machines/machines.service.ts:622-655 | With both timers sent, as the request schema demands, acceptance is exactly the lead, and every stored entry keeps it |
| `Timers.CalibrationAfterUpdate` | src/machines/machines.service.ts:622-655 | An accepted update writes the first entry of item and cup size, or a new one: a weight gives the powder timer at 6 g/s and a volume the water timer at 18.5 ml/s, to the nearest millisecond, and what is left out keeps its stored value or the default |
| `Timers.EveryUpdateRunPublishesLead` | src/machines/machines.service.ts:622-655 | After any run of such requests on an empty calibration, for every item and cup size, the order path refuses nothing for its timers and publishes timers that lead |
| `Timers.RoundingKeepsLead` | src/mqtt/mqtt.service.ts:241-243 | Rounding to the nearest 100 ms preserves the lead for all integers |
| `Timers.PublishedLeadIff` | src/orders/orders.service.ts:357-382 | The order path rejects exactly the entries whose two timers do not lead; what it publishes leads exactly when both or neither timer is set, or the only one fits beside the default |
| `WireFormat.AckRoundTrip` | src/mqtt/mqtt.service.ts:245-248 | Printing commands, joining with commas and parsing gives back every nozzle and quantity, and the total is the sum, for names without dash or comma |
| `WireFormat.AcksSideBySide` | src/machines/machines.service.ts:270-288 | Any two texts joined by a comma are read one after the other, an empty one as nothing |
| `WireFormat.DashedNameRecoveredIff` | src/machines/machines.service.ts:272-284 | For a name with a dash the quantity is recovered exactly when the piece after the first dash parses to it |
| `WireFormat.NegativeNozzleIsLost` | src/machines/machines.service.ts:272-276 | A negative nozzle number is never recovered |
| `WireFormat.ShortForm` | src/machines/machines.service.ts:279-284 | The two-part form is read with its nozzle and quantity |
| `WireFormat.AckIsSensible` | src/machines/machines.service.ts:272-288 | Whatever a machine sends, no parsed quantity and no total is negative |
| `WireFormat.NumberIsRead` | src/machines/machines.service.ts:276-284 | A number is read behind white space and a sign, up to the first character that is no digit |
| `WireFormat.NoNumberIsRead` | src/machines/machines.service.ts:276-284 | Nothing is read where no digit follows them |
| `WireFormat.NozzleAloneReportsNothing` | src/machines/machines.service.ts:279-284 | A part without a dash reports no units |
| `WireFormat.BlankIff` | src/orders/orders.service.ts:527-529 | A failure reason is refused exactly when it is white space throughout |
| `OldFirmware.NormalisedIff` | src/mqtt/mqtt.service.ts:109-131 | A status word becomes completed exactly when it contains that word, cancelled exactly when it contains cancel and not completed, and never half-completed |
| `OldFirmware.WordIsRead` | src/mqtt/mqtt.service.ts:109-131 | Whatever stands around it and in either case, completed is read as completed, and cancel as cancelled or completed |
| `OldFirmware.HalfCompletedClosesAsCompleted` | src/mqtt/mqtt.service.ts:113-119 | Old firmware's half-completed closes an order as completed without the refund the same status would get from new firmware |
| `OrdersService.OrdersService.PlaceOrder` | src/orders/orders.service.ts:81-477 | The imperative placement, catch blocks included, has the state and result of the protocol function |
| `OrdersService.OrdersService.Fulfil` | src/orders/orders.service.ts:318-476 | Charge, allocation, publish, bookkeeping and rollback with saves at the points the code saves |
| `Outcomes.RecordedIff` | src/orders/orders.service.ts:107-242 | An order is recorded if and only if the item is on sale at a unit price or in the cup size asked for, the machine is known, holds a batch or the grams for the whole quantity, is awake, online and has water if it boils any, nobody else's order is on it, and no call fails before the record |
| `Outcomes.RefusalHolds` | src/orders/orders.service.ts:107-242 | The reason given for a refusal holds |
| `Outcomes.PlacedOrderIsBilled` | src/orders/orders.service.ts:107-316 | Every recorded order is the request's, and its total is the least rounded price, of unit price or cup size times quantity, over no discount, the membership's, those of the promotions running for the item or for all, and 30% where the first batch on offer expires within a day |
| `Outcomes.CoffeeCommandIs` | src/orders/orders.service.ts:357-405 | A coffee machine is told the item and quantity asked for, on the nozzle and with the timers, rounded to 100 ms, of the first calibration entry for item and cup size, or on nozzle 1 with 5000 and 3000 |
| `Outcomes.FoodCommandIs` | src/orders/orders.service.ts:343-405 | A food machine is told the item and quantity asked for, on the nozzle of the earliest loaded batch that can serve |
| `Outcomes.PlacedMachine` | src/orders/orders.service.ts:421-426 | A placement that succeeds marks its machine busy and counts one order and its total; apart from the shelf nothing else changes on any machine |
| `Placement.PlaceIsAllOrNothing` | src/orders/orders.service.ts:81-477 | A placement that throws after its record exists, with a working rollback, leaves the order failed, every balance and every item's units as before; one that succeeds has debited its total and taken its units; one that is refused has done neither |
| `Placement.PlacementIsAllOrNothing` | src/orders/orders.service.ts:318-476 | The same for the saga, with exactly one refund for a charged order that failed |
| `Placement.SagaIsDecided` | src/orders/orders.service.ts:318-476 | Whether a placement gets its supply, takes units and throws, as exact conditions on the state, the request and the failing calls |
| `Placement.StoredLiveIff` | src/orders/orders.service.ts:399-453 | The stored order, an admin test order included, stays live unless the placement throws and one of the two handlers could store the failure; no other order changes |
| `Placement.ThrownPlacementRecordsRefundIff` | src/orders/orders.service.ts:399-463 | A charged placement leaves a refund on record exactly when it throws and one of the two handlers could record one |
| `Placement.ChargedPlacementMoney` | src/orders/orders.service.ts:387-463 | For every combination of faults the balance is the old one less the total, plus the total for each of the two handlers whose refund reached the wallet |
| `Placement.ChargedPlacementRepaysIff` | src/orders/orders.service.ts:405-463 | A charged placement leaves the balance unchanged exactly when one handler's refund and not both reached the wallet; both do only if the inner refund's record failed after its credit |
| `Placement.BypassPlacementMoney` | src/orders/orders.service.ts:399-415 | An admin test order, never charged, adds its total to the admin's balance exactly when a failed publish refunds it |
| `Placement.ThrownPlacementRestocksIff` | src/orders/orders.service.ts:449-473 | A placement that throws leaves every item's units as they were exactly when it had taken nothing or the handler's save and the first update of its restore worked |
| `Placement.ThrownPlacementFailsOrderIff` | src/orders/orders.service.ts:399-453 | A placement that throws leaves its order failed exactly when one of the two handlers could save it |
| `Placement.ThrownPlacementIsUndoneIff` | src/orders/orders.service.ts:318-476 | A charged placement that throws is undone in status, money and stock exactly when a handler saved the failure, one refund and not two reached the wallet, and units taken were put back |
| `Placement.StockAfterSaga` | src/orders/orders.service.ts:351-473 | The shelves are short of exactly the ordered units when units were taken and not put back, and as they were otherwise, admin test orders included |
| `Placement.PricedBatchIsDispensed` | src/orders/orders.service.ts:153-176 | The published food command names the nozzle of the batch the discount was computed from |
| `Placement.PlacedCoffeeCommandLeads` | src/orders/orders.service.ts:357-398 | Every published coffee command has rounded timers that lead, given an entry with both timers or none |
| `OrderBooks.EveryRunKeepsTheBooks` | src/orders/orders.service.ts:318-616 | Over every run of placements, acks, timeouts, completions, failures and refunds, in any order and whatever fails in each: at most one debit and one refund per order, both for its total; a charged order's records come to 0 or minus its total |
| `OrderBooks.UnchargedOrderIsCredited` | src/orders/orders.service.ts:606-616 | An order that was never charged is credited its total by an admin refund |
| `OrderBooks.AdminRefundSettlesIff` | src/orders/orders.service.ts:606-616 | A first admin refund, whatever fails in it, leaves the order's records at 0 exactly when the order was free, or charged and the refund recorded, or neither |
| `Balances.EveryRunBacksTheBalances` | src/wallet/wallet.service.ts:68-198 | Over every run, whatever fails, no wallet is overdrawn, and each holds its initial balance plus recorded credits less recorded debits plus what placements, refunds and top-ups moved without a record; the records explain it if and only if that comes to 0 |
| `OrdersService.OrdersService.HandleOrderStatusUpdate` | src/machines/machines.service.ts:231-412 | The handler of machine acknowledgements has the effect of the protocol function on orders, wallets and machines |
| `Outcomes.CancelledAckOutcome` | src/machines/machines.service.ts:330-394 | A cancelled acknowledgement that works leaves the order failed, half-completed or completed exactly as nothing, something short of the order, or all of it is reported, and refunds it exactly when it was refunded before or less than the order came out |
| `Outcomes.OtherAckOutcome` | src/machines/machines.service.ts:235-394 | The other acknowledgements set the status they name, and only a half-completed order is refunded |
| `Outcomes.AckTakesGrams` | src/machines/machines.service.ts:274-326 | A completed or cancelled acknowledgement takes from the first entry on each nozzle of a coffee machine the grams of the cups it reports there, 18 a cup where none are set, and from no other entry |
| `OrdersService.OrdersService.MachineUpdateOrder` | src/orders/orders.service.ts:721-789 | Likewise for the order service's own handler, including unknown and unstorable statuses |
| `Outcomes.UpdatedOutcome` | src/orders/orders.service.ts:721-789 | Where nothing fails a completed order is completed, a cancelled one failed and, if it was dispensing, given back, and either frees its machine; dispensing and half-completed are stored |
| `OrdersService.OrdersService.CompleteOrder` | src/orders/orders.service.ts:479-519 | Only a live order completes, and its machine is freed |
| `Outcomes.CompletedOutcome` | src/orders/orders.service.ts:479-519 | Where nothing fails, completing works exactly on a pending or dispensing order, moves no money and frees the machine |
| `OrdersService.OrdersService.FailOrder` | src/orders/orders.service.ts:521-567 | Demands a reason, refunds a paid order before failing it; a refund that throws leaves the order as it was |
| `Outcomes.FailedOutcome` | src/orders/orders.service.ts:521-567 | Where nothing fails, an order is failed, its price given back at most once and exactly if it was stored as paid, and its machine free |
| `OrdersService.OrdersService.RefundOrder` | src/orders/orders.service.ts:606-616 | Refunds any order not yet refunded, once |
| `Outcomes.RefundedOutcome` | src/orders/orders.service.ts:606-616 | Where nothing fails, a refund works exactly on an order not refunded yet, gives its price back at most once and changes no machine |
| `Lifecycle.ConsistentAfterIffSafe` | src/machines/machines.service.ts:330-406 | For an order with a debit on record whose refunds match its status, a settling event, whatever fails in it, keeps the match exactly when its guard on status, stored payment, reported units and failing calls holds |
| `Lifecycle.EventRefinesSettle` | src/machines/machines.service.ts:330-406 | Every settling event moves its own order's status and refund as the guard assumes, and no other order |
| `Lifecycle.SettlingLiveOrdersIsSafeIff` | src/orders/orders.service.ts:721-789 | With no call failing, settling a live charged order satisfies the guard, except that a cancelled update needs it dispensing and a failure needs it stored as paid |
| `Lifecycle.PlacedOrderConsistentIff` | src/orders/orders.service.ts:318-476 | Whatever fails, a placement leaves its order with money and status in step if and only if a charge stored as failed has its refund recorded |
| `Lifecycle.EventKeepsMoneyIff` | src/orders/orders.service.ts:212-616 | Any event, whatever fails in it, keeps the refunds of every charged order matching its status if and only if its guard holds: for a placement also that it cancels no charged pending order, for a sweep that every order reached records its refund |
| `Lifecycle.MoneyFollowsThroughoutIff` | src/orders/orders.service.ts:212-616 | They match throughout a run if and only if every event of it is guarded |
| `Lifecycle.MoneyFollowsStatusInEveryRun` | src/orders/orders.service.ts:479-567 | In every such run an order with a debit on record has exactly one; it has no refund while pending, dispensing or completed, and exactly one otherwise, whatever its stored payment says |
| `Lifecycle.OrdinaryRunsAreSafe` | src/orders/orders.service.ts:212-616 | Every run whose rollbacks work, and whose other calls work and settle orders that are still live, satisfies all guards |
| `Lifecycle.LostRefundIsNotRetried` | src/machines/machines.service.ts:765-785 | A failure that was stored and whose refund failed stays unrefunded over every run in which no call names the order |
| `Lifecycle.SweepSpec` | src/machines/machines.service.ts:765-794 | A sweep in which nothing fails fails and refunds every order on its list and leaves every other order and its refunds as they were |
| `Lifecycle.PlaceIsLocal` | src/orders/orders.service.ts:212-221 | A placement writes only its own order, apart from cancelling exactly the same user's pending ones on the machine, and records only under its own key |
| `Exclusivity.PlacementKeepsOneLive` | src/orders/orders.service.ts:223-242 | Whatever fails, a placement never leaves two live orders on a machine, and is refused while another live order holds it |
| `Exclusivity.SettlingKeepsOneLiveIff` | src/machines/machines.service.ts:237-248 | A settling event keeps one live order per machine exactly when it does not revive an order beside a live one |
| `Exclusivity.EveryRunKeepsOneLiveIff` | src/orders/orders.service.ts:212-242 | Throughout a run at most one order is live per machine if and only if no event of it revives an order beside a live one |
| `Exclusivity.LegacyKeepsOneLiveIff` | src/orders/orders.service.ts:902-1137 | A legacy request keeps one live order per machine if and only if at most one of its entries, each judged on the wallet it finds, can charge and is recorded without being stored as failed; one that answers reports that many successes |
| `Exclusivity.RefusedAsBusyIff` | src/orders/orders.service.ts:212-242 | A placement that passes the other checks and gets as far as its record is refused exactly when a live order other than the user's own pending ones holds the machine |
| `Exclusivity.PlaceIgnoresBusy` | src/orders/orders.service.ts:230-238 | Decision, order, money and stock are the same whatever the busy flags say |
| `Conservation.SettlingConservesIff` | src/machines/machines.service.ts:266-365 | Taking reports at their word, a settling event, whatever fails in it, conserves an item's units exactly when its guard on liveness, reported units, a batch to return to and failing calls holds |
| `Conservation.ShortReportLosesUnits` | src/machines/machines.service.ts:266-365 | A completed report short of a live order loses exactly the difference |
| `Conservation.SweepConservesIff` | src/machines/machines.service.ts:765-799 | A sweep never gains units, and loses none exactly when each order it reaches keeps its status or gets as far as putting its units on a batch |
| `Conservation.SagaConservesIff` | src/orders/orders.service.ts:318-476 | Whatever fails, placing a recorded order conserves its item's units if and only if the stored order is live exactly when its units are off the shelf; other items always |
| `Conservation.PlacementConservesIff` | src/orders/orders.service.ts:81-477 | The same for the whole placement, admin test orders included |
| `Conservation.EventAccountsIff` | src/machines/machines.service.ts:231-1103 | For every event, units loaded, removed and delivered explain the change in an item's units if and only if its guard holds |
| `Conservation.AccountsThroughoutIff` | src/machines/machines.service.ts:231-1103 | They explain it at every step of a run if and only if every event of the run is guarded |
| `Conservation.UnitsAreConserved` | src/machines/machines.service.ts:885-1103 | Over every such run, units loaded equal units on batches plus units held by live orders plus units delivered, as reported, plus units removed |
| `Conservation.SweepIsCareful` | src/machines/machines.service.ts:785-799 | A sweep satisfies its guard when its calls work, its customers have wallets and the item still has a batch |
| `Conservation.RecoveringPlacementIsCareful` | src/orders/orders.service.ts:449-473 | A customer's placement whose rollback works satisfies its guard |
| `Shelves.EveryRunDispensesThePricedBatch` | src/orders/orders.service.ts:153-176 | After every run of the whole protocol, whatever fails in it, every shelf is good and in load order, and the next food order placed is dispensed from the batch its price was computed from |
| `OrdersService.OrdersService.CancelTimedOutOrders` | src/machines/machines.service.ts:765-809 | The loop over at most fifty stuck orders has the effect of the sweep function, stopping at the first call that throws |
| `Outcomes.OthersAreSpared` | src/machines/machines.service.ts:765-773 | Whatever fails, a tick leaves alone every order that is not pending or dispensing, is not older than the cutoff, or has fifty older ones in front of it |
| `Outcomes.OverdueOrderIsFailed` | src/machines/machines.service.ts:765-785 | Where nothing fails and the customers have wallets, a tick fails and refunds every pending or dispensing order older than the cutoff that has fewer than fifty such orders in front of it |
| `Outcomes.OverdueOrderFreesMachine` | src/machines/machines.service.ts:775-780 | The machine of such an order is free after the tick |
| `Sweeping.TicksDrain` | src/machines/machines.service.ts:765-809 | With no new stuck orders and no failing call, k ticks fail and refund exactly the oldest min(50k, n), leave the rest in order and touch nothing else |
| `Sweeping.TicksLeave` | src/machines/machines.service.ts:767-773 | max(0, n - 50k) orders are still stuck after k ticks |
| `Sweeping.TicksCredit` | src/machines/machines.service.ts:781-785 | Each wallet gains exactly the totals of its swept orders that had no refund before |
| `Sweeping.SweptOrderRefundedOnce` | src/machines/machines.service.ts:781-785 | Every swept order ends failed with exactly one refund |
| `Sweeping.OverlappingSweepsPayOnce` | src/machines/machines.service.ts:765-809 | Sweeping the same list again changes no order and moves no money |
| `OrdersService.OrdersService.LegacyLoop` | src/orders/orders.service.ts:902-1137 | The loop over the entries, with its early continues and the errors that leave it, computes the specified results and state |
| `OrdersService.OrdersService.LegacyPlaceOrder` | src/orders/orders.service.ts:796-1162 | The whole call, from the cancelled pending orders to the busy flag |
| `LegacyOrders.EveryResultIsTrue` | src/orders/orders.service.ts:902-1137 | Whatever fails, the loop lists one result for each entry that names an item, in order, until a call throws; a success is of an available item, has deducted the unit price or that of the first cup size listed under the entry's own or calibrated size, times the quantity, and carries the nozzle and timers of the first matching calibration entry; a refusal's reason holds |
| `LegacyOrders.AnsweredResultsAreTrue` | src/orders/orders.service.ts:796-1162 | The same for the results the public call answers with, one for every entry that names an item |
| `LegacyOrders.SuccessStores` | src/orders/orders.service.ts:1029-1051 | A success stores a paid, dispensing order of its entry at the price it deducted, and takes the entry's units off the machine's shelf exactly if a batch has them and the allocation works |
| `LegacyOrders.BusyIffSold` | src/orders/orders.service.ts:1139-1143 | An answered call leaves its machine busy exactly when it lists a success, or a stale flag could not be cleared |
| `LegacyOrders.VolumeIsItsNumber` | src/orders/orders.service.ts:948 | A volume in millilitres is compared as its number, with or without the unit in either case, whatever the spaces around |
| `LegacyOrders.LegacyChargesForSuccessesIff` | src/orders/orders.service.ts:902-1137 | For any mix of entries and failures the balance falls by exactly the deducted amounts of the successes if and only if nothing was lost on the way; a call that returns loses nothing unless a debit was neither recorded nor put back; no other wallet changes |
| `LegacyOrders.AnsweredCallChargesForSuccesses` | src/orders/orders.service.ts:796-1162 | The same for the public call that returns its results |
| `LegacyOrders.LookupsAgree` | src/orders/orders.service.ts:971-1074 | The look-up before the charge and the look-up before the publish, two different scans, choose the same calibration entry |
| `LegacyOrders.EveryPublishedCommandLeads` | src/orders/orders.service.ts:971-1074 | Hence every published coffee command of a legacy request leads |
| `Memberships.MembershipsService.Subscribe` | src/memberships/memberships.service.ts:68-112 | Sells a plan to a customer without a live membership, debiting first; every error case |
| `Memberships.MembershipsService.CancelMembership` | src/memberships/memberships.service.ts:137-156 | Only a privileged caller or the owner cancels, and only the named membership changes |
| `Memberships.SaleIff` | src/memberships/memberships.service.ts:68-112 | A sale goes through if and only if the customer has no live membership, the plan is one of the three, the wallet holds its price and no call fails; it adds one membership at the plan's price, discount and days and takes the price |
| `Memberships.CancelledIff` | src/memberships/memberships.service.ts:137-156 | A membership is cancelled if and only if it exists and the caller is privileged or owns it; no other one changes |
| `Memberships.MembershipsService.ExpireMemberships` | src/memberships/memberships.service.ts:160-168 | Exactly the active memberships past their end are expired |
| `Memberships.EveryRunKeepsPeriodsDisjoint` | src/memberships/memberships.service.ts:68-168 | Over every run of serial calls with a forward clock, a customer's periods that were not cancelled never overlap |
| `Memberships.LiveMembershipIsUnique` | src/memberships/memberships.service.ts:114-122 | A customer has at most one live membership, the one pricing finds |
| `Memberships.PricesMatchDebitsIff` | src/memberships/memberships.service.ts:86-112 | The prices on a customer's memberships sum to the wallet's membership debits exactly when no sale was charged and then failed to save |
| `WakeProtocol.EveryInterleavingAccounts` | src/machines/machines.service.ts:120-158 | In every interleaving of callbacks, silence sweeps and manual writes, each winning update is a false-to-true flip, and a callback clears at most once, for its own win |
| `WakeProtocol.FalseBetweenWins` | src/machines/machines.service.ts:120-158 | Between two winning updates the field is written false |
| `WakeProtocol.OneClearBetweenFalseWritesIff` | src/machines/machines.service.ts:120-158 | From a given state every interleaving without a write of false has at most one clear if and only if the wins still to be cleared, and one more if the machine is offline, come to at most one |
| `WakeProtocol.DelayedClearsMeet` | src/machines/machines.service.ts:120-136 | From an idle and offline machine, a clear delayed past the next disconnection makes two clears with no write of false between them |
| `WakeProtocol.QuietClearsMatchWins` | src/machines/machines.service.ts:120-136 | Once all callbacks have finished there is exactly one clear per win |
| `WakeProtocol.FlipsAreClearsAndUnowedWrites` | src/machines/machines.service.ts:93-158 | In every interleaving that ends idle, the machine came online once per clear plus once per last write or manual write that found it offline and set it online |
| `WakeProtocol.BusyReconnectionIsNotCleared` | src/machines/machines.service.ts:93-158 | A machine that reports busy on reconnecting comes online without a clear |
| `WakeProtocol.ReportAlone` | src/machines/machines.service.ts:85-155 | A report handled without interference leaves the machine online unless it says offline or confirms sleep, asleep or awake as it says, and clears the message exactly when it says online of an offline machine |
| `WakeProtocol.SilencedIff` | src/machines/machines.service.ts:1372-1389 | The silence sweep takes a machine offline if and only if it was online, neither asleep nor flushing, and not heard of since the cutoff |
| `WakeProtocol.ModesShield` | src/machines/machines.service.ts:1372-1389 | A machine put to sleep or into flushing is not taken offline by the sweep, and one taken out of both is if it is silent |
| `FailingRuns.FailedPublishPaysTwice` | src/orders/orders.service.ts:399-463 | A run in which a failing publish and a failing refund record pay the customer back twice |
| `FailingRuns.FailedTestOrderPaysAdmin` | src/orders/orders.service.ts:399-415 | A run in which the failed publish of an admin test order credits the admin |
| `FailingRuns.FailedOrderKeepsMoney` | src/orders/orders.service.ts:399-463 | A run in which a failure is stored, both refunds fail, and the customer stays charged |
| `FailingRuns.LostRefundStaysLost` | src/machines/machines.service.ts:765-785 | However that run goes on without naming the order, it stays failed, charged and unrefunded |
| `FailingRuns.FailedUnsavedChargeIsLost` | src/orders/orders.service.ts:343-345 | A run in which the saves after a debit fail and an agent fails the order: the money is not given back |
| `FailingRuns.CancelledUnsavedChargeIsLost` | src/orders/orders.service.ts:721-789 | The same with the machine cancelling the order |
| `FailingRuns.ReplacedUnsavedChargeIsLost` | src/orders/orders.service.ts:212-221 | The same with the customer ordering again |
| `FailingRuns.UnpaidOrderIsRefunded` | src/orders/orders.service.ts:606-616 | A run in which a customer without money is refunded an order they could not pay |
| `FailingRuns.CompletedAfterTimeoutIsRefunded` | src/machines/machines.service.ts:231-412 | A run of place, timeout, completed acknowledgement that ends completed and refunded |
| `FailingRuns.RevivedOrderMakesTwoLive` | src/machines/machines.service.ts:237-248 | A run in which a processing acknowledgement after a timeout leaves two live orders on one machine |
| `FailingRuns.TwoItemsMakeTwoLive` | src/orders/orders.service.ts:902-1137 | A legacy request for two items, both successful, leaves two live orders on one machine |
| `FailingRuns.FailedOrderLosesUnits` | src/orders/orders.service.ts:521-567 | A run in which failing an order loses its units |
| `FailingRuns.ShortReportLosesABun` | src/machines/machines.service.ts:266-365 | A run in which a completed report of one unit for an order of two loses one |
| `FailingRuns.TimeoutAfterRemovalLosesUnits` | src/machines/machines.service.ts:785-799 | A run in which the item's last batch is removed and the timed-out order's units are lost |
| `FailingRuns.HalfRestoreHidesBuns` | src/machines/machines.service.ts:1081-1099 | A run in which the restore of a timed-out order stops half-way and its units serve no further order |
| `FailingRuns.DashedNameIsReadAsNothing` | src/machines/machines.service.ts:272-284 | A run in which the machine echoes a command with a dashed name and the units read are 0 |
| `FailingRuns.TwoPartAckMiscountsCups` | src/machines/machines.service.ts:274-326 | A run in which an acknowledgement in two parts leaves a wrong cup count |
| `FailingRuns.OverreportSwallowsCups` | src/machines/machines.service.ts:274-326 | A run in which an acknowledgement reports more than is left: a cup loaded then does not raise the count, and taking it out does not restore the stock |

## Left out

- The database driver, MQTT client, websocket, mail, notifications, alerts and log text: only the atomicity and the filters of the database calls remain.
- Roles, sessions and the machine-access check before completing or failing an order: boilerplate around the calls modelled; callers are assumed to have passed them. The assigned agent of a stock update and the owner of a membership are checked.
- Resolving `CUS-` customer numbers in legacy orders: the paying user is a parameter beside the named one.
- The wallet update without a record (src/wallet/wallet.service.ts:381-387): it has no ledger entry to account for.
- A database call that succeeds and is reported as failed: a failing call has changed nothing.
- `limit(50)` without a sort is read as the oldest fifty in insertion order.
- Several refunds of one legacy order: a failed legacy publish is refunded under the printed number and a later settlement under the `_id`; the legacy theorems stop at the call.
- Time zones and daylight saving in membership end dates: a day is 24 hours.
- Calibration fields sent explicitly as undefined: an omitted field keeps its stored value.
- Floating-point rounding of percentages and quotients: reals and exact quotients stand for them.
- Unicode lower-casing and white space beyond ASCII in status words and volumes.
- Machine menus, dashboards, outlets, reservations, advertisements, ratings and seeds: queries and single updates.
- Exclusivity.EveryRunKeepsOneLiveIff: legacy requests are not events of its runs; `LegacyKeepsOneLiveIff` gives the exact condition under which one keeps the property.
- Placement.PlaceIsAllOrNothing: says nothing of admin test orders, which are never charged and never restocked.
