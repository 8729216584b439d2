/**
 * Runs from a fresh start, with inputs the backend receives, in which a promise of the order protocol
 * fails. Each is an instance of an exact condition proved elsewhere.
 */
module FailingRuns {
  import opened Common
  import opened Wallet
  import opened Batches
  import opened Machines
  import opened Orders
  import opened Pricing
  import opened Placement
  import opened OrderBooks
  import opened Lifecycle
  import opened Exclusivity
  import opened Conservation
  import opened WireFormat
  import Cups
  import LegacyOrders
  import Timers

  // ─── One stall, two customers ──────────────────────────────────────────────

  const STALL := "M1"

  const NO_FAULTS := Faults(
    NoStop, false, NoDebitFault, false, false, false, false, NoCreditFault, false, false, false, NoCreditFault, NoRestoreFault)

  function Buns(quantity: int): Batch { Batch(0, "bun", 1, quantity, 5, 9_000_000_000, 0, Active) }

  function Stall(batches: seq<Batch>): Machine {
    Machine("agent", true, batches, [], [], true, false, "", false, 0, 0)
  }

  function Start(): State {
    Fresh(map["ann" := 1000, "bob" := 1000, "cid" := 0], map[STALL := Stall([Buns(5)])])
  }

  /** Two buns for 100 each. */
  function TwoBuns(u: UserId, name: string): Request {
    Request(u, false, STALL, "bun", Some(Item(true, true, name, 100, [])), None, 2, None, [], 10)
  }

  function Buying(u: UserId): Event { Placing(TwoBuns(u, "bun"), NO_FAULTS) }

  lemma RunTwo(s: State, a: Event, b: Event)
    ensures Run(s, [a, b]) == Apply(Apply(s, a), b)
  {
    assert [a, b][1..] == [b] && [b][1..] == [];
    assert Run(s, [a, b]) == Run(Apply(s, a), [b]);
  }

  lemma RunThree(s: State, a: Event, b: Event, c: Event)
    ensures Run(s, [a, b, c]) == Apply(Apply(Apply(s, a), b), c)
  {
    assert [a, b, c][1..] == [b, c];
    assert Run(s, [a, b, c]) == Run(Apply(s, a), [b, c]);
    RunTwo(Apply(s, a), b, c);
  }

  lemma RunFour(s: State, a: Event, b: Event, c: Event, d: Event)
    ensures Run(s, [a, b, c, d]) == Apply(Apply(Apply(Apply(s, a), b), c), d)
  {
    assert [a, b, c, d][1..] == [b, c, d];
    assert Run(s, [a, b, c, d]) == Run(Apply(s, a), [b, c, d]);
    RunThree(Apply(s, a), b, c, d);
  }

  // ─── A placement that goes well ────────────────────────────────────────────

  /** A stall with one batch of at least two buns, online, awake and free. */
  predicate Open(s: State) {
    && STALL in s.machines
    && s.machines[STALL].isFood && s.machines[STALL].isOnline && !s.machines[STALL].sleepMode
    && |s.machines[STALL].batches| == 1
    && s.machines[STALL].batches[0] == Buns(s.machines[STALL].batches[0].quantity)
    && s.machines[STALL].batches[0].quantity >= 2
    && !Occupied(s.orders, STALL)
  }

  lemma OneBatchServes(n: int)
    requires n >= 2
    ensures Priced([Buns(n)], "bun", 2) == Some(Buns(n))
    ensures Deduct([Buns(n)], "bun", 2) == Some(([TakeFrom(Buns(n), 2)], 1))
  {
    var bs := [Buns(n)];
    var i := FirstIndex(bs, IsServing("bun", 2));
    assert Serves(bs[0], "bun", 2) && i == 0;
    PrecheckMatchesAllocator(bs, "bun", 2);
    DeductSpec(bs, "bun", 2);
    assert Chosen(bs, "bun", 2) == 0;
    assert bs[0 := TakeFrom(bs[0], 2)] == [TakeFrom(Buns(n), 2)];
  }

  /** A stall, online and awake, with `n` buns in one batch. */
  predicate Sellable(ms: Fleet, n: int) {
    STALL in ms && ms[STALL].isFood && ms[STALL].isOnline && !ms[STALL].sleepMode && ms[STALL].batches == [Buns(n)]
  }

  lemma SellableStall(ms: Fleet, n: int, u: UserId, name: string)
    requires Sellable(ms, n) && n >= 2
    ensures Precheck(ms, TwoBuns(u, name)) == Ok(200) && QuoteFor(ms, TwoBuns(u, name), 200).total == 200
  {
    OneBatchServes(n);
    assert BasePrice(TwoBuns(u, name)) == Ok(200);
  }

  lemma OpenStallRecords(s: State, u: UserId, name: string, f: Faults)
    requires Open(s) && f.stop == NoStop
    ensures Records(s, TwoBuns(u, name), f)
    ensures
      var r := TwoBuns(u, name);
      && Recorded(s, r, f).orders == CancelPending(s.orders, u, STALL) + [Order(u, STALL, "bun", 2, 200, Pending, Unpaid, 10)]
      && Recorded(s, r, f).ledger == s.ledger
  {
    var n := s.machines[STALL].batches[0].quantity;
    assert s.machines[STALL].batches == [Buns(n)];
    SellableStall(s.machines, n, u, name);
    OccupiedIff(s.orders, TwoBuns(u, name));
  }

  /** The stall after a sale: the batch replaced, the flags that open it as they were. */
  lemma StallAfterSale(ms: Fleet, bs: seq<Batch>, amount: nat)
    requires STALL in ms
    ensures
      var ms' := CountOrder(SetBusy(SetBatches(ms, STALL, bs), STALL, true), STALL, amount);
      && ms'.Keys == ms.Keys && ms'[STALL].batches == bs
      && ms'[STALL].isFood == ms[STALL].isFood && ms'[STALL].isOnline == ms[STALL].isOnline && ms'[STALL].sleepMode == ms[STALL].sleepMode
  {
  }

  /** The customer paid 200 and the order is dispensing; the stall has two buns fewer. */
  ghost predicate Sold(s: State, s': State, u: UserId) {
    var id := |s.orders|;
    && s'.orders == CancelPending(s.orders, u, STALL) + [Order(u, STALL, "bun", 2, 200, Dispensing, Paid, 10)]
    && u in s.ledger.balances && s'.ledger == Post(s.ledger, u, Debit, OrderPayment, 200, OrderRef(id))
    && s'.machines.Keys == s.machines.Keys && STALL in s.machines
    && |s.machines[STALL].batches| == 1
    && s'.machines[STALL].batches == [TakeFrom(s.machines[STALL].batches[0], 2)]
    && s'.machines[STALL].isFood && s'.machines[STALL].isOnline && !s'.machines[STALL].sleepMode
  }

  lemma OpenStallSells(s: State, u: UserId, name: string)
    requires Open(s) && u in s.ledger.balances && s.ledger.balances[u] >= 200
    ensures Sold(s, Place(s, TwoBuns(u, name), NO_FAULTS).0, u)
    ensures Place(s, TwoBuns(u, name), NO_FAULTS).1 == Placed(|s.orders|, Some(FoodCommand(1, name, 2)))
  {
    var r, id := TwoBuns(u, name), |s.orders|;
    var b := s.machines[STALL].batches[0];
    OpenStallRecords(s, u, name, NO_FAULTS);
    OneBatchServes(b.quantity);
    assert s.machines[STALL].batches == [b];
    RecordedSpec(s, r, NO_FAULTS);
    PlaceIsTheSaga(s, r, NO_FAULTS);
    var s2 := Recorded(s, r, NO_FAULTS);
    CleanSaga(s2, id, s.machines[STALL], r);
    StallAfterSale(s2.machines, [TakeFrom(b, 2)], 200);
    SoldFrom(s, s2, RunSaga(s2, id, s.machines[STALL], r, NO_FAULTS).s, u);
  }

  lemma SoldFrom(s: State, s2: State, s': State, u: UserId)
    requires u in s.ledger.balances && STALL in s.machines && |s.machines[STALL].batches| == 1
    requires s2.ledger == s.ledger && s2.machines.Keys == s.machines.Keys
    requires s2.orders == CancelPending(s.orders, u, STALL) + [Order(u, STALL, "bun", 2, 200, Pending, Unpaid, 10)]
    requires s'.orders == s2.orders[|s.orders| := s2.orders[|s.orders|].(payment := Paid, status := Dispensing)]
    requires s'.ledger == Post(s2.ledger, u, Debit, OrderPayment, 200, OrderRef(|s.orders|))
    requires s'.machines.Keys == s2.machines.Keys
    requires s'.machines[STALL].batches == [TakeFrom(s.machines[STALL].batches[0], 2)]
    requires s'.machines[STALL].isFood && s'.machines[STALL].isOnline && !s'.machines[STALL].sleepMode
    ensures Sold(s, s', u)
  {
  }

  /** A saga with nothing failing, on a food machine that can serve and a wallet that can pay. */
  lemma CleanSaga(s: State, id: nat, snap: Machine, r: Request)
    requires id < |s.orders| && !r.bypass && snap.isFood && r.machine in s.machines
    requires s.orders[id].user in s.ledger.balances && s.ledger.balances[s.orders[id].user] >= s.orders[id].total
    requires Deduct(s.machines[r.machine].batches, r.itemId, r.quantity).Some?
    ensures
      var g, o, (bs, nozzle) := RunSaga(s, id, snap, r, NO_FAULTS), s.orders[id], Deduct(s.machines[r.machine].batches, r.itemId, r.quantity).value;
      && g.s.orders == s.orders[id := o.(payment := Paid, status := Dispensing)]
      && g.s.ledger == Post(s.ledger, o.user, Debit, OrderPayment, o.total, OrderRef(id))
      && g.s.machines == CountOrder(SetBusy(SetBatches(s.machines, r.machine, bs), r.machine, true), r.machine, o.total)
      && g.error.None? && g.id == id && g.command == Some(FoodCommand(nozzle, ItemName(r), r.quantity))
  {
  }

  /** A state like the start. */
  ghost predicate AtStart(s: State) {
    && s.orders == [] && s.ledger.txs == [] && Open(s)
    && s.ledger.balances == map["ann" := 1000, "bob" := 1000, "cid" := 0]
    && s.machines.Keys == {STALL} && s.machines[STALL].batches == [Buns(5)]
  }

  lemma StartIsAtStart()
    ensures AtStart(Start())
  {
  }

  /** Ann's order for two buns, dispensing, with three buns left at the stall. She has paid 200. */
  ghost predicate AnnWaits(s: State) {
    && s.orders == [Order("ann", STALL, "bun", 2, 200, Dispensing, Paid, 10)]
    && s.ledger.balances == map["ann" := 800, "bob" := 1000, "cid" := 0]
    && AccountOf(s, 0) == Account(Dispensing, true, true, false)
    && FindRefund(s.ledger.txs, "ann", OrderRef(0)).None? && Refunds(s.ledger.txs, "ann", OrderRef(0)) == 0
    && s.machines.Keys == {STALL} && s.machines[STALL].batches == [Buns(3)]
    && s.machines[STALL].isFood && s.machines[STALL].isOnline && !s.machines[STALL].sleepMode
  }

  /** A ledger whose only record is the debit of the first order. */
  lemma OneDebit(t: Transaction)
    requires t.ref == OrderRef(0) && t.kind == Debit && t.category == OrderPayment
    ensures Debits([t], 0) == 1 && Refunds([t], t.user, OrderRef(0)) == 0 && FindRefund([t], t.user, OrderRef(0)).None?
  {
    assert [t][..0] == [] && [t][1..] == [];
  }

  lemma FirstSale(s: State, name: string) returns (s': State)
    requires AtStart(s)
    ensures s' == Apply(s, Placing(TwoBuns("ann", name), NO_FAULTS))
    ensures Place(s, TwoBuns("ann", name), NO_FAULTS).1 == Placed(0, Some(FoodCommand(1, name, 2)))
    ensures AnnWaits(s')
  {
    OpenStallSells(s, "ann", name);
    s' := Place(s, TwoBuns("ann", name), NO_FAULTS).0;
    AnnWaitsAfter(s, s');
  }

  lemma AnnWaitsAfter(s: State, s': State)
    requires AtStart(s) && Sold(s, s', "ann")
    ensures AnnWaits(s')
  {
    OneDebit(Entry(s.ledger, "ann", Debit, OrderPayment, 200, OrderRef(0)));
    assert CancelPending([], "ann", STALL) == [];
  }

  /** The first sale. */
  lemma AnnBuys(name: string) returns (s: State)
    ensures s == Apply(Start(), Placing(TwoBuns("ann", name), NO_FAULTS))
    ensures Place(Start(), TwoBuns("ann", name), NO_FAULTS).1 == Placed(0, Some(FoodCommand(1, name, 2)))
    ensures AnnWaits(s)
  {
    StartIsAtStart();
    s := FirstSale(Start(), name);
  }

  /** A tick that finds one stuck order times it out. */
  lemma LoneTick(s: State, cutoff: int)
    requires |s.orders| == 1 && Stuck(s.orders[0], cutoff) && RefundReturns(s, 0, NoCreditFault)
    ensures Tick(s, cutoff, []) == TimeOut(s, 0, ALL_WORKS)
  {
    assert StuckIds(s.orders, cutoff, 1) == [0];
    assert Swept(s.orders, cutoff) == [0];
    assert [0][1..] == [] && Sweep(TimeOut(s, 0, ALL_WORKS), [], []) == TimeOut(s, 0, ALL_WORKS);
  }

  lemma BunsReturn()
    ensures Restore([Buns(3)], "bun", 2) == [Buns(5)]
  {
    var bs := [Buns(3)];
    RestoreSpec(bs, "bun", 2);
    assert IsRestorable("bun")(bs[0]) && FirstIndex(bs, IsRestorable("bun")) == 0;
    assert bs[0 := Revived(bs[0], 2)] == [Buns(5)];
  }

  /** The stall after the timeout of an order for two buns: the units are back, and it is open as before. */
  lemma StallAfterTimeout(s: State)
    requires |s.orders| == 1 && s.orders[0].machine == STALL && s.orders[0].item == "bun" && s.orders[0].quantity == 2
    requires STALL in s.machines && s.machines[STALL].isFood && s.machines[STALL].batches == [Buns(3)] && RefundReturns(s, 0, NoCreditFault)
    ensures
      var s' := TimeOut(s, 0, ALL_WORKS);
      && STALL in s'.machines
      && s'.machines[STALL] == s.machines[STALL].(isBusy := false, batches := [Buns(5)])
  {
    BunsReturn();
  }

  lemma RefundOfTwoBuns(s: State)
    requires |s.orders| == 1 && s.orders[0].user == "ann" && s.orders[0].total == 200 && "ann" in s.ledger.balances
    requires FindRefund(s.ledger.txs, "ann", OrderRef(0)).None? && Refunds(s.ledger.txs, "ann", OrderRef(0)) == 0
    ensures
      var l := Reimburse(s, 0, NoCreditFault).ledger;
      l.balances == s.ledger.balances["ann" := s.ledger.balances["ann"] + 200] && Refunds(l.txs, "ann", OrderRef(0)) == 1
  {
    RefundsAppend(s.ledger.txs, Entry(s.ledger, "ann", Credit, Refund, 200, OrderRef(0)), "ann", OrderRef(0));
  }

  lemma TimedOutMoney(s: State)
    requires AnnWaits(s)
    ensures
      var l := Reimburse(s, 0, NoCreditFault).ledger;
      && l.balances == map["ann" := 1000, "bob" := 1000, "cid" := 0]
      && Refunds(l.txs, "ann", OrderRef(0)) == 1
  {
    RefundOfTwoBuns(s);
    var b := s.ledger.balances;
    assert b["ann" := b["ann"] + 200] == map["ann" := 1000, "bob" := 1000, "cid" := 0];
  }

  lemma TimedOutStall(s: State)
    requires AnnWaits(s) && RefundReturns(s, 0, NoCreditFault)
    ensures Open(TimeOut(s, 0, ALL_WORKS))
  {
    StallAfterTimeout(s);
    TimedOutOrder(s);
  }

  /** Ann's order times out: it is failed and refunded, and the stall is open again with five buns. */
  lemma TimedOut(s1: State) returns (s: State)
    requires AnnWaits(s1)
    ensures s == Apply(s1, Ticking(100, []))
    ensures s.orders == [Order("ann", STALL, "bun", 2, 200, Failed, Paid, 10)]
    ensures AccountOf(s, 0) == Account(Failed, true, true, true) && Refunds(s.ledger.txs, "ann", OrderRef(0)) == 1
    ensures s.ledger.balances == map["ann" := 1000, "bob" := 1000, "cid" := 0]
    ensures Open(s)
  {
    ReturnsIff(s1, 0, NoCreditFault);
    LoneTick(s1, 100);
    TimedOutMoney(s1);
    TimedOutOrder(s1);
    TimedOutStall(s1);
    TimeOutSpec(s1, 0);
    s := TimeOut(s1, 0, ALL_WORKS);
  }

  lemma TimedOutOrder(s: State)
    requires |s.orders| == 1 && s.orders[0].user in s.ledger.balances
    ensures TimeOut(s, 0, ALL_WORKS).orders == [s.orders[0].(status := Failed)] && TimeOut(s, 0, ALL_WORKS).ledger == Reimburse(s, 0, NoCreditFault).ledger
  {
    TimeOutSpec(s, 0);
  }

  // ─── Money and status ──────────────────────────────────────────────────────

  /** A completed acknowledgement after the timeout: the order is completed and its money has gone back. */
  lemma CompletedAfterTimeoutIsRefunded()
    ensures
      var s := Run(Start(), [Buying("ann"), Ticking(100, []), Ack(0, AckCompleted, None, ALL_WORKS)]);
      && |s.orders| == 1 && s.orders[0].status == Completed && s.orders[0].payment == Paid
      && Refunds(s.ledger.txs, "ann", OrderRef(0)) == 1 && s.ledger.balances == Start().ledger.balances
      && !MoneyFollowsStatus(s)
  {
    RunThree(Start(), Buying("ann"), Ticking(100, []), Ack(0, AckCompleted, None, ALL_WORKS));
    var s1 := AnnBuys("bun");
    var s2 := TimedOut(s1);
    var e := Ack(0, AckCompleted, None, ALL_WORKS);
    AckMoves(s2, 0, AckCompleted, None, ALL_WORKS);
    EventRefinesSettle(s2, e, 0);
    assert !Consistent(AccountOf(Apply(s2, e), 0));
  }

  /** A processing acknowledgement of a timed-out order, after another order was placed: two live orders on one machine. */
  lemma RevivedOrderMakesTwoLive()
    ensures
      var s := Run(Start(), [Buying("ann"), Ticking(100, []), Buying("bob"), Ack(0, AckProcessing, None, ALL_WORKS)]);
      && |s.orders| == 2 && s.orders[0].Live() && s.orders[1].Live() && s.orders[0].machine == s.orders[1].machine
      && !OneLivePerMachine(s.orders)
  {
    RunFour(Start(), Buying("ann"), Ticking(100, []), Buying("bob"), Ack(0, AckProcessing, None, ALL_WORKS));
    var s1 := AnnBuys("bun");
    var s2 := TimedOut(s1);
    OpenStallSells(s2, "bob", "bun");
    var s3 := Apply(s2, Buying("bob"));
    assert CancelPending(s2.orders, "bob", STALL) == s2.orders;
    var s := Apply(s3, Ack(0, AckProcessing, None, ALL_WORKS));
    assert s.orders[0].Live() && s.orders[1] == s3.orders[1];
  }

  // ─── First placements in which calls fail ──────────────────────────────────

  /** The first customer's order is stored as pending and unpaid, and goes through the saga. */
  lemma FirstRecords(s: State, u: UserId, f: Faults)
    requires AtStart(s) && f.stop == NoStop
    ensures Records(s, TwoBuns(u, "bun"), f)
    ensures
      var s2 := Recorded(s, TwoBuns(u, "bun"), f);
      && s2.orders == [Order(u, STALL, "bun", 2, 200, Pending, Unpaid, 10)] && s2.ledger == s.ledger
      && STALL in s2.machines && s2.machines[STALL].isFood && Deduct(s2.machines[STALL].batches, "bun", 2).Some?
  {
    OpenStallRecords(s, u, "bun", f);
    RecordedSpec(s, TwoBuns(u, "bun"), f);
    OneBatchServes(5);
    assert CancelPending([], u, STALL) == [];
  }

  /** What a charged saga for two buns leaves, by which of its calls fail. */
  lemma ChargedOutcome(s: State, snap: Machine, r: Request, f: Faults) returns (s': State)
    requires |s.orders| == 1 && s.orders[0].status == Pending && s.orders[0].payment == Unpaid && s.ledger.txs == []
    requires s.orders[0].user in s.ledger.balances && s.ledger.balances[s.orders[0].user] >= s.orders[0].total
    requires !r.bypass && f.deduct == NoDebitFault
    requires snap.isFood && r.machine in s.machines && Deduct(s.machines[r.machine].batches, r.itemId, r.quantity).Some?
    ensures s' == RunSaga(s, 0, snap, r, f).s
    ensures
      var o := s.orders[0];
      var supplied := !f.saveAfterCharge && !f.allocate;
      var throws := !supplied || f.publish || f.busy || f.stats;
      var inner := supplied && f.publish && !f.innerSave && f.innerRefund != BeforeCredit;
      var outer := throws && !f.handlerSave && f.handlerRefund != BeforeCredit && !(inner && f.innerRefund == NoCreditFault);
      && |s'.orders| == 1 && s'.orders[0] == o.(status := s'.orders[0].status, payment := s'.orders[0].payment)
      && (s'.orders[0].status == Failed <==> throws && (!f.handlerSave || (supplied && f.publish && !f.innerSave)))
      && (f.saveAfterCharge && f.handlerSave ==> s'.orders[0] == o && s'.machines == s.machines)
      && o.user in s'.ledger.balances
      && s'.ledger.balances[o.user]
         == s.ledger.balances[o.user] - o.total + AmountIf(o.total, inner) + AmountIf(o.total, outer)
      && AccountOf(s', 0).charged
      && (AccountOf(s', 0).refunded <==>
            throws && ((inner && f.innerRefund == NoCreditFault) || (!f.handlerSave && f.handlerRefund == NoCreditFault)))
  {
    ChargedPlacementMoney(s, 0, snap, r, f);
    ThrownPlacementRecordsRefundIff(s, 0, snap, r, f);
    SagaDebits(s, 0, snap, r, f);
    StoredLiveIff(s, 0, snap, r, f);
    FindRefundIffCounted(RunSaga(s, 0, snap, r, f).s.ledger.txs, s.orders[0].user, OrderRef(0));
    if f.saveAfterCharge && f.handlerSave { UnsavedCharge(s, 0, snap, r, f); }
    s' := RunSaga(s, 0, snap, r, f).s;
  }

  lemma UnsavedCharge(s: State, id: nat, snap: Machine, r: Request, f: Faults)
    requires id < |s.orders| && !r.bypass && f.saveAfterCharge && f.handlerSave
    ensures RunSaga(s, id, snap, r, f).s.orders == s.orders && RunSaga(s, id, snap, r, f).s.machines == s.machines
  {
  }

  /** Ann's first placement, with these calls failing. */
  function AnnPlaces(s: State, f: Faults): State { Place(s, TwoBuns("ann", "bun"), f).0 }

  /** Where a first placement of ann's ends. */
  ghost predicate Ends(s: State, status: Status, payment: Payment, balance: int, refunded: bool) {
    && s.orders == [Order("ann", STALL, "bun", 2, 200, status, payment, 10)]
    && "ann" in s.ledger.balances && s.ledger.balances["ann"] == balance
    && AccountOf(s, 0).charged && AccountOf(s, 0).refunded == refunded
  }

  lemma AnnsOutcome(s: State, f: Faults) returns (s': State)
    requires AtStart(s) && f.stop == NoStop && f.deduct == NoDebitFault
    ensures s' == AnnPlaces(s, f)
    ensures
      var supplied := !f.saveAfterCharge && !f.allocate;
      var throws := !supplied || f.publish || f.busy || f.stats;
      var inner := supplied && f.publish && !f.innerSave && f.innerRefund != BeforeCredit;
      var outer := throws && !f.handlerSave && f.handlerRefund != BeforeCredit && !(inner && f.innerRefund == NoCreditFault);
      && |s'.orders| == 1
      && (s'.orders[0].status == Failed <==> throws && (!f.handlerSave || (supplied && f.publish && !f.innerSave)))
      && (f.saveAfterCharge && f.handlerSave ==>
            s'.orders[0].status == Pending && s'.orders[0].payment == Unpaid && Sellable(s'.machines, 5))
      && Ends(s', s'.orders[0].status, s'.orders[0].payment, 800 + AmountIf(200, inner) + AmountIf(200, outer),
              throws && ((inner && f.innerRefund == NoCreditFault) || (!f.handlerSave && f.handlerRefund == NoCreditFault)))
  {
    var r := TwoBuns("ann", "bun");
    FirstRecords(s, "ann", f);
    PlaceIsTheSaga(s, r, f);
    var s2, snap := Recorded(s, r, f), s.machines[STALL];
    s' := ChargedOutcome(s2, snap, r, f);
  }

  lemma RunOne(s: State, e: Event)
    ensures Run(s, [e]) == Apply(s, e)
  {
    assert [e][1..] == [];
  }

  /** Which calls fail: the publish, and the record of the refund that follows it. */
  const BOTH_PAY := NO_FAULTS.(publish := true, innerRefund := CreditInsertFails)

  /** A publish fails, and so does the record of the refund that follows it: the customer is paid back twice. */
  lemma FailedPublishPaysTwice()
    ensures
      var s := Run(Start(), [Placing(TwoBuns("ann", "bun"), BOTH_PAY)]);
      && |s.orders| == 1 && s.orders[0].status == Failed && s.orders[0].total == 200
      && "ann" in s.ledger.balances && s.ledger.balances["ann"] == 1200
  {
    StartIsAtStart();
    RunOne(Start(), Placing(TwoBuns("ann", "bun"), BOTH_PAY));
    var s1 := AnnsOutcome(Start(), BOTH_PAY);
  }

  /** The publish fails, and so do the refunds of both handlers, before they move any money. */
  const NO_REFUND := NO_FAULTS.(publish := true, innerRefund := BeforeCredit, handlerRefund := BeforeCredit)

  /** The order ends failed and the customer's money stays with it. */
  lemma FailedOrderKeepsMoney()
    ensures
      var s := Run(Start(), [Placing(TwoBuns("ann", "bun"), NO_REFUND)]);
      && |s.orders| == 1 && s.orders[0].status == Failed && "ann" in s.ledger.balances && s.ledger.balances["ann"] == 800
      && !MoneyFollowsStatus(s)
  {
    StartIsAtStart();
    RunOne(Start(), Placing(TwoBuns("ann", "bun"), NO_REFUND));
    var s1 := AnnsOutcome(Start(), NO_REFUND);
    assert !Consistent(AccountOf(s1, 0));
  }

  /** However the run goes on, that refund is not made up for unless a call names the order. */
  lemma LostRefundStaysLost(events: seq<Event>)
    requires forall k | 0 <= k < |events| :: Target(events[k]) != Some(0) && OrdinaryTopup(events[k])
    ensures
      var s := Run(Start(), [Placing(TwoBuns("ann", "bun"), NO_REFUND)] + events);
      |s.orders| > 0 && s.orders[0].status == Failed && AccountOf(s, 0).charged && !AccountOf(s, 0).refunded
  {
    var first := Placing(TwoBuns("ann", "bun"), NO_REFUND);
    StartIsAtStart();
    var s1 := AnnsOutcome(Start(), NO_REFUND);
    assert ([first] + events)[1..] == events;
    LostRefundIsNotRetried(s1, events, 0);
  }

  /** The save after the debit fails, and so does the handler's: the order stays pending and unpaid, with its debit on record. */
  const UNSAVED := NO_FAULTS.(saveAfterCharge := true, handlerSave := true)

  /** A charged order whose status says its price was given back, without a refund. */
  ghost predicate Robbed(s: State, balance: int) {
    && |s.orders| > 0 && (s.orders[0].status == Failed || s.orders[0].status == Cancelled)
    && AccountOf(s, 0).charged && !AccountOf(s, 0).refunded
    && "ann" in s.ledger.balances && s.ledger.balances["ann"] == balance
  }

  lemma UnsavedChargeIsFailed(s: State, e: Event)
    requires Ends(s, Pending, Unpaid, 800, false)
    requires e == Failing(0, ALL_WORKS) || e == Update(0, UCancelled, ALL_WORKS)
    ensures Robbed(Apply(s, e), 800)
  {
    EventRefinesSettle(s, e, 0);
    EventMoves(s, e, 0);
  }

  /** An agent fails that order: nothing is refunded, because the order does not say it was paid. */
  lemma FailedUnsavedChargeIsLost()
    ensures Robbed(Run(Start(), [Placing(TwoBuns("ann", "bun"), UNSAVED), Failing(0, ALL_WORKS)]), 800)
  {
    StartIsAtStart();
    RunTwo(Start(), Placing(TwoBuns("ann", "bun"), UNSAVED), Failing(0, ALL_WORKS));
    var s1 := AnnsOutcome(Start(), UNSAVED);
    UnsavedChargeIsFailed(s1, Failing(0, ALL_WORKS));
  }

  /** The machine cancels it: nothing is refunded, because the order was not dispensing. */
  lemma CancelledUnsavedChargeIsLost()
    ensures Robbed(Run(Start(), [Placing(TwoBuns("ann", "bun"), UNSAVED), Update(0, UCancelled, ALL_WORKS)]), 800)
  {
    StartIsAtStart();
    RunTwo(Start(), Placing(TwoBuns("ann", "bun"), UNSAVED), Update(0, UCancelled, ALL_WORKS));
    var s1 := AnnsOutcome(Start(), UNSAVED);
    UnsavedChargeIsFailed(s1, Update(0, UCancelled, ALL_WORKS));
  }

  /** Ann orders again: the pending order is replaced without a refund. */
  lemma ReplacedUnsavedChargeIsLost()
    ensures
      var s := Run(Start(), [Placing(TwoBuns("ann", "bun"), UNSAVED), Buying("ann")]);
      |s.orders| > 0 && s.orders[0].status == Cancelled && AccountOf(s, 0).charged && !AccountOf(s, 0).refunded
  {
    StartIsAtStart();
    RunTwo(Start(), Placing(TwoBuns("ann", "bun"), UNSAVED), Buying("ann"));
    var s1 := AnnsOutcome(Start(), UNSAVED);
    ReplacingCancels(s1);
  }

  lemma ReplacingCancels(s: State)
    requires Ends(s, Pending, Unpaid, 800, false) && Sellable(s.machines, 5)
    ensures
      var s' := Place(s, TwoBuns("ann", "bun"), NO_FAULTS).0;
      |s'.orders| > 0 && s'.orders[0].status == Cancelled && AccountOf(s', 0).charged && !AccountOf(s', 0).refunded
  {
    SellableStall(s.machines, 5, "ann", "bun");
    PlaceIsLocal(s, TwoBuns("ann", "bun"), NO_FAULTS);
  }

  /** A customer who cannot pay has their failed order refunded by an admin: 200 from nothing. */
  lemma UnpaidOrderIsRefunded()
    ensures
      var s := Run(Start(), [Buying("cid"), Refunding(0, ALL_WORKS)]);
      && "cid" in s.ledger.balances && Start().ledger.balances["cid"] == 0 && s.ledger.balances["cid"] == 200
  {
    RunTwo(Start(), Buying("cid"), Refunding(0, ALL_WORKS));
    StartIsAtStart();
    CidCannotPay(Start());
    UnpaidIsCredited(Apply(Start(), Buying("cid")));
  }

  lemma CidCannotPay(s: State)
    requires AtStart(s)
    ensures
      var s' := Place(s, TwoBuns("cid", "bun"), NO_FAULTS).0;
      && s'.ledger == s.ledger && |s'.orders| == 1
      && s'.orders[0].user == "cid" && s'.orders[0].total == 200 && s'.orders[0].status == Failed
  {
    var r := TwoBuns("cid", "bun");
    FirstRecords(s, "cid", NO_FAULTS);
    PlaceIsTheSaga(s, r, NO_FAULTS);
    UnchargedPlacementMoney(Recorded(s, r, NO_FAULTS), 0, s.machines[STALL], r, NO_FAULTS);
    StoredLiveIff(Recorded(s, r, NO_FAULTS), 0, s.machines[STALL], r, NO_FAULTS);
  }

  lemma UnpaidIsCredited(s: State)
    requires |s.orders| == 1 && s.orders[0].user == "cid" && s.orders[0].total == 200 && s.orders[0].status == Failed
    requires s.ledger.txs == [] && "cid" in s.ledger.balances && s.ledger.balances["cid"] == 0
    ensures
      var l := Apply(s, Refunding(0, ALL_WORKS)).ledger;
      "cid" in l.balances && l.balances["cid"] == 200
  {
    FirstRefundCredits(s, 0);
  }

  /** The publish of an admin test order fails: what nobody paid is refunded to the admin. */
  lemma FailedTestOrderPaysAdmin()
    ensures
      var r := TwoBuns("cid", "bun").(bypass := true);
      var s := Run(Start(), [Placing(r, NO_FAULTS.(publish := true))]);
      && "cid" in s.ledger.balances && Start().ledger.balances["cid"] == 0 && s.ledger.balances["cid"] == 200
  {
    StartIsAtStart();
    RunOne(Start(), Placing(TwoBuns("cid", "bun").(bypass := true), NO_FAULTS.(publish := true)));
    TestOrderPays(Start());
  }

  lemma TestOrderPays(s: State)
    requires AtStart(s)
    ensures
      var l := Place(s, TwoBuns("cid", "bun").(bypass := true), NO_FAULTS.(publish := true)).0.ledger;
      "cid" in l.balances && l.balances["cid"] == 200
  {
    var r, f := TwoBuns("cid", "bun").(bypass := true), NO_FAULTS.(publish := true);
    BypassRecords(s, f);
    PlaceIsTheSaga(s, r, f);
    BypassPlacementMoney(Recorded(s, r, f), 0, s.machines[STALL], r, f);
  }

  lemma BypassRecords(s: State, f: Faults)
    requires AtStart(s) && f.stop == NoStop
    ensures
      var r := TwoBuns("cid", "bun").(bypass := true);
      && Records(s, r, f)
      && Recorded(s, r, f) == Recorded(s, TwoBuns("cid", "bun"), f)
      && Recorded(s, r, f).orders == [Order("cid", STALL, "bun", 2, 200, Pending, Unpaid, 10)] && Recorded(s, r, f).ledger == s.ledger
      && STALL in Recorded(s, r, f).machines && Deduct(Recorded(s, r, f).machines[STALL].batches, "bun", 2).Some?
  {
    FirstRecords(s, "cid", f);
  }

  // ─── Units ─────────────────────────────────────────────────────────────────

  const BUNS := Product(STALL, "bun")

  lemma StartHasFive()
    ensures Sells(Start().machines, BUNS) && Stocked(Start(), BUNS) == 5
  {
    UnitsOfOne(5);
    assert Held([], BUNS) == 0;
  }

  lemma UnitsOfOne(n: int)
    ensures Units([Buns(n)], "bun") == n
  {
    assert [Buns(n)][..0] == [];
  }

  lemma HeldOfOne(o: Order)
    ensures Held([o], BUNS) == Holds(o, BUNS)
  {
    assert [o][..0] == [];
  }

  /** After ann's purchase three buns are on the shelf and two are hers. */
  lemma AnnHoldsTwo(s: State)
    requires s.orders == [Order("ann", STALL, "bun", 2, 200, Dispensing, Paid, 10)]
    requires Sells(s.machines, BUNS) && s.machines[STALL].batches == [Buns(3)]
    ensures Stocked(s, BUNS) == 5 && HasBatch(s.machines, BUNS)
  {
    UnitsOfOne(3);
    HeldOfOne(s.orders[0]);
    assert Restorable(s.machines[STALL].batches[0], "bun");
  }

  /** Failing an order through the order service puts nothing back: two buns are gone that no one removed or received. */
  lemma FailedOrderLosesUnits()
    ensures
      var s1 := Run(Start(), [Buying("ann")]);
      var s := Run(Start(), [Buying("ann"), Failing(0, ALL_WORKS)]);
      && Sells(s.machines, BUNS) && DeliveredBy(s1, Failing(0, ALL_WORKS), BUNS) == 0 && Stocked(s, BUNS) == Stocked(Start(), BUNS) - 2
  {
    RunTwo(Start(), Buying("ann"), Failing(0, ALL_WORKS));
    RunOne(Start(), Buying("ann"));
    StartHasFive();
    var s1 := AnnBuys("bun");
    ReturnsIff(s1, 0, NoCreditFault);
    OtherSettlingLoses(s1);
  }

  lemma OtherSettlingLoses(s: State)
    requires s.orders == [Order("ann", STALL, "bun", 2, 200, Dispensing, Paid, 10)] && RefundReturns(s, 0, NoCreditFault)
    requires Sells(s.machines, BUNS) && s.machines[STALL].batches == [Buns(3)]
    ensures var s' := Apply(s, Failing(0, ALL_WORKS)); Sells(s'.machines, BUNS) && Stocked(s', BUNS) == 3
  {
    SettlingShelf(s, Failing(0, ALL_WORKS), 0, BUNS);
    UnitsOfOne(3);
    var s' := Apply(s, Failing(0, ALL_WORKS));
    assert s'.orders == [Order("ann", STALL, "bun", 2, 200, Failed, Paid, 10)];
    HeldOfOne(s'.orders[0]);
  }

  /** What a machine reports after dispensing `n` buns. */
  function ReportOf(n: nat): string { Join(PrintAll([FoodCommand(1, "bun", n)]), ',') }

  lemma ReportIsRead(n: nat)
    ensures HasReport(Some(ReportOf(n))) && Total(ParseAck(ReportOf(n))) == n
  {
    var c := FoodCommand(1, "bun", n);
    assert Plain(c);
    AckRoundTrip([c]);
    PrintedHasNoComma(c);
    assert PrintAll([c]) == [PrintCommand(c)] && Ordered([c]) == n;
  }

  lemma ShortAckLoses(s: State)
    requires s.orders == [Order("ann", STALL, "bun", 2, 200, Dispensing, Paid, 10)]
    requires Sells(s.machines, BUNS) && s.machines[STALL].batches == [Buns(3)]
    ensures
      var e := Ack(0, AckCompleted, Some(ReportOf(1)), ALL_WORKS);
      var s' := Apply(s, e);
      Sells(s'.machines, BUNS) && DeliveredBy(s, e, BUNS) == 1 && Stocked(s', BUNS) == 3
  {
    AnnHoldsTwo(s);
    ReportIsRead(1);
    ShortReportLosesUnits(s, 0, Some(ReportOf(1)), BUNS);
  }

  /** A completed report of one bun, as old firmware sends for a half-completed order: the other one is lost. */
  lemma ShortReportLosesABun()
    ensures
      var e := Ack(0, AckCompleted, Some(ReportOf(1)), ALL_WORKS);
      var s1 := Run(Start(), [Buying("ann")]);
      var s := Run(Start(), [Buying("ann"), e]);
      && Sells(s.machines, BUNS) && DeliveredBy(s1, e, BUNS) == 1 && Stocked(s, BUNS) + 1 == Stocked(Start(), BUNS) - 1
  {
    var e := Ack(0, AckCompleted, Some(ReportOf(1)), ALL_WORKS);
    RunTwo(Start(), Buying("ann"), e);
    RunOne(Start(), Buying("ann"));
    var s1 := AnnBuys("bun");
    StartHasFive();
    ShortAckLoses(s1);
  }

  /** The item's last batch is removed before a timeout: the timed-out order's units have nowhere to go. */
  lemma TimeoutAfterRemovalLosesUnits()
    ensures
      var s1 := Run(Start(), [Buying("ann"), Stocking(STALL, Removing(0))]);
      var s := Run(Start(), [Buying("ann"), Stocking(STALL, Removing(0)), Ticking(100, [])]);
      && Sells(s1.machines, BUNS) && Stocked(s1, BUNS) == 2
      && Sells(s.machines, BUNS) && Stocked(s, BUNS) == 0 && |s.orders| == 1 && s.orders[0].status == Failed
  {
    RunTwo(Start(), Buying("ann"), Stocking(STALL, Removing(0)));
    RunThree(Start(), Buying("ann"), Stocking(STALL, Removing(0)), Ticking(100, []));
    var s1 := AnnBuys("bun");
    EmptyStallTimesOut(s1);
  }

  lemma EmptyStallTimesOut(s1: State)
    requires s1.orders == [Order("ann", STALL, "bun", 2, 200, Dispensing, Paid, 10)] && "ann" in s1.ledger.balances
    requires Sells(s1.machines, BUNS) && s1.machines[STALL].batches == [Buns(3)]
    ensures
      var s2 := Apply(s1, Stocking(STALL, Removing(0)));
      var s3 := Apply(s2, Ticking(100, []));
      && Sells(s2.machines, BUNS) && Stocked(s2, BUNS) == 2
      && Sells(s3.machines, BUNS) && Stocked(s3, BUNS) == 0 && |s3.orders| == 1 && s3.orders[0].status == Failed
  {
    var s2 := Apply(s1, Stocking(STALL, Removing(0)));
    assert Remove([Buns(3)], 0) == [];
    HeldOfOne(s1.orders[0]);
    ReturnsIff(s2, 0, NoCreditFault);
    NothingToReturnTo(s2);
  }

  lemma NothingToReturnTo(s: State)
    requires s.orders == [Order("ann", STALL, "bun", 2, 200, Dispensing, Paid, 10)] && RefundReturns(s, 0, NoCreditFault)
    requires Sells(s.machines, BUNS) && s.machines[STALL].batches == []
    ensures
      var s' := Apply(s, Ticking(100, []));
      Sells(s'.machines, BUNS) && Stocked(s', BUNS) == 0 && |s'.orders| == 1 && s'.orders[0].status == Failed
  {
    LoneTick(s, 100);
    TimeOutShelf(s, 0, ALL_WORKS, BUNS);
    HeldOfOne(TimeOut(s, 0, ALL_WORKS).orders[0]);
  }

  // ─── Names and nozzles ─────────────────────────────────────────────────────

  lemma CakeIsNoNumber()
    ensures Split("cake" + ['-'], '-')[0] == "cake" && ParseInt("cake") == None
  {
    SplitAtFirst("cake", '-', "");
    assert "cake" + ['-'] + "" == "cake" + ['-'];
  }

  /** The machine echoes the command of an item with a dash in its name: the two buns it reports are read as none. */
  lemma DashedNameIsReadAsNothing()
    ensures
      var r := TwoBuns("ann", "tea-cake");
      var s := Run(Start(), [Placing(r, NO_FAULTS)]);
      var command := Place(Start(), r, NO_FAULTS).1.command;
      && command == Some(FoodCommand(1, "tea-cake", 2)) && |s.orders| == 1 && s.orders[0].quantity == 2
      && DispensedBy(s, Ack(0, AckCompleted, Some(PrintCommand(command.value)), ALL_WORKS), 0) == 0
  {
    var r, c := TwoBuns("ann", "tea-cake"), FoodCommand(1, "tea-cake", 2);
    RunOne(Start(), Placing(r, NO_FAULTS));
    var s := AnnBuys("tea-cake");
    EchoIsNothing(c);
  }

  lemma EchoIsNothing(c: Command)
    requires c == FoodCommand(1, "tea-cake", 2)
    ensures Total(ParseAck(PrintCommand(c))) == 0
  {
    assert c.name == "tea" + ['-'] + "cake";
    DashedNameRecoveredIff(c, "tea", "cake");
    CakeIsNoNumber();
    LonePart(PrintCommand(c), c);
  }

  lemma LonePart(text: string, c: Command)
    requires text == PrintCommand(c) && ',' !in c.name
    ensures ParseAck(text) == [ParsePart(text)] && Total(ParseAck(text)) == ParsePart(text).quantity
  {
    PrintedHasNoComma(c);
    SplitJoined([text], ',');
    assert Join([text], ',') == text && NonEmpty([text]) == [text];
    assert ParseParts([text]) == [ParsePart(text)];
    assert [ParsePart(text)][..0] == [];
  }

  // ─── Cups ──────────────────────────────────────────────────────────────────

  const BAR := "C1"

  const MOCHA := Cups.Entry("mocha", 36, 2, 5, 1, 18)

  /** A coffee machine with two cups of mocha. */
  function Bar(): Fleet {
    map[BAR := Machine("agent", false, [], [MOCHA], [], true, false, "present", false, 0, 0)]
  }

  function TwoMochas(): Request {
    Request("ann", false, BAR, "mocha", Some(Item(true, false, "mocha", 0, [("small", 150)])), Some("small"), 2, None, [], 10)
  }

  /** One cup, twice, on the same nozzle. */
  function TwoParts(): string {
    Join(PrintAll([CoffeeCommand(1, "mocha", 1, 5000, 3000), CoffeeCommand(1, "mocha", 1, 5000, 3000)]), ',')
  }

  lemma TwoPartsAreRead()
    ensures ParseAck(TwoParts()) == [Cups.Part(Some(1), 1), Cups.Part(Some(1), 1)]
  {
    var c := CoffeeCommand(1, "mocha", 1, 5000, 3000);
    assert Plain(c);
    AckRoundTrip([c, c]);
    assert [c, c][1..] == [c] && [c][1..] == [];
    assert Expected([c]) == [Cups.Part(Some(1), 1)];
  }

  /** Both cups' grams are gone, and the count still says one cup. */
  lemma TwoPartsMiscount()
    ensures
      var parts := [Cups.Part(Some(1), 1), Cups.Part(Some(1), 1)];
      && |Cups.ConsumeAll([MOCHA], parts)| == 1 && Cups.Agrees(MOCHA)
      && !Cups.Agrees(Cups.ConsumeAll([MOCHA], parts)[0])
  {
    var p := Cups.Part(Some(1), 1);
    var two := [p, p];
    assert two[..1] == [p] && [p][..0] == [] && two[1] == p;
    assert Cups.Dispensed([p], 1) == Cups.Dispensed([], 1) + 1 == 1;
    assert Cups.Dispensed(two, 1) == Cups.Dispensed(two[..1], 1) + 1 == 2;
    assert Cups.LastNamed(two, 1) == Some(1);
    assert Cups.FindNozzle([MOCHA], 1) == 0;
    Cups.AckAgreesIff([MOCHA], two, 0);
  }

  /** A saga on a coffee machine with nothing failing and no calibration entry. */
  lemma CleanCoffeeSaga(s: State, id: nat, snap: Machine, r: Request)
    requires id < |s.orders| && !r.bypass && !snap.isFood && snap.calibration == [] && r.machine in s.machines
    requires s.orders[id].user in s.ledger.balances && s.ledger.balances[s.orders[id].user] >= s.orders[id].total
    ensures
      var g, o := RunSaga(s, id, snap, r, NO_FAULTS), s.orders[id];
      && g.s.orders == s.orders[id := o.(payment := Paid, status := Dispensing)]
      && g.s.machines == CountOrder(SetBusy(s.machines, r.machine, true), r.machine, o.total)
  {
  }

  lemma BarSells()
    ensures
      var s := Apply(Fresh(map["ann" := 1000], Bar()), Placing(TwoMochas(), NO_FAULTS));
      && s.orders == [Order("ann", BAR, "mocha", 2, 300, Dispensing, Paid, 10)]
      && BAR in s.machines && !s.machines[BAR].isFood && s.machines[BAR].inventory == [MOCHA]
  {
    var s, r := Fresh(map["ann" := 1000], Bar()), TwoMochas();
    assert Cups.FindItem([MOCHA], "mocha") == 0;
    assert BasePrice(r) == Ok(300) && Precheck(s.machines, r) == Ok(300);
    OccupiedIff(s.orders, r);
    assert QuoteFor(s.machines, r, 300).total == 300;
    assert CancelPending([], "ann", BAR) == [];
    RecordedSpec(s, r, NO_FAULTS);
    PlaceIsTheSaga(s, r, NO_FAULTS);
    CleanCoffeeSaga(Recorded(s, r, NO_FAULTS), 0, s.machines[BAR], r);
  }

  /** An acknowledgement in two parts on one nozzle: the machine has no grams left and one cup on the count. */
  lemma TwoPartAckMiscountsCups()
    ensures
      var s := Run(Fresh(map["ann" := 1000], Bar()), [Placing(TwoMochas(), NO_FAULTS), Ack(0, AckCompleted, Some(TwoParts()), ALL_WORKS)]);
      BAR in s.machines && |s.machines[BAR].inventory| == 1 && !Cups.Agrees(s.machines[BAR].inventory[0])
  {
    var start := Fresh(map["ann" := 1000], Bar());
    RunTwo(start, Placing(TwoMochas(), NO_FAULTS), Ack(0, AckCompleted, Some(TwoParts()), ALL_WORKS));
    BarSells();
    MiscountOnBar(Apply(start, Placing(TwoMochas(), NO_FAULTS)));
  }

  /** All a completed acknowledgement does to the machines is the consumption it reports. */
  lemma CompletedAckConsumes(s: State, id: nat, ord: Option<string>)
    requires id < |s.orders|
    ensures HandleAck(s, id, AckCompleted, ord, ALL_WORKS).machines
         == ConsumeOn(s.machines, s.orders[id].machine, Reported(s, id, AckCompleted, ord))
  {
  }

  lemma BarConsumes(ms: Fleet, parts: seq<Cups.Part>)
    requires BAR in ms && !ms[BAR].isFood
    ensures BAR in ConsumeOn(ms, BAR, parts)
    ensures ConsumeOn(ms, BAR, parts)[BAR].inventory == Cups.ConsumeAll(ms[BAR].inventory, parts)
  {
  }

  lemma MiscountOnBar(s: State)
    requires s.orders == [Order("ann", BAR, "mocha", 2, 300, Dispensing, Paid, 10)]
    requires BAR in s.machines && !s.machines[BAR].isFood && s.machines[BAR].inventory == [MOCHA]
    ensures
      var s' := HandleAck(s, 0, AckCompleted, Some(TwoParts()), ALL_WORKS);
      BAR in s'.machines && |s'.machines[BAR].inventory| == 1 && !Cups.Agrees(s'.machines[BAR].inventory[0])
  {
    var parts := Reported(s, 0, AckCompleted, Some(TwoParts()));
    TwoPartsAreRead();
    TwoPartsMiscount();
    BarConsumes(s.machines, parts);
    CompletedAckConsumes(s, 0, Some(TwoParts()));
  }

  // ─── Grams below nothing ───────────────────────────────────────────────────

  /** A report of three cups from a machine that had two. */
  function ThreeCups(): string { Join(PrintAll([CoffeeCommand(1, "mocha", 3, 5000, 3000)]), ',') }

  /** What that report leaves: eighteen grams less than nothing. */
  const IN_DEBT := Cups.Entry("mocha", -18, 0, 5, 1, 18)

  lemma ThreeCupsAreRead()
    ensures ParseAck(ThreeCups()) == [Cups.Part(Some(1), 3)]
  {
    var c := CoffeeCommand(1, "mocha", 3, 5000, 3000);
    assert Plain(c);
    AckRoundTrip([c]);
    assert Expected([c]) == [Cups.Part(Some(1), 3)];
  }

  lemma ThreeCupsConsumed()
    ensures Cups.ConsumeAll([MOCHA], [Cups.Part(Some(1), 3)]) == [IN_DEBT]
  {
    var parts := [Cups.Part(Some(1), 3)];
    assert parts[..0] == [] && Cups.LastNamed(parts, 1) == Some(3);
    assert Cups.Dispensed(parts, 1) == Cups.Dispensed([], 1) + 3 == 3;
    assert Cups.FindNozzle([MOCHA], 1) == 0;
    Cups.ConsumeAllSpec([MOCHA], parts, 0);
  }

  lemma DebtOnBar(s: State)
    requires s.orders == [Order("ann", BAR, "mocha", 2, 300, Dispensing, Paid, 10)]
    requires BAR in s.machines && !s.machines[BAR].isFood && s.machines[BAR].inventory == [MOCHA]
    ensures
      var ms := HandleAck(s, 0, AckCompleted, Some(ThreeCups()), ALL_WORKS).machines;
      BAR in ms && ms[BAR].inventory == [IN_DEBT]
  {
    ThreeCupsAreRead();
    ThreeCupsConsumed();
    BarConsumes(s.machines, Reported(s, 0, AckCompleted, Some(ThreeCups())));
    CompletedAckConsumes(s, 0, Some(ThreeCups()));
  }

  /**
   * The stock goes below nothing. An agent who then loads a cup sees no more cups than before, and taking
   * it out again does not bring the old stock back.
   */
  lemma OverreportSwallowsCups()
    ensures
      var s := Run(Fresh(map["ann" := 1000], Bar()), [Placing(TwoMochas(), NO_FAULTS), Ack(0, AckCompleted, Some(ThreeCups()), ALL_WORKS)]);
      && BAR in s.machines && s.machines[BAR].inventory == [IN_DEBT]
      && (var loaded := Cups.MoveCups([IN_DEBT], "mocha", true, 1);
          && loaded.Some? && |loaded.value| == 1 && loaded.value[0].cups == IN_DEBT.cups
          && (var back := Cups.MoveCups(loaded.value, "mocha", false, 1);
              back.Some? && |back.value| == 1 && back.value[0].stock != IN_DEBT.stock))
  {
    var start := Fresh(map["ann" := 1000], Bar());
    RunTwo(start, Placing(TwoMochas(), NO_FAULTS), Ack(0, AckCompleted, Some(ThreeCups()), ALL_WORKS));
    BarSells();
    DebtOnBar(Apply(start, Placing(TwoMochas(), NO_FAULTS)));
    LoadedInDebt();
  }

  lemma LoadedInDebt()
    ensures
      var loaded := Cups.MoveCups([IN_DEBT], "mocha", true, 1);
      && loaded.Some? && |loaded.value| == 1 && loaded.value[0].cups == 0
      && (var back := Cups.MoveCups(loaded.value, "mocha", false, 1);
          back.Some? && |back.value| == 1 && back.value[0].stock == 0)
  {
    assert Cups.FindItem([IN_DEBT], "mocha") == 0;
    Cups.MoveSpec([IN_DEBT], "mocha", true, 1);
    Cups.TwoMoves([IN_DEBT], "mocha", 1);
  }

  // ─── Half a restore ────────────────────────────────────────────────────────

  /** The last two buns, sold to ann. */
  function Emptied(): Batch { TakeFrom(Buns(2), 2) }

  /** The restore of ann's timed-out order stops between its two updates. */
  const HALF := ALL_WORKS.(restore := AfterPutBack)

  /** A stall with two buns, and ann with the money for them. */
  function TwoLeft(): State { Fresh(map["ann" := 1000], map[STALL := Stall([Buns(2)])]) }

  ghost predicate TwoOnShelf(s: State) {
    && s.orders == [] && Open(s) && s.machines[STALL].batches == [Buns(2)]
    && "ann" in s.ledger.balances && s.ledger.balances["ann"] >= 200
  }

  lemma TwoAreLeft()
    ensures TwoOnShelf(TwoLeft())
  {
  }

  lemma LastTwoSold(s: State)
    requires TwoOnShelf(s)
    ensures
      var s' := Place(s, TwoBuns("ann", "bun"), NO_FAULTS).0;
      && s'.orders == [Order("ann", STALL, "bun", 2, 200, Dispensing, Paid, 10)] && "ann" in s'.ledger.balances
      && STALL in s'.machines && s'.machines[STALL].isFood && s'.machines[STALL].batches == [Emptied()]
  {
    OpenStallSells(s, "ann", "bun");
    assert CancelPending([], "ann", STALL) == [];
  }

  lemma SoldAndHalfRestored(s: State) returns (s': State)
    requires TwoOnShelf(s)
    ensures s' == Run(s, [Placing(TwoBuns("ann", "bun"), NO_FAULTS), Ticking(100, [HALF])])
    ensures STALL in s'.machines && Units(s'.machines[STALL].batches, "bun") == 2 && Priced(s'.machines[STALL].batches, "bun", 2).None?
  {
    var a, b := Placing(TwoBuns("ann", "bun"), NO_FAULTS), Ticking(100, [HALF]);
    RunTwo(s, a, b);
    LastTwoSold(s);
    s' := HalfRestored(Apply(s, a));
  }

  /** Her two buns are on the shelf again, on a batch that serves no order. */
  lemma HalfRestoreHidesBuns()
    ensures
      var s := Run(TwoLeft(), [Placing(TwoBuns("ann", "bun"), NO_FAULTS), Ticking(100, [HALF])]);
      && STALL in s.machines && Units(s.machines[STALL].batches, "bun") == 2
      && Priced(s.machines[STALL].batches, "bun", 2).None?
  {
    TwoAreLeft();
    var s := SoldAndHalfRestored(TwoLeft());
  }

  lemma HalfRestored(s: State) returns (s': State)
    requires s.orders == [Order("ann", STALL, "bun", 2, 200, Dispensing, Paid, 10)] && "ann" in s.ledger.balances
    requires STALL in s.machines && s.machines[STALL].isFood && s.machines[STALL].batches == [Emptied()]
    ensures s' == Apply(s, Ticking(100, [HALF]))
    ensures STALL in s'.machines && Units(s'.machines[STALL].batches, "bun") == 2 && Priced(s'.machines[STALL].batches, "bun", 2).None?
  {
    ReturnsIff(s, 0, NoCreditFault);
    assert StuckIds(s.orders, 100, 1) == [0];
    assert Swept(s.orders, 100) == [0];
    TimeOutMachines(s, 0, HALF);
    EmptiedGetsBuns();
    assert [0][1..] == [];
    s' := TimeOut(s, 0, HALF);
  }

  lemma EmptiedGetsBuns()
    ensures
      var bs := RestoreUpTo([Emptied()], "bun", 2, AfterPutBack);
      Units(bs, "bun") == 2 && Priced(bs, "bun", 2).None?
  {
    var bs := [Emptied()];
    assert IsRestorable("bun")(bs[0]) && FirstIndex(bs, IsRestorable("bun")) == 0;
    var after := PutBack(bs, "bun", 2);
    assert after == [AddUnits(2)(bs[0])] && after[..0] == [];
  }

  // ─── Two items in one legacy request ───────────────────────────────────────

  const ONE_BUN := LegacyOrders.Entry("bun", Some(Item(true, true, "bun", 100, [])), None, None, None, 1)

  const TWICE := LegacyOrders.LegacyRequest("ann", "ann", STALL, "bun", [ONE_BUN, ONE_BUN], 10)

  const TURN_WORKS := LegacyOrders.LegacyFaults(NoDebitFault, false, false, false, false, NoCreditFault)

  const CALL_WORKS := LegacyOrders.CallFaults(false, false, false, false)

  lemma BunTurn(d: LegacyOrders.Desk, m: Machine)
    requires m.isFood && "ann" in d.s.ledger.balances && d.s.ledger.balances["ann"] >= 100
    ensures LegacyOrders.Affords(d, TWICE, m, ONE_BUN)
    ensures
      var (d', t) := LegacyOrders.TakeTurn(d, TWICE, m, ONE_BUN, TURN_WORKS);
      && t.Listed? && "ann" in d'.s.ledger.balances && d'.s.ledger.balances["ann"] == d.s.ledger.balances["ann"] - 100
  {
  }

  /** Both of them are stored and live: the machine has two orders to work on. */
  lemma TwoItemsMakeTwoLive(d: LegacyOrders.Desk)
    requires AtStart(d.s)
    ensures
      var (d', reply) := LegacyOrders.LegacyPlace(d, TWICE, CALL_WORKS, [TURN_WORKS, TURN_WORKS]);
      reply.Answered? && !OneLivePerMachine(d'.s.orders)
  {
    var m, fs := d.s.machines[STALL], [TURN_WORKS, TURN_WORKS];
    assert CancelPending([], "ann", STALL) == [];
    var start := LegacyOrders.LegacyStart(d, TWICE, CALL_WORKS);
    BunTurn(start, m);
    var p := LegacyOrders.Process(start, TWICE, m, fs, 1);
    assert p == LegacyOrders.Next(LegacyOrders.Process(start, TWICE, m, fs, 0), TWICE, m, ONE_BUN, TURN_WORKS);
    BunTurn(p.desk, m);
    assert LegacyOrders.Process(start, TWICE, m, fs, 2) == LegacyOrders.Next(p, TWICE, m, ONE_BUN, TURN_WORKS);
    assert LiveStored(start, TWICE, m, fs, 2) == LiveStored(start, TWICE, m, fs, 1) + 1;
    assert LiveStored(start, TWICE, m, fs, 1) == LiveStored(start, TWICE, m, fs, 0) + 1;
    LegacyKeepsOneLiveIff(d, TWICE, CALL_WORKS, fs);
  }
}
