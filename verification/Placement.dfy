/** Placement is all-or-nothing: what a failed placement leaves behind, for every combination of faults. */
module Placement {
  import opened Common
  import opened Wallet
  import opened Batches
  import opened Machines
  import opened Orders
  import opened WireFormat
  import Timers

  // ─── What each stage did ───────────────────────────────────────────────────

  function AfterCharge(s: State, id: nat, r: Request, f: Faults): Saga
    requires id < |s.orders|
  {
    Charge(s, id, r.bypass, f)
  }

  function AfterSupply(s: State, id: nat, snap: Machine, r: Request, f: Faults): Saga
    requires id < |s.orders|
  {
    Allocate(AfterCharge(s, id, r, f), snap, r, f)
  }

  function AfterBooking(s: State, id: nat, snap: Machine, r: Request, f: Faults): Saga
    requires id < |s.orders|
  {
    Bookkeep(Publish(AfterSupply(s, id, snap, r, f), f), r.machine, f)
  }

  /** The wallet was debited and the debit recorded. */
  predicate Charges(s: State, id: nat, r: Request, f: Faults)
    requires id < |s.orders|
  {
    var o := s.orders[id];
    !r.bypass && f.deduct == NoDebitFault && o.user in s.ledger.balances && s.ledger.balances[o.user] >= o.total
  }

  /** The wallet was debited, its record failed, and so did putting the money back. */
  predicate ChargesUnrecorded(s: State, id: nat, r: Request, f: Faults)
    requires id < |s.orders|
  {
    var o := s.orders[id];
    !r.bypass && f.deduct == DebitInsertAndRestoreFail && o.user in s.ledger.balances && s.ledger.balances[o.user] >= o.total
  }

  /** Nothing to publish: the allocation fails, no batch serves the order, or its calibration entry does not lead. */
  predicate SupplyFails(s: State, snap: Machine, r: Request, f: Faults) {
    if snap.isFood
    then f.allocate || r.machine !in s.machines || Deduct(s.machines[r.machine].batches, r.itemId, r.quantity).None?
    else Timers.PublishTimers(CalibrationFor(snap, r)).None?
  }

  /** The saga reaches the publish: it charged or need not charge, saved the charge, and was supplied. */
  predicate Supplied(s: State, id: nat, snap: Machine, r: Request, f: Faults)
    requires id < |s.orders|
  {
    (r.bypass || Charges(s, id, r, f)) && !f.saveAfterCharge && !SupplyFails(s, snap, r, f)
  }

  predicate Throws(s: State, id: nat, snap: Machine, r: Request, f: Faults)
    requires id < |s.orders|
  {
    !Supplied(s, id, snap, r, f) || f.publish || f.busy || f.stats
  }

  /** Units left the shelf. */
  predicate Takes(s: State, id: nat, snap: Machine, r: Request, f: Faults)
    requires id < |s.orders|
  {
    snap.isFood && Supplied(s, id, snap, r, f)
  }

  /** The rollback, if it runs, puts units back that were taken. An admin test order's are never put back. */
  predicate PutsBack(r: Request, f: Faults) { !r.bypass && !f.handlerSave && f.restore != BeforeRestore }

  /** Publishing failed and the inner handler moved money back. */
  predicate InnerPays(s: State, id: nat, snap: Machine, r: Request, f: Faults)
    requires id < |s.orders|
  {
    Supplied(s, id, snap, r, f) && f.publish && !f.innerSave && f.innerRefund != BeforeCredit
  }

  /** The outer handler moved money back: it reached its refund and found none recorded. */
  predicate OuterPays(s: State, id: nat, snap: Machine, r: Request, f: Faults)
    requires id < |s.orders|
  {
    && Throws(s, id, snap, r, f)
    && !f.handlerSave && Charges(s, id, r, f) && f.handlerRefund != BeforeCredit
    && !(InnerPays(s, id, snap, r, f) && f.innerRefund == NoCreditFault)
  }

  /** A refund is on record once the saga has thrown. */
  predicate RecordsRefund(s: State, id: nat, snap: Machine, r: Request, f: Faults)
    requires id < |s.orders|
  {
    || (InnerPays(s, id, snap, r, f) && f.innerRefund == NoCreditFault)
    || (!f.handlerSave && f.handlerRefund == NoCreditFault)
  }

  /** One of the two handlers stored the order as failed. */
  predicate StoresFailure(s: State, id: nat, snap: Machine, r: Request, f: Faults)
    requires id < |s.orders|
  {
    !f.handlerSave || (Supplied(s, id, snap, r, f) && f.publish && !f.innerSave)
  }

  function Once(b: bool): nat { if b then 1 else 0 }

  function AmountIf(amount: nat, b: bool): nat { if b then amount else 0 }

  // ─── Stage by stage ────────────────────────────────────────────────────────

  lemma ChargeSpec(s: State, id: nat, r: Request, f: Faults)
    requires id < |s.orders| && !r.bypass
    ensures
      var g, o := AfterCharge(s, id, r, f), s.orders[id];
      && g.s.machines == s.machines && g.id == id && !g.batchDeducted
      && (g.mem == o.(payment := Paid, status := Dispensing) || g.mem == o)
      && (Charges(s, id, r, f) ==>
            && g.s.ledger == Post(s.ledger, o.user, Debit, OrderPayment, o.total, OrderRef(id))
            && g.mem == o.(payment := Paid, status := Dispensing)
            && (g.error.None? <==> !f.saveAfterCharge)
            && g.s.orders == if f.saveAfterCharge then s.orders else s.orders[id := g.mem])
      && (!Charges(s, id, r, f) ==>
            && g.error.Some? && g.mem == o && g.s.orders == s.orders
            && g.s.ledger == if ChargesUnrecorded(s, id, r, f) then Shift(s.ledger, o.user, 0 - o.total) else s.ledger)
  {
  }

  /** What charging does to order and fleet, for customers and for admin test orders. */
  lemma ChargeEffects(s: State, id: nat, r: Request, f: Faults)
    requires id < |s.orders|
    ensures
      var g, o := AfterCharge(s, id, r, f), s.orders[id];
      var charged := r.bypass || Charges(s, id, r, f);
      && g.s.machines == s.machines && g.id == id && !g.batchDeducted
      && (g.error.None? <==> charged && !f.saveAfterCharge)
      && g.mem == (if charged then o.(payment := if r.bypass then Bypass else Paid, status := Dispensing) else o)
      && g.s.orders == if g.error.None? then s.orders[id := g.mem] else s.orders
  {
  }

  lemma SupplySpec(g: Saga, snap: Machine, r: Request, f: Faults)
    ensures
      var g' := Allocate(g, snap, r, f);
      && g'.s.ledger == g.s.ledger && g'.s.orders == g.s.orders && g'.mem == g.mem && g'.id == g.id
      && (g.error.Some? ==> g' == g)
      && (g'.batchDeducted && !g.batchDeducted ==>
            && snap.isFood && r.machine in g.s.machines && g'.error.None?
            && Deduct(g.s.machines[r.machine].batches, r.itemId, r.quantity).Some?
            && g'.s.machines == SetBatches(g.s.machines, r.machine, Deduct(g.s.machines[r.machine].batches, r.itemId, r.quantity).value.0))
      && (g'.batchDeducted == g.batchDeducted ==> g.error.Some? || g.batchDeducted || g'.s.machines == g.s.machines)
      && (g.error.None? && snap.isFood && !g.batchDeducted ==> (g'.error.None? <==> g'.batchDeducted))
  {
  }

  /** A rerun of a refund adds nothing once one is recorded; otherwise it moves the total, and records it unless the insert fails. */
  lemma SagaRefundSpec(g: Saga, fault: CreditFault)
    requires g.mem.user in g.s.ledger.balances
    ensures
      var (l, r) := SagaRefund(g, fault);
      var guarded := FindRefund(g.s.ledger.txs, g.mem.user, OrderRef(g.id)).Some?;
      && (fault == BeforeCredit || guarded ==> l == g.s.ledger)
      && (fault == NoCreditFault && !guarded ==>
            && l == Post(g.s.ledger, g.mem.user, Credit, Refund, g.mem.total, OrderRef(g.id))
            && FindRefund(l.txs, g.mem.user, OrderRef(g.id)).Some?)
      && (fault == CreditInsertFails && !guarded ==> l == Shift(g.s.ledger, g.mem.user, g.mem.total))
  {
    FindRefundIffCounted(g.s.ledger.txs, g.mem.user, OrderRef(g.id));
    if fault == NoCreditFault && FindRefund(g.s.ledger.txs, g.mem.user, OrderRef(g.id)).None? {
      var t := Entry(g.s.ledger, g.mem.user, Credit, Refund, g.mem.total, OrderRef(g.id));
      RefundsAppend(g.s.ledger.txs, t, g.mem.user, OrderRef(g.id));
      FindRefundIffCounted(g.s.ledger.txs + [t], g.mem.user, OrderRef(g.id));
    }
  }

  /** Publishing and booking: a thrown saga passes through; only a failed publish touches ledger or order. */
  lemma BookingSpec(g: Saga, m: MachineId, f: Faults)
    requires g.Ok()
    ensures
      var b := Bookkeep(Publish(g, f), m, f);
      && (g.error.Some? ==> b == g)
      && b.id == g.id && b.Ok() && |b.s.orders| == |g.s.orders| && b.batchDeducted == g.batchDeducted && b.command == g.command
      && b.mem == g.mem.(status := b.mem.status)
      && (g.error.None? && f.publish ==>
            && b.error.Some?
            && b.s.machines == g.s.machines
            && b.s.orders == (if f.innerSave then g.s.orders else g.s.orders[g.id := g.mem.(status := Failed)])
            && b.s.ledger == (if f.innerSave then g.s.ledger else SagaRefund(g, f.innerRefund).0))
      && (g.error.None? && !f.publish ==>
            b.s.orders == g.s.orders && b.s.ledger == g.s.ledger && b.mem == g.mem && (b.error.Some? <==> f.busy || f.stats))
  {
  }

  lemma RollbackSpec(g: Saga, isFood: bool, r: Request, f: Faults)
    requires g.Ok()
    ensures
      var e := Rollback(g, isFood, r, f);
      && e.id == g.id && (e.error.Some? <==> g.error.Some?) && e.command == g.command
      && (g.error.None? ==> e == g)
      && (g.error.Some? && f.handlerSave ==> e.s == g.s)
      && (g.error.Some? && !f.handlerSave ==>
            && e.s.orders == g.s.orders[g.id := g.mem.(status := Failed)]
            && e.s.ledger == (if g.mem.payment.Paid? then SagaRefund(g, f.handlerRefund).0 else g.s.ledger)
            && e.s.machines == (if g.mem.payment.Paid? && isFood && g.batchDeducted
                                then RestoreOn(g.s.machines, r.machine, r.itemId, r.quantity, f.restore) else g.s.machines))
  {
  }

  /** The saga from its parts. */
  lemma SagaStages(s: State, id: nat, snap: Machine, r: Request, f: Faults)
    requires id < |s.orders|
    ensures AfterSupply(s, id, snap, r, f).Ok() && AfterBooking(s, id, snap, r, f).Ok()
    ensures RunSaga(s, id, snap, r, f) == Rollback(AfterBooking(s, id, snap, r, f), snap.isFood, r, f)
  {
  }

  /** Where the saga stands is decided by the state, the request and the faults. */
  lemma SagaIsDecided(s: State, id: nat, snap: Machine, r: Request, f: Faults)
    requires id < |s.orders|
    ensures AfterSupply(s, id, snap, r, f).error.None? <==> Supplied(s, id, snap, r, f)
    ensures AfterSupply(s, id, snap, r, f).batchDeducted <==> Takes(s, id, snap, r, f)
    ensures AfterBooking(s, id, snap, r, f).error.Some? <==> Throws(s, id, snap, r, f)
    ensures RunSaga(s, id, snap, r, f).error.Some? <==> Throws(s, id, snap, r, f)
  {
    ChargeEffects(s, id, r, f);
    SupplyDecided(AfterCharge(s, id, r, f), s, snap, r, f);
    SagaStages(s, id, snap, r, f);
    BookingSpec(AfterSupply(s, id, snap, r, f), r.machine, f);
    RollbackSpec(AfterBooking(s, id, snap, r, f), snap.isFood, r, f);
  }

  lemma SupplyDecided(g: Saga, s: State, snap: Machine, r: Request, f: Faults)
    requires g.s.machines == s.machines && !g.batchDeducted
    ensures Allocate(g, snap, r, f).error.None? <==> g.error.None? && !SupplyFails(s, snap, r, f)
    ensures Allocate(g, snap, r, f).batchDeducted <==> g.error.None? && snap.isFood && !SupplyFails(s, snap, r, f)
  {
  }

  lemma NoRefundYet(l: Ledger, u: UserId, amount: nat, ref: Ref)
    requires u in l.balances && FindRefund(l.txs, u, ref).None?
    ensures FindRefund(Post(l, u, Debit, OrderPayment, amount, ref).txs, u, ref).None?
  {
  }

  // ─── The money a placement moves ───────────────────────────────────────────

  /** One attempt to refund: the balance it leaves, and whether a refund is recorded afterwards. */
  lemma AttemptRefund(g: Saga, fault: CreditFault)
    requires g.mem.user in g.s.ledger.balances
    ensures
      var l := SagaRefund(g, fault).0;
      var guarded := FindRefund(g.s.ledger.txs, g.mem.user, OrderRef(g.id)).Some?;
      && g.mem.user in l.balances
      && l.balances[g.mem.user] == g.s.ledger.balances[g.mem.user] + AmountIf(g.mem.total, !guarded && fault != BeforeCredit)
      && (FindRefund(l.txs, g.mem.user, OrderRef(g.id)).Some? <==> guarded || fault == NoCreditFault)
  {
    SagaRefundSpec(g, fault);
  }

  /** The balance after the publish stage, and whether a refund is recorded by then. */
  lemma MoneyAfterPublish(s: State, id: nat, snap: Machine, r: Request, f: Faults)
    requires id < |s.orders| && FindRefund(s.ledger.txs, s.orders[id].user, OrderRef(id)).None?
    requires Charges(s, id, r, f)
    ensures
      var o := s.orders[id];
      var g := AfterBooking(s, id, snap, r, f);
      && g.id == id && g.mem.user == o.user && g.mem.total == o.total && g.mem.payment == Paid
      && o.user in g.s.ledger.balances
      && g.s.ledger.balances[o.user] == s.ledger.balances[o.user] - o.total + AmountIf(o.total, InnerPays(s, id, snap, r, f))
      && (FindRefund(g.s.ledger.txs, o.user, OrderRef(id)).Some? <==> InnerPays(s, id, snap, r, f) && f.innerRefund == NoCreditFault)
  {
    var o := s.orders[id];
    ChargeSpec(s, id, r, f);
    NoRefundYet(s.ledger, o.user, o.total, OrderRef(id));
    var g := AfterSupply(s, id, snap, r, f);
    SagaIsDecided(s, id, snap, r, f);
    SupplySpec(AfterCharge(s, id, r, f), snap, r, f);
    BookingSpec(g, r.machine, f);
    AttemptRefund(g, f.innerRefund);
  }

  /**
   * For every combination of faults: a charged placement takes the order's total from the balance and
   * gives it back once for each of the two handlers' refunds that reached the wallet.
   */
  lemma ChargedPlacementMoney(s: State, id: nat, snap: Machine, r: Request, f: Faults)
    requires id < |s.orders| && FindRefund(s.ledger.txs, s.orders[id].user, OrderRef(id)).None?
    requires Charges(s, id, r, f)
    ensures
      var o := s.orders[id];
      var l := RunSaga(s, id, snap, r, f).s.ledger;
      && o.user in l.balances
      && l.balances[o.user] == s.ledger.balances[o.user] - o.total
                               + AmountIf(o.total, InnerPays(s, id, snap, r, f)) + AmountIf(o.total, OuterPays(s, id, snap, r, f))
  {
    SagaStages(s, id, snap, r, f);
    var g := AfterBooking(s, id, snap, r, f);
    RollbackSpec(g, snap.isFood, r, f);
    SagaIsDecided(s, id, snap, r, f);
    MoneyAfterPublish(s, id, snap, r, f);
    AttemptRefund(g, f.handlerRefund);
  }

  /** A charged saga that throws leaves a refund on record exactly when one of the two handlers recorded one. */
  lemma ThrownPlacementRecordsRefundIff(s: State, id: nat, snap: Machine, r: Request, f: Faults)
    requires id < |s.orders| && FindRefund(s.ledger.txs, s.orders[id].user, OrderRef(id)).None?
    requires Charges(s, id, r, f)
    ensures FindRefund(RunSaga(s, id, snap, r, f).s.ledger.txs, s.orders[id].user, OrderRef(id)).Some?
        <==> Throws(s, id, snap, r, f) && RecordsRefund(s, id, snap, r, f)
  {
    SagaStages(s, id, snap, r, f);
    var g := AfterBooking(s, id, snap, r, f);
    RollbackSpec(g, snap.isFood, r, f);
    SagaIsDecided(s, id, snap, r, f);
    MoneyAfterPublish(s, id, snap, r, f);
    AttemptRefund(g, f.handlerRefund);
  }

  /** A placement whose debit was not recorded changes the balance only if putting the money back failed too. */
  lemma UnchargedPlacementMoney(s: State, id: nat, snap: Machine, r: Request, f: Faults)
    requires id < |s.orders| && s.orders[id].payment == Unpaid && !r.bypass && !Charges(s, id, r, f)
    ensures
      var o := s.orders[id];
      var g := RunSaga(s, id, snap, r, f);
      && g.error.Some?
      && g.s.ledger == if ChargesUnrecorded(s, id, r, f) then Shift(s.ledger, o.user, 0 - o.total) else s.ledger
  {
  }

  /**
   * An admin test order is never charged, but the handler of a failed publish refunds it all the same:
   * the admin's balance grows by the total exactly when that refund reaches the wallet.
   */
  lemma BypassPlacementMoney(s: State, id: nat, snap: Machine, r: Request, f: Faults)
    requires id < |s.orders| && r.bypass && s.orders[id].user in s.ledger.balances
    requires FindRefund(s.ledger.txs, s.orders[id].user, OrderRef(id)).None?
    ensures
      var o, l := s.orders[id], RunSaga(s, id, snap, r, f).s.ledger;
      o.user in l.balances && l.balances[o.user] == s.ledger.balances[o.user] + AmountIf(o.total, InnerPays(s, id, snap, r, f))
  {
    var supplied, booked := AfterSupply(s, id, snap, r, f), AfterBooking(s, id, snap, r, f);
    ChargeEffects(s, id, r, f);
    SagaIsDecided(s, id, snap, r, f);
    SupplySpec(AfterCharge(s, id, r, f), snap, r, f);
    BookingSpec(supplied, r.machine, f);
    AttemptRefund(supplied, f.innerRefund);
    SagaStages(s, id, snap, r, f);
    RollbackSpec(booked, snap.isFood, r, f);
  }

  /**
   * A charged placement leaves the balance as it was exactly when one refund, and not two, reached the
   * wallet, or the order was free. Two reach it only when the inner refund's record fails after its
   * money moved and the outer handler refunds again.
   */
  lemma ChargedPlacementRepaysIff(s: State, id: nat, snap: Machine, r: Request, f: Faults)
    requires id < |s.orders| && FindRefund(s.ledger.txs, s.orders[id].user, OrderRef(id)).None?
    requires Charges(s, id, r, f)
    ensures
      var o := s.orders[id];
      var l := RunSaga(s, id, snap, r, f).s.ledger;
      && o.user in l.balances
      && (l.balances[o.user] == s.ledger.balances[o.user] <==>
            o.total == 0 || (InnerPays(s, id, snap, r, f) != OuterPays(s, id, snap, r, f)))
      && (InnerPays(s, id, snap, r, f) && OuterPays(s, id, snap, r, f) ==> f.innerRefund == CreditInsertFails)
  {
    ChargedPlacementMoney(s, id, snap, r, f);
  }

  // ─── All or nothing ────────────────────────────────────────────────────────

  /** The rollback's own calls work, and no money moves without a record. Everything else may fail. */
  predicate Recovers(f: Faults) {
    && !f.handlerSave && f.restore == NoRestoreFault && f.handlerRefund == NoCreditFault
    && f.deduct != DebitInsertAndRestoreFail && f.innerRefund != CreditInsertFails
  }

  /** The stock of every machine, item by item, is the same. */
  ghost predicate SameUnits(ms: Fleet, ms': Fleet) {
    ms'.Keys == ms.Keys && forall m, item | m in ms :: Units(ms'[m].batches, item) == Units(ms[m].batches, item)
  }

  /** The shelf of one machine lost exactly the ordered units. */
  ghost predicate UnitsTaken(ms: Fleet, ms': Fleet, r: Request) {
    && ms'.Keys == ms.Keys
    && forall m, item | m in ms ::
         Units(ms'[m].batches, item) == Units(ms[m].batches, item) - if m == r.machine && item == r.itemId then r.quantity else 0
  }

  lemma BookingKeepsShelves(g: Saga, m: MachineId, f: Faults)
    requires g.Ok()
    ensures
      var ms, ms' := g.s.machines, Bookkeep(Publish(g, f), m, f).s.machines;
      ms'.Keys == ms.Keys && forall k | k in ms :: ms'[k].batches == ms[k].batches
  {
  }

  /** The stock after booking: the ordered units are gone from a food machine's shelf, nothing else. */
  lemma StockAfterBooking(s: State, id: nat, snap: Machine, r: Request, f: Faults)
    requires id < |s.orders| && r.machine in s.machines && snap.isFood == s.machines[r.machine].isFood
    requires UniqueIds(s.machines[r.machine].batches)
    ensures
      var g := AfterBooking(s, id, snap, r, f);
      && (g.batchDeducted <==> Takes(s, id, snap, r, f))
      && g.s.machines.Keys == s.machines.Keys
      && (g.batchDeducted ==> (g.mem.payment == if r.bypass then Bypass else Paid)
                              && UnitsTaken(s.machines, g.s.machines, r) && CanRestore(g.s.machines[r.machine].batches, r.itemId))
      && (!g.batchDeducted ==> SameUnits(s.machines, g.s.machines))
  {
    var charged, supplied := AfterCharge(s, id, r, f), AfterSupply(s, id, snap, r, f);
    ChargeEffects(s, id, r, f);
    SagaIsDecided(s, id, snap, r, f);
    SupplySpec(charged, snap, r, f);
    SagaStages(s, id, snap, r, f);
    BookingSpec(supplied, r.machine, f);
    BookingKeepsShelves(supplied, r.machine, f);
    if supplied.batchDeducted { DeductionTakesUnits(s.machines, r); }
  }

  lemma DeductionTakesUnits(ms: Fleet, r: Request)
    requires r.machine in ms && UniqueIds(ms[r.machine].batches)
    requires Deduct(ms[r.machine].batches, r.itemId, r.quantity).Some?
    ensures
      var bs := Deduct(ms[r.machine].batches, r.itemId, r.quantity).value.0;
      CanRestore(bs, r.itemId) && UnitsTaken(ms, SetBatches(ms, r.machine, bs), r)
  {
    var shelf := ms[r.machine].batches;
    DeductedCanRestore(shelf, r.itemId, r.quantity);
    forall item ensures Units(Deduct(shelf, r.itemId, r.quantity).value.0, item)
                     == Units(shelf, item) - if item == r.itemId then r.quantity else 0
    {
      DeductUnits(shelf, r.itemId, r.quantity, item);
    }
  }

  lemma ShelfMadeUp(ms: Fleet, taken: Fleet, r: Request, bs: seq<Batch>)
    requires r.machine in ms && UnitsTaken(ms, taken, r)
    requires forall item :: Units(bs, item) == Units(taken[r.machine].batches, item) + if item == r.itemId then r.quantity else 0
    ensures SameUnits(ms, SetBatches(taken, r.machine, bs))
  {
  }

  /** Restoring after a deduction puts back the same units, unless the restore fails at once. */
  lemma RestoringUndoesTaking(ms: Fleet, taken: Fleet, r: Request, fault: RestoreFault)
    requires r.machine in ms && UnitsTaken(ms, taken, r) && CanRestore(taken[r.machine].batches, r.itemId)
    ensures fault == BeforeRestore ==> RestoreOn(taken, r.machine, r.itemId, r.quantity, fault) == taken
    ensures fault != BeforeRestore ==> SameUnits(ms, RestoreOn(taken, r.machine, r.itemId, r.quantity, fault))
  {
    if fault != BeforeRestore {
      var bs := taken[r.machine].batches;
      var bs' := RestoreUpTo(bs, r.itemId, r.quantity, fault);
      forall item ensures Units(bs', item) == Units(bs, item) + if item == r.itemId then r.quantity else 0 {
        RestoreUnits(bs, r.itemId, r.quantity, fault, item);
      }
      ShelfMadeUp(ms, taken, r, bs');
    }
  }

  /** Where the stock ends, admin test orders included: as it was, or short of exactly the ordered units. */
  lemma StockAfterSaga(s: State, id: nat, snap: Machine, r: Request, f: Faults)
    requires id < |s.orders| && r.machine in s.machines && snap.isFood == s.machines[r.machine].isFood
    requires UniqueIds(s.machines[r.machine].batches)
    ensures
      var g := RunSaga(s, id, snap, r, f);
      if Takes(s, id, snap, r, f) && !(Throws(s, id, snap, r, f) && PutsBack(r, f)) then UnitsTaken(s.machines, g.s.machines, r)
      else SameUnits(s.machines, g.s.machines)
  {
    SagaStages(s, id, snap, r, f);
    SagaIsDecided(s, id, snap, r, f);
    var g := AfterBooking(s, id, snap, r, f);
    StockAfterBooking(s, id, snap, r, f);
    RollbackSpec(g, snap.isFood, r, f);
    if g.batchDeducted { RestoringUndoesTaking(s.machines, g.s.machines, r, f.restore); }
  }

  /** A placement that throws restores the shelf exactly when it had taken nothing from it or could put the units back. */
  lemma ThrownPlacementRestocksIff(s: State, id: nat, snap: Machine, r: Request, f: Faults)
    requires id < |s.orders| && r.machine in s.machines && snap.isFood == s.machines[r.machine].isFood && r.quantity > 0
    requires UniqueIds(s.machines[r.machine].batches)
    requires Throws(s, id, snap, r, f)
    ensures
      SameUnits(s.machines, RunSaga(s, id, snap, r, f).s.machines) <==> !Takes(s, id, snap, r, f) || PutsBack(r, f)
  {
    StockAfterSaga(s, id, snap, r, f);
    var after := RunSaga(s, id, snap, r, f).s.machines;
    if SameUnits(s.machines, after) { TakenIsNotSame(s.machines, after, r); }
  }

  lemma TakenIsNotSame(ms: Fleet, ms': Fleet, r: Request)
    requires r.machine in ms && r.quantity > 0 && SameUnits(ms, ms')
    ensures !UnitsTaken(ms, ms', r)
  {
    var before, after := Units(ms[r.machine].batches, r.itemId), Units(ms'[r.machine].batches, r.itemId);
    assert before == after;
  }

  /** The stored order after the whole saga, when the rollback's save works. */
  lemma StoredAfterSaga(s: State, id: nat, snap: Machine, r: Request, f: Faults)
    requires id < |s.orders| && !r.bypass && !f.handlerSave
    ensures
      var g, o := RunSaga(s, id, snap, r, f), s.orders[id];
      var payment := if Charges(s, id, r, f) then Paid else o.payment;
      && (g.error.Some? ==> g.s.orders == s.orders[id := o.(payment := payment, status := Failed)])
      && (g.error.None? ==> Charges(s, id, r, f) && g.s.orders == s.orders[id := o.(payment := Paid, status := Dispensing)])
  {
    var charged, supplied := AfterCharge(s, id, r, f), AfterSupply(s, id, snap, r, f);
    SagaStages(s, id, snap, r, f);
    ChargeSpec(s, id, r, f);
    SupplySpec(charged, snap, r, f);
    BookingSpec(supplied, r.machine, f);
    RollbackSpec(AfterBooking(s, id, snap, r, f), snap.isFood, r, f);
  }

  /** The order the saga leaves stored: live unless a handler stored its failure, admin test orders included. */
  lemma StoredLiveIff(s: State, id: nat, snap: Machine, r: Request, f: Faults)
    requires id < |s.orders| && s.orders[id].status == Pending
    ensures
      var orders := RunSaga(s, id, snap, r, f).s.orders;
      && |orders| == |s.orders|
      && orders[id] == s.orders[id].(status := orders[id].status, payment := orders[id].payment)
      && (orders[id].Live() <==> !(Throws(s, id, snap, r, f) && StoresFailure(s, id, snap, r, f)))
      && (orders[id].status == Failed <==> Throws(s, id, snap, r, f) && StoresFailure(s, id, snap, r, f))
      && (orders[id].status == Pending ==> !Supplied(s, id, snap, r, f))
      && forall j | 0 <= j < |s.orders| && j != id :: orders[j] == s.orders[j]
  {
    SagaStages(s, id, snap, r, f);
    SagaIsDecided(s, id, snap, r, f);
    ChargeEffects(s, id, r, f);
    SupplySpec(AfterCharge(s, id, r, f), snap, r, f);
    BookingSpec(AfterSupply(s, id, snap, r, f), r.machine, f);
    RollbackSpec(AfterBooking(s, id, snap, r, f), snap.isFood, r, f);
  }

  /** A placement that throws leaves its order failed exactly when one of the handlers could save it. */
  lemma ThrownPlacementFailsOrderIff(s: State, id: nat, snap: Machine, r: Request, f: Faults)
    requires id < |s.orders| && s.orders[id].status == Pending && Throws(s, id, snap, r, f)
    ensures |RunSaga(s, id, snap, r, f).s.orders| == |s.orders|
    ensures RunSaga(s, id, snap, r, f).s.orders[id].status == Failed <==> StoresFailure(s, id, snap, r, f)
  {
    StoredLiveIff(s, id, snap, r, f);
  }

  /**
   * A charged placement that throws is undone, in status, money and stock, exactly when a handler saved
   * the failure, one refund and not two reached the wallet, and the units taken, if any, were put back.
   */
  lemma ThrownPlacementIsUndoneIff(s: State, id: nat, snap: Machine, r: Request, f: Faults)
    requires id < |s.orders| && s.orders[id].status == Pending && Charges(s, id, r, f)
    requires s.orders[id].total > 0 && r.quantity > 0
    requires r.machine in s.machines && snap.isFood == s.machines[r.machine].isFood && UniqueIds(s.machines[r.machine].batches)
    requires FindRefund(s.ledger.txs, s.orders[id].user, OrderRef(id)).None?
    requires Throws(s, id, snap, r, f)
    ensures
      var u, g := s.orders[id].user, RunSaga(s, id, snap, r, f);
      && |g.s.orders| == |s.orders| && u in g.s.ledger.balances
      && ((g.s.orders[id].status == Failed
           && g.s.ledger.balances[u] == s.ledger.balances[u]
           && SameUnits(s.machines, g.s.machines))
          <==>
          (StoresFailure(s, id, snap, r, f)
           && InnerPays(s, id, snap, r, f) != OuterPays(s, id, snap, r, f)
           && (Takes(s, id, snap, r, f) ==> PutsBack(r, f))))
  {
    ThrownPlacementFailsOrderIff(s, id, snap, r, f);
    ChargedPlacementRepaysIff(s, id, snap, r, f);
    ThrownPlacementRestocksIff(s, id, snap, r, f);
  }

  /** A charged saga that recovers ends with one debit, and with one refund exactly when it throws. */
  lemma ChargedSaga(s: State, id: nat, snap: Machine, r: Request, f: Faults)
    requires id < |s.orders| && Recovers(f) && Charges(s, id, r, f)
    requires FindRefund(s.ledger.txs, s.orders[id].user, OrderRef(id)).None?
    ensures
      var o := s.orders[id];
      var g := RunSaga(s, id, snap, r, f);
      var debited := Post(s.ledger, o.user, Debit, OrderPayment, o.total, OrderRef(id));
      g.s.ledger == if g.error.None? then debited else Post(debited, o.user, Credit, Refund, o.total, OrderRef(id))
  {
    var o := s.orders[id];
    var charged, supplied := AfterCharge(s, id, r, f), AfterSupply(s, id, snap, r, f);
    SagaStages(s, id, snap, r, f);
    ChargeSpec(s, id, r, f);
    NoRefundYet(s.ledger, o.user, o.total, OrderRef(id));
    SupplySpec(charged, snap, r, f);
    BookingSpec(supplied, r.machine, f);
    SagaRefundSpec(supplied, f.innerRefund);
    var booked := AfterBooking(s, id, snap, r, f);
    SagaRefundSpec(booked, NoCreditFault);
    RollbackSpec(booked, snap.isFood, r, f);
  }

  /** Refund counts of the two ledgers a charged saga can end with. */
  lemma SagaRefundCounts(l: Ledger, u: UserId, total: nat, id: nat)
    requires u in l.balances && FindRefund(l.txs, u, OrderRef(id)).None?
    ensures
      var debited := Post(l, u, Debit, OrderPayment, total, OrderRef(id));
      var refunded := Post(debited, u, Credit, Refund, total, OrderRef(id));
      && Refunds(l.txs, u, OrderRef(id)) == 0
      && Refunds(debited.txs, u, OrderRef(id)) == 0
      && Refunds(refunded.txs, u, OrderRef(id)) == 1
      && refunded.balances == l.balances
  {
    var debited := Post(l, u, Debit, OrderPayment, total, OrderRef(id));
    FindRefundIffCounted(l.txs, u, OrderRef(id));
    RefundsAppend(l.txs, Entry(l, u, Debit, OrderPayment, total, OrderRef(id)), u, OrderRef(id));
    RefundsAppend(debited.txs, Entry(debited, u, Credit, Refund, total, OrderRef(id)), u, OrderRef(id));
  }

  /** What a saga that can recover does to the balances and to the order's refunds. */
  lemma SagaMoney(s: State, id: nat, snap: Machine, r: Request, f: Faults)
    requires id < |s.orders| && s.orders[id].payment == Unpaid && !r.bypass && Recovers(f)
    requires FindRefund(s.ledger.txs, s.orders[id].user, OrderRef(id)).None?
    ensures
      var o := s.orders[id];
      var g := RunSaga(s, id, snap, r, f);
      && (g.error.Some? ==>
            && g.s.ledger.balances == s.ledger.balances
            && Refunds(g.s.ledger.txs, o.user, OrderRef(id)) == Once(Charges(s, id, r, f)))
      && (g.error.None? ==>
            && o.user in s.ledger.balances
            && g.s.ledger.balances == s.ledger.balances[o.user := s.ledger.balances[o.user] - o.total]
            && Refunds(g.s.ledger.txs, o.user, OrderRef(id)) == 0)
  {
    var o := s.orders[id];
    if Charges(s, id, r, f) {
      ChargedSaga(s, id, snap, r, f);
      SagaRefundCounts(s.ledger, o.user, o.total, id);
    } else {
      UnchargedPlacementMoney(s, id, snap, r, f);
      FindRefundIffCounted(s.ledger.txs, o.user, OrderRef(id));
    }
  }

  /**
   * Placement is all or nothing. If it throws anywhere after the record exists and the rollback's own
   * calls work, the order ends failed, every balance and every item's units are what they were, and the
   * charge, if there was one, is refunded exactly once. If it does not throw, the order is dispensing,
   * its total is debited once and its units are off the shelf of a food machine.
   */
  lemma PlacementIsAllOrNothing(s: State, id: nat, snap: Machine, r: Request, f: Faults)
    requires id < |s.orders| && s.orders[id].payment == Unpaid && !r.bypass && Recovers(f)
    requires r.machine in s.machines && snap.isFood == s.machines[r.machine].isFood
    requires UniqueIds(s.machines[r.machine].batches)
    requires FindRefund(s.ledger.txs, s.orders[id].user, OrderRef(id)).None?
    ensures
      var o := s.orders[id];
      var g := RunSaga(s, id, snap, r, f);
      && |g.s.orders| == |s.orders| && (forall j | 0 <= j < |s.orders| && j != id :: g.s.orders[j] == s.orders[j])
      && (g.error.Some? ==>
            && g.s.orders[id].status == Failed
            && g.s.ledger.balances == s.ledger.balances
            && SameUnits(s.machines, g.s.machines)
            && Refunds(g.s.ledger.txs, o.user, OrderRef(id)) == Once(Charges(s, id, r, f)))
      && (g.error.None? ==>
            && g.s.orders[id].status == Dispensing && g.s.orders[id].payment == Paid
            && o.user in s.ledger.balances
            && g.s.ledger.balances == s.ledger.balances[o.user := s.ledger.balances[o.user] - o.total]
            && Refunds(g.s.ledger.txs, o.user, OrderRef(id)) == 0
            && (if s.machines[r.machine].isFood then UnitsTaken(s.machines, g.s.machines, r) else SameUnits(s.machines, g.s.machines)))
  {
    StoredAfterSaga(s, id, snap, r, f);
    StockAfterSaga(s, id, snap, r, f);
    SagaIsDecided(s, id, snap, r, f);
    SagaMoney(s, id, snap, r, f);
  }

  // ─── The public call ───────────────────────────────────────────────────────

  /** The request passes every check, so an order record is saved. */
  predicate Records(s: State, r: Request, f: Faults) {
    f.stop == NoStop && Precheck(s.machines, r).Ok? && !Occupied(CancelPending(s.orders, r.user, r.machine), r.machine)
  }

  /** The user's pending orders on the machine are cancelled: the checks were passed, whatever follows. */
  predicate Cancels(s: State, r: Request, f: Faults) { f.stop != AtChecks && Precheck(s.machines, r).Ok? }

  /** The state once the new order's record is saved: the saga starts here. */
  function Recorded(s: State, r: Request, f: Faults): State
    requires Records(s, r, f)
  {
    var s1 := Admitted(s, r, f);
    s1.(orders := s1.orders + [NewOrder(s, r, Precheck(s.machines, r).value)])
  }

  /** The placement is the saga on the recorded order, or a refusal. */
  lemma PlaceIsTheSaga(s: State, r: Request, f: Faults)
    ensures !Records(s, r, f) ==>
              && Place(s, r, f).1.Refused?
              && (if !Cancels(s, r, f) then Place(s, r, f).0 == s
                  else Place(s, r, f).0 == s.(orders := CancelPending(s.orders, r.user, r.machine))
                       || Place(s, r, f).0 == Admitted(s, r, f))
    ensures Records(s, r, f) ==>
              && r.machine in s.machines && |Recorded(s, r, f).orders| == |s.orders| + 1
              && Place(s, r, f).0 == RunSaga(Recorded(s, r, f), |s.orders|, s.machines[r.machine], r, f).s
              && (var g := RunSaga(Recorded(s, r, f), |s.orders|, s.machines[r.machine], r, f);
                  Place(s, r, f).1 == if g.error.Some? then Threw(g.id, g.error.value) else Placed(g.id, g.command))
  {
  }

  /** The recorded order is the request's, unpaid and pending; the others are as admission left them. */
  lemma RecordedSpec(s: State, r: Request, f: Faults)
    requires Records(s, r, f)
    ensures
      var s2, id := Recorded(s, r, f), |s.orders|;
      && |s2.orders| == id + 1 && r.machine in s.machines && s2.ledger == s.ledger
      && s2.orders == CancelPending(s.orders, r.user, r.machine) + [s2.orders[id]]
      && s2.orders[id] == s2.orders[id].(user := r.user, machine := r.machine, item := r.itemId, quantity := r.quantity,
                                          status := Pending, payment := Unpaid)
      && s2.machines.Keys == s.machines.Keys
      && (forall m | m in s.machines :: s2.machines[m] == s.machines[m].(isBusy := s2.machines[m].isBusy))
  {
  }

  lemma AdmissionKeepsStock(s: State, r: Request, f: Faults)
    ensures
      var s1 := Admitted(s, r, f);
      && |s1.orders| == |s.orders| && s1.ledger == s.ledger && SameUnits(s.machines, s1.machines)
      && (forall m | m in s.machines :: s1.machines[m].batches == s.machines[m].batches && s1.machines[m].isFood == s.machines[m].isFood)
  {
  }

  /** What became of a new order, relative to the state before it. */
  ghost predicate AllOrNothing(s: State, s': State, r: Request, threw: bool) {
    var id := |s.orders|;
    && |s'.orders| == id + 1
    && (threw ==> s'.orders[id].status == Failed && s'.ledger.balances == s.ledger.balances && SameUnits(s.machines, s'.machines))
    && (!threw ==>
          && s'.orders[id] == s'.orders[id].(user := r.user, status := Dispensing, payment := Paid, quantity := r.quantity)
          && r.user in s.ledger.balances && r.machine in s.machines
          && s'.ledger.balances == s.ledger.balances[r.user := s.ledger.balances[r.user] - s'.orders[id].total]
          && (if s.machines[r.machine].isFood then UnitsTaken(s.machines, s'.machines, r) else SameUnits(s.machines, s'.machines)))
  }

  /** Admission is invisible to orders' number, money and stock. */
  lemma AllOrNothingFrom(s: State, s1: State, s': State, r: Request)
    requires |s1.orders| == |s.orders| && s1.ledger == s.ledger && SameUnits(s.machines, s1.machines)
    requires r.machine in s.machines ==> s1.machines[r.machine].isFood == s.machines[r.machine].isFood
    ensures AllOrNothing(s1, s', r, true) ==> AllOrNothing(s, s', r, true)
    ensures AllOrNothing(s1, s', r, false) ==> AllOrNothing(s, s', r, false)
  {
  }

  lemma NewOrderIsAllOrNothing(s: State, o: Order, snap: Machine, r: Request, f: Faults)
    requires !r.bypass && Recovers(f) && FindRefund(s.ledger.txs, r.user, OrderRef(|s.orders|)).None?
    requires o == o.(user := r.user, quantity := r.quantity, payment := Unpaid)
    requires r.machine in s.machines && snap.isFood == s.machines[r.machine].isFood && UniqueIds(s.machines[r.machine].batches)
    ensures
      var g := RunSaga(s.(orders := s.orders + [o]), |s.orders|, snap, r, f);
      AllOrNothing(s, g.s, r, g.error.Some?)
  {
    var s2 := s.(orders := s.orders + [o]);
    PlacementIsAllOrNothing(s2, |s.orders|, snap, r, f);
    StoredAfterSaga(s2, |s.orders|, snap, r, f);
  }

  /** The same for the public call, from the checks to the end of the catch block. */
  lemma PlaceIsAllOrNothing(s: State, r: Request, f: Faults)
    requires !r.bypass && Recovers(f) && FindRefund(s.ledger.txs, r.user, OrderRef(|s.orders|)).None?
    requires r.machine in s.machines ==> UniqueIds(s.machines[r.machine].batches)
    ensures
      var (s', p) := Place(s, r, f);
      if p.Refused? then |s'.orders| == |s.orders| && s'.ledger == s.ledger && SameUnits(s.machines, s'.machines)
      else p.id == |s.orders| && AllOrNothing(s, s', r, p.Threw?)
  {
    AdmissionKeepsStock(s, r, f);
    PlaceIsTheSaga(s, r, f);
    if Records(s, r, f) {
      var s1 := Admitted(s, r, f);
      var o := NewOrder(s, r, Precheck(s.machines, r).value);
      NewOrderIsAllOrNothing(s1, o, s.machines[r.machine], r, f);
      SagaKeepsId(Recorded(s, r, f), |s.orders|, s.machines[r.machine], r, f);
      AllOrNothingFrom(s, s1, RunSaga(Recorded(s, r, f), |s.orders|, s.machines[r.machine], r, f).s, r);
    }
  }

  lemma SagaKeepsId(s: State, id: nat, snap: Machine, r: Request, f: Faults)
    requires id < |s.orders|
    ensures RunSaga(s, id, snap, r, f).id == id
  {
    SagaStages(s, id, snap, r, f);
    SupplySpec(AfterCharge(s, id, r, f), snap, r, f);
    BookingSpec(AfterSupply(s, id, snap, r, f), r.machine, f);
    RollbackSpec(AfterBooking(s, id, snap, r, f), snap.isFood, r, f);
  }

  /** What the saga publishes for a food machine: the nozzle of the batch it took the units from. */
  lemma SagaFoodCommand(s: State, id: nat, snap: Machine, r: Request, f: Faults)
    requires id < |s.orders| && snap.isFood && RunSaga(s, id, snap, r, f).error.None?
    ensures
      && r.machine in s.machines && Allocated(s.machines[r.machine].batches, r.itemId, r.quantity).Some?
      && RunSaga(s, id, snap, r, f).command
         == Some(FoodCommand(Allocated(s.machines[r.machine].batches, r.itemId, r.quantity).value.nozzle, ItemName(r), r.quantity))
  {
    SagaStages(s, id, snap, r, f);
    ChargeEffects(s, id, r, f);
    var supplied := AfterSupply(s, id, snap, r, f);
    BookingSpec(supplied, r.machine, f);
    RollbackSpec(AfterBooking(s, id, snap, r, f), snap.isFood, r, f);
    assert supplied.error.None?;
  }

  /** The nozzle of a published food command is the nozzle of the batch the price was computed from. */
  lemma PricedBatchIsDispensed(s: State, r: Request, f: Faults)
    requires r.machine in s.machines && s.machines[r.machine].isFood && Chronological(s.machines[r.machine].batches)
    requires Place(s, r, f).1.Placed?
    ensures
      var batch := Priced(s.machines[r.machine].batches, r.itemId, r.quantity);
      batch.Some? && Place(s, r, f).1.command == Some(FoodCommand(batch.value.nozzle, ItemName(r), r.quantity))
  {
    ChronologicalPricedIsDispensed(s.machines[r.machine].batches, r.itemId, r.quantity);
    PlaceIsTheSaga(s, r, f);
    RecordedSpec(s, r, f);
    SagaFoodCommand(Recorded(s, r, f), |s.orders|, s.machines[r.machine], r, f);
  }

  /** What the saga publishes for a coffee machine. */
  lemma SagaCommand(s: State, id: nat, snap: Machine, r: Request, f: Faults)
    requires id < |s.orders| && !snap.isFood && RunSaga(s, id, snap, r, f).error.None?
    ensures
      var c, timers := RunSaga(s, id, snap, r, f).command, Timers.PublishTimers(CalibrationFor(snap, r));
      && timers.Some? && c.Some? && c.value.CoffeeCommand?
      && c.value.quantity == r.quantity && c.value.water == timers.value.0 && c.value.powder == timers.value.1
      && c.value.name == ItemName(r)
      && c.value.nozzle == if CalibrationFor(snap, r).Some? then CalibrationFor(snap, r).value.nozzle else 1
  {
    SagaStages(s, id, snap, r, f);
    var supplied := AfterSupply(s, id, snap, r, f);
    BookingSpec(supplied, r.machine, f);
    RollbackSpec(AfterBooking(s, id, snap, r, f), snap.isFood, r, f);
    assert supplied.error.None?;
  }

  /** A published coffee command carries rounded timers that lead, given a calibration entry with both timers or none. */
  lemma PlacedCoffeeCommandLeads(s: State, r: Request, f: Faults)
    requires r.machine in s.machines && !s.machines[r.machine].isFood
    requires Place(s, r, f).1.Placed?
    ensures
      var entry := CalibrationFor(s.machines[r.machine], r);
      var c := Place(s, r, f).1.command;
      && c.Some? && c.value.CoffeeCommand? && c.value.quantity == r.quantity
      && c.value.water % 100 == 0 && c.value.powder % 100 == 0
      && ((entry.None? || (entry.value.water.Some? <==> entry.value.powder.Some?)) ==> Timers.Leads(c.value.water, c.value.powder))
  {
    var entry := CalibrationFor(s.machines[r.machine], r);
    PlaceIsTheSaga(s, r, f);
    SagaCommand(Recorded(s, r, f), |s.orders|, s.machines[r.machine], r, f);
    Timers.PublishedLeadIff(entry);
    Timers.PublishedRound(entry);
  }
}
