/** Money follows status: what keeps them in step, event by event and over every run, whatever fails. */
module Lifecycle {
  import opened Common
  import opened Wallet
  import opened Batches
  import opened Machines
  import opened Orders
  import opened OrderBooks
  import opened Placement
  import opened WireFormat

  // ─── One order, seen as status and money ───────────────────────────────────

  /** `paid` is what the stored order says; `charged` and `refunded` are what the ledger has on record. */
  datatype Account = Account(status: Status, paid: bool, charged: bool, refunded: bool)

  function AccountOf(s: State, i: nat): Account
    requires i < |s.orders|
  {
    Account(s.orders[i].status, s.orders[i].payment == Paid, Debits(s.ledger.txs, i) > 0,
            Refunds(s.ledger.txs, s.orders[i].user, OrderRef(i)) > 0)
  }

  /** The statuses under which an order's price is kept. */
  predicate HoldsMoney(a: Account) { a.status == Pending || a.status == Dispensing || a.status == Completed }

  /** A charged order keeps its money while it is pending, dispensing or completed, and has given it back otherwise. */
  predicate Consistent(a: Account) { a.charged ==> (HoldsMoney(a) <==> !a.refunded) }

  /** The refund call returns: it works, or finds the refund of an earlier one. */
  predicate Returns(a: Account, fault: CreditFault) { fault == NoCreditFault || (a.refunded && fault != BeforeCredit) }

  /** The event calls the wallet refund. `stops`: an acknowledgement's handler ends before it saves; `final`: the status it comes to. */
  predicate Repays(a: Account, e: Event, stops: bool, final: Status) {
    match e
    case Ack(_, status, _, _) => status != AckProcessing && !stops && final != Completed
    case Update(_, UCancelled, _) => a.status == Dispensing
    case Failing(_, _) => a.paid
    case Refunding(_, _) => a.status != Refunded
    case _ => false
  }

  /** The status the event saves, if it gets that far. */
  function NextStatus(a: Account, e: Event, stops: bool, final: Status): Status {
    match e
    case Ack(_, status, _, f) => if (if status == AckProcessing then f.save else stops) then a.status else final
    case Update(_, UCompleted, f) => if f.save then a.status else Completed
    case Update(_, UDispensing, f) => if f.save then a.status else Dispensing
    case Update(_, UHalf, f) => if f.save then a.status else HalfCompleted
    case Update(_, UCancelled, f) => if f.save || (a.status == Dispensing && !Returns(a, f.refund)) then a.status else Failed
    case Completing(_, f) => if f.save || !(a.status == Pending || a.status == Dispensing) then a.status else Completed
    case Failing(_, f) => if f.save || (a.paid && !Returns(a, f.refund)) then a.status else Failed
    case Refunding(_, f) => if f.save || !Returns(a, f.refund) then a.status else Refunded
    case _ => a.status
  }

  function Settle(a: Account, e: Event, stops: bool, final: Status): Account
    requires Target(e).Some?
  {
    a.(status := NextStatus(a, e, stops, final),
       refunded := a.refunded || (Repays(a, e, stops, final) && e.failing.refund == NoCreditFault))
  }

  /** Units an event reports as dispensed. */
  function DispensedBy(s: State, e: Event, id: nat): int
    requires id < |s.orders|
  {
    match e
    case Ack(_, status, ord, _) => Total(Reported(s, id, status, ord))
    case _ => 0
  }

  predicate Stops(s: State, e: Event, id: nat)
    requires id < |s.orders|
  {
    e.Ack? && AckStops(s, id, e.ack, e.ord, e.failing)
  }

  /** The status an acknowledgement comes to. */
  function Final(s: State, e: Event, id: nat): Status
    requires id < |s.orders|
  {
    if e.Ack? then FinalStatus(e.ack, s.orders[id].quantity, DispensedBy(s, e, id)) else s.orders[id].status
  }

  /**
   * The guard: the order's status and payment, what the machine reports, and which calls fail. An order
   * whose price is kept may only be completed, or failed with its refund recorded and the failure saved.
   */
  predicate Safe(a: Account, e: Event, stops: bool, final: Status) {
    match e
    case Ack(_, AckProcessing, _, f) => f.save || HoldsMoney(a)
    case Ack(_, _, _, f) => stops || (if final == Completed then HoldsMoney(a) else !HoldsMoney(a) || f.refund == NoCreditFault)
    case Update(_, UCompleted, f) => f.save || HoldsMoney(a)
    case Update(_, UDispensing, f) => f.save || HoldsMoney(a)
    case Update(_, UHalf, f) => f.save || !HoldsMoney(a)
    case Update(_, UCancelled, f) => !HoldsMoney(a) || if a.status == Dispensing then f.refund == NoCreditFault ==> !f.save else f.save
    case Failing(_, f) => !HoldsMoney(a) || if a.paid then f.refund == NoCreditFault ==> !f.save else f.save
    case Refunding(_, f) => !HoldsMoney(a) || (f.refund == NoCreditFault ==> !f.save)
    case _ => true
  }

  /** For a charged order in order, an event keeps money and status in step exactly when it is safe. */
  lemma ConsistentAfterIffSafe(a: Account, e: Event, stops: bool, dispensed: int, quantity: nat)
    requires a.charged && Consistent(a) && Target(e).Some?
    ensures
      var final := if e.Ack? then FinalStatus(e.ack, quantity, dispensed) else a.status;
      Consistent(Settle(a, e, stops, final)) <==> Safe(a, e, stops, final)
  {
  }

  // ─── The state machine refines the account ─────────────────────────────────

  /** Records only grow, and only by records of order number `id`. */
  ghost predicate Extends(l: Ledger, l': Ledger, id: nat) {
    && |l.txs| <= |l'.txs| && l'.txs[..|l.txs|] == l.txs
    && forall k | |l.txs| <= k < |l'.txs| :: l'.txs[k].ref == OrderRef(id)
  }

  lemma {:induction false} ExtensionKeepsRefunds(l: Ledger, l': Ledger, id: nat, u: UserId, other: nat)
    requires Extends(l, l', id) && other != id
    ensures Refunds(l'.txs, u, OrderRef(other)) == Refunds(l.txs, u, OrderRef(other))
    ensures Debits(l'.txs, other) == Debits(l.txs, other)
    decreases |l'.txs|
  {
    if |l'.txs| == |l.txs| {
      assert l'.txs == l.txs;
    } else {
      var n := |l'.txs| - 1;
      assert l'.txs[..n][..|l.txs|] == l.txs;
      ExtensionKeepsRefunds(l, l'.(txs := l'.txs[..n]), id, u, other);
    }
  }

  lemma RefundExtends(l: Ledger, u: UserId, amount: nat, id: nat, fault: CreditFault)
    ensures Extends(l, RefundCall(l, u, amount, OrderRef(id), fault).0, id)
    ensures RefundCall(l, u, amount, OrderRef(id), fault).0.balances.Keys == l.balances.Keys
  {
  }

  /** A refund call adds no debit, and leaves a refund on record exactly when it works or one was there. */
  lemma RefundCounts(l: Ledger, u: UserId, amount: nat, id: nat, fault: CreditFault)
    ensures Debits(RefundCall(l, u, amount, OrderRef(id), fault).0.txs, id) == Debits(l.txs, id)
    ensures u in l.balances ==>
              (Refunds(RefundCall(l, u, amount, OrderRef(id), fault).0.txs, u, OrderRef(id)) > 0
               <==> Refunds(l.txs, u, OrderRef(id)) > 0 || fault == NoCreditFault)
  {
    FindRefundIffCounted(l.txs, u, OrderRef(id));
    if u in l.balances {
      RefundsAppend(l.txs, Entry(l, u, Credit, Refund, amount, OrderRef(id)), u, OrderRef(id));
      DebitsAppend(l.txs, Entry(l, u, Credit, Refund, amount, OrderRef(id)), id);
    }
  }

  /** The next state has this status and ledger and is otherwise the same as far as money goes. */
  ghost predicate Moved(s: State, s': State, id: nat, status: Status, repaid: bool, fault: CreditFault)
    requires id < |s.orders|
  {
    && s'.orders == s.orders[id := s.orders[id].(status := status)]
    && s'.ledger == if repaid then Reimburse(s, id, fault).ledger else s.ledger
  }

  lemma SameStatusMoves(s: State, id: nat, fault: CreditFault)
    requires id < |s.orders|
    ensures Moved(s, s, id, s.orders[id].status, false, fault)
  {
  }

  lemma ReturnsIff(s: State, id: nat, fault: CreditFault)
    requires id < |s.orders| && s.orders[id].user in s.ledger.balances
    ensures RefundReturns(s, id, fault) <==> Returns(AccountOf(s, id), fault)
  {
    FindRefundIffCounted(s.ledger.txs, s.orders[id].user, OrderRef(id));
  }

  lemma AckMoves(s: State, id: nat, status: AckStatus, ord: Option<string>, f: SettleFaults)
    requires id < |s.orders|
    ensures
      var e, o := Ack(id, status, ord, f), s.orders[id];
      var final := FinalStatus(status, o.quantity, Total(Reported(s, id, status, ord)));
      var stops := if status == AckProcessing then f.save else AckStops(s, id, status, ord, f);
      Moved(s, HandleAck(s, id, status, ord, f), id, if stops then o.status else final,
            status != AckProcessing && !stops && final != Completed, f.refund)
  {
    SameStatusMoves(s, id, f.refund);
  }

  /** What an acknowledgement does to the machines: the consumption it gets to, and then the restore, as far as it gets. */
  lemma AckMachines(s: State, id: nat, status: AckStatus, ord: Option<string>, f: SettleFaults)
    requires id < |s.orders|
    ensures
      var o, parts := s.orders[id], Reported(s, id, status, ord);
      var consumed := s.(machines := ConsumeOn(s.machines, o.machine, UpTo(parts, f.stop)));
      HandleAck(s, id, status, ord, f).machines
      == if status == AckProcessing then s.machines
         else if f.stop.Some? then consumed.machines
         else Restocked(consumed, o, IsFoodOrder(s, id), status, Total(parts), f.restore).machines
  {
  }

  /** The other settling calls at most free the machine. */
  lemma OtherMachines(s: State, e: Event, id: nat)
    requires Target(e) == Some(id) && id < |s.orders| && !e.Ack?
    ensures Apply(s, e).machines == s.machines || Apply(s, e).machines == SetBusy(s.machines, s.orders[id].machine, false)
  {
  }

  /** Every settling event moves its target, and nothing else, as the account of that order says. */
  lemma EventMoves(s: State, e: Event, id: nat)
    requires Target(e) == Some(id) && id < |s.orders| && s.orders[id].user in s.ledger.balances
    ensures
      var a, stops, final := AccountOf(s, id), Stops(s, e, id), Final(s, e, id);
      Moved(s, Apply(s, e), id, NextStatus(a, e, stops, final), Repays(a, e, stops, final), e.failing.refund)
  {
    ReturnsIff(s, id, e.failing.refund);
    SameStatusMoves(s, id, e.failing.refund);
    if e.Ack? { AckMoves(s, id, e.ack, e.ord, e.failing); }
  }

  lemma MovedSpec(s: State, s': State, id: nat, status: Status, repaid: bool, fault: CreditFault)
    requires id < |s.orders| && Moved(s, s', id, status, repaid, fault)
    ensures |s'.orders| == |s.orders|
    ensures AccountOf(s', id).charged == AccountOf(s, id).charged
    ensures s.orders[id].user in s.ledger.balances ==>
              AccountOf(s', id)
              == AccountOf(s, id).(status := status, refunded := AccountOf(s, id).refunded || (repaid && fault == NoCreditFault))
    ensures forall j | 0 <= j < |s.orders| && j != id :: AccountOf(s', j) == AccountOf(s, j)
  {
    var o := s.orders[id];
    RefundExtends(s.ledger, o.user, o.total, id, fault);
    RefundCounts(s.ledger, o.user, o.total, id, fault);
    forall j | 0 <= j < |s.orders| && j != id ensures AccountOf(s', j) == AccountOf(s, j) {
      ExtensionKeepsRefunds(s.ledger, Reimburse(s, id, fault).ledger, id, s.orders[j].user, j);
    }
  }

  /** A settling event moves its target as the account says, and no other order at all. */
  lemma EventRefinesSettle(s: State, e: Event, id: nat)
    requires Target(e) == Some(id) && id < |s.orders| && s.orders[id].user in s.ledger.balances
    ensures
      var s' := Apply(s, e);
      && |s'.orders| == |s.orders|
      && AccountOf(s', id) == Settle(AccountOf(s, id), e, Stops(s, e, id), Final(s, e, id))
      && (forall j | 0 <= j < |s.orders| && j != id :: s'.orders[j] == s.orders[j] && AccountOf(s', j) == AccountOf(s, j))
  {
    var a, stops, final := AccountOf(s, id), Stops(s, e, id), Final(s, e, id);
    EventMoves(s, e, id);
    MovedSpec(s, Apply(s, e), id, NextStatus(a, e, stops, final), Repays(a, e, stops, final), e.failing.refund);
  }

  /** Whatever the wallets hold, a settling event changes no other order, no payment and no debit. */
  lemma OthersUnchanged(s: State, e: Event, id: nat)
    requires Target(e) == Some(id) && id < |s.orders|
    ensures
      var s' := Apply(s, e);
      && |s'.orders| == |s.orders| && AccountOf(s', id).charged == AccountOf(s, id).charged
      && (forall j | 0 <= j < |s.orders| && j != id :: s'.orders[j] == s.orders[j] && AccountOf(s', j) == AccountOf(s, j))
  {
    var s' := Apply(s, e);
    EventSettles(s, e, id);
    MovedSpec(s, s', id, s'.orders[id].status, s'.ledger != s.ledger, e.failing.refund);
  }

  /** The event may bring a settled order back to dispensing. */
  predicate Revives(e: Event) {
    (e.Ack? && e.ack == AckProcessing && !e.failing.save) || (e.Update? && e.update == UDispensing && !e.failing.save)
  }

  lemma SettledStatus(s: State, e: Event, id: nat)
    requires Target(e) == Some(id) && id < |s.orders|
    ensures
      var s' := Apply(s, e);
      && Settles(s, s', id, e.failing.refund)
      && (Revives(e) ==> s'.orders[id].status == Dispensing)
      && (!Revives(e) ==> s'.orders[id].status == s.orders[id].status || !s'.orders[id].Live())
  {
    EventSettles(s, e, id);
    if e.Ack? { AckMoves(s, id, e.ack, e.ord, e.failing); }
  }

  // ─── Sweeping ──────────────────────────────────────────────────────────────

  lemma TimeOutMoves(s: State, id: nat, f: SettleFaults)
    requires id < |s.orders|
    ensures Moved(s, TimeOut(s, id, f), id, if f.save then s.orders[id].status else Failed, !f.save && !f.free, f.refund)
  {
    SameStatusMoves(s, id, f.refund);
  }

  lemma TimeOutSpec(s: State, id: nat)
    requires id < |s.orders| && s.orders[id].user in s.ledger.balances
    ensures
      var s' := TimeOut(s, id, ALL_WORKS);
      && SweepsOn(s, id, ALL_WORKS)
      && s'.orders == s.orders[id := s.orders[id].(status := Failed)]
      && s'.ledger == Reimburse(s, id, NoCreditFault).ledger && s'.ledger.balances.Keys == s.ledger.balances.Keys
      && AccountOf(s', id) == AccountOf(s, id).(status := Failed, refunded := true)
      && (forall j | 0 <= j < |s.orders| && j != id :: AccountOf(s', j) == AccountOf(s, j))
  {
    ReturnsIff(s, id, NoCreditFault);
    TimeOutMoves(s, id, ALL_WORKS);
    RefundExtends(s.ledger, s.orders[id].user, s.orders[id].total, id, NoCreditFault);
    MovedSpec(s, TimeOut(s, id, ALL_WORKS), id, Failed, true, NoCreditFault);
  }

  ghost predicate Distinct(ids: seq<nat>) {
    forall i, j | 0 <= i < j < |ids| :: ids[i] != ids[j]
  }

  /** The orders listed are failed and refunded, and every other order is as it was. */
  ghost predicate SweptExactly(s: State, s': State, ids: seq<nat>) {
    && |s'.orders| == |s.orders| && s'.ledger.balances.Keys == s.ledger.balances.Keys
    && (forall i | 0 <= i < |s.orders| ::
          if i in ids then s'.orders[i] == s.orders[i].(status := Failed)
                           && AccountOf(s', i) == AccountOf(s, i).(status := Failed, refunded := true)
          else s'.orders[i] == s.orders[i] && AccountOf(s', i) == AccountOf(s, i))
  }

  lemma OneThenRest(s: State, s1: State, s2: State, id: nat, rest: seq<nat>)
    requires SweptExactly(s, s1, [id]) && SweptExactly(s1, s2, rest) && id !in rest
    ensures SweptExactly(s, s2, [id] + rest)
  {
  }

  /** A sweep in which nothing fails fails and refunds every order on its list, and leaves every other order as it was. */
  lemma {:induction false} SweepSpec(s: State, ids: seq<nat>)
    requires forall i | 0 <= i < |ids| :: ids[i] < |s.orders| && s.orders[ids[i]].user in s.ledger.balances
    requires Distinct(ids)
    ensures SweptExactly(s, Sweep(s, ids, []), ids)
    decreases |ids|
  {
    if ids != [] {
      TimeOutSpec(s, ids[0]);
      var s1, rest := TimeOut(s, ids[0], ALL_WORKS), ids[1..];
      assert SweptExactly(s, s1, [ids[0]]);
      assert forall i | 0 <= i < |rest| :: rest[i] == ids[i + 1];
      SweepSpec(s1, rest);
      assert ids == [ids[0]] + rest;
      OneThenRest(s, s1, Sweep(s1, rest, []), ids[0], rest);
    }
  }

  lemma SweptSpec(orders: seq<Order>, cutoff: int)
    ensures
      var ids, all := Swept(orders, cutoff), StuckIds(orders, cutoff, |orders|);
      && Distinct(ids) && |ids| == Min(SWEEP_LIMIT, |all|) && ids == all[..|ids|]
      && (forall i | 0 <= i < |ids| :: ids[i] < |orders| && Stuck(orders[ids[i]], cutoff))
  {
    StuckIdsSpec(orders, cutoff, |orders|);
  }

  /** A sweep touches only the orders on its list, whatever fails. */
  lemma {:induction false} SweepLeavesOthers(s: State, ids: seq<nat>, fs: seq<SettleFaults>, j: nat)
    requires j < |s.orders| && j !in ids && forall i | 0 <= i < |ids| :: ids[i] < |s.orders|
    ensures
      var s' := Sweep(s, ids, fs);
      |s'.orders| == |s.orders| && s'.orders[j] == s.orders[j] && AccountOf(s', j) == AccountOf(s, j)
    decreases |ids|
  {
    if ids != [] {
      var f := FaultsNow(fs);
      TimeOutMoves(s, ids[0], f);
      MovedSpec(s, TimeOut(s, ids[0], f), ids[0], if f.save then s.orders[ids[0]].status else Failed, !f.save && !f.free, f.refund);
      if SweepsOn(s, ids[0], f) { SweepLeavesOthers(TimeOut(s, ids[0], f), ids[1..], FaultsLater(fs), j); }
    }
  }

  // ─── Placement ─────────────────────────────────────────────────────────────

  /** The saga's own order is the only one written, and its records the only ones added. */
  ghost predicate Local(s: State, g: Saga, id: nat)
    requires id < |s.orders|
  {
    && g.id == id && |g.s.orders| == |s.orders|
    && g.s.orders[id].machine == s.orders[id].machine && g.mem.machine == s.orders[id].machine
    && (forall j | 0 <= j < |s.orders| && j != id :: g.s.orders[j] == s.orders[j])
    && Extends(s.ledger, g.s.ledger, id)
  }

  lemma ChargeIsLocal(s: State, id: nat, bypass: bool, f: Faults)
    requires id < |s.orders|
    ensures Local(s, Charge(s, id, bypass, f), id)
  {
  }

  lemma BookingIsLocal(s: State, g: Saga, id: nat, m: MachineId, f: Faults)
    requires id < |s.orders| && Local(s, g, id)
    ensures Local(s, Bookkeep(Publish(g, f), m, f), id)
  {
  }

  lemma RollbackIsLocal(s: State, g: Saga, id: nat, isFood: bool, r: Request, f: Faults)
    requires id < |s.orders| && Local(s, g, id)
    ensures Local(s, Rollback(g, isFood, r, f), id)
  {
  }

  /** The saga writes only its own order and only records of its own order. */
  lemma SagaIsLocal(s: State, id: nat, snap: Machine, r: Request, f: Faults)
    requires id < |s.orders|
    ensures Local(s, RunSaga(s, id, snap, r, f), id)
  {
    ChargeIsLocal(s, id, r.bypass, f);
    SupplySpec(AfterCharge(s, id, r, f), snap, r, f);
    BookingIsLocal(s, AfterSupply(s, id, snap, r, f), id, r.machine, f);
    RollbackIsLocal(s, AfterBooking(s, id, snap, r, f), id, snap.isFood, r, f);
    SagaStages(s, id, snap, r, f);
  }

  /** The placement replaces this order. */
  predicate CancelledBy(o: Order, r: Request) { o.user == r.user && o.machine == r.machine && o.status == Pending }

  /** What a placement does to the orders that were there: it cancels the user's pending ones, nothing more. */
  lemma PlaceIsLocal(s: State, r: Request, f: Faults)
    ensures
      var s' := Place(s, r, f).0;
      && |s.orders| <= |s'.orders| <= |s.orders| + 1
      && (forall j | 0 <= j < |s.orders| ::
            && s'.orders[j] == (if Cancels(s, r, f) && CancelledBy(s.orders[j], r) then s.orders[j].(status := Cancelled) else s.orders[j])
            && AccountOf(s', j).refunded == AccountOf(s, j).refunded && AccountOf(s', j).charged == AccountOf(s, j).charged)
      && (|s'.orders| > |s.orders| ==>
            && Records(s, r, f) && s'.orders[|s.orders|].machine == r.machine
            && forall j | 0 <= j < |s.orders| :: !Occupies(s'.orders[j], r.machine))
  {
    PlaceIsTheSaga(s, r, f);
    if Records(s, r, f) {
      var s2, id := Recorded(s, r, f), |s.orders|;
      RecordedSpec(s, r, f);
      SagaIsLocal(s2, id, s.machines[r.machine], r, f);
      var s' := Place(s, r, f).0;
      forall j | 0 <= j < |s.orders|
        ensures s'.orders[j] == s2.orders[j]
        ensures AccountOf(s', j).refunded == AccountOf(s, j).refunded && AccountOf(s', j).charged == AccountOf(s, j).charged
      {
        ExtensionKeepsRefunds(s2.ledger, s'.ledger, id, s.orders[j].user, j);
      }
    }
  }

  /** A charge that is stored as failed has its refund on record: the guard on a saga's state, request and faults. */
  predicate MoneyFits(s: State, id: nat, snap: Machine, r: Request, f: Faults)
    requires id < |s.orders|
  {
    Charges(s, id, r, f) && Throws(s, id, snap, r, f) && StoresFailure(s, id, snap, r, f) ==> RecordsRefund(s, id, snap, r, f)
  }

  lemma BookingDebits(g: Saga, m: MachineId, f: Faults)
    requires g.Ok()
    ensures Debits(Bookkeep(Publish(g, f), m, f).s.ledger.txs, g.id) == Debits(g.s.ledger.txs, g.id)
  {
    BookingSpec(g, m, f);
    RefundCounts(g.s.ledger, g.mem.user, g.mem.total, g.id, f.innerRefund);
  }

  lemma RollbackDebits(g: Saga, isFood: bool, r: Request, f: Faults)
    requires g.Ok()
    ensures Debits(Rollback(g, isFood, r, f).s.ledger.txs, g.id) == Debits(g.s.ledger.txs, g.id)
  {
    RollbackSpec(g, isFood, r, f);
    RefundCounts(g.s.ledger, g.mem.user, g.mem.total, g.id, f.handlerRefund);
  }

  /** The saga leaves a debit on record exactly when it charged. */
  lemma SagaDebits(s: State, id: nat, snap: Machine, r: Request, f: Faults)
    requires id < |s.orders|
    ensures Debits(RunSaga(s, id, snap, r, f).s.ledger.txs, id) == Debits(s.ledger.txs, id) + Once(Charges(s, id, r, f))
  {
    var supplied, booked := AfterSupply(s, id, snap, r, f), AfterBooking(s, id, snap, r, f);
    ChargeDebits(s, id, r, f);
    SupplySpec(AfterCharge(s, id, r, f), snap, r, f);
    SagaStages(s, id, snap, r, f);
    BookingDebits(supplied, r.machine, f);
    BookingSpec(supplied, r.machine, f);
    RollbackDebits(booked, snap.isFood, r, f);
  }

  lemma ChargeDebits(s: State, id: nat, r: Request, f: Faults)
    requires id < |s.orders|
    ensures AfterCharge(s, id, r, f).id == id
    ensures Debits(AfterCharge(s, id, r, f).s.ledger.txs, id) == Debits(s.ledger.txs, id) + Once(Charges(s, id, r, f))
  {
    var o := s.orders[id];
    if Charges(s, id, r, f) { DebitsAppend(s.ledger.txs, Entry(s.ledger, o.user, Debit, OrderPayment, o.total, OrderRef(id)), id); }
  }

  /** A saga leaves its new order with money and status in step exactly when that guard holds. */
  lemma NewOrderConsistentIff(s: State, id: nat, snap: Machine, r: Request, f: Faults)
    requires id < |s.orders| && s.orders[id].status == Pending && Debits(s.ledger.txs, id) == 0
    requires FindRefund(s.ledger.txs, s.orders[id].user, OrderRef(id)).None?
    ensures
      var g := RunSaga(s, id, snap, r, f);
      && id < |g.s.orders| && (AccountOf(g.s, id).charged <==> Charges(s, id, r, f))
      && (Consistent(AccountOf(g.s, id)) <==> MoneyFits(s, id, snap, r, f))
  {
    var g := RunSaga(s, id, snap, r, f);
    SagaDebits(s, id, snap, r, f);
    StoredLiveIff(s, id, snap, r, f);
    if Charges(s, id, r, f) {
      ThrownPlacementRecordsRefundIff(s, id, snap, r, f);
      FindRefundIffCounted(g.s.ledger.txs, s.orders[id].user, OrderRef(id));
    }
  }

  /** No order of the user that the placement would cancel has been charged. */
  ghost predicate NoChargedPending(s: State, r: Request) {
    forall i | 0 <= i < |s.orders| && CancelledBy(s.orders[i], r) :: Debits(s.ledger.txs, i) == 0
  }

  /** The guard of a placement: on the orders it cancels, and on its own. */
  ghost predicate SafePlacement(s: State, r: Request, f: Faults) {
    && (Cancels(s, r, f) ==> NoChargedPending(s, r))
    && (Records(s, r, f) ==> MoneyFits(Recorded(s, r, f), |s.orders|, s.machines[r.machine], r, f))
  }

  /** A placement that stores an order ends with its money and status in step exactly when its own guard holds. */
  lemma PlacedOrderConsistentIff(s: State, r: Request, f: Faults)
    requires Books(s.orders, s.ledger)
    ensures |Place(s, r, f).0.orders| > |s.orders| <==> Records(s, r, f)
    ensures Records(s, r, f) ==>
              (Consistent(AccountOf(Place(s, r, f).0, |s.orders|)) <==>
                 MoneyFits(Recorded(s, r, f), |s.orders|, s.machines[r.machine], r, f))
  {
    PlaceIsTheSaga(s, r, f);
    if Records(s, r, f) {
      var s2, id := Recorded(s, r, f), |s.orders|;
      RecordedSpec(s, r, f);
      NoRecordsYet(s.orders, s.ledger.txs, id, r.user);
      FindRefundIffCounted(s.ledger.txs, r.user, OrderRef(id));
      NewOrderConsistentIff(s2, id, s.machines[r.machine], r, f);
      SagaIsLocal(s2, id, s.machines[r.machine], r, f);
    }
  }

  // ─── Money follows status, over every run ──────────────────────────────────

  ghost predicate MoneyFollowsStatus(s: State) {
    Books(s.orders, s.ledger) && forall i | 0 <= i < |s.orders| :: Consistent(AccountOf(s, i))
  }

  /** A timeout of an order whose price is kept has to record its refund once it has saved the failure. */
  predicate TimesOutSafely(a: Account, f: SettleFaults) {
    a.charged ==> f.save || !HoldsMoney(a) || (!f.free && f.refund == NoCreditFault)
  }

  /** Every order the sweep reaches times out safely. */
  predicate SweepsSafely(s: State, ids: seq<nat>, fs: seq<SettleFaults>)
    requires forall i | 0 <= i < |ids| :: ids[i] < |s.orders|
    decreases |ids|
  {
    ids != [] ==>
      && TimesOutSafely(AccountOf(s, ids[0]), FaultsNow(fs))
      && (SweepsOn(s, ids[0], FaultsNow(fs)) ==> SweepsSafely(TimeOut(s, ids[0], FaultsNow(fs)), ids[1..], FaultsLater(fs)))
  }

  /** What keeps money and status in step: the guard of the placement, of the settling event on its order, or of the sweep. */
  ghost predicate SafeEvent(s: State, e: Event) {
    && (e.Placing? ==> SafePlacement(s, e.request, e.faults))
    && (e.Ticking? ==> SweepsSafely(s, Swept(s.orders, e.cutoff), e.sweep))
    && (var target := Target(e);
        target.Some? && target.value < |s.orders| && AccountOf(s, target.value).charged ==>
          Safe(AccountOf(s, target.value), e, Stops(s, e, target.value), Final(s, e, target.value)))
  }

  lemma SettlingKeepsMoneyIff(s: State, e: Event, id: nat)
    requires MoneyFollowsStatus(s) && Target(e) == Some(id)
    ensures MoneyFollowsStatus(Apply(s, e)) <==> SafeEvent(s, e)
  {
    EventKeepsBooks(s, e);
    if id < |s.orders| {
      OthersUnchanged(s, e, id);
      assert OrderKept(s.orders, s.ledger, id) && Consistent(AccountOf(s, id));
      if AccountOf(s, id).charged {
        EventRefinesSettle(s, e, id);
        ConsistentAfterIffSafe(AccountOf(s, id), e, Stops(s, e, id), DispensedBy(s, e, id), s.orders[id].quantity);
      }
    }
  }

  /** One timeout: the other orders are left alone, and this one stays in step exactly when it times out safely. */
  lemma TimeOutConsistentIff(s: State, id: nat, f: SettleFaults)
    requires id < |s.orders| && Books(s.orders, s.ledger) && Consistent(AccountOf(s, id))
    ensures
      var s' := TimeOut(s, id, f);
      && |s'.orders| == |s.orders| && Books(s'.orders, s'.ledger)
      && (forall j | 0 <= j < |s.orders| && j != id :: s'.orders[j] == s.orders[j] && AccountOf(s', j) == AccountOf(s, j))
      && (Consistent(AccountOf(s', id)) <==> TimesOutSafely(AccountOf(s, id), f))
  {
    TimeOutSettles(s, id, f);
    SettlingKeepsBooks(s, TimeOut(s, id, f), id, f.refund);
    TimeOutMoves(s, id, f);
    MovedSpec(s, TimeOut(s, id, f), id, if f.save then s.orders[id].status else Failed, !f.save && !f.free, f.refund);
    assert OrderKept(s.orders, s.ledger, id);
  }

  /** A sweep keeps money and status in step exactly when every order it reaches times out safely. */
  lemma {:induction false} SweepKeepsMoneyIff(s: State, ids: seq<nat>, fs: seq<SettleFaults>)
    requires MoneyFollowsStatus(s) && Distinct(ids) && forall i | 0 <= i < |ids| :: ids[i] < |s.orders|
    ensures MoneyFollowsStatus(Sweep(s, ids, fs)) <==> SweepsSafely(s, ids, fs)
    decreases |ids|
  {
    if ids != [] {
      var id, f := ids[0], FaultsNow(fs);
      var s1, rest := TimeOut(s, id, f), ids[1..];
      TimeOutConsistentIff(s, id, f);
      assert forall i | 0 <= i < |rest| :: rest[i] == ids[i + 1];
      if !TimesOutSafely(AccountOf(s, id), f) {
        assert id !in rest;
        if SweepsOn(s, id, f) { SweepLeavesOthers(s1, rest, FaultsLater(fs), id); }
        assert !Consistent(AccountOf(Sweep(s, ids, fs), id));
      } else {
        assert MoneyFollowsStatus(s1);
        if SweepsOn(s, id, f) { SweepKeepsMoneyIff(s1, rest, FaultsLater(fs)); }
      }
    }
  }

  /** The orders that were there stay in step exactly when the placement cancels no charged one. */
  lemma CancellingKeepsMoneyIff(s: State, r: Request, f: Faults)
    requires forall i | 0 <= i < |s.orders| :: Consistent(AccountOf(s, i))
    ensures |s.orders| <= |Place(s, r, f).0.orders| <= |s.orders| + 1
    ensures (forall i | 0 <= i < |s.orders| :: Consistent(AccountOf(Place(s, r, f).0, i)))
       <==> (Cancels(s, r, f) ==> NoChargedPending(s, r))
  {
    PlaceIsLocal(s, r, f);
    var s' := Place(s, r, f).0;
    if Cancels(s, r, f) {
      forall i | 0 <= i < |s.orders| ensures Consistent(AccountOf(s', i)) <==> !(CancelledBy(s.orders[i], r) && Debits(s.ledger.txs, i) > 0) {
        assert Consistent(AccountOf(s, i));
        CancelledConsistentIff(AccountOf(s, i), AccountOf(s', i), CancelledBy(s.orders[i], r));
      }
    } else {
      assert forall i | 0 <= i < |s.orders| :: AccountOf(s', i) == AccountOf(s, i);
    }
  }

  lemma CancelledConsistentIff(a: Account, a': Account, cancelled: bool)
    requires Consistent(a) && (cancelled ==> a.status == Pending)
    requires a' == a.(status := if cancelled then Cancelled else a.status)
    ensures Consistent(a') <==> !(cancelled && a.charged)
  {
  }

  lemma OneMoreConsistentIff(s: State, n: nat)
    requires n <= |s.orders| <= n + 1 && Books(s.orders, s.ledger)
    ensures MoneyFollowsStatus(s)
       <==> (forall i | 0 <= i < n :: Consistent(AccountOf(s, i))) && (|s.orders| > n ==> Consistent(AccountOf(s, n)))
  {
  }

  lemma PlacingKeepsMoneyIff(s: State, r: Request, f: Faults)
    requires MoneyFollowsStatus(s)
    ensures MoneyFollowsStatus(Place(s, r, f).0) <==> SafePlacement(s, r, f)
  {
    PlaceKeepsBooks(s, r, f);
    CancellingKeepsMoneyIff(s, r, f);
    PlacedOrderConsistentIff(s, r, f);
    OneMoreConsistentIff(Place(s, r, f).0, |s.orders|);
  }

  /** A top-up is no order's record. */
  lemma ToppingUpKeepsAccounts(s: State, e: Event)
    requires e.ToppingUp? && OrdinaryTopup(e)
    ensures Apply(s, e).orders == s.orders && forall i | 0 <= i < |s.orders| :: AccountOf(Apply(s, e), i) == AccountOf(s, i)
  {
    if e.user in s.ledger.balances {
      var t := Entry(s.ledger, e.user, Credit, e.category, e.amount, External(e.text));
      forall i | 0 <= i < |s.orders| ensures AccountOf(Apply(s, e), i) == AccountOf(s, i) {
        RefundsAppend(s.ledger.txs, t, s.orders[i].user, OrderRef(i));
        DebitsAppend(s.ledger.txs, t, i);
      }
    }
  }

  /** From books in order, an event keeps money and status in step on every order exactly when it is safe. */
  lemma EventKeepsMoneyIff(s: State, e: Event)
    requires MoneyFollowsStatus(s) && OrdinaryTopup(e)
    ensures MoneyFollowsStatus(Apply(s, e)) <==> SafeEvent(s, e)
  {
    if Target(e).Some? {
      SettlingKeepsMoneyIff(s, e, Target(e).value);
    } else if e.Placing? {
      PlacingKeepsMoneyIff(s, e.request, e.faults);
    } else if e.Ticking? {
      SweptSpec(s.orders, e.cutoff);
      SweepKeepsMoneyIff(s, Swept(s.orders, e.cutoff), e.sweep);
    } else if e.ToppingUp? {
      EventKeepsBooks(s, e);
      ToppingUpKeepsAccounts(s, e);
    } else {
      var s' := Apply(s, e);
      assert s'.orders == s.orders && s'.ledger == s.ledger;
      assert forall i | 0 <= i < |s.orders| :: AccountOf(s', i) == AccountOf(s, i);
    }
  }

  ghost predicate SafeRun(s: State, events: seq<Event>)
    decreases |events|
  {
    events != [] ==> SafeEvent(s, events[0]) && SafeRun(Apply(s, events[0]), events[1..])
  }

  /** Money follows status at every point of the run. */
  ghost predicate MoneyFollowsThroughout(s: State, events: seq<Event>)
    decreases |events|
  {
    MoneyFollowsStatus(s) && (events != [] ==> MoneyFollowsThroughout(Apply(s, events[0]), events[1..]))
  }

  /** Money follows status throughout a run exactly when every event of it is safe. */
  lemma {:induction false} MoneyFollowsThroughoutIff(s: State, events: seq<Event>)
    requires MoneyFollowsStatus(s) && forall k | 0 <= k < |events| :: OrdinaryTopup(events[k])
    ensures MoneyFollowsThroughout(s, events) <==> SafeRun(s, events)
    ensures SafeRun(s, events) ==> MoneyFollowsStatus(Run(s, events))
    decreases |events|
  {
    if events != [] {
      assert OrdinaryTopup(events[0]);
      EventKeepsMoneyIff(s, events[0]);
      var s' := Apply(s, events[0]);
      if MoneyFollowsStatus(s') { MoneyFollowsThroughoutIff(s', events[1..]); }
    }
  }

  /**
   * In every run of safe events, whatever fails, an order that was charged has no refund while it is
   * pending, dispensing or completed, and exactly one otherwise.
   */
  lemma MoneyFollowsStatusInEveryRun(balances: map<UserId, int>, machines: Fleet, events: seq<Event>, i: nat)
    requires SafeRun(Fresh(balances, machines), events) && forall k | 0 <= k < |events| :: OrdinaryTopup(events[k])
    requires i < |Run(Fresh(balances, machines), events).orders|
    requires Debits(Run(Fresh(balances, machines), events).ledger.txs, i) > 0
    ensures
      var s := Run(Fresh(balances, machines), events);
      var o := s.orders[i];
      && Debits(s.ledger.txs, i) == 1
      && Refunds(s.ledger.txs, o.user, OrderRef(i))
         == if o.status == Pending || o.status == Dispensing || o.status == Completed then 0 else 1
  {
    MoneyFollowsThroughoutIff(Fresh(balances, machines), events);
    var s := Run(Fresh(balances, machines), events);
    assert OrderKept(s.orders, s.ledger, i);
    assert Consistent(AccountOf(s, i));
  }

  // ─── Runs that settle live orders ──────────────────────────────────────────

  /** With no call failing, settling a live charged order is safe exactly when its charge was stored, for the two calls that ask. */
  lemma SettlingLiveOrdersIsSafeIff(a: Account, e: Event, dispensed: int, quantity: nat)
    requires a.charged && Consistent(a) && (a.status == Pending || a.status == Dispensing)
    requires Target(e).Some? && e.failing == ALL_WORKS && (e.Update? ==> e.update != UHalf)
    ensures
      Safe(a, e, false, if e.Ack? then FinalStatus(e.ack, quantity, dispensed) else a.status) <==>
        && (e.Update? && e.update == UCancelled ==> a.status == Dispensing)
        && (e.Failing? ==> a.paid)
  {
  }

  /** A charge is stored with the order: it is paid, and no longer pending. */
  predicate Stored(s: State, i: nat)
    requires i < |s.orders|
  {
    Debits(s.ledger.txs, i) > 0 ==> s.orders[i].payment == Paid && s.orders[i].status != Pending
  }

  ghost predicate ChargesStored(s: State) {
    forall i | 0 <= i < |s.orders| :: Stored(s, i)
  }

  /** A placement whose rollback works, a settling call that works on a live order, or a sweep that works. */
  predicate Ordinary(s: State, e: Event) {
    && (e.Placing? ==> Recovers(e.faults))
    && (e.Ticking? ==> e.sweep == [])
    && (e.Update? ==> e.update != UHalf)
    && (Target(e).Some? ==>
          e.failing == ALL_WORKS && (Target(e).value < |s.orders| ==> s.orders[Target(e).value].Live()))
  }

  ghost predicate OrdinaryRun(s: State, events: seq<Event>)
    decreases |events|
  {
    events != [] ==> Ordinary(s, events[0]) && OrdinaryRun(Apply(s, events[0]), events[1..])
  }

  lemma {:induction false} WorkingSweepIsSafe(s: State, ids: seq<nat>)
    requires forall i | 0 <= i < |ids| :: ids[i] < |s.orders|
    ensures SweepsSafely(s, ids, [])
    decreases |ids|
  {
    if ids != [] && SweepsOn(s, ids[0], ALL_WORKS) { WorkingSweepIsSafe(TimeOut(s, ids[0], ALL_WORKS), ids[1..]); }
  }

  lemma NoneStops(s: State, e: Event, id: nat)
    requires Target(e) == Some(id) && id < |s.orders| && e.failing == ALL_WORKS
    ensures !Stops(s, e, id)
  {
  }

  /** A placement whose rollback works is safe where every charge is stored. */
  lemma RecoveringPlacementIsSafe(s: State, r: Request, f: Faults)
    requires ChargesStored(s) && Recovers(f)
    ensures SafePlacement(s, r, f)
  {
    forall i | 0 <= i < |s.orders| && CancelledBy(s.orders[i], r) ensures Debits(s.ledger.txs, i) == 0 {
      assert Stored(s, i);
    }
  }

  lemma OrdinaryIsSafe(s: State, e: Event)
    requires MoneyFollowsStatus(s) && ChargesStored(s) && Ordinary(s, e)
    ensures SafeEvent(s, e)
  {
    if Target(e).Some? {
      var id := Target(e).value;
      if id < |s.orders| && AccountOf(s, id).charged {
        assert Consistent(AccountOf(s, id)) && Stored(s, id);
        NoneStops(s, e, id);
        SettlingLiveOrdersIsSafeIff(AccountOf(s, id), e, DispensedBy(s, e, id), s.orders[id].quantity);
      }
    } else if e.Ticking? {
      WorkingSweepIsSafe(s, Swept(s.orders, e.cutoff));
    } else if e.Placing? {
      RecoveringPlacementIsSafe(s, e.request, e.faults);
    }
  }

  lemma TimeOutKeepsStored(s: State, id: nat, f: SettleFaults)
    requires id < |s.orders| && ChargesStored(s)
    ensures ChargesStored(TimeOut(s, id, f))
  {
    TimeOutMoves(s, id, f);
    MovedSpec(s, TimeOut(s, id, f), id, if f.save then s.orders[id].status else Failed, !f.save && !f.free, f.refund);
    forall i | 0 <= i < |s.orders| ensures Stored(TimeOut(s, id, f), i) {
      assert Stored(s, i);
      StoredThrough(s, TimeOut(s, id, f), i);
    }
  }

  lemma {:induction false} SweepKeepsStored(s: State, ids: seq<nat>, fs: seq<SettleFaults>)
    requires ChargesStored(s) && forall i | 0 <= i < |ids| :: ids[i] < |s.orders|
    ensures ChargesStored(Sweep(s, ids, fs))
    decreases |ids|
  {
    if ids != [] {
      TimeOutKeepsStored(s, ids[0], FaultsNow(fs));
      if SweepsOn(s, ids[0], FaultsNow(fs)) { SweepKeepsStored(TimeOut(s, ids[0], FaultsNow(fs)), ids[1..], FaultsLater(fs)); }
    }
  }

  /** An order that keeps its payment and debits, and does not become pending. */
  lemma StoredThrough(s: State, s': State, i: nat)
    requires i < |s.orders| && i < |s'.orders| && Stored(s, i)
    requires AccountOf(s', i).charged == AccountOf(s, i).charged && s'.orders[i].payment == s.orders[i].payment
    requires s'.orders[i].status == Pending ==> s.orders[i].status == Pending
    ensures Stored(s', i)
  {
  }

  lemma OldStored(s: State, r: Request, f: Faults, i: nat)
    requires i < |s.orders| && Stored(s, i)
    ensures i < |Place(s, r, f).0.orders| && Stored(Place(s, r, f).0, i)
  {
    PlaceIsLocal(s, r, f);
    StoredThrough(s, Place(s, r, f).0, i);
  }

  lemma PlacingKeepsStored(s: State, r: Request, f: Faults)
    requires Books(s.orders, s.ledger) && ChargesStored(s) && Recovers(f)
    ensures ChargesStored(Place(s, r, f).0)
  {
    var s' := Place(s, r, f).0;
    PlacedOrderConsistentIff(s, r, f);
    forall i | 0 <= i < |s'.orders| ensures Stored(s', i) {
      if i < |s.orders| {
        assert Stored(s, i);
        OldStored(s, r, f, i);
      } else {
        NewChargeIsStored(s, r, f);
      }
    }
  }

  lemma NewChargeIsStored(s: State, r: Request, f: Faults)
    requires Books(s.orders, s.ledger) && Recovers(f) && Records(s, r, f)
    ensures |Place(s, r, f).0.orders| == |s.orders| + 1 && Stored(Place(s, r, f).0, |s.orders|)
  {
    var s2, id := Recorded(s, r, f), |s.orders|;
    PlaceIsTheSaga(s, r, f);
    RecordedSpec(s, r, f);
    NoRecordsYet(s.orders, s.ledger.txs, id, r.user);
    SagaDebits(s2, id, s.machines[r.machine], r, f);
    SagaIsLocal(s2, id, s.machines[r.machine], r, f);
    if Charges(s2, id, r, f) { StoredAfterSaga(s2, id, s.machines[r.machine], r, f); }
  }

  lemma OrdinaryKeepsStored(s: State, e: Event)
    requires MoneyFollowsStatus(s) && ChargesStored(s) && Ordinary(s, e) && OrdinaryTopup(e)
    ensures ChargesStored(Apply(s, e))
  {
    var s' := Apply(s, e);
    if Target(e).Some? {
      var id := Target(e).value;
      if id < |s.orders| {
        SettledStatus(s, e, id);
        OthersUnchanged(s, e, id);
        forall i | 0 <= i < |s.orders| ensures Stored(s', i) {
          assert Stored(s, i);
          StoredThrough(s, s', i);
        }
      }
    } else if e.Placing? {
      PlacingKeepsStored(s, e.request, e.faults);
    } else if e.Ticking? {
      SweepKeepsStored(s, Swept(s.orders, e.cutoff), e.sweep);
    } else if e.ToppingUp? {
      ToppingUpKeepsAccounts(s, e);
      forall i | 0 <= i < |s.orders| ensures Stored(s', i) {
        assert Stored(s, i);
        StoredThrough(s, s', i);
      }
    } else {
      assert forall i | 0 <= i < |s.orders| :: Stored(s, i) ==> Stored(s', i);
    }
  }

  /** Every run whose rollbacks work and whose other calls work, on orders that are still live, is safe. */
  lemma {:induction false} OrdinaryRunsAreSafe(s: State, events: seq<Event>)
    requires MoneyFollowsStatus(s) && ChargesStored(s) && OrdinaryRun(s, events)
    requires forall k | 0 <= k < |events| :: OrdinaryTopup(events[k])
    ensures SafeRun(s, events)
    decreases |events|
  {
    if events != [] {
      assert OrdinaryTopup(events[0]);
      OrdinaryIsSafe(s, events[0]);
      EventKeepsMoneyIff(s, events[0]);
      OrdinaryKeepsStored(s, events[0]);
      OrdinaryRunsAreSafe(Apply(s, events[0]), events[1..]);
    }
  }

  // ─── What nobody asks for is not repaired ──────────────────────────────────

  /** The event is not about this order: it addresses another one, and a sweep or a placement passes it by. */
  predicate LeavesAlone(s: State, e: Event, i: nat)
    requires i < |s.orders|
  {
    Target(e) != Some(i) && !s.orders[i].Live()
  }

  lemma SettledOrderStays(s: State, e: Event, i: nat)
    requires i < |s.orders| && LeavesAlone(s, e, i) && OrdinaryTopup(e)
    ensures
      var s' := Apply(s, e);
      i < |s'.orders| && s'.orders[i] == s.orders[i] && AccountOf(s', i) == AccountOf(s, i)
  {
    if Target(e).Some? {
      if Target(e).value < |s.orders| { OthersUnchanged(s, e, Target(e).value); }
    } else if e.Placing? {
      PlaceIsLocal(s, e.request, e.faults);
    } else if e.Ticking? {
      SweptSpec(s.orders, e.cutoff);
      assert i !in Swept(s.orders, e.cutoff);
      SweepLeavesOthers(s, Swept(s.orders, e.cutoff), e.sweep, i);
    } else if e.ToppingUp? {
      ToppingUpKeepsAccounts(s, e);
    }
  }

  /**
   * A failure that was saved and whose refund failed stays unrefunded over every run in which no call
   * names the order again: sweeps look only for live orders.
   */
  lemma {:induction false} LostRefundIsNotRetried(s: State, events: seq<Event>, i: nat)
    requires i < |s.orders| && s.orders[i].status == Failed && !AccountOf(s, i).refunded
    requires forall k | 0 <= k < |events| :: Target(events[k]) != Some(i) && OrdinaryTopup(events[k])
    ensures
      var s' := Run(s, events);
      i < |s'.orders| && s'.orders[i] == s.orders[i] && AccountOf(s', i) == AccountOf(s, i)
    decreases |events|
  {
    if events != [] {
      assert Target(events[0]) != Some(i) && OrdinaryTopup(events[0]);
      SettledOrderStays(s, events[0], i);
      LostRefundIsNotRetried(Apply(s, events[0]), events[1..], i);
    }
  }
}
