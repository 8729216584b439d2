/** Over every run of whole calls, whatever fails: what the wallets hold, what the records explain, and the difference. */
module Balances {
  import opened Common
  import opened Wallet
  import opened Batches
  import opened Machines
  import opened Orders
  import opened OrderBooks
  import opened Lifecycle
  import opened Placement
  import opened WireFormat

  // ─── What one event moves without a record ─────────────────────────────────

  /** A refund call that moves money and fails to record it. */
  function LostIf(o: Order, moved: bool, fault: CreditFault, balances: map<UserId, int>): int {
    if moved && fault == CreditInsertFails && o.user in balances then o.total else 0
  }

  /** The unrecorded movements of a saga: its debit, and the refunds of its two handlers. */
  function SagaLost(s: State, id: nat, snap: Machine, r: Request, f: Faults): int
    requires id < |s.orders|
  {
    var o := s.orders[id];
    (if ChargesUnrecorded(s, id, r, f) then 0 - o.total else 0)
    + LostIf(o, InnerPays(s, id, snap, r, f), f.innerRefund, s.ledger.balances)
    + LostIf(o, OuterPays(s, id, snap, r, f), f.handlerRefund, s.ledger.balances)
  }

  /** The event attempts the refund of the order it addresses. */
  predicate Attempts(s: State, e: Event, id: nat)
    requires id < |s.orders|
  {
    Repays(AccountOf(s, id), e, Stops(s, e, id), Final(s, e, id))
  }

  function OrderLost(s: State, id: nat, fault: CreditFault): int
    requires id < |s.orders|
  {
    RefundLost(s.ledger, s.orders[id].user, s.orders[id].total, OrderRef(id), fault)
  }

  /** The unrecorded refunds of a sweep to the wallet of `v`. */
  function SweepLost(s: State, ids: seq<nat>, fs: seq<SettleFaults>, v: UserId): int
    requires forall i | 0 <= i < |ids| :: ids[i] < |s.orders|
    decreases |ids|
  {
    if ids == [] then 0
    else
      var id, f := ids[0], FaultsNow(fs);
      (if !f.save && !f.free && s.orders[id].user == v then OrderLost(s, id, f.refund) else 0)
      + if SweepsOn(s, id, f) then SweepLost(TimeOut(s, id, f), ids[1..], FaultsLater(fs), v) else 0
  }

  /** What an event adds to the wallet of `v` and leaves without a record; less than nothing for a lost debit. */
  function Lost(s: State, e: Event, v: UserId): int {
    match e
    case Placing(r, f) =>
      if Records(s, r, f) && r.user == v then SagaLost(Recorded(s, r, f), |s.orders|, s.machines[r.machine], r, f) else 0
    case Ticking(cutoff, fs) => SweepLost(s, Swept(s.orders, cutoff), fs, v)
    case ToppingUp(u, amount, _, _, fault) => if u == v then CreditLost(s.ledger, u, amount, fault) else 0
    case Stocking(_, _) => 0
    case _ =>
      var id := Target(e).value;
      if id < |s.orders| && s.orders[id].user == v && Attempts(s, e, id) then OrderLost(s, id, e.failing.refund) else 0
  }

  function RunLost(s: State, events: seq<Event>, v: UserId): int
    decreases |events|
  {
    if events == [] then 0 else Lost(s, events[0], v) + RunLost(Apply(s, events[0]), events[1..], v)
  }

  // ─── The saga ──────────────────────────────────────────────────────────────

  lemma ChargeWidens(s: State, id: nat, r: Request, f: Faults, v: UserId)
    requires id < |s.orders| && v in s.ledger.balances
    ensures
      var o, l := s.orders[id], AfterCharge(s, id, r, f).s.ledger;
      Widens(s.ledger, l, v, if v == o.user && ChargesUnrecorded(s, id, r, f) then 0 - o.total else 0)
  {
    DebitGap(s.ledger, s.orders[id].user, s.orders[id].total, OrderRef(id), f.deduct, v);
  }

  /** The ledger after the publish stage: that of the charge, and the inner refund if it was reached. */
  lemma PublishLedger(s: State, id: nat, snap: Machine, r: Request, f: Faults)
    requires id < |s.orders|
    ensures
      var o, l := s.orders[id], AfterCharge(s, id, r, f).s.ledger;
      AfterBooking(s, id, snap, r, f).s.ledger
      == if Supplied(s, id, snap, r, f) && f.publish && !f.innerSave
         then RefundCall(l, o.user, o.total, OrderRef(id), f.innerRefund).0 else l
  {
    ChargeEffects(s, id, r, f);
    SupplySpec(AfterCharge(s, id, r, f), snap, r, f);
    SagaIsDecided(s, id, snap, r, f);
    BookingSpec(AfterSupply(s, id, snap, r, f), r.machine, f);
  }

  /** The ledger at the end: the outer refund too, if it was reached. */
  lemma SagaLedger(s: State, id: nat, snap: Machine, r: Request, f: Faults)
    requires id < |s.orders| && s.orders[id].payment == Unpaid
    ensures
      var o, l := s.orders[id], AfterBooking(s, id, snap, r, f).s.ledger;
      RunSaga(s, id, snap, r, f).s.ledger
      == if Throws(s, id, snap, r, f) && !f.handlerSave && Charges(s, id, r, f)
         then RefundCall(l, o.user, o.total, OrderRef(id), f.handlerRefund).0 else l
  {
    ChargeEffects(s, id, r, f);
    SupplySpec(AfterCharge(s, id, r, f), snap, r, f);
    SagaIsDecided(s, id, snap, r, f);
    BookingSpec(AfterSupply(s, id, snap, r, f), r.machine, f);
    SagaStages(s, id, snap, r, f);
    RollbackSpec(AfterBooking(s, id, snap, r, f), snap.isFood, r, f);
  }

  lemma ChargeKeepsNoRefund(s: State, id: nat, r: Request, f: Faults)
    requires id < |s.orders| && FindRefund(s.ledger.txs, s.orders[id].user, OrderRef(id)).None?
    ensures
      var o, l := s.orders[id], AfterCharge(s, id, r, f).s.ledger;
      FindRefund(l.txs, o.user, OrderRef(id)).None? && l.balances.Keys == s.ledger.balances.Keys
  {
    var o := s.orders[id];
    if Charges(s, id, r, f) { NoRefundYet(s.ledger, o.user, o.total, OrderRef(id)); }
  }

  /** A refund call for a key without a record: it leaves one exactly when it works, on a wallet that exists. */
  lemma FirstRefund(l: Ledger, u: UserId, amount: nat, id: nat, fault: CreditFault)
    requires FindRefund(l.txs, u, OrderRef(id)).None?
    ensures FindRefund(RefundCall(l, u, amount, OrderRef(id), fault).0.txs, u, OrderRef(id)).Some?
       <==> fault == NoCreditFault && u in l.balances
  {
    FindRefundIffCounted(l.txs, u, OrderRef(id));
    FindRefundIffCounted(RefundCall(l, u, amount, OrderRef(id), fault).0.txs, u, OrderRef(id));
    RefundCounts(l, u, amount, id, fault);
  }

  /** Over the whole saga a wallet's gap changes by exactly the saga's unrecorded movements. */
  lemma SagaWidens(s: State, id: nat, snap: Machine, r: Request, f: Faults, v: UserId)
    requires id < |s.orders| && s.orders[id].payment == Unpaid && v in s.ledger.balances
    requires FindRefund(s.ledger.txs, s.orders[id].user, OrderRef(id)).None?
    ensures Widens(s.ledger, RunSaga(s, id, snap, r, f).s.ledger, v, if v == s.orders[id].user then SagaLost(s, id, snap, r, f) else 0)
  {
    var o, ref := s.orders[id], OrderRef(id);
    var l1, l2, l3 := AfterCharge(s, id, r, f).s.ledger, AfterBooking(s, id, snap, r, f).s.ledger, RunSaga(s, id, snap, r, f).s.ledger;
    ChargeWidens(s, id, r, f, v);
    ChargeKeepsNoRefund(s, id, r, f);
    PublishLedger(s, id, snap, r, f);
    SagaLedger(s, id, snap, r, f);
    RefundGap(l1, o.user, o.total, ref, f.innerRefund, v);
    FirstRefund(l1, o.user, o.total, id, f.innerRefund);
    RefundGap(l2, o.user, o.total, ref, f.handlerRefund, v);
    var inner := LostIf(o, InnerPays(s, id, snap, r, f), f.innerRefund, s.ledger.balances);
    var outer := LostIf(o, OuterPays(s, id, snap, r, f), f.handlerRefund, s.ledger.balances);
    assert Widens(l1, l2, v, if v == o.user then inner else 0);
    assert Widens(l2, l3, v, if v == o.user then outer else 0);
  }

  // ─── Every event ───────────────────────────────────────────────────────────

  /** Records under order keys belong to orders that exist. */
  ghost predicate KeysTaken(s: State) {
    forall k | 0 <= k < |s.ledger.txs| :: s.ledger.txs[k].ref.OrderRef? ==> s.ledger.txs[k].ref.order < |s.orders|
  }

  lemma {:induction false} FreeKey(txs: seq<Transaction>, u: UserId, id: nat)
    requires forall k | 0 <= k < |txs| :: txs[k].ref != OrderRef(id)
    ensures FindRefund(txs, u, OrderRef(id)).None?
  {
  }

  lemma PlacingWidens(s: State, r: Request, f: Faults, v: UserId)
    requires KeysTaken(s) && v in s.ledger.balances
    ensures Widens(s.ledger, Place(s, r, f).0.ledger, v, Lost(s, Placing(r, f), v))
  {
    PlaceIsTheSaga(s, r, f);
    if Records(s, r, f) {
      RecordedSpec(s, r, f);
      FreeKey(s.ledger.txs, r.user, |s.orders|);
      SagaWidens(Recorded(s, r, f), |s.orders|, s.machines[r.machine], r, f, v);
    }
  }

  lemma MovedWidens(s: State, s': State, id: nat, status: Status, repaid: bool, fault: CreditFault, v: UserId)
    requires id < |s.orders| && Moved(s, s', id, status, repaid, fault) && v in s.ledger.balances
    ensures Widens(s.ledger, s'.ledger, v, if repaid && v == s.orders[id].user then OrderLost(s, id, fault) else 0)
  {
    RefundGap(s.ledger, s.orders[id].user, s.orders[id].total, OrderRef(id), fault, v);
  }

  lemma SettlingWidens(s: State, e: Event, id: nat, v: UserId)
    requires Target(e) == Some(id) && id < |s.orders| && v in s.ledger.balances
    ensures Widens(s.ledger, Apply(s, e).ledger, v, if v == s.orders[id].user && Attempts(s, e, id) then OrderLost(s, id, e.failing.refund) else 0)
  {
    if s.orders[id].user in s.ledger.balances {
      EventMoves(s, e, id);
      MovedWidens(s, Apply(s, e), id, Apply(s, e).orders[id].status, Attempts(s, e, id), e.failing.refund, v);
    } else {
      EventSettles(s, e, id);
    }
  }

  lemma {:induction false} SweepWidens(s: State, ids: seq<nat>, fs: seq<SettleFaults>, v: UserId)
    requires v in s.ledger.balances && forall i | 0 <= i < |ids| :: ids[i] < |s.orders|
    ensures Widens(s.ledger, Sweep(s, ids, fs).ledger, v, SweepLost(s, ids, fs, v))
    decreases |ids|
  {
    if ids != [] {
      var id, f := ids[0], FaultsNow(fs);
      var s1 := TimeOut(s, id, f);
      TimeOutMoves(s, id, f);
      MovedWidens(s, s1, id, if f.save then s.orders[id].status else Failed, !f.save && !f.free, f.refund, v);
      if SweepsOn(s, id, f) { SweepWidens(s1, ids[1..], FaultsLater(fs), v); }
    }
  }

  lemma EventWidens(s: State, e: Event, v: UserId)
    requires KeysTaken(s) && v in s.ledger.balances
    ensures Widens(s.ledger, Apply(s, e).ledger, v, Lost(s, e, v))
  {
    if Target(e).Some? {
      if Target(e).value < |s.orders| { SettlingWidens(s, e, Target(e).value, v); }
    } else if e.Placing? {
      PlacingWidens(s, e.request, e.faults, v);
    } else if e.Ticking? {
      SweepWidens(s, Swept(s.orders, e.cutoff), e.sweep, v);
    } else if e.ToppingUp? {
      CreditGap(s.ledger, e.user, e.category, e.amount, External(e.text), e.fault, v);
    }
  }

  lemma {:induction false} SweepKeepsKeys(s: State, ids: seq<nat>, fs: seq<SettleFaults>)
    requires KeysTaken(s) && forall i | 0 <= i < |ids| :: ids[i] < |s.orders|
    ensures KeysTaken(Sweep(s, ids, fs))
    decreases |ids|
  {
    if ids != [] {
      TimeOutSettles(s, ids[0], FaultsNow(fs));
      SettlingKeepsKeys(s, TimeOut(s, ids[0], FaultsNow(fs)), ids[0], FaultsNow(fs).refund);
      if SweepsOn(s, ids[0], FaultsNow(fs)) { SweepKeepsKeys(TimeOut(s, ids[0], FaultsNow(fs)), ids[1..], FaultsLater(fs)); }
    }
  }

  lemma SettlingKeepsKeys(s: State, s': State, id: nat, fault: CreditFault)
    requires id < |s.orders| && KeysTaken(s) && Settles(s, s', id, fault)
    ensures KeysTaken(s')
  {
    RefundExtends(s.ledger, s.orders[id].user, s.orders[id].total, id, fault);
    ExtensionKeepsKeys(s, s', id);
  }

  lemma ExtensionKeepsKeys(s: State, s': State, id: nat)
    requires KeysTaken(s) && Extends(s.ledger, s'.ledger, id) && |s.orders| <= |s'.orders| && id < |s'.orders|
    ensures KeysTaken(s')
  {
    forall k | 0 <= k < |s'.ledger.txs| && s'.ledger.txs[k].ref.OrderRef? ensures s'.ledger.txs[k].ref.order < |s'.orders| {
      if k < |s.ledger.txs| { assert s'.ledger.txs[..|s.ledger.txs|][k] == s.ledger.txs[k]; }
    }
  }

  lemma EventKeepsKeys(s: State, e: Event)
    requires KeysTaken(s)
    ensures KeysTaken(Apply(s, e))
  {
    if Target(e).Some? {
      var id := Target(e).value;
      if id < |s.orders| {
        EventSettles(s, e, id);
        SettlingKeepsKeys(s, Apply(s, e), id, e.failing.refund);
      }
    } else if e.Placing? {
      PlaceIsTheSaga(s, e.request, e.faults);
      if Records(s, e.request, e.faults) {
        var s2 := Recorded(s, e.request, e.faults);
        RecordedSpec(s, e.request, e.faults);
        SagaIsLocal(s2, |s.orders|, s.machines[e.request.machine], e.request, e.faults);
        ExtensionKeepsKeys(s2, Apply(s, e), |s.orders|);
      }
    } else if e.Ticking? {
      SweepKeepsKeys(s, Swept(s.orders, e.cutoff), e.sweep);
    }
  }

  // ─── Every run ─────────────────────────────────────────────────────────────

  lemma {:induction false} RunWidens(s: State, events: seq<Event>, v: UserId)
    requires KeysTaken(s) && v in s.ledger.balances
    ensures Widens(s.ledger, Run(s, events).ledger, v, RunLost(s, events, v))
    decreases |events|
  {
    if events != [] {
      EventWidens(s, events[0], v);
      EventKeepsKeys(s, events[0]);
      RunWidens(Apply(s, events[0]), events[1..], v);
    }
  }

  /**
   * In every run of whole calls, whatever fails: no wallet is ever overdrawn, and each holds its initial
   * balance plus its recorded credits less its recorded debits plus what calls moved without a record.
   * The records explain a balance exactly when those unrecorded movements cancel out.
   */
  lemma EveryRunBacksTheBalances(balances: map<UserId, int>, machines: Fleet, events: seq<Event>, v: UserId)
    requires v in balances && balances[v] >= 0
    ensures
      var l, lost := Run(Fresh(balances, machines), events).ledger, RunLost(Fresh(balances, machines), events, v);
      && l.balances.Keys == balances.Keys && l.balances[v] >= 0
      && l.balances[v] == balances[v] + Net(l.txs, v) + lost
      && (l.balances[v] == balances[v] + Net(l.txs, v) <==> lost == 0)
  {
    RunWidens(Fresh(balances, machines), events, v);
  }
}
