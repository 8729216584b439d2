/** Over every run, with any call failing anywhere: at most one recorded debit and one refund per order. */
module OrderBooks {
  import opened Common
  import opened Wallet
  import opened Machines
  import opened Orders
  import opened WireFormat
  import Placement

  /** Recorded debits of order number `id`. */
  function Debits(txs: seq<Transaction>, id: nat): nat {
    if txs == [] then 0
    else Debits(txs[..|txs| - 1], id)
         + if txs[|txs| - 1].ref == OrderRef(id) && txs[|txs| - 1].kind == Debit then 1 else 0
  }

  /** What the records under an order's key add to its customer's balance. */
  function Effect(txs: seq<Transaction>, id: nat): int {
    if txs == [] then 0
    else Effect(txs[..|txs| - 1], id) + if txs[|txs| - 1].ref == OrderRef(id) then txs[|txs| - 1].Signed() else 0
  }

  lemma DebitsAppend(txs: seq<Transaction>, t: Transaction, id: nat)
    ensures Debits(txs + [t], id) == Debits(txs, id) + if t.ref == OrderRef(id) && t.kind == Debit then 1 else 0
  {
  }

  /** A record under an order's key is a payment or a refund of that order: its user, its total. */
  predicate Belongs(orders: seq<Order>, t: Transaction) {
    t.ref.OrderRef? ==>
      && t.ref.order < |orders|
      && t.user == orders[t.ref.order].user && t.amount == orders[t.ref.order].total
      && (t.kind == Debit <==> t.category == OrderPayment) && (t.kind == Credit <==> t.category == Refund)
  }

  /** The stored payment of an order never runs ahead of its records. */
  ghost predicate OrderKept(orders: seq<Order>, l: Ledger, i: nat)
    requires i < |orders|
  {
    && Debits(l.txs, i) <= 1
    && Refunds(l.txs, orders[i].user, OrderRef(i)) <= 1
    && (orders[i].payment == Paid ==> Debits(l.txs, i) == 1)
    && (Debits(l.txs, i) == 1 ==> orders[i].user in l.balances)
  }

  ghost predicate Books(orders: seq<Order>, l: Ledger) {
    && (forall k | 0 <= k < |l.txs| :: Belongs(orders, l.txs[k]))
    && (forall i | 0 <= i < |orders| :: OrderKept(orders, l, i))
  }

  /** The records of one order add up to its refunds less its debits, times its total. */
  lemma {:induction false} EffectIsRefundsLessDebits(orders: seq<Order>, txs: seq<Transaction>, i: nat)
    requires i < |orders| && forall k | 0 <= k < |txs| :: Belongs(orders, txs[k])
    ensures Effect(txs, i) == orders[i].total * (Refunds(txs, orders[i].user, OrderRef(i)) - Debits(txs, i))
  {
    if txs != [] {
      var front, t := txs[..|txs| - 1], txs[|txs| - 1];
      EffectIsRefundsLessDebits(orders, front, i);
      assert Belongs(orders, t);
      OneMoreRecord(orders[i].total, Refunds(front, orders[i].user, OrderRef(i)) - Debits(front, i));
    }
  }

  lemma OneMoreRecord(total: nat, n: int)
    ensures total * (n + 1) == total * n + total && total * (n - 1) == total * n - total
  {
  }

  lemma {:induction false} NoRecordsYet(orders: seq<Order>, txs: seq<Transaction>, id: nat, u: UserId)
    requires id >= |orders| && forall k | 0 <= k < |txs| :: Belongs(orders, txs[k])
    ensures Debits(txs, id) == 0 && Refunds(txs, u, OrderRef(id)) == 0
  {
    if txs != [] {
      NoRecordsYet(orders, txs[..|txs| - 1], id, u);
      assert Belongs(orders, txs[|txs| - 1]);
    }
  }

  // ─── Orders that differ only in status keep the same books ─────────────────

  ghost predicate SameAccounts(orders: seq<Order>, orders': seq<Order>) {
    && |orders'| == |orders|
    && forall i | 0 <= i < |orders| ::
         && orders'[i].user == orders[i].user && orders'[i].total == orders[i].total
         && (orders'[i].payment == Paid ==> orders[i].payment == Paid)
  }

  lemma AccountsKeepBooks(orders: seq<Order>, orders': seq<Order>, l: Ledger)
    requires Books(orders, l) && SameAccounts(orders, orders')
    ensures Books(orders', l)
  {
    forall k | 0 <= k < |l.txs| ensures Belongs(orders', l.txs[k]) {
      assert Belongs(orders, l.txs[k]);
    }
    forall i | 0 <= i < |orders| ensures OrderKept(orders', l, i) {
      assert OrderKept(orders, l, i);
    }
  }

  /** Moving a balance without a record is invisible to the books. */
  lemma ShiftKeepsBooks(orders: seq<Order>, l: Ledger, u: UserId, delta: int)
    requires Books(orders, l) && u in l.balances
    ensures Books(orders, Shift(l, u, delta))
  {
    var l' := Shift(l, u, delta);
    forall i | 0 <= i < |orders| ensures OrderKept(orders, l', i) {
      assert OrderKept(orders, l, i);
    }
  }

  lemma PostKeepsBooks(orders: seq<Order>, l: Ledger, u: UserId, kind: Kind, category: Category, amount: nat, ref: Ref)
    requires Books(orders, l) && u in l.balances
    requires Belongs(orders, Entry(l, u, kind, category, amount, ref))
    requires ref.OrderRef? ==> if kind == Debit then Debits(l.txs, ref.order) == 0 else Refunds(l.txs, u, ref) == 0
    ensures Books(orders, Post(l, u, kind, category, amount, ref))
  {
    var t := Entry(l, u, kind, category, amount, ref);
    var l' := Post(l, u, kind, category, amount, ref);
    forall k | 0 <= k < |l'.txs| ensures Belongs(orders, l'.txs[k]) {
      if k < |l.txs| { assert l'.txs[k] == l.txs[k]; }
    }
    forall i | 0 <= i < |orders| ensures OrderKept(orders, l', i) {
      assert OrderKept(orders, l, i);
      DebitsAppend(l.txs, t, i);
      RefundsAppend(l.txs, t, orders[i].user, OrderRef(i));
    }
  }

  /** The refund guard keeps the second refund of an order out. */
  lemma RefundKeepsBooks(orders: seq<Order>, l: Ledger, id: nat, fault: CreditFault)
    requires id < |orders| && Books(orders, l)
    ensures Books(orders, RefundCall(l, orders[id].user, orders[id].total, OrderRef(id), fault).0)
  {
    var u := orders[id].user;
    FindRefundIffCounted(l.txs, u, OrderRef(id));
    if fault != BeforeCredit && FindRefund(l.txs, u, OrderRef(id)).None? && u in l.balances {
      if fault == CreditInsertFails {
        ShiftKeepsBooks(orders, l, u, orders[id].total);
      } else {
        PostKeepsBooks(orders, l, u, Credit, Refund, orders[id].total, OrderRef(id));
      }
    }
  }

  // ─── The placement saga ────────────────────────────────────────────────────

  /** Books of the stored state, and the order in memory is no further than its records. */
  ghost predicate SagaBooks(g: Saga) {
    && g.Ok() && Books(g.s.orders, g.s.ledger)
    && g.mem.user == g.s.orders[g.id].user && g.mem.total == g.s.orders[g.id].total
    && (g.mem.payment == Paid ==> Debits(g.s.ledger.txs, g.id) == 1)
  }

  lemma SaveKeepsBooks(g: Saga)
    requires SagaBooks(g)
    ensures SagaBooks(g.Save())
  {
    var orders' := g.s.orders[g.id := g.mem];
    forall k | 0 <= k < |g.s.ledger.txs| ensures Belongs(orders', g.s.ledger.txs[k]) {
      assert Belongs(g.s.orders, g.s.ledger.txs[k]);
    }
    forall i | 0 <= i < |orders'| ensures OrderKept(orders', g.s.ledger, i) {
      assert OrderKept(g.s.orders, g.s.ledger, i);
    }
  }

  lemma ChargeKeepsBooks(s: State, id: nat, bypass: bool, f: Faults)
    requires id < |s.orders| && Books(s.orders, s.ledger)
    requires Debits(s.ledger.txs, id) == 0 && s.orders[id].payment == Unpaid
    ensures SagaBooks(Charge(s, id, bypass, f))
  {
    var o := s.orders[id];
    var (l, r) := DeductCall(s.ledger, o.user, o.total, OrderRef(id), f.deduct);
    if bypass {
      var g := Saga(s, id, o.(payment := Bypass, status := Dispensing), false, None, None);
      SaveKeepsBooks(g);
    } else if r.Ok? {
      PostKeepsBooks(s.orders, s.ledger, o.user, Debit, OrderPayment, o.total, OrderRef(id));
      DebitsAppend(s.ledger.txs, r.value, id);
      var g := Saga(s.(ledger := l), id, o.(payment := Paid, status := Dispensing), false, None, None);
      SaveKeepsBooks(g);
    } else if l != s.ledger {
      ShiftKeepsBooks(s.orders, s.ledger, o.user, 0 - o.total);
    }
  }

  lemma SagaRefundKeepsBooks(g: Saga, fault: CreditFault)
    requires SagaBooks(g)
    ensures SagaBooks(g.(s := g.s.(ledger := SagaRefund(g, fault).0)))
  {
    var l := SagaRefund(g, fault).0;
    RefundKeepsBooks(g.s.orders, g.s.ledger, g.id, fault);
    if l.txs != g.s.ledger.txs {
      DebitsAppend(g.s.ledger.txs, l.txs[|g.s.ledger.txs|], g.id);
    }
  }

  lemma PublishKeepsBooks(g: Saga, f: Faults)
    requires SagaBooks(g)
    ensures SagaBooks(Publish(g, f))
  {
    if g.error.None? && f.publish && !f.innerSave {
      var failed := g.(mem := g.mem.(status := Failed));
      SaveKeepsBooks(failed);
      SagaRefundKeepsBooks(failed.Save(), f.innerRefund);
    }
  }

  lemma RollbackKeepsBooks(g: Saga, isFood: bool, r: Request, f: Faults)
    requires SagaBooks(g)
    ensures SagaBooks(Rollback(g, isFood, r, f))
  {
    if g.error.Some? && !f.handlerSave {
      var failed := g.(mem := g.mem.(status := Failed));
      SaveKeepsBooks(failed);
      if g.mem.payment.Paid? { SagaRefundKeepsBooks(failed.Save(), f.handlerRefund); }
    }
  }

  lemma SupplyKeepsBooks(g: Saga, snap: Machine, r: Request, f: Faults)
    requires SagaBooks(g)
    ensures SagaBooks(Allocate(g, snap, r, f))
  {
    Placement.SupplySpec(g, snap, r, f);
  }

  lemma BookingKeepsBooks(g: Saga, m: MachineId, f: Faults)
    requires SagaBooks(g)
    ensures SagaBooks(Bookkeep(Publish(g, f), m, f))
  {
    PublishKeepsBooks(g, f);
  }

  lemma SagaKeepsBooks(s: State, id: nat, snap: Machine, r: Request, f: Faults)
    requires id < |s.orders| && Books(s.orders, s.ledger)
    requires Debits(s.ledger.txs, id) == 0 && s.orders[id].payment == Unpaid
    ensures SagaBooks(RunSaga(s, id, snap, r, f))
  {
    ChargeKeepsBooks(s, id, r.bypass, f);
    Placement.SagaStages(s, id, snap, r, f);
    SupplyKeepsBooks(Placement.AfterCharge(s, id, r, f), snap, r, f);
    BookingKeepsBooks(Placement.AfterSupply(s, id, snap, r, f), r.machine, f);
    RollbackKeepsBooks(Placement.AfterBooking(s, id, snap, r, f), snap.isFood, r, f);
  }

  lemma PlaceKeepsBooks(s: State, r: Request, f: Faults)
    requires Books(s.orders, s.ledger)
    ensures Books(Place(s, r, f).0.orders, Place(s, r, f).0.ledger)
  {
    Placement.PlaceIsTheSaga(s, r, f);
    var cancelled := CancelPending(s.orders, r.user, r.machine);
    AccountsKeepBooks(s.orders, cancelled, s.ledger);
    if Placement.Records(s, r, f) {
      var s2, id := Placement.Recorded(s, r, f), |s.orders|;
      Placement.RecordedSpec(s, r, f);
      NewOrderKeepsBooks(cancelled, s.ledger, s2.orders[id]);
      NoRecordsYet(cancelled, s.ledger.txs, id, r.user);
      SagaKeepsBooks(s2, id, s.machines[r.machine], r, f);
    }
  }

  lemma NewOrderKeepsBooks(orders: seq<Order>, l: Ledger, o: Order)
    requires Books(orders, l) && o.payment == Unpaid
    ensures Books(orders + [o], l)
  {
    var orders' := orders + [o];
    forall k | 0 <= k < |l.txs| ensures Belongs(orders', l.txs[k]) {
      assert Belongs(orders, l.txs[k]);
    }
    NoRecordsYet(orders, l.txs, |orders|, o.user);
    forall i | 0 <= i < |orders'| ensures OrderKept(orders', l, i) {
      if i < |orders| { assert OrderKept(orders, l, i); }
    }
  }

  // ─── Every event, every run ────────────────────────────────────────────────

  /** The next state differs from this one by the status of one order and by an attempt to refund it, as far as it got. */
  ghost predicate Settles(s: State, s': State, id: nat, fault: CreditFault)
    requires id < |s.orders|
  {
    && |s'.orders| == |s.orders|
    && s'.orders == s.orders[id := s.orders[id].(status := s'.orders[id].status)]
    && (s'.ledger == s.ledger || s'.ledger == Reimburse(s, id, fault).ledger)
  }

  lemma AckSettles(s: State, id: nat, status: AckStatus, ord: Option<string>, f: SettleFaults)
    requires id < |s.orders|
    ensures Settles(s, HandleAck(s, id, status, ord, f), id, f.refund)
  {
    assert s.orders[id := s.orders[id]] == s.orders;
  }

  lemma EventSettles(s: State, e: Event, id: nat)
    requires Target(e) == Some(id) && id < |s.orders|
    ensures Settles(s, Apply(s, e), id, e.failing.refund)
  {
    assert s.orders[id := s.orders[id]] == s.orders;
    if e.Ack? { AckSettles(s, id, e.ack, e.ord, e.failing); }
  }

  lemma TimeOutSettles(s: State, id: nat, f: SettleFaults)
    requires id < |s.orders|
    ensures Settles(s, TimeOut(s, id, f), id, f.refund)
  {
    assert s.orders[id := s.orders[id]] == s.orders;
  }

  lemma SettlingKeepsBooks(s: State, s': State, id: nat, fault: CreditFault)
    requires id < |s.orders| && Books(s.orders, s.ledger) && Settles(s, s', id, fault)
    ensures Books(s'.orders, s'.ledger)
  {
    RefundKeepsBooks(s.orders, s.ledger, id, fault);
    AccountsKeepBooks(s.orders, s'.orders, s'.ledger);
  }

  lemma {:induction false} SweepKeepsBooks(s: State, ids: seq<nat>, fs: seq<SettleFaults>)
    requires (forall i | 0 <= i < |ids| :: ids[i] < |s.orders|) && Books(s.orders, s.ledger)
    ensures Books(Sweep(s, ids, fs).orders, Sweep(s, ids, fs).ledger) && |Sweep(s, ids, fs).orders| == |s.orders|
    decreases |ids|
  {
    if ids != [] {
      var f := FaultsNow(fs);
      TimeOutSettles(s, ids[0], f);
      SettlingKeepsBooks(s, TimeOut(s, ids[0], f), ids[0], f.refund);
      if SweepsOn(s, ids[0], f) { SweepKeepsBooks(TimeOut(s, ids[0], f), ids[1..], FaultsLater(fs)); }
    }
  }

  lemma ToppingUpKeepsBooks(s: State, u: UserId, amount: nat, category: Category, text: string, fault: CreditFault)
    requires Books(s.orders, s.ledger) && category != Refund && category != OrderPayment
    ensures Books(s.orders, CreditCall(s.ledger, u, category, amount, External(text), fault).0)
  {
    if u in s.ledger.balances {
      if fault == CreditInsertFails {
        ShiftKeepsBooks(s.orders, s.ledger, u, amount);
      } else {
        PostKeepsBooks(s.orders, s.ledger, u, Credit, category, amount, External(text));
      }
    }
  }

  /** Top-ups carry a top-up category; their reference is text, never an order's key. */
  predicate OrdinaryTopup(e: Event) {
    e.ToppingUp? ==> e.category != Refund && e.category != OrderPayment
  }

  lemma EventKeepsBooks(s: State, e: Event)
    requires Books(s.orders, s.ledger) && OrdinaryTopup(e)
    ensures Books(Apply(s, e).orders, Apply(s, e).ledger)
  {
    if Target(e).Some? {
      var id := Target(e).value;
      if id < |s.orders| {
        EventSettles(s, e, id);
        SettlingKeepsBooks(s, Apply(s, e), id, e.failing.refund);
      }
    } else if e.Placing? {
      PlaceKeepsBooks(s, e.request, e.faults);
    } else if e.Ticking? {
      SweepKeepsBooks(s, Swept(s.orders, e.cutoff), e.sweep);
    } else if e.ToppingUp? {
      ToppingUpKeepsBooks(s, e.user, e.amount, e.category, e.text, e.fault);
    }
  }

  lemma {:induction false} RunKeepsBooks(s: State, events: seq<Event>)
    requires Books(s.orders, s.ledger) && forall k | 0 <= k < |events| :: OrdinaryTopup(events[k])
    ensures Books(Run(s, events).orders, Run(s, events).ledger)
    decreases |events|
  {
    if events != [] {
      assert OrdinaryTopup(events[0]);
      EventKeepsBooks(s, events[0]);
      RunKeepsBooks(Apply(s, events[0]), events[1..]);
    }
  }

  /** What the books say about one order. */
  ghost predicate SettledByRecords(s: State, i: nat)
    requires i < |s.orders|
  {
    var o := s.orders[i];
    var debits, refunds := Debits(s.ledger.txs, i), Refunds(s.ledger.txs, o.user, OrderRef(i));
    && debits <= 1 && refunds <= 1
    && (o.payment == Paid ==> debits == 1)
    && (debits == 1 ==> Effect(s.ledger.txs, i) == if refunds == 1 then 0 else 0 - o.total)
    && (debits == 0 ==> Effect(s.ledger.txs, i) == if refunds == 1 then o.total else 0)
  }

  lemma BooksSettle(s: State, i: nat)
    requires i < |s.orders| && Books(s.orders, s.ledger)
    ensures SettledByRecords(s, i)
  {
    assert OrderKept(s.orders, s.ledger, i);
    EffectIsRefundsLessDebits(s.orders, s.ledger.txs, i);
    var refunds := Refunds(s.ledger.txs, s.orders[i].user, OrderRef(i));
    assert refunds == 0 || refunds == 1;
  }

  /**
   * Over every run of whole calls, in any order and with repetition, whatever fails: each order has at
   * most one debit and at most one refund on record, both for its total. A charged order's records come
   * to 0 or minus its total; an order that was never charged can still be refunded, by the timeout or by
   * an admin, and then its records come to its total.
   */
  lemma EveryRunKeepsTheBooks(balances: map<UserId, int>, machines: Fleet, events: seq<Event>)
    requires forall k | 0 <= k < |events| :: OrdinaryTopup(events[k])
    ensures
      var s := Run(Fresh(balances, machines), events);
      && (forall k | 0 <= k < |s.ledger.txs| :: Belongs(s.orders, s.ledger.txs[k]))
      && (forall i | 0 <= i < |s.orders| :: SettledByRecords(s, i))
  {
    var s := Run(Fresh(balances, machines), events);
    RunKeepsBooks(Fresh(balances, machines), events);
    forall i | 0 <= i < |s.orders| ensures SettledByRecords(s, i) {
      BooksSettle(s, i);
    }
  }

  lemma EffectAppend(txs: seq<Transaction>, t: Transaction, i: nat)
    ensures Effect(txs + [t], i) == Effect(txs, i) + if t.ref == OrderRef(i) then t.Signed() else 0
  {
    assert (txs + [t])[..|txs|] == txs;
  }

  /** The guard looks only for earlier refunds: without one, the total is credited, charged or not. */
  lemma FirstRefundCredits(s: State, i: nat)
    requires i < |s.orders| && s.orders[i].user in s.ledger.balances
    requires Refunds(s.ledger.txs, s.orders[i].user, OrderRef(i)) == 0
    ensures Reimburse(s, i, NoCreditFault).ledger == Post(s.ledger, s.orders[i].user, Credit, Refund, s.orders[i].total, OrderRef(i))
  {
    FindRefundIffCounted(s.ledger.txs, s.orders[i].user, OrderRef(i));
  }

  /**
   * A first admin refund leaves the order's records at 0 exactly when the order was free, or charged and
   * the refund recorded, or neither.
   */
  lemma AdminRefundSettlesIff(s: State, i: nat, f: SettleFaults)
    requires i < |s.orders| && s.orders[i].status != Refunded && s.orders[i].user in s.ledger.balances
    requires Books(s.orders, s.ledger) && Refunds(s.ledger.txs, s.orders[i].user, OrderRef(i)) == 0
    ensures
      Effect(RefundOrder(s, i, f).0.ledger.txs, i) == 0 <==>
        s.orders[i].total == 0 || (Debits(s.ledger.txs, i) == 1 <==> f.refund == NoCreditFault)
  {
    BooksSettle(s, i);
    FindRefundIffCounted(s.ledger.txs, s.orders[i].user, OrderRef(i));
    EffectAppend(s.ledger.txs, Entry(s.ledger, s.orders[i].user, Credit, Refund, s.orders[i].total, OrderRef(i)), i);
  }

  /** An order that was never charged is credited by an admin refund. */
  lemma UnchargedOrderIsCredited(s: State, i: nat)
    requires i < |s.orders| && s.orders[i].status != Refunded && s.orders[i].user in s.ledger.balances
    requires Books(s.orders, s.ledger) && Debits(s.ledger.txs, i) == 0
    requires Refunds(s.ledger.txs, s.orders[i].user, OrderRef(i)) == 0
    ensures
      var s' := RefundOrder(s, i, ALL_WORKS).0;
      s'.ledger.balances == s.ledger.balances[s.orders[i].user := s.ledger.balances[s.orders[i].user] + s.orders[i].total]
      && Effect(s'.ledger.txs, i) == s.orders[i].total
  {
    BooksSettle(s, i);
    FirstRefundCredits(s, i);
    EffectAppend(s.ledger.txs, Entry(s.ledger, s.orders[i].user, Credit, Refund, s.orders[i].total, OrderRef(i)), i);
  }
}
