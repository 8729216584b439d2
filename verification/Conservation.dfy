/**
 * Units of a food item are conserved: what was loaded is on the batches, held by live orders, delivered
 * or removed. One food machine and one item are followed through every event.
 */
module Conservation {
  import opened Common
  import opened Wallet
  import opened Batches
  import opened Machines
  import opened Orders
  import opened OrderBooks
  import opened Exclusivity
  import opened Lifecycle
  import opened Placement
  import opened WireFormat
  import Cups

  /** The machine and the item whose units are followed. */
  datatype Product = Product(machine: MachineId, item: ItemId)

  /** Units a live order keeps off the shelf. */
  function Holds(o: Order, p: Product): nat {
    if o.machine == p.machine && o.item == p.item && o.Live() then o.quantity else 0
  }

  function Held(orders: seq<Order>, p: Product): nat {
    if orders == [] then 0 else Held(orders[..|orders| - 1], p) + Holds(orders[|orders| - 1], p)
  }

  predicate Sells(ms: Fleet, p: Product) { p.machine in ms && ms[p.machine].isFood }

  function OnShelf(ms: Fleet, p: Product): int
    requires Sells(ms, p)
  {
    Units(ms[p.machine].batches, p.item)
  }

  /** Units on the batches and held by live orders. */
  function Stocked(s: State, p: Product): int
    requires Sells(s.machines, p)
  {
    OnShelf(s.machines, p) + Held(s.orders, p)
  }

  predicate HasBatch(ms: Fleet, p: Product)
    requires Sells(ms, p)
  {
    exists i | 0 <= i < |ms[p.machine].batches| :: Restorable(ms[p.machine].batches[i], p.item)
  }

  lemma HeldAppend(orders: seq<Order>, o: Order, p: Product)
    ensures Held(orders + [o], p) == Held(orders, p) + Holds(o, p)
  {
  }

  lemma {:induction false} HeldUpdate(orders: seq<Order>, i: nat, o: Order, p: Product)
    requires i < |orders|
    ensures Held(orders[i := o], p) == Held(orders, p) - Holds(orders[i], p) + Holds(o, p)
  {
    var n := |orders| - 1;
    if i == n {
      assert orders[i := o][..n] == orders[..n];
    } else {
      assert orders[i := o][..n] == orders[..n][i := o];
      HeldUpdate(orders[..n], i, o, p);
    }
  }

  lemma RestoreOnUnits(ms: Fleet, m: MachineId, item: ItemId, quantity: int, fault: RestoreFault, p: Product)
    requires Sells(ms, p)
    ensures Sells(RestoreOn(ms, m, item, quantity, fault), p)
    ensures OnShelf(RestoreOn(ms, m, item, quantity, fault), p)
         == OnShelf(ms, p)
            + if m == p.machine && item == p.item && HasBatch(ms, p) && fault != BeforeRestore then quantity else 0
  {
    if m == p.machine { RestoreUnits(ms[m].batches, item, quantity, fault, p.item); }
  }

  // ─── Settling one order ────────────────────────────────────────────────────

  predicate Of(o: Order, p: Product) { o.machine == p.machine && o.item == p.item }

  /** The acknowledgement says what came out; an empty text says nothing. */
  predicate HasReport(ord: Option<string>) { ord.Some? && ord.value != "" }

  /**
   * Units an event delivers: what the machine reports, taken at its word whether or not its handler gets
   * to the end, and the ordered quantity where a live order is completed without a report.
   */
  function DeliveredBy(s: State, e: Event, p: Product): int {
    var target := Target(e);
    if target.None? || target.value >= |s.orders| || !Of(s.orders[target.value], p) then 0
    else
      var held := Holds(s.orders[target.value], p);
      match e
      case Ack(id, AckCompleted, ord, _) => if HasReport(ord) then DispensedBy(s, e, id) else held
      case Ack(id, AckCancelled, _, _) => DispensedBy(s, e, id)
      case Update(_, UCompleted, _) => held
      case Completing(_, f) => if f.save then 0 else held
      case _ => 0
  }

  /** A settling call without an acknowledgement saves a status under which the order no longer holds its units. */
  predicate Releases(s: State, e: Event, id: nat)
    requires id < |s.orders|
  {
    var o := s.orders[id];
    match e
    case Update(_, UCompleted, f) => !f.save
    case Update(_, UHalf, f) => !f.save
    case Update(_, UCancelled, f) => !f.save && (o.status == Dispensing ==> RefundReturns(s, id, f.refund))
    case Completing(_, f) => !f.save
    case Failing(_, f) => !f.save && (o.payment == Paid ==> RefundReturns(s, id, f.refund))
    case Refunding(_, f) => !f.save && o.status != Refunded && RefundReturns(s, id, f.refund)
    case _ => false
  }

  /** The restore of a cancelled order gets as far as putting units on a batch. */
  predicate AckPutsBack(s: State, f: SettleFaults, p: Product)
    requires Sells(s.machines, p)
  {
    f.stop.None? && f.restore != BeforeRestore && HasBatch(s.machines, p)
  }

  /**
   * The guard a caller can check: the order's liveness, what came out, whether a batch can take the rest
   * back, and which calls fail.
   */
  predicate KeepsUnits(s: State, e: Event, p: Product)
    requires Sells(s.machines, p)
  {
    var target := Target(e);
    target.Some? && target.value < |s.orders| && Of(s.orders[target.value], p) ==>
      var o := s.orders[target.value];
      var holds := o.Live() && o.quantity > 0;
      match e
      case Ack(_, AckProcessing, _, f) => f.save || o.Live() || o.quantity == 0
      case Ack(id, AckHalf, ord, f) => holds ==> AckStops(s, id, AckHalf, ord, f)
      case Ack(id, AckCompleted, ord, f) =>
        var stops := AckStops(s, id, AckCompleted, ord, f);
        if HasReport(ord) then DispensedBy(s, e, id) == (if o.Live() && !stops then o.quantity else 0) else holds ==> !stops
      case Ack(id, AckCancelled, ord, f) =>
        var d := DispensedBy(s, e, id);
        if o.Live() && !AckStops(s, id, AckCancelled, ord, f) then d == o.quantity || (d < o.quantity && HasBatch(s.machines, p))
        else d == 0 && (o.quantity == 0 || !AckPutsBack(s, f, p))
      case Update(_, UCompleted, f) => holds ==> !f.save
      case Update(_, UDispensing, f) => f.save || o.Live() || o.quantity == 0
      case Completing(_, _) => true
      case _ => holds ==> !Releases(s, e, target.value)
  }

  lemma RestockedShelf(s: State, o: Order, isFood: bool, status: AckStatus, dispensed: int, fault: RestoreFault, p: Product)
    requires Sells(s.machines, p) && (o.machine == p.machine ==> isFood)
    ensures
      var ms := Restocked(s, o, isFood, status, dispensed, fault).machines;
      && Sells(ms, p)
      && OnShelf(ms, p) == OnShelf(s.machines, p)
         + if status == AckCancelled && Of(o, p) && o.quantity > dispensed && HasBatch(s.machines, p) && fault != BeforeRestore
           then o.quantity - dispensed else 0
  {
    var back := o.quantity - dispensed;
    if Restocks(o, isFood, status, dispensed) {
      RestoreOnUnits(s.machines, o.machine, o.item, back, fault, p);
      assert Restocked(s, o, isFood, status, dispensed, fault).machines == RestoreOn(s.machines, o.machine, o.item, back, fault);
    } else {
      assert Restocked(s, o, isFood, status, dispensed, fault) == s;
    }
  }

  /** Units an acknowledgement puts back on the shelf. */
  function PutBackBy(s: State, id: nat, status: AckStatus, ord: Option<string>, f: SettleFaults, p: Product): int
    requires id < |s.orders| && Sells(s.machines, p)
  {
    var o, d := s.orders[id], Total(Reported(s, id, status, ord));
    if status == AckCancelled && Of(o, p) && o.quantity > d && AckPutsBack(s, f, p) then o.quantity - d else 0
  }

  lemma AckShelf(s: State, id: nat, status: AckStatus, ord: Option<string>, f: SettleFaults, p: Product)
    requires id < |s.orders| && Sells(s.machines, p)
    ensures
      var s' := HandleAck(s, id, status, ord, f);
      Sells(s'.machines, p) && OnShelf(s'.machines, p) == OnShelf(s.machines, p) + PutBackBy(s, id, status, ord, f, p)
  {
    var o, parts := s.orders[id], Reported(s, id, status, ord);
    var consumed := s.(machines := ConsumeOn(s.machines, o.machine, UpTo(parts, f.stop)));
    ConsumedShelf(s.machines, o.machine, UpTo(parts, f.stop), p);
    AckMachines(s, id, status, ord, f);
    RestockedShelf(consumed, o, IsFoodOrder(s, id), status, Total(parts), f.restore, p);
  }

  lemma ConsumedShelf(ms: Fleet, m: MachineId, parts: seq<Cups.Part>, p: Product)
    requires Sells(ms, p)
    ensures
      var ms' := ConsumeOn(ms, m, parts);
      Sells(ms', p) && OnShelf(ms', p) == OnShelf(ms, p) && (HasBatch(ms', p) <==> HasBatch(ms, p))
  {
    assert ConsumeOn(ms, m, parts)[p.machine] == ms[p.machine];
  }

  /** The status an acknowledgement leaves. */
  function AckStatusAfter(s: State, id: nat, status: AckStatus, ord: Option<string>, f: SettleFaults): Status
    requires id < |s.orders|
  {
    var o := s.orders[id];
    if (if status == AckProcessing then f.save else AckStops(s, id, status, ord, f)) then o.status
    else FinalStatus(status, o.quantity, Total(Reported(s, id, status, ord)))
  }

  /** The bookkeeping of an acknowledgement, from its effect on the shelf and on the one order. */
  lemma AckBalance(s: State, s': State, id: nat, status: AckStatus, ord: Option<string>, f: SettleFaults, p: Product)
    requires id < |s.orders| && Sells(s.machines, p) && Sells(s'.machines, p)
    requires Total(Reported(s, id, status, ord)) >= 0
    requires OnShelf(s'.machines, p) == OnShelf(s.machines, p) + PutBackBy(s, id, status, ord, f, p)
    requires Held(s'.orders, p)
          == Held(s.orders, p) - Holds(s.orders[id], p)
             + Holds(s.orders[id].(status := AckStatusAfter(s, id, status, ord, f)), p)
    ensures Stocked(s', p) + DeliveredBy(s, Ack(id, status, ord, f), p) == Stocked(s, p) <==> KeepsUnits(s, Ack(id, status, ord, f), p)
  {
  }

  lemma AckConservesIff(s: State, id: nat, status: AckStatus, ord: Option<string>, f: SettleFaults, p: Product)
    requires id < |s.orders| && Sells(s.machines, p)
    ensures
      var e, s' := Ack(id, status, ord, f), HandleAck(s, id, status, ord, f);
      && Sells(s'.machines, p)
      && (Stocked(s', p) + DeliveredBy(s, e, p) == Stocked(s, p) <==> KeepsUnits(s, e, p))
  {
    AckShelf(s, id, status, ord, f, p);
    if ord.Some? { AckIsSensible(ord.value); }
    AckMoves(s, id, status, ord, f);
    HeldUpdate(s.orders, id, s.orders[id].(status := AckStatusAfter(s, id, status, ord, f)), p);
    AckBalance(s, HandleAck(s, id, status, ord, f), id, status, ord, f, p);
  }

  lemma SettlingShelf(s: State, e: Event, id: nat, p: Product)
    requires Target(e) == Some(id) && id < |s.orders| && Sells(s.machines, p) && !e.Ack?
    ensures Sells(Apply(s, e).machines, p) && OnShelf(Apply(s, e).machines, p) == OnShelf(s.machines, p)
  {
    OtherMachines(s, e, id);
  }

  /** Whether the order is live after a call that settles without an acknowledgement. */
  predicate LiveAfter(s: State, e: Event, id: nat)
    requires id < |s.orders|
  {
    if e.Update? && e.update == UDispensing && !e.failing.save then true else s.orders[id].Live() && !Releases(s, e, id)
  }

  lemma OtherSettlingStatus(s: State, e: Event, id: nat)
    requires Target(e) == Some(id) && id < |s.orders| && !e.Ack?
    ensures Settles(s, Apply(s, e), id, e.failing.refund) && (Apply(s, e).orders[id].Live() <==> LiveAfter(s, e, id))
  {
    EventSettles(s, e, id);
  }

  lemma OtherBalance(s: State, s': State, e: Event, id: nat, p: Product)
    requires Target(e) == Some(id) && id < |s.orders| && Sells(s.machines, p) && Sells(s'.machines, p) && !e.Ack?
    requires OnShelf(s'.machines, p) == OnShelf(s.machines, p)
    requires Settles(s, s', id, e.failing.refund) && (s'.orders[id].Live() <==> LiveAfter(s, e, id))
    ensures Stocked(s', p) + DeliveredBy(s, e, p) == Stocked(s, p) <==> KeepsUnits(s, e, p)
  {
    HeldUpdate(s.orders, id, s'.orders[id], p);
  }

  /** The calls that settle an order without touching the shelf. */
  lemma OtherSettlingConservesIff(s: State, e: Event, id: nat, p: Product)
    requires Target(e) == Some(id) && id < |s.orders| && Sells(s.machines, p) && !e.Ack?
    ensures Sells(Apply(s, e).machines, p)
    ensures Stocked(Apply(s, e), p) + DeliveredBy(s, e, p) == Stocked(s, p) <==> KeepsUnits(s, e, p)
  {
    SettlingShelf(s, e, id, p);
    OtherSettlingStatus(s, e, id);
    OtherBalance(s, Apply(s, e), e, id, p);
  }

  /** A completed report that is short of the order loses the rest: nothing is put back. */
  lemma ShortReportLosesUnits(s: State, id: nat, ord: Option<string>, p: Product)
    requires id < |s.orders| && Sells(s.machines, p) && Of(s.orders[id], p) && s.orders[id].Live()
    requires HasReport(ord) && DispensedBy(s, Ack(id, AckCompleted, ord, ALL_WORKS), id) < s.orders[id].quantity
    ensures
      var s', d := HandleAck(s, id, AckCompleted, ord, ALL_WORKS), DispensedBy(s, Ack(id, AckCompleted, ord, ALL_WORKS), id);
      && Sells(s'.machines, p)
      && Stocked(s', p) + d == Stocked(s, p) - (s.orders[id].quantity - d)
  {
    AckShelf(s, id, AckCompleted, ord, ALL_WORKS, p);
    AckMoves(s, id, AckCompleted, ord, ALL_WORKS);
    HeldUpdate(s.orders, id, s.orders[id].(status := Completed), p);
  }

  /** A settling event conserves the units of a food item exactly when its guard holds. */
  lemma SettlingConservesIff(s: State, e: Event, id: nat, p: Product)
    requires Target(e) == Some(id) && id < |s.orders| && Sells(s.machines, p)
    ensures Sells(Apply(s, e).machines, p)
    ensures Stocked(Apply(s, e), p) + DeliveredBy(s, e, p) == Stocked(s, p) <==> KeepsUnits(s, e, p)
  {
    if e.Ack? { AckConservesIff(s, id, e.ack, e.ord, e.failing, p); } else { OtherSettlingConservesIff(s, e, id, p); }
  }

  // ─── The timeout sweep ─────────────────────────────────────────────────────

  /** The timeout gets as far as putting the order's units on a batch. */
  predicate TimeOutPutsBack(s: State, id: nat, f: SettleFaults, p: Product)
    requires id < |s.orders| && Sells(s.machines, p)
  {
    !f.free && RefundReturns(s, id, f.refund) && f.stop.None? && f.restore != BeforeRestore && HasBatch(s.machines, p)
  }

  /** An order that holds units here keeps them, or times out as far as putting them back. */
  predicate TimesOutWhole(s: State, id: nat, f: SettleFaults, p: Product)
    requires id < |s.orders| && Sells(s.machines, p)
  {
    Holds(s.orders[id], p) > 0 ==> f.save || TimeOutPutsBack(s, id, f, p)
  }

  /** What a timeout does to the shelf. */
  lemma TimeOutShelf(s: State, id: nat, f: SettleFaults, p: Product)
    requires id < |s.orders| && Sells(s.machines, p)
    ensures
      var o, s' := s.orders[id], TimeOut(s, id, f);
      && Sells(s'.machines, p) && s'.orders == s.orders[id := o.(status := if f.save then o.status else Failed)]
      && OnShelf(s'.machines, p)
         == OnShelf(s.machines, p) + if !f.save && Of(o, p) && TimeOutPutsBack(s, id, f, p) then o.quantity else 0
  {
    var o := s.orders[id];
    var freed := SetBusy(s.machines, o.machine, false);
    assert freed[p.machine].batches == s.machines[p.machine].batches;
    assert HasBatch(freed, p) <==> HasBatch(s.machines, p);
    RestoreOnUnits(freed, o.machine, o.item, o.quantity, f.restore, p);
    TimeOutMoves(s, id, f);
    TimeOutMachines(s, id, f);
  }

  lemma TimeOutMachines(s: State, id: nat, f: SettleFaults)
    requires id < |s.orders|
    ensures
      var o := s.orders[id];
      var freed := SetBusy(s.machines, o.machine, false);
      TimeOut(s, id, f).machines
      == if f.save || f.free then s.machines
         else if RefundReturns(s, id, f.refund) && f.stop.None? && IsFoodOrder(s, id)
         then RestoreOn(freed, o.machine, o.item, o.quantity, f.restore) else freed
  {
  }

  lemma TimeOutConservesIff(s: State, id: nat, f: SettleFaults, p: Product)
    requires id < |s.orders| && Sells(s.machines, p) && s.orders[id].Live()
    ensures
      var s' := TimeOut(s, id, f);
      && Sells(s'.machines, p) && Stocked(s', p) <= Stocked(s, p)
      && (Stocked(s', p) == Stocked(s, p) <==> TimesOutWhole(s, id, f, p))
      && s'.orders == s.orders[id := s'.orders[id]]
  {
    TimeOutShelf(s, id, f, p);
    HeldUpdate(s.orders, id, TimeOut(s, id, f).orders[id], p);
  }

  /** Every order the sweep reaches keeps its units or times out whole. */
  predicate SweepsWhole(s: State, ids: seq<nat>, fs: seq<SettleFaults>, p: Product)
    requires (forall i | 0 <= i < |ids| :: ids[i] < |s.orders|) && Sells(s.machines, p)
    decreases |ids|
  {
    ids != [] ==>
      var f := FaultsNow(fs);
      && TimesOutWhole(s, ids[0], f, p)
      && (SweepsOn(s, ids[0], f) ==>
            Sells(TimeOut(s, ids[0], f).machines, p) && SweepsWhole(TimeOut(s, ids[0], f), ids[1..], FaultsLater(fs), p))
  }

  /** A sweep can only lose units, and loses none exactly when no order it reaches does. */
  lemma {:induction false} SweepConservesIff(s: State, ids: seq<nat>, fs: seq<SettleFaults>, p: Product)
    requires forall i | 0 <= i < |ids| :: ids[i] < |s.orders| && s.orders[ids[i]].Live()
    requires Distinct(ids) && Sells(s.machines, p)
    ensures
      var s' := Sweep(s, ids, fs);
      && Sells(s'.machines, p) && Stocked(s', p) <= Stocked(s, p)
      && (Stocked(s', p) == Stocked(s, p) <==> SweepsWhole(s, ids, fs, p))
    decreases |ids|
  {
    if ids != [] {
      var f := FaultsNow(fs);
      TimeOutConservesIff(s, ids[0], f, p);
      if SweepsOn(s, ids[0], f) {
        var rest := ids[1..];
        assert forall i | 0 <= i < |rest| :: rest[i] == ids[i + 1];
        SweepConservesIff(TimeOut(s, ids[0], f), rest, FaultsLater(fs), p);
      }
    }
  }

  // ─── Placement ─────────────────────────────────────────────────────────────

  /** No shelf holds two batches with one number. */
  ghost predicate Numbered(ms: Fleet) {
    forall m | m in ms :: UniqueIds(ms[m].batches)
  }

  /** A pending order holds no units of the item: it has not been supplied. */
  ghost predicate Orderly(s: State, p: Product) {
    (forall i | 0 <= i < |s.orders| && s.orders[i].status == Pending :: Holds(s.orders[i], p) == 0) && Numbered(s.machines)
  }

  lemma {:induction false} SameHeld(a: seq<Order>, b: seq<Order>, p: Product)
    requires |a| == |b| && forall i | 0 <= i < |a| :: Holds(a[i], p) == Holds(b[i], p)
    ensures Held(a, p) == Held(b, p)
  {
    if a != [] { SameHeld(a[..|a| - 1], b[..|b| - 1], p); }
  }

  /** The stored order is live exactly when its units are off the shelf: the guard on a saga's state, request and faults. */
  predicate UnitsFit(s: State, id: nat, snap: Machine, r: Request, f: Faults)
    requires id < |s.orders|
  {
    !(Throws(s, id, snap, r, f) && StoresFailure(s, id, snap, r, f))
    <==> Takes(s, id, snap, r, f) && !(Throws(s, id, snap, r, f) && PutsBack(r, f))
  }

  /** The saga conserves the units of its own item exactly when that guard holds, and of any other item always. */
  lemma SagaConservesIff(s: State, id: nat, snap: Machine, r: Request, f: Faults, p: Product)
    requires id < |s.orders| && Sells(s.machines, p)
    requires r.machine in s.machines && snap.isFood == s.machines[r.machine].isFood && UniqueIds(s.machines[r.machine].batches)
    requires s.orders[id] == s.orders[id].(machine := r.machine, item := r.itemId, quantity := r.quantity, status := Pending)
    ensures
      var g := RunSaga(s, id, snap, r, f);
      && Sells(g.s.machines, p)
      && (Stocked(g.s, p) == Stocked(s, p) - Holds(s.orders[id], p) <==>
            (Holds(s.orders[id], p) > 0 ==> UnitsFit(s, id, snap, r, f)))
  {
    var g := RunSaga(s, id, snap, r, f);
    StoredLiveIff(s, id, snap, r, f);
    StockAfterSaga(s, id, snap, r, f);
    SagaKeepsKinds(s, id, snap, r, f, p.machine);
    HeldUpdate(s.orders, id, g.s.orders[id], p);
    assert g.s.orders == s.orders[id := g.s.orders[id]];
  }

  /** The machine stays what it is through a stage. */
  predicate SameKind(ms: Fleet, ms': Fleet, m: MachineId) {
    m in ms ==> m in ms' && ms'[m].isFood == ms[m].isFood
  }

  lemma SupplyKeepsKind(g: Saga, snap: Machine, r: Request, f: Faults, m: MachineId)
    ensures SameKind(g.s.machines, Allocate(g, snap, r, f).s.machines, m)
  {
  }

  lemma BookingKeepsKind(g: Saga, r: Request, f: Faults, m: MachineId)
    requires g.Ok()
    ensures SameKind(g.s.machines, Bookkeep(Publish(g, f), r.machine, f).s.machines, m)
  {
  }

  lemma ChargeKeepsFleet(s: State, id: nat, r: Request, f: Faults)
    requires id < |s.orders|
    ensures AfterCharge(s, id, r, f).s.machines == s.machines
  {
  }

  lemma RollbackKeepsKind(g: Saga, isFood: bool, r: Request, f: Faults, m: MachineId)
    requires g.Ok()
    ensures SameKind(g.s.machines, Rollback(g, isFood, r, f).s.machines, m)
  {
  }

  lemma SagaKeepsKinds(s: State, id: nat, snap: Machine, r: Request, f: Faults, m: MachineId)
    requires id < |s.orders|
    ensures SameKind(s.machines, RunSaga(s, id, snap, r, f).s.machines, m)
  {
    ChargeKeepsFleet(s, id, r, f);
    SupplyKeepsKind(AfterCharge(s, id, r, f), snap, r, f, m);
    SagaStages(s, id, snap, r, f);
    BookingKeepsKind(AfterSupply(s, id, snap, r, f), r, f, m);
    RollbackKeepsKind(AfterBooking(s, id, snap, r, f), snap.isFood, r, f, m);
    KindThrough(s.machines, AfterSupply(s, id, snap, r, f).s.machines, AfterBooking(s, id, snap, r, f).s.machines,
                Rollback(AfterBooking(s, id, snap, r, f), snap.isFood, r, f).s.machines, m);
  }

  lemma KindThrough(a: Fleet, b: Fleet, c: Fleet, d: Fleet, m: MachineId)
    requires SameKind(a, b, m) && SameKind(b, c, m) && SameKind(c, d, m)
    ensures SameKind(a, d, m)
  {
  }

  /** Recording an order adds what it will hold and changes nothing else that counts. */
  lemma RecordingAddsHeld(s: State, r: Request, f: Faults, p: Product)
    requires Sells(s.machines, p) && Orderly(s, p) && Records(s, r, f)
    ensures
      var s2, id := Recorded(s, r, f), |s.orders|;
      && |s2.orders| == id + 1 && Sells(s2.machines, p) && Numbered(s2.machines)
      && Stocked(s2, p) == Stocked(s, p) + Holds(s2.orders[id], p)
      && forall i | 0 <= i < id && s2.orders[i].status == Pending :: Holds(s2.orders[i], p) == 0
  {
    RecordedSpec(s, r, f);
    CancellingKeepsHeld(s, r, p);
    HeldAppend(CancelPending(s.orders, r.user, r.machine), Recorded(s, r, f).orders[|s.orders|], p);
  }

  lemma CancellingKeepsHeld(s: State, r: Request, p: Product)
    requires Orderly(s, p)
    ensures
      var orders := CancelPending(s.orders, r.user, r.machine);
      && Held(orders, p) == Held(s.orders, p)
      && forall i | 0 <= i < |orders| && orders[i].status == Pending :: Holds(orders[i], p) == 0
  {
    SameHeld(CancelPending(s.orders, r.user, r.machine), s.orders, p);
  }

  /** The guard a caller can check before a placement. */
  predicate KeepsUnitsPlacing(s: State, r: Request, f: Faults, p: Product) {
    Records(s, r, f) && r.machine == p.machine && r.itemId == p.item && r.quantity > 0 ==>
      UnitsFit(Recorded(s, r, f), |s.orders|, s.machines[r.machine], r, f)
  }

  /** A placement, an admin test order included and whatever fails, conserves the item's units exactly when its guard holds. */
  lemma PlacementConservesIff(s: State, r: Request, f: Faults, p: Product)
    requires Sells(s.machines, p) && Orderly(s, p)
    ensures
      var s' := Place(s, r, f).0;
      && Sells(s'.machines, p) && (Stocked(s', p) == Stocked(s, p) <==> KeepsUnitsPlacing(s, r, f, p))
  {
    PlaceIsTheSaga(s, r, f);
    if Records(s, r, f) {
      RecordedSpec(s, r, f);
      RecordingAddsHeld(s, r, f, p);
      SagaConservesIff(Recorded(s, r, f), |s.orders|, s.machines[r.machine], r, f, p);
    } else {
      RefusingKeepsHeld(s, r, f, p);
    }
  }

  lemma RefusingKeepsHeld(s: State, r: Request, f: Faults, p: Product)
    requires Sells(s.machines, p) && Orderly(s, p)
    ensures Sells(Admitted(s, r, f).machines, p) && Stocked(Admitted(s, r, f), p) == Stocked(s, p)
    ensures Stocked(s.(orders := CancelPending(s.orders, r.user, r.machine)), p) == Stocked(s, p)
  {
    CancellingKeepsHeld(s, r, p);
  }

  /** After a placement that conserves, pending orders still hold nothing. */
  lemma PlacementStaysOrderly(s: State, r: Request, f: Faults, p: Product)
    requires Sells(s.machines, p) && Orderly(s, p) && KeepsUnitsPlacing(s, r, f, p)
    ensures Orderly(Place(s, r, f).0, p)
  {
    PlaceIsTheSaga(s, r, f);
    PlacementKeepsNumbers(s, r, f);
    CancellingKeepsHeld(s, r, p);
    if Records(s, r, f) {
      RecordedSpec(s, r, f);
      RecordingAddsHeld(s, r, f, p);
      StoredLiveIff(Recorded(s, r, f), |s.orders|, s.machines[r.machine], r, f);
    }
  }

  // ─── Shelves keep their batches apart ──────────────────────────────────────

  lemma RestoreKeepsNumbers(ms: Fleet, m: MachineId, item: ItemId, quantity: int, fault: RestoreFault)
    requires Numbered(ms)
    ensures Numbered(RestoreOn(ms, m, item, quantity, fault))
  {
    if m in ms { RestoreKeepsIds(ms[m].batches, item, quantity, fault); }
  }

  lemma AllocateKeepsNumbers(g: Saga, snap: Machine, r: Request, f: Faults)
    requires Numbered(g.s.machines)
    ensures Numbered(Allocate(g, snap, r, f).s.machines)
  {
  }

  lemma SagaKeepsNumbers(s: State, id: nat, snap: Machine, r: Request, f: Faults)
    requires id < |s.orders| && Numbered(s.machines)
    ensures Numbered(RunSaga(s, id, snap, r, f).s.machines)
  {
    var supplied, booked := AfterSupply(s, id, snap, r, f), AfterBooking(s, id, snap, r, f);
    AllocateKeepsNumbers(AfterCharge(s, id, r, f), snap, r, f);
    BookingKeepsShelves(supplied, r.machine, f);
    RestoreKeepsNumbers(booked.s.machines, r.machine, r.itemId, r.quantity, f.restore);
    RollbackSpec(booked, snap.isFood, r, f);
    SagaStages(s, id, snap, r, f);
  }

  lemma PlacementKeepsNumbers(s: State, r: Request, f: Faults)
    requires Numbered(s.machines)
    ensures Numbered(Place(s, r, f).0.machines)
  {
    PlaceIsTheSaga(s, r, f);
    assert Numbered(Admitted(s, r, f).machines);
    if Records(s, r, f) { SagaKeepsNumbers(Recorded(s, r, f), |s.orders|, s.machines[r.machine], r, f); }
  }

  lemma ConsumingKeepsNumbers(ms: Fleet, m: MachineId, parts: seq<Cups.Part>)
    requires Numbered(ms)
    ensures Numbered(ConsumeOn(ms, m, parts))
  {
  }

  lemma RestockingKeepsNumbers(s: State, o: Order, isFood: bool, status: AckStatus, dispensed: int, fault: RestoreFault)
    requires Numbered(s.machines)
    ensures Numbered(Restocked(s, o, isFood, status, dispensed, fault).machines)
  {
    var back := o.quantity - dispensed;
    if Restocks(o, isFood, status, dispensed) {
      RestoreKeepsNumbers(s.machines, o.machine, o.item, back, fault);
      assert Restocked(s, o, isFood, status, dispensed, fault).machines == RestoreOn(s.machines, o.machine, o.item, back, fault);
    } else {
      assert Restocked(s, o, isFood, status, dispensed, fault) == s;
    }
  }

  lemma AckKeepsNumbers(s: State, id: nat, status: AckStatus, ord: Option<string>, f: SettleFaults)
    requires id < |s.orders| && Numbered(s.machines)
    ensures Numbered(HandleAck(s, id, status, ord, f).machines)
  {
    var o, parts := s.orders[id], Reported(s, id, status, ord);
    var consumed := s.(machines := ConsumeOn(s.machines, o.machine, UpTo(parts, f.stop)));
    ConsumingKeepsNumbers(s.machines, o.machine, UpTo(parts, f.stop));
    RestockingKeepsNumbers(consumed, o, IsFoodOrder(s, id), status, Total(parts), f.restore);
    AckMachines(s, id, status, ord, f);
  }

  lemma FreeingKeepsNumbers(ms: Fleet, m: MachineId)
    requires Numbered(ms)
    ensures Numbered(SetBusy(ms, m, false))
  {
  }

  lemma SettlingKeepsNumbers(s: State, e: Event)
    requires Numbered(s.machines) && Target(e).Some?
    ensures Numbered(Apply(s, e).machines)
  {
    var id := Target(e).value;
    if id < |s.orders| {
      FreeingKeepsNumbers(s.machines, s.orders[id].machine);
      if e.Ack? { AckKeepsNumbers(s, id, e.ack, e.ord, e.failing); } else { OtherMachines(s, e, id); }
    }
  }

  lemma {:induction false} SweepKeepsNumbers(s: State, ids: seq<nat>, fs: seq<SettleFaults>)
    requires Numbered(s.machines) && forall i | 0 <= i < |ids| :: ids[i] < |s.orders|
    ensures Numbered(Sweep(s, ids, fs).machines)
    decreases |ids|
  {
    if ids != [] {
      TimeOutKeepsNumbers(s, ids[0], FaultsNow(fs));
      if SweepsOn(s, ids[0], FaultsNow(fs)) { SweepKeepsNumbers(TimeOut(s, ids[0], FaultsNow(fs)), ids[1..], FaultsLater(fs)); }
    }
  }

  lemma TimeOutKeepsNumbers(s: State, id: nat, f: SettleFaults)
    requires Numbered(s.machines) && id < |s.orders|
    ensures Numbered(TimeOut(s, id, f).machines)
  {
    var o := s.orders[id];
    FreeingKeepsNumbers(s.machines, o.machine);
    RestoreKeepsNumbers(SetBusy(s.machines, o.machine, false), o.machine, o.item, o.quantity, f.restore);
    TimeOutMachines(s, id, f);
  }

  /** A load uses a batch number the shelf does not hold. */
  ghost predicate FreshNumber(ms: Fleet, m: MachineId, e: StockEvent) {
    m in ms && e.Loading? ==> forall i | 0 <= i < |ms[m].batches| :: ms[m].batches[i].id != e.id
  }

  lemma StockKeepsNumbers(ms: Fleet, m: MachineId, e: StockEvent)
    requires Numbered(ms) && FreshNumber(ms, m, e)
    ensures Numbered(StockOn(ms, m, e))
  {
    if m in ms && ms[m].isFood {
      var bs := ms[m].batches;
      if e.Deducting? {
        if Deduct(bs, e.item, e.quantity).Some? { DeductSpec(bs, e.item, e.quantity); }
      } else if e.Restoring? {
        RestoreKeepsNumbers(ms, m, e.item, e.quantity, e.fault);
      } else if e.Removing? {
        RemoveKeepsIds(bs, e.id);
      }
    }
  }

  lemma {:induction false} RemoveKeepsIds(bs: seq<Batch>, id: nat)
    requires UniqueIds(bs)
    ensures UniqueIds(Remove(bs, id))
  {
    if bs != [] {
      var rest := Remove(bs[1..], id);
      RemoveKeepsIds(bs[1..], id);
      RemoveSpec(bs[1..], id);
      forall k | 0 <= k < |rest| ensures rest[k].id != bs[0].id {
        assert rest[k] in rest;
        var j :| 0 <= j < |bs[1..]| && bs[1..][j] == rest[k];
      }
    }
  }

  // ─── Flows ─────────────────────────────────────────────────────────────────

  /** Units that entered the machine, were taken out by an agent or with a removed batch, and reached a customer. */
  datatype Flows = Flows(loaded: int, removed: int, delivered: int) {
    function Plus(f: Flows): Flows { Flows(loaded + f.loaded, removed + f.removed, delivered + f.delivered) }
  }

  function LoadedBy(e: Event, p: Product): nat {
    if e.Stocking? && e.machine == p.machine && e.stock.Loading? && e.stock.item == p.item then e.stock.quantity else 0
  }

  function RemovedBy(s: State, e: Event, p: Product): int
    requires Sells(s.machines, p)
  {
    if !e.Stocking? || e.machine != p.machine then 0
    else
      var bs := s.machines[p.machine].batches;
      match e.stock
      case Removing(id) => UnitsOf(bs, id, p.item)
      case Deducting(item, quantity) => if item == p.item && Deduct(bs, item, quantity).Some? then quantity else 0
      case _ => 0
  }

  function FlowsOf(s: State, e: Event, p: Product): Flows
    requires Sells(s.machines, p)
  {
    Flows(LoadedBy(e, p), RemovedBy(s, e, p), DeliveredBy(s, e, p))
  }

  /** What a caller has to respect for the units of this item to add up. */
  ghost predicate Careful(s: State, e: Event, p: Product)
    requires Sells(s.machines, p)
  {
    match e
    case Placing(r, f) => KeepsUnitsPlacing(s, r, f, p)
    case Ticking(cutoff, fs) => SweepsWhole(s, Swept(s.orders, cutoff), fs, p)
    case Stocking(m, Restoring(item, quantity, fault)) =>
      m == p.machine && item == p.item && HasBatch(s.machines, p) && fault != BeforeRestore ==> quantity == 0
    case Stocking(_, _) => true
    case ToppingUp(_, _, _, _, _) => true
    case _ => KeepsUnits(s, e, p)
  }

  /** Loads number their batches apart. */
  ghost predicate Fair(s: State, e: Event) {
    e.Stocking? ==> FreshNumber(s.machines, e.machine, e.stock)
  }

  ghost predicate Sound(s: State, p: Product) {
    Sells(s.machines, p) && Orderly(s, p)
  }

  /** What a stock operation does to the units of an item on its shelf. */
  function StockChange(bs: seq<Batch>, e: StockEvent, item: ItemId): int {
    match e
    case Loading(_, loaded, _, quantity, _, _) => if loaded == item then quantity else 0
    case Deducting(taken, quantity) => if taken == item && Deduct(bs, taken, quantity).Some? then 0 - quantity else 0
    case Restoring(restored, quantity, fault) =>
      if restored == item && fault != BeforeRestore && exists i | 0 <= i < |bs| :: Restorable(bs[i], item) then quantity else 0
    case Removing(id) => 0 - UnitsOf(bs, id, item)
    case Expiring(_) => 0
  }

  lemma StockUnits(bs: seq<Batch>, e: StockEvent, item: ItemId)
    requires UniqueIds(bs)
    ensures Units(Stock(bs, e), item) == Units(bs, item) + StockChange(bs, e, item)
  {
    match e
    case Loading(id, loaded, nozzle, quantity, expiry, now) =>
      UnitsAppend(bs, Batch(id, loaded, nozzle, quantity, quantity, expiry, now, Active), item);
    case Deducting(taken, quantity) =>
      if Deduct(bs, taken, quantity).Some? { DeductUnits(bs, taken, quantity, item); }
    case Restoring(restored, quantity, fault) => RestoreUnits(bs, restored, quantity, fault, item);
    case Removing(id) => RemoveUnits(bs, id, item);
    case Expiring(now) => ExpireUnits(bs, now, item);
  }

  lemma StockingShelf(s: State, m: MachineId, e: StockEvent, p: Product)
    requires Sound(s, p)
    ensures
      var s' := Apply(s, Stocking(m, e));
      && Sells(s'.machines, p) && s'.orders == s.orders
      && OnShelf(s'.machines, p)
         == OnShelf(s.machines, p) + if m == p.machine then StockChange(s.machines[m].batches, e, p.item) else 0
  {
    if m == p.machine { StockUnits(s.machines[m].batches, e, p.item); }
  }

  /** The shelf changes by what was loaded less what was removed exactly when nothing is put back on it by hand. */
  lemma ChangeIsFlowIff(s: State, e: StockEvent, p: Product)
    requires Sells(s.machines, p)
    ensures
      var ev := Stocking(p.machine, e);
      StockChange(s.machines[p.machine].batches, e, p.item) == LoadedBy(ev, p) - RemovedBy(s, ev, p) <==> Careful(s, ev, p)
  {
  }

  lemma StockingFlowsIff(s: State, m: MachineId, e: StockEvent, p: Product)
    requires Sound(s, p)
    ensures
      var s' := Apply(s, Stocking(m, e));
      && Sells(s'.machines, p) && s'.orders == s.orders
      && (OnShelf(s'.machines, p) == OnShelf(s.machines, p) + LoadedBy(Stocking(m, e), p) - RemovedBy(s, Stocking(m, e), p)
          <==> Careful(s, Stocking(m, e), p))
  {
    StockingShelf(s, m, e, p);
    if m == p.machine { ChangeIsFlowIff(s, e, p); }
  }

  /** The event's flows explain the change in units. */
  predicate Accounts(s: State, e: Event, p: Product)
    requires Sells(s.machines, p) && Sells(Apply(s, e).machines, p)
  {
    var f := FlowsOf(s, e, p);
    Stocked(Apply(s, e), p) + f.removed + f.delivered == Stocked(s, p) + f.loaded
  }

  lemma SettlingStaysOrderly(s: State, e: Event, p: Product)
    requires Sound(s, p) && Target(e).Some?
    ensures Orderly(Apply(s, e), p)
  {
    var id := Target(e).value;
    SettlingKeepsNumbers(s, e);
    if id < |s.orders| { SettledStatus(s, e, id); }
  }

  lemma SettlingAccountsIff(s: State, e: Event, p: Product)
    requires Sound(s, p) && Target(e).Some?
    ensures Sells(Apply(s, e).machines, p) && (Accounts(s, e, p) <==> Careful(s, e, p))
  {
    var id := Target(e).value;
    if id < |s.orders| { SettlingConservesIff(s, e, id, p); }
  }

  lemma TickingAccountsIff(s: State, cutoff: int, fs: seq<SettleFaults>, p: Product)
    requires Sound(s, p)
    ensures Sells(Tick(s, cutoff, fs).machines, p) && Orderly(Tick(s, cutoff, fs), p)
    ensures Accounts(s, Ticking(cutoff, fs), p) <==> Careful(s, Ticking(cutoff, fs), p)
  {
    var ids := Swept(s.orders, cutoff);
    SweptSpec(s.orders, cutoff);
    SweepConservesIff(s, ids, fs, p);
    SweepKeepsNumbers(s, ids, fs);
    SweepOnlyFails(s, ids, fs);
  }

  lemma PlacingAccountsIff(s: State, r: Request, f: Faults, p: Product)
    requires Sound(s, p)
    ensures Sells(Place(s, r, f).0.machines, p) && (Accounts(s, Placing(r, f), p) <==> Careful(s, Placing(r, f), p))
    ensures Careful(s, Placing(r, f), p) ==> Orderly(Place(s, r, f).0, p)
  {
    PlacementConservesIff(s, r, f, p);
    if Careful(s, Placing(r, f), p) { PlacementStaysOrderly(s, r, f, p); }
  }

  lemma StockingAccountsIff(s: State, m: MachineId, e: StockEvent, p: Product)
    requires Sound(s, p) && FreshNumber(s.machines, m, e)
    ensures Sells(Apply(s, Stocking(m, e)).machines, p) && Orderly(Apply(s, Stocking(m, e)), p)
    ensures Accounts(s, Stocking(m, e), p) <==> Careful(s, Stocking(m, e), p)
  {
    StockingFlowsIff(s, m, e, p);
    StockKeepsNumbers(s.machines, m, e);
  }

  /** Every event accounts for the units it moves exactly when its guard holds. */
  lemma EventAccountsIff(s: State, e: Event, p: Product)
    requires Sound(s, p) && Fair(s, e)
    ensures Sells(Apply(s, e).machines, p) && (Accounts(s, e, p) <==> Careful(s, e, p))
    ensures Careful(s, e, p) ==> Sound(Apply(s, e), p)
  {
    if Target(e).Some? {
      SettlingAccountsIff(s, e, p);
      SettlingStaysOrderly(s, e, p);
    } else if e.Placing? {
      PlacingAccountsIff(s, e.request, e.faults, p);
    } else if e.Ticking? {
      TickingAccountsIff(s, e.cutoff, e.sweep, p);
    } else if e.Stocking? {
      StockingAccountsIff(s, e.machine, e.stock, p);
    } else {
      assert Apply(s, e).orders == s.orders && Apply(s, e).machines == s.machines;
    }
  }

  ghost predicate FairRun(s: State, events: seq<Event>)
    decreases |events|
  {
    events != [] ==> Fair(s, events[0]) && FairRun(Apply(s, events[0]), events[1..])
  }

  ghost predicate CarefulRun(s: State, events: seq<Event>, p: Product)
    decreases |events|
  {
    events != [] ==> Sells(s.machines, p) && Careful(s, events[0], p) && CarefulRun(Apply(s, events[0]), events[1..], p)
  }

  /** At every step of the run the flows explain the change in units. */
  ghost predicate AccountsThroughout(s: State, events: seq<Event>, p: Product)
    decreases |events|
  {
    events != [] ==>
      && Sells(s.machines, p) && Sells(Apply(s, events[0]).machines, p)
      && Accounts(s, events[0], p) && AccountsThroughout(Apply(s, events[0]), events[1..], p)
  }

  function RunFlows(s: State, events: seq<Event>, p: Product): Flows
    decreases |events|
  {
    if events == [] || !Sells(s.machines, p) then Flows(0, 0, 0)
    else FlowsOf(s, events[0], p).Plus(RunFlows(Apply(s, events[0]), events[1..], p))
  }

  /** Units are accounted for throughout a run exactly when every event of it is careful. */
  lemma {:induction false} AccountsThroughoutIff(s: State, events: seq<Event>, p: Product)
    requires Sound(s, p) && FairRun(s, events)
    ensures AccountsThroughout(s, events, p) <==> CarefulRun(s, events, p)
    ensures CarefulRun(s, events, p) ==> Sound(Run(s, events), p)
    decreases |events|
  {
    if events != [] {
      EventAccountsIff(s, events[0], p);
      if Careful(s, events[0], p) { AccountsThroughoutIff(Apply(s, events[0]), events[1..], p); }
    }
  }

  lemma {:induction false} RunConserves(s: State, events: seq<Event>, p: Product)
    requires Sound(s, p) && FairRun(s, events) && CarefulRun(s, events, p)
    ensures Sound(Run(s, events), p)
    ensures var f := RunFlows(s, events, p);
            Stocked(Run(s, events), p) + f.removed + f.delivered == Stocked(s, p) + f.loaded
    decreases |events|
  {
    if events != [] {
      EventAccountsIff(s, events[0], p);
      RunConserves(Apply(s, events[0]), events[1..], p);
    }
  }

  /**
   * Over every careful run from a machine without batches: the units loaded are the units on its
   * batches, the units held by live orders, the units delivered and the units removed.
   */
  lemma UnitsAreConserved(balances: map<UserId, int>, machines: Fleet, events: seq<Event>, p: Product)
    requires Sells(machines, p) && Numbered(machines) && machines[p.machine].batches == []
    requires FairRun(Fresh(balances, machines), events) && CarefulRun(Fresh(balances, machines), events, p)
    ensures
      var s, f := Run(Fresh(balances, machines), events), RunFlows(Fresh(balances, machines), events, p);
      && Sells(s.machines, p)
      && f.loaded == OnShelf(s.machines, p) + Held(s.orders, p) + f.delivered + f.removed
  {
    RunConserves(Fresh(balances, machines), events, p);
  }

  /** A placement of a customer whose rollback works is careful. */
  lemma RecoveringPlacementIsCareful(s: State, r: Request, f: Faults, p: Product)
    requires Recovers(f) && !r.bypass && Sells(s.machines, p)
    ensures KeepsUnitsPlacing(s, r, f, p)
  {
    if Records(s, r, f) { RecordedSpec(s, r, f); }
  }

  /** A sweep is careful when its calls work, its orders' customers have wallets and the item still has a batch. */
  lemma {:induction false} SweepIsCareful(s: State, ids: seq<nat>, p: Product)
    requires Sells(s.machines, p) && HasBatch(s.machines, p)
    requires forall i | 0 <= i < |ids| :: ids[i] < |s.orders| && s.orders[ids[i]].user in s.ledger.balances
    ensures SweepsWhole(s, ids, [], p)
    decreases |ids|
  {
    if ids != [] {
      TimeOutSpec(s, ids[0]);
      TimeOutKeepsBatch(s, ids[0], p);
      var rest := ids[1..];
      assert forall i | 0 <= i < |rest| :: rest[i] == ids[i + 1];
      SweepIsCareful(TimeOut(s, ids[0], ALL_WORKS), rest, p);
    }
  }

  /** A restore leaves every batch it could have gone to restorable. */
  lemma RestoreKeepsRestorable(bs: seq<Batch>, item: ItemId, quantity: int, i: nat, other: ItemId)
    requires i < |bs| && Restorable(bs[i], other)
    ensures |Restore(bs, item, quantity)| == |bs| && Restorable(Restore(bs, item, quantity)[i], other)
  {
  }

  lemma TimeOutKeepsBatch(s: State, id: nat, p: Product)
    requires id < |s.orders| && Sells(s.machines, p) && HasBatch(s.machines, p)
    ensures Sells(TimeOut(s, id, ALL_WORKS).machines, p) && HasBatch(TimeOut(s, id, ALL_WORKS).machines, p)
  {
    var o, bs := s.orders[id], s.machines[p.machine].batches;
    var i :| 0 <= i < |bs| && Restorable(bs[i], p.item);
    RestoreKeepsRestorable(bs, o.item, o.quantity, i, p.item);
    TimeOutMachines(s, id, ALL_WORKS);
    var after := TimeOut(s, id, ALL_WORKS).machines;
    assert after[p.machine].batches == bs || after[p.machine].batches == Restore(bs, o.item, o.quantity);
    assert Restorable(after[p.machine].batches[i], p.item);
  }
}
