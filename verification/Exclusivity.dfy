/** A machine works on one order at a time, and its busy flag decides nothing. */
module Exclusivity {
  import opened Common
  import opened Wallet
  import opened Batches
  import opened Machines
  import opened Orders
  import opened Lifecycle
  import opened Placement
  import opened WireFormat
  import opened LegacyOrders

  // ─── One live order per machine ────────────────────────────────────────────

  ghost predicate OneLivePerMachine(orders: seq<Order>) {
    forall i, j | 0 <= i < j < |orders| :: !(orders[i].Live() && orders[j].Live() && orders[i].machine == orders[j].machine)
  }

  /** The order is live already, or no other order occupies its machine. */
  ghost predicate RevivalAllowed(orders: seq<Order>, id: nat)
    requires id < |orders|
  {
    orders[id].Live() || forall j | 0 <= j < |orders| && j != id :: !Occupies(orders[j], orders[id].machine)
  }

  lemma OneChangeKeepsOneLive(orders: seq<Order>, id: nat, status: Status)
    requires OneLivePerMachine(orders) && id < |orders|
    ensures
      var orders' := orders[id := orders[id].(status := status)];
      OneLivePerMachine(orders') <==> (status == Pending || status == Dispensing ==> RevivalAllowed(orders, id))
  {
    var orders' := orders[id := orders[id].(status := status)];
    if (status == Pending || status == Dispensing) && !RevivalAllowed(orders, id) {
      var j :| 0 <= j < |orders| && j != id && Occupies(orders[j], orders[id].machine);
      assert orders'[j] == orders[j] && orders'[id].Live();
    }
  }

  /** A settling event keeps one live order per machine exactly when it does not revive an order beside a live one. */
  lemma SettlingKeepsOneLiveIff(s: State, e: Event, id: nat)
    requires OneLivePerMachine(s.orders) && Target(e) == Some(id) && id < |s.orders|
    ensures OneLivePerMachine(Apply(s, e).orders) <==> (Revives(e) ==> RevivalAllowed(s.orders, id))
  {
    SettledStatus(s, e, id);
    OneChangeKeepsOneLive(s.orders, id, Apply(s, e).orders[id].status);
  }

  /** Cancelling orders and adding one to a machine nobody occupies keeps it. */
  lemma OneMoreKeepsOneLive(orders: seq<Order>, orders': seq<Order>)
    requires OneLivePerMachine(orders) && |orders| <= |orders'| <= |orders| + 1
    requires forall j | 0 <= j < |orders| :: orders'[j] == orders[j] || orders'[j] == orders[j].(status := Cancelled)
    requires |orders'| > |orders| ==> forall j | 0 <= j < |orders| :: !Occupies(orders'[j], orders'[|orders|].machine)
    ensures OneLivePerMachine(orders')
  {
  }

  /** A placement always keeps it, whatever fails: it is refused while another live order holds the machine. */
  lemma PlacementKeepsOneLive(s: State, r: Request, f: Faults)
    requires OneLivePerMachine(s.orders)
    ensures OneLivePerMachine(Place(s, r, f).0.orders)
    ensures HeldByAnother(s.orders, r) ==> Place(s, r, f).1.Refused?
  {
    PlaceIsLocal(s, r, f);
    OneMoreKeepsOneLive(s.orders, Place(s, r, f).0.orders);
    if Precheck(s.machines, r).Ok? { RefusedAsBusyIff(s, r, f); }
  }

  /** A live order holds the machine that the request does not replace. */
  ghost predicate HeldByAnother(orders: seq<Order>, r: Request) {
    exists i :: 0 <= i < |orders| && Occupies(orders[i], r.machine) && !(orders[i].status == Pending && orders[i].user == r.user)
  }

  /** A placement that passes the other checks, and gets as far as its record, is refused exactly when another live order holds the machine. */
  lemma RefusedAsBusyIff(s: State, r: Request, f: Faults)
    requires Precheck(s.machines, r).Ok?
    ensures Place(s, r, f).1.Refused? <==> f.stop != NoStop || HeldByAnother(s.orders, r)
  {
    OccupiedIff(s.orders, r);
  }

  lemma OccupiedIff(orders: seq<Order>, r: Request)
    ensures Occupied(CancelPending(orders, r.user, r.machine), r.machine) <==> HeldByAnother(orders, r)
  {
    var after := CancelPending(orders, r.user, r.machine);
    forall i | 0 <= i < |orders|
      ensures Occupies(after[i], r.machine)
         <==> Occupies(orders[i], r.machine) && !(orders[i].status == Pending && orders[i].user == r.user)
    {
    }
  }

  lemma {:induction false} SweepOnlyFails(s: State, ids: seq<nat>, fs: seq<SettleFaults>)
    requires forall i | 0 <= i < |ids| :: ids[i] < |s.orders|
    ensures
      var s' := Sweep(s, ids, fs);
      |s'.orders| == |s.orders|
      && forall i | 0 <= i < |s.orders| :: s'.orders[i] == s.orders[i] || s'.orders[i] == s.orders[i].(status := Failed)
    decreases |ids|
  {
    if ids != [] {
      var s1 := TimeOut(s, ids[0], FaultsNow(fs));
      TimeOutMoves(s, ids[0], FaultsNow(fs));
      assert s.orders[ids[0] := s.orders[ids[0]]] == s.orders;
      if SweepsOn(s, ids[0], FaultsNow(fs)) { SweepOnlyFails(s1, ids[1..], FaultsLater(fs)); }
    }
  }

  /** The event revives no order beside a live one. */
  ghost predicate Quiet(s: State, e: Event) {
    Revives(e) && e.id < |s.orders| ==> RevivalAllowed(s.orders, e.id)
  }

  lemma EventKeepsOneLiveIff(s: State, e: Event)
    requires OneLivePerMachine(s.orders)
    ensures OneLivePerMachine(Apply(s, e).orders) <==> Quiet(s, e)
  {
    if Target(e).Some? {
      var id := Target(e).value;
      if id < |s.orders| { SettlingKeepsOneLiveIff(s, e, id); }
    } else if e.Placing? {
      PlacementKeepsOneLive(s, e.request, e.faults);
    } else if e.Ticking? {
      SweepOnlyFails(s, Swept(s.orders, e.cutoff), e.sweep);
    }
  }

  ghost predicate QuietRun(s: State, events: seq<Event>)
    decreases |events|
  {
    events != [] ==> Quiet(s, events[0]) && QuietRun(Apply(s, events[0]), events[1..])
  }

  ghost predicate OneLiveThroughout(s: State, events: seq<Event>)
    decreases |events|
  {
    OneLivePerMachine(s.orders) && (events != [] ==> OneLiveThroughout(Apply(s, events[0]), events[1..]))
  }

  /** Serial calls keep at most one live order per machine throughout a run exactly when the run has no such revival. */
  lemma {:induction false} EveryRunKeepsOneLiveIff(s: State, events: seq<Event>)
    requires OneLivePerMachine(s.orders)
    ensures OneLiveThroughout(s, events) <==> QuietRun(s, events)
    ensures QuietRun(s, events) ==> OneLivePerMachine(Run(s, events).orders)
    decreases |events|
  {
    if events != [] {
      EventKeepsOneLiveIff(s, events[0]);
      if Quiet(s, events[0]) { EveryRunKeepsOneLiveIff(Apply(s, events[0]), events[1..]); }
    }
  }

  // ─── Legacy requests ───────────────────────────────────────────────────────

  function LiveCount(orders: seq<Order>): nat {
    if orders == [] then 0 else LiveCount(orders[..|orders| - 1]) + if orders[|orders| - 1].Live() then 1 else 0
  }

  lemma LiveAppend(orders: seq<Order>, o: Order)
    ensures LiveCount(orders + [o]) == LiveCount(orders) + if o.Live() then 1 else 0
  {
    assert (orders + [o])[..|orders|] == orders;
  }

  lemma {:induction false} NoneLive(orders: seq<Order>)
    ensures LiveCount(orders) == 0 <==> forall i | 0 <= i < |orders| :: !orders[i].Live()
  {
    if orders != [] {
      NoneLive(orders[..|orders| - 1]);
      assert forall i | 0 <= i < |orders| - 1 :: orders[..|orders| - 1][i] == orders[i];
    }
  }

  /** On one machine, one live order is at most one live order. */
  lemma {:induction false} OneMachineIff(orders: seq<Order>, m: MachineId)
    requires forall i | 0 <= i < |orders| :: orders[i].machine == m
    ensures OneLivePerMachine(orders) <==> LiveCount(orders) <= 1
  {
    if orders != [] {
      var n := |orders| - 1;
      var front := orders[..n];
      assert forall i | 0 <= i < n :: front[i] == orders[i];
      OneMachineIff(front, m);
      NoneLive(front);
      if orders[n].Live() && LiveCount(front) > 0 {
        var i :| 0 <= i < n && front[i].Live();
        assert orders[i].Live() && orders[i].machine == orders[n].machine;
      }
    }
  }

  /** Orders added to a machine nobody occupies. */
  lemma AddedOrdersIff(before: seq<Order>, added: seq<Order>, m: MachineId)
    requires OneLivePerMachine(before) && !Occupied(before, m)
    requires forall i | 0 <= i < |added| :: added[i].machine == m
    ensures OneLivePerMachine(before + added) <==> LiveCount(added) <= 1
  {
    OneMachineIff(added, m);
    var all := before + added;
    if OneLivePerMachine(all) {
      forall i, j | 0 <= i < j < |added| ensures !(added[i].Live() && added[j].Live() && added[i].machine == added[j].machine) {
        assert all[|before| + i] == added[i] && all[|before| + j] == added[j];
      }
    }
    if OneLivePerMachine(added) {
      forall i, j | 0 <= i < j < |all| ensures !(all[i].Live() && all[j].Live() && all[i].machine == all[j].machine) {
        if i < |before| <= j { assert !Occupies(before[i], m); }
      }
    }
  }

  function Successes(results: seq<Result>): nat {
    if results == [] then 0 else Successes(results[..|results| - 1]) + if results[|results| - 1].Success? then 1 else 0
  }

  /** The turn stores a live order: it can charge, the order is recorded, and not stored as failed afterwards. */
  predicate StoresLive(d: Desk, q: LegacyRequest, m: Machine, e: Entry, f: LegacyFaults) {
    Affords(d, q, m, e) && f.deduct == NoDebitFault && !f.save && (f.publish ==> f.saveFailed)
  }

  /** How many of the first `k` entries store a live order, each judged on the desk its turn starts from. */
  function LiveStored(d: Desk, q: LegacyRequest, m: Machine, fs: seq<LegacyFaults>, k: nat): nat
    requires k <= |q.entries| == |fs|
  {
    if k == 0 then 0
    else
      var p := Process(d, q, m, fs, k - 1);
      LiveStored(d, q, m, fs, k - 1)
      + if p.error.None? && StoresLive(p.desk, q, m, q.entries[k - 1], fs[k - 1]) then 1 else 0
  }

  /** The orders added: all on machine `m`, `live` of them live. */
  ghost predicate Added(before: seq<Order>, m: MachineId, after: seq<Order>, live: nat) {
    && |before| <= |after| && after[..|before|] == before
    && (forall i | |before| <= i < |after| :: after[i].machine == m)
    && LiveCount(after[|before|..]) == live
  }

  /** Nothing is added, or one order on machine `m`. */
  ghost predicate AddsOne(before: seq<Order>, m: MachineId, after: seq<Order>, live: bool) {
    || (after == before && !live)
    || (exists o :: after == before + [o] && o.machine == m && (o.Live() <==> live))
  }

  lemma TurnStores(d: Desk, q: LegacyRequest, m: Machine, e: Entry, f: LegacyFaults)
    ensures AddsOne(d.s.orders, q.machine, TakeTurn(d, q, m, e, f).0.s.orders, StoresLive(d, q, m, e, f))
  {
    if Affords(d, q, m, e) && f.deduct == NoDebitFault && !f.save {
      var o := OrderFor(q, m, e);
      var stored := if f.publish && !f.saveFailed then o.(status := Failed) else o;
      assert TakeTurn(d, q, m, e, f).0.s.orders == d.s.orders + [stored];
    }
  }

  /** A listed success is a live order, and in a turn that ends normally nothing else is. */
  lemma TurnListsLive(d: Desk, q: LegacyRequest, m: Machine, e: Entry, f: LegacyFaults)
    ensures var t := TakeTurn(d, q, m, e, f).1; !t.Aborted? ==> (t.Listed? && t.result.Success? <==> StoresLive(d, q, m, e, f))
  {
  }

  lemma AppendAdded(before: seq<Order>, m: MachineId, after: seq<Order>, live: nat, o: Order)
    requires Added(before, m, after, live) && o.machine == m
    ensures Added(before, m, after + [o], live + if o.Live() then 1 else 0)
  {
    var n := |before|;
    LiveAppend(after[n..], o);
    assert (after + [o])[n..] == after[n..] + [o];
    assert (after + [o])[..n] == after[..n];
  }

  lemma AddedStep(before: seq<Order>, m: MachineId, a: seq<Order>, b: seq<Order>, live: nat, more: bool)
    requires Added(before, m, a, live) && AddsOne(a, m, b, more)
    ensures Added(before, m, b, live + if more then 1 else 0)
  {
    if b != a {
      var o :| b == a + [o] && o.machine == m && (o.Live() <==> more);
      AppendAdded(before, m, a, live, o);
    }
  }

  lemma StepAdds(before: seq<Order>, p: Progress, q: LegacyRequest, m: Machine, e: Entry, f: LegacyFaults, live: nat)
    requires Added(before, q.machine, p.desk.s.orders, live)
    ensures Added(before, q.machine, Next(p, q, m, e, f).desk.s.orders,
                  live + if p.error.None? && StoresLive(p.desk, q, m, e, f) then 1 else 0)
  {
    if p.error.None? {
      TurnStores(p.desk, q, m, e, f);
      AddedStep(before, q.machine, p.desk.s.orders, TakeTurn(p.desk, q, m, e, f).0.s.orders, live, StoresLive(p.desk, q, m, e, f));
    }
  }

  lemma {:induction false} LoopAdds(d: Desk, q: LegacyRequest, m: Machine, fs: seq<LegacyFaults>, k: nat)
    requires k <= |q.entries| == |fs|
    ensures Added(d.s.orders, q.machine, Process(d, q, m, fs, k).desk.s.orders, LiveStored(d, q, m, fs, k))
  {
    if k == 0 {
      assert d.s.orders[|d.s.orders|..] == [];
    } else {
      LoopAdds(d, q, m, fs, k - 1);
      StepAdds(d.s.orders, Process(d, q, m, fs, k - 1), q, m, q.entries[k - 1], fs[k - 1], LiveStored(d, q, m, fs, k - 1));
    }
  }

  lemma StepListsLive(p: Progress, q: LegacyRequest, m: Machine, e: Entry, f: LegacyFaults)
    requires p.error.None? && Next(p, q, m, e, f).error.None?
    ensures Successes(Next(p, q, m, e, f).results) == Successes(p.results) + if StoresLive(p.desk, q, m, e, f) then 1 else 0
  {
    var t := TakeTurn(p.desk, q, m, e, f).1;
    TurnListsLive(p.desk, q, m, e, f);
    if t.Listed? { assert (p.results + [t.result])[..|p.results|] == p.results; }
  }

  /** A loop that ends normally lists as many successes as it stores live orders. */
  lemma {:induction false} LoopListsLive(d: Desk, q: LegacyRequest, m: Machine, fs: seq<LegacyFaults>, k: nat)
    requires k <= |q.entries| == |fs| && Process(d, q, m, fs, k).error.None?
    ensures Successes(Process(d, q, m, fs, k).results) == LiveStored(d, q, m, fs, k)
  {
    if k > 0 {
      var p := Process(d, q, m, fs, k - 1);
      LoopListsLive(d, q, m, fs, k - 1);
      StepListsLive(p, q, m, q.entries[k - 1], fs[k - 1]);
    }
  }

  lemma CancellingKeepsOneLive(orders: seq<Order>, u: UserId, m: MachineId)
    requires OneLivePerMachine(orders)
    ensures OneLivePerMachine(CancelPending(orders, u, m))
  {
  }

  /** The live orders a legacy request stores. */
  function LegacyLive(d: Desk, q: LegacyRequest, c: CallFaults, fs: seq<LegacyFaults>): nat
    requires |fs| == |q.entries|
  {
    if LegacyStarts(d, q, c) then LiveStored(LegacyStart(d, q, c), q, d.s.machines[q.machine], fs, |fs|) else 0
  }

  /**
   * A legacy request keeps one live order per machine exactly when at most one of its entries can charge
   * and is recorded without being stored as failed; a request that answers reports that many successes.
   */
  lemma LegacyKeepsOneLiveIff(d: Desk, q: LegacyRequest, c: CallFaults, fs: seq<LegacyFaults>)
    requires |fs| == |q.entries| && OneLivePerMachine(d.s.orders)
    ensures
      var (d', reply) := LegacyPlace(d, q, c, fs);
      && (OneLivePerMachine(d'.s.orders) <==> LegacyLive(d, q, c, fs) <= 1)
      && (reply.Answered? ==> Successes(reply.results) == LegacyLive(d, q, c, fs))
  {
    LegacyPlaceIsTheLoop(d, q, c, fs);
    CancellingKeepsOneLive(d.s.orders, q.user, q.machine);
    if LegacyStarts(d, q, c) {
      var start, m := LegacyStart(d, q, c), d.s.machines[q.machine];
      var p := Process(start, q, m, fs, |fs|);
      LoopAdds(start, q, m, fs, |fs|);
      AddedIff(start.s.orders, q.machine, p.desk.s.orders, LiveStored(start, q, m, fs, |fs|));
      if p.error.None? { LoopListsLive(start, q, m, fs, |fs|); }
    }
  }

  lemma AddedIff(before: seq<Order>, m: MachineId, after: seq<Order>, live: nat)
    requires OneLivePerMachine(before) && !Occupied(before, m) && Added(before, m, after, live)
    ensures OneLivePerMachine(after) <==> live <= 1
  {
    var added := after[|before|..];
    assert after == before + added;
    AddedOrdersIff(before, added, m);
  }

  // ─── The busy flag ─────────────────────────────────────────────────────────

  /** The same machines up to their busy flags. */
  ghost predicate SameButBusy(ms: Fleet, ms': Fleet) {
    ms.Keys == ms'.Keys && forall m | m in ms :: ms'[m] == ms[m].(isBusy := ms'[m].isBusy)
  }

  /** Two sagas that agree on everything but busy flags. */
  ghost predicate Alike(g: Saga, g': Saga) {
    && g'.s.orders == g.s.orders && g'.s.ledger == g.s.ledger && SameButBusy(g.s.machines, g'.s.machines)
    && g'.id == g.id && g'.mem == g.mem && g'.batchDeducted == g.batchDeducted
    && g'.command == g.command && g'.error == g.error
  }

  lemma AllocateAlike(g: Saga, g': Saga, snap: Machine, busy: bool, r: Request, f: Faults)
    requires Alike(g, g')
    ensures Alike(Allocate(g, snap, r, f), Allocate(g', snap.(isBusy := busy), r, f))
  {
    if g.error.None? && snap.isFood {
      AllocateFoodAlike(g, g', snap, busy, r, f);
    } else if g.error.None? {
      assert CalibrationFor(snap.(isBusy := busy), r) == CalibrationFor(snap, r);
    }
  }

  lemma AllocateFoodAlike(g: Saga, g': Saga, snap: Machine, busy: bool, r: Request, f: Faults)
    requires Alike(g, g') && g.error.None? && snap.isFood
    ensures Alike(Allocate(g, snap, r, f), Allocate(g', snap.(isBusy := busy), r, f))
  {
    var ms, ms' := g.s.machines, g'.s.machines;
    if r.machine in ms {
      assert ms'[r.machine].batches == ms[r.machine].batches;
      var taken := Deduct(ms[r.machine].batches, r.itemId, r.quantity);
      if taken.Some? { BatchesAlike(ms, ms', r.machine, taken.value.0); }
    }
  }

  lemma BatchesAlike(ms: Fleet, ms': Fleet, m: MachineId, bs: seq<Batch>)
    requires SameButBusy(ms, ms') && m in ms
    ensures SameButBusy(SetBatches(ms, m, bs), SetBatches(ms', m, bs))
  {
  }

  lemma AlikeTransitive(a: Fleet, b: Fleet, c: Fleet)
    requires SameButBusy(a, b) && SameButBusy(b, c)
    ensures SameButBusy(a, c)
  {
  }

  lemma PublishAlike(g: Saga, g': Saga, f: Faults)
    requires g.Ok() && Alike(g, g')
    ensures Alike(Publish(g, f), Publish(g', f))
  {
  }

  lemma SoldAlike(ms: Fleet, ms': Fleet, m: MachineId, amount: nat)
    requires SameButBusy(ms, ms')
    ensures SameButBusy(SetBusy(ms, m, true), SetBusy(ms', m, true))
    ensures SameButBusy(CountOrder(SetBusy(ms, m, true), m, amount), CountOrder(SetBusy(ms', m, true), m, amount))
  {
  }

  lemma BookAlike(g: Saga, g': Saga, m: MachineId, f: Faults)
    requires Alike(g, g')
    ensures Alike(Bookkeep(g, m, f), Bookkeep(g', m, f))
  {
    SoldAlike(g.s.machines, g'.s.machines, m, g.mem.total);
  }

  lemma BookingAlike(g: Saga, g': Saga, m: MachineId, f: Faults)
    requires g.Ok() && Alike(g, g')
    ensures Alike(Bookkeep(Publish(g, f), m, f), Bookkeep(Publish(g', f), m, f))
  {
    PublishAlike(g, g', f);
    BookAlike(Publish(g, f), Publish(g', f), m, f);
  }

  lemma RestoreAlike(ms: Fleet, ms': Fleet, m: MachineId, item: ItemId, quantity: int, fault: RestoreFault)
    requires SameButBusy(ms, ms')
    ensures SameButBusy(RestoreOn(ms, m, item, quantity, fault), RestoreOn(ms', m, item, quantity, fault))
  {
    if m in ms { BatchesAlike(ms, ms', m, RestoreUpTo(ms[m].batches, item, quantity, fault)); }
  }

  lemma RollbackAlike(g: Saga, g': Saga, isFood: bool, r: Request, f: Faults)
    requires g.Ok() && Alike(g, g')
    ensures Alike(Rollback(g, isFood, r, f), Rollback(g', isFood, r, f))
  {
    RestoreAlike(g.s.machines, g'.s.machines, r.machine, r.itemId, r.quantity, f.restore);
    RollbackSpec(g, isFood, r, f);
    RollbackSpec(g', isFood, r, f);
  }

  lemma ChargeAlike(s: State, ms: Fleet, id: nat, r: Request, f: Faults)
    requires id < |s.orders| && SameButBusy(s.machines, ms)
    ensures Alike(AfterCharge(s, id, r, f), AfterCharge(s.(machines := ms), id, r, f))
  {
  }

  lemma SagaAlike(s: State, ms: Fleet, id: nat, snap: Machine, busy: bool, r: Request, f: Faults)
    requires id < |s.orders| && SameButBusy(s.machines, ms)
    ensures Alike(RunSaga(s, id, snap, r, f), RunSaga(s.(machines := ms), id, snap.(isBusy := busy), r, f))
  {
    var s', snap' := s.(machines := ms), snap.(isBusy := busy);
    ChargeAlike(s, ms, id, r, f);
    AllocateAlike(AfterCharge(s, id, r, f), AfterCharge(s', id, r, f), snap, busy, r, f);
    SagaStages(s, id, snap, r, f);
    SagaStages(s', id, snap', r, f);
    BookingAlike(AfterSupply(s, id, snap, r, f), AfterSupply(s', id, snap', r, f), r.machine, f);
    RollbackAlike(AfterBooking(s, id, snap, r, f), AfterBooking(s', id, snap', r, f), snap.isFood, r, f);
  }

  lemma AdmissionFrees(s: State, r: Request, f: Faults)
    ensures
      var a := Admitted(s, r, f);
      && a.orders == CancelPending(s.orders, r.user, r.machine) && a.ledger == s.ledger
      && SameButBusy(a.machines, s.machines) && SameButBusy(s.machines, a.machines)
  {
  }

  /** Clearing a stale flag is all that admission does to the fleet. */
  lemma AdmittedAlike(s: State, ms: Fleet, r: Request, f: Faults)
    requires SameButBusy(s.machines, ms)
    ensures
      var a, a' := Admitted(s, r, f), Admitted(s.(machines := ms), r, f);
      a'.orders == a.orders && a'.ledger == a.ledger && SameButBusy(a.machines, a'.machines)
  {
    var a, a' := Admitted(s, r, f).machines, Admitted(s.(machines := ms), r, f).machines;
    AdmissionFrees(s, r, f);
    AdmissionFrees(s.(machines := ms), r, f);
    AlikeTransitive(a, s.machines, ms);
    AlikeTransitive(a, ms, a');
  }

  lemma RecordedAlike(s: State, ms: Fleet, r: Request, f: Faults)
    requires SameButBusy(s.machines, ms)
    ensures Records(s.(machines := ms), r, f) <==> Records(s, r, f)
    ensures Records(s, r, f) ==>
              && Recorded(s.(machines := ms), r, f).orders == Recorded(s, r, f).orders
              && Recorded(s.(machines := ms), r, f).ledger == Recorded(s, r, f).ledger
              && SameButBusy(Recorded(s, r, f).machines, Recorded(s.(machines := ms), r, f).machines)
  {
    AdmittedAlike(s, ms, r, f);
    ChecksIgnoreBusy(s, ms, r);
  }

  lemma RefusalAlike(s: State, ms: Fleet, r: Request, f: Faults)
    requires SameButBusy(s.machines, ms) && !Records(s, r, f)
    ensures
      var (t, p) := Place(s, r, f);
      var (t', p') := Place(s.(machines := ms), r, f);
      p' == p && t'.orders == t.orders && t'.ledger == t.ledger && SameButBusy(t.machines, t'.machines)
  {
    ChecksIgnoreBusy(s, ms, r);
    if Cancels(s, r, f) { AdmittedAlike(s, ms, r, f); }
  }

  /**
   * The decision on an order, its record, its money and its stock are the same whatever the busy flags
   * say: only the stored live orders block a machine, so a stale flag never does.
   */
  lemma PlaceIgnoresBusy(s: State, ms: Fleet, r: Request, f: Faults)
    requires SameButBusy(s.machines, ms)
    ensures
      var (t, p) := Place(s, r, f);
      var (t', p') := Place(s.(machines := ms), r, f);
      p' == p && t'.orders == t.orders && t'.ledger == t.ledger && SameButBusy(t.machines, t'.machines)
  {
    if Records(s, r, f) {
      var s' := s.(machines := ms);
      RecordedAlike(s, ms, r, f);
      PlaceIsTheSaga(s, r, f);
      PlaceIsTheSaga(s', r, f);
      var s2, s2' := Recorded(s, r, f), Recorded(s', r, f);
      assert s2' == s2.(machines := s2'.machines);
      SagaAlike(s2, s2'.machines, |s.orders|, s.machines[r.machine], ms[r.machine].isBusy, r, f);
    } else {
      RefusalAlike(s, ms, r, f);
    }
  }

  /** The checks and the price read nothing of the busy flag. */
  lemma ChecksIgnoreBusy(s: State, ms: Fleet, r: Request)
    requires SameButBusy(s.machines, ms)
    ensures Precheck(ms, r) == Precheck(s.machines, r)
    ensures Precheck(ms, r).Ok? ==>
              NewOrder(s.(machines := ms), r, Precheck(ms, r).value) == NewOrder(s, r, Precheck(s.machines, r).value)
  {
  }
}
