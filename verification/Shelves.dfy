/** Every run of the whole order protocol keeps every shelf good, so the priced batch is always the dispensed one. */
module Shelves {
  import opened Common
  import opened Batches
  import opened Machines
  import opened Orders
  import opened Lifecycle
  import opened Placement
  import opened WireFormat
  import Cups
  import Wallet

  ghost predicate GoodFleet(ms: Fleet) { forall m | m in ms :: GoodShelf(ms[m].batches) }

  /** The same shelves, whatever else changed on the machines. */
  ghost predicate SameShelves(ms: Fleet, ms': Fleet) {
    ms'.Keys == ms.Keys && forall m | m in ms :: ms'[m].batches == ms[m].batches
  }

  lemma RestoreKeepsFleet(ms: Fleet, m: MachineId, item: ItemId, quantity: nat, fault: RestoreFault)
    requires GoodFleet(ms)
    ensures GoodFleet(RestoreOn(ms, m, item, quantity, fault))
  {
    if m in ms { RestoreKeepsShelf(ms[m].batches, item, quantity, fault); }
  }

  lemma AllocateKeepsFleet(g: Saga, snap: Machine, r: Request, f: Faults)
    requires GoodFleet(g.s.machines) && r.quantity > 0
    ensures GoodFleet(Allocate(g, snap, r, f).s.machines)
  {
    if r.machine in g.s.machines {
      var bs := g.s.machines[r.machine].batches;
      if Deduct(bs, r.itemId, r.quantity).Some? { DeductKeepsShelf(bs, r.itemId, r.quantity); }
    }
  }

  lemma SagaKeepsFleet(s: State, id: nat, snap: Machine, r: Request, f: Faults)
    requires id < |s.orders| && GoodFleet(s.machines) && r.quantity > 0
    ensures GoodFleet(RunSaga(s, id, snap, r, f).s.machines)
  {
    var supplied, booked := AfterSupply(s, id, snap, r, f), AfterBooking(s, id, snap, r, f);
    ChargeEffects(s, id, r, f);
    AllocateKeepsFleet(AfterCharge(s, id, r, f), snap, r, f);
    SagaStages(s, id, snap, r, f);
    BookingKeepsShelves(supplied, r.machine, f);
    RestoreKeepsFleet(booked.s.machines, r.machine, r.itemId, r.quantity, f.restore);
    RollbackSpec(booked, snap.isFood, r, f);
  }

  lemma PlacementKeepsFleet(s: State, r: Request, f: Faults)
    requires GoodFleet(s.machines) && r.quantity > 0
    ensures GoodFleet(Place(s, r, f).0.machines)
  {
    PlaceIsTheSaga(s, r, f);
    assert SameShelves(s.machines, Admitted(s, r, f).machines);
    if Records(s, r, f) {
      RecordedSpec(s, r, f);
      SagaKeepsFleet(Recorded(s, r, f), |s.orders|, s.machines[r.machine], r, f);
    }
  }

  lemma ConsumingKeepsShelves(ms: Fleet, m: MachineId, parts: seq<Cups.Part>)
    ensures SameShelves(ms, ConsumeOn(ms, m, parts))
  {
  }

  lemma RestockingKeepsFleet(s: State, o: Order, isFood: bool, status: AckStatus, dispensed: int, fault: RestoreFault)
    requires GoodFleet(s.machines)
    ensures GoodFleet(Restocked(s, o, isFood, status, dispensed, fault).machines)
  {
    if Restocks(o, isFood, status, dispensed) {
      var back := o.quantity - dispensed;
      RestoreKeepsFleet(s.machines, o.machine, o.item, back, fault);
      assert Restocked(s, o, isFood, status, dispensed, fault).machines == RestoreOn(s.machines, o.machine, o.item, back, fault);
    } else {
      assert Restocked(s, o, isFood, status, dispensed, fault) == s;
    }
  }

  lemma AckKeepsFleet(s: State, id: nat, status: AckStatus, ord: Option<string>, f: SettleFaults)
    requires id < |s.orders| && GoodFleet(s.machines)
    ensures GoodFleet(HandleAck(s, id, status, ord, f).machines)
  {
    var o, parts := s.orders[id], Reported(s, id, status, ord);
    var consumed := s.(machines := ConsumeOn(s.machines, o.machine, UpTo(parts, f.stop)));
    ConsumingKeepsShelves(s.machines, o.machine, UpTo(parts, f.stop));
    RestockingKeepsFleet(consumed, o, IsFoodOrder(s, id), status, Total(parts), f.restore);
    AckMachines(s, id, status, ord, f);
  }

  /** Settling without an acknowledgement touches no shelf. */
  lemma OtherSettlingKeepsShelves(s: State, e: Event, id: nat)
    requires Target(e) == Some(id) && id < |s.orders| && !e.Ack?
    ensures SameShelves(s.machines, Apply(s, e).machines)
  {
    FreeingKeepsShelves(s.machines, s.orders[id].machine);
    OtherMachines(s, e, id);
  }

  lemma SettlingKeepsFleet(s: State, e: Event)
    requires GoodFleet(s.machines) && Target(e).Some?
    ensures GoodFleet(Apply(s, e).machines)
  {
    var id := Target(e).value;
    if id < |s.orders| {
      if e.Ack? { AckKeepsFleet(s, id, e.ack, e.ord, e.failing); } else { OtherSettlingKeepsShelves(s, e, id); }
    }
  }

  lemma FreeingKeepsShelves(ms: Fleet, m: MachineId)
    ensures SameShelves(ms, SetBusy(ms, m, false))
  {
  }

  lemma {:induction false} SweepKeepsFleet(s: State, ids: seq<nat>, fs: seq<SettleFaults>)
    requires GoodFleet(s.machines) && forall i | 0 <= i < |ids| :: ids[i] < |s.orders|
    ensures GoodFleet(Sweep(s, ids, fs).machines)
    decreases |ids|
  {
    if ids != [] {
      TimeOutKeepsFleet(s, ids[0], FaultsNow(fs));
      if SweepsOn(s, ids[0], FaultsNow(fs)) { SweepKeepsFleet(TimeOut(s, ids[0], FaultsNow(fs)), ids[1..], FaultsLater(fs)); }
    }
  }

  lemma TimeOutKeepsFleet(s: State, id: nat, f: SettleFaults)
    requires GoodFleet(s.machines) && id < |s.orders|
    ensures GoodFleet(TimeOut(s, id, f).machines)
  {
    var o := s.orders[id];
    FreeingKeepsShelves(s.machines, o.machine);
    RestoreKeepsFleet(SetBusy(s.machines, o.machine, false), o.machine, o.item, o.quantity, f.restore);
  }

  /** Loads carry fresh numbers and a clock that does not run backwards; quantities are at least one. */
  ghost predicate RegularEvent(s: State, e: Event) {
    && (e.Placing? ==> e.request.quantity > 0)
    && (e.Stocking? && e.machine in s.machines ==> Regular(s.machines[e.machine].batches, e.stock))
  }

  lemma EventKeepsFleet(s: State, e: Event)
    requires GoodFleet(s.machines) && RegularEvent(s, e)
    ensures GoodFleet(Apply(s, e).machines)
  {
    if Target(e).Some? {
      SettlingKeepsFleet(s, e);
    } else if e.Placing? {
      PlacementKeepsFleet(s, e.request, e.faults);
    } else if e.Ticking? {
      SweepKeepsFleet(s, Swept(s.orders, e.cutoff), e.sweep);
    } else if e.Stocking? {
      if e.machine in s.machines { StockStep(s.machines[e.machine].batches, e.stock); }
    }
  }

  ghost predicate RegularRun(s: State, events: seq<Event>)
    decreases |events|
  {
    events != [] ==> RegularEvent(s, events[0]) && RegularRun(Apply(s, events[0]), events[1..])
  }

  lemma {:induction false} RunKeepsFleet(s: State, events: seq<Event>)
    requires GoodFleet(s.machines) && RegularRun(s, events)
    ensures GoodFleet(Run(s, events).machines)
    decreases |events|
  {
    if events != [] {
      EventKeepsFleet(s, events[0]);
      RunKeepsFleet(Apply(s, events[0]), events[1..]);
    }
  }

  /**
   * After every run of the whole protocol, whatever fails in it, shelves are good, and a food order that
   * is placed next is dispensed from the batch its price was computed from.
   */
  lemma EveryRunDispensesThePricedBatch(balances: map<Wallet.UserId, int>, machines: Fleet, events: seq<Event>, r: Request, f: Faults)
    requires GoodFleet(machines) && RegularRun(Fresh(balances, machines), events)
    ensures
      var s := Run(Fresh(balances, machines), events);
      && GoodFleet(s.machines)
      && (r.machine in s.machines && s.machines[r.machine].isFood && Place(s, r, f).1.Placed? ==>
            var batch := Priced(s.machines[r.machine].batches, r.itemId, r.quantity);
            && batch.Some? && batch == Allocated(s.machines[r.machine].batches, r.itemId, r.quantity)
            && Place(s, r, f).1.command == Some(FoodCommand(batch.value.nozzle, ItemName(r), r.quantity)))
  {
    RunKeepsFleet(Fresh(balances, machines), events);
    var s := Run(Fresh(balances, machines), events);
    if r.machine in s.machines && s.machines[r.machine].isFood && Place(s, r, f).1.Placed? {
      PricedBatchIsDispensed(s, r, f);
      ChronologicalPricedIsDispensed(s.machines[r.machine].batches, r.itemId, r.quantity);
    }
  }
}
