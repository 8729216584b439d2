/**
 * What a call of the order protocol comes to, told from the request, the stored order and the machine
 * alone: which requests are taken and what they cost, what is published, how an acknowledgement closes an
 * order, and which orders a tick of the timeout sweep fails.
 */
module Outcomes {
  import opened Common
  import opened Wallet
  import opened Batches
  import opened Machines
  import opened Orders
  import opened OrderBooks
  import opened Placement
  import opened Lifecycle
  import opened WireFormat
  import opened Pricing
  import Cups
  import Timers

  // ─── What the machine has ──────────────────────────────────────────────────

  /** The batch has the ordered units on sale. */
  predicate Offers(b: Batch, r: Request) { b.item == r.itemId && b.status == Active && b.quantity >= r.quantity }

  /** The first batch in the array that offers the order. */
  ghost predicate FirstOffer(bs: seq<Batch>, r: Request, k: nat) {
    k < |bs| && Offers(bs[k], r) && forall j | 0 <= j < k :: !Offers(bs[j], r)
  }

  /** The first inventory entry of the item. */
  ghost predicate FirstStock(inv: seq<Cups.Entry>, item: ItemId, k: nat) {
    k < |inv| && inv[k].item == item && forall j | 0 <= j < k :: inv[j].item != item
  }

  /** The grams an order takes: those of a cup, or 18 where none are set, for each. */
  function GramsNeeded(e: Cups.Entry, quantity: nat): int { quantity * if e.gramsPerCup > 0 then e.gramsPerCup else 18 }

  ghost predicate InStock(m: Machine, r: Request) {
    if m.isFood then exists k | 0 <= k < |m.batches| :: Offers(m.batches[k], r)
    else exists k: nat :: FirstStock(m.inventory, r.itemId, k) && m.inventory[k].stock >= GramsNeeded(m.inventory[k], r.quantity)
  }

  lemma PricedIsFirstOffer(bs: seq<Batch>, r: Request)
    ensures Priced(bs, r.itemId, r.quantity).Some? <==> exists k | 0 <= k < |bs| :: Offers(bs[k], r)
    ensures forall k: nat | FirstOffer(bs, r, k) :: Priced(bs, r.itemId, r.quantity) == Some(bs[k])
    ensures Priced(bs, r.itemId, r.quantity).Some? ==> exists k: nat :: FirstOffer(bs, r, k)
  {
    var i := FirstIndex(bs, IsServing(r.itemId, r.quantity));
    assert forall j | 0 <= j < |bs| :: IsServing(r.itemId, r.quantity)(bs[j]) <==> Offers(bs[j], r);
    if i < |bs| { assert FirstOffer(bs, r, i); }
    forall k: nat | FirstOffer(bs, r, k) ensures Priced(bs, r.itemId, r.quantity) == Some(bs[k]) {
      assert k == i;
    }
  }

  lemma StockCheckIff(m: Machine, r: Request)
    ensures StockCheck(m, r).None? <==> InStock(m, r)
    ensures StockCheck(m, r).Some? ==> StockCheck(m, r).value == if m.isFood then SoldOut else InsufficientStock
  {
    if m.isFood {
      PricedIsFirstOffer(m.batches, r);
    } else {
      var i := Cups.FindItem(m.inventory, r.itemId);
      if i < |m.inventory| { assert FirstStock(m.inventory, r.itemId, i); }
      forall k: nat | FirstStock(m.inventory, r.itemId, k) ensures k == i {
      }
    }
  }

  // ─── What is sold at what price ────────────────────────────────────────────

  /** The first cup size listed under this name. */
  ghost predicate FirstSize(sizes: seq<(string, nat)>, size: string, k: nat) {
    k < |sizes| && sizes[k].0 == size && forall j | 0 <= j < k :: sizes[j].0 != size
  }

  lemma {:induction false} FindCupSizeSpec(sizes: seq<(string, nat)>, size: string)
    ensures FindCupSize(sizes, size).None? <==> forall j | 0 <= j < |sizes| :: sizes[j].0 != size
    ensures forall k: nat | FirstSize(sizes, size, k) :: FindCupSize(sizes, size) == Some(sizes[k].1)
    ensures FindCupSize(sizes, size).Some? ==> exists k: nat :: FirstSize(sizes, size, k)
  {
    if sizes != [] {
      var tail := sizes[1..];
      FindCupSizeSpec(tail, size);
      assert forall j | 1 <= j < |sizes| :: sizes[j] == tail[j - 1];
      if sizes[0].0 == size {
        assert FirstSize(sizes, size, 0);
      } else {
        forall k: nat | FirstSize(sizes, size, k) ensures FirstSize(tail, size, k - 1) {
        }
        if k: nat :| FirstSize(tail, size, k) { assert FirstSize(sizes, size, k + 1); }
      }
    }
  }

  /** The item is on sale, at a unit price or in the cup size asked for. */
  ghost predicate OnSale(r: Request) {
    && r.item.Some? && r.item.value.available
    && if r.item.value.isFood then r.item.value.unitPrice > 0
       else r.cupSize.GetOr("") != "" && exists k: nat :: FirstSize(r.item.value.cupSizes, r.cupSize.value, k)
  }

  /** The price before discounts: the unit price, or that of the cup size, for each. */
  ghost predicate ListPrice(r: Request, base: nat) {
    && r.item.Some?
    && if r.item.value.isFood then base == r.item.value.unitPrice * r.quantity
       else r.cupSize.Some?
            && exists k: nat :: FirstSize(r.item.value.cupSizes, r.cupSize.value, k) && base == r.item.value.cupSizes[k].1 * r.quantity
  }

  lemma BasePriceIff(r: Request)
    ensures BasePrice(r).Ok? <==> OnSale(r)
    ensures BasePrice(r).Ok? ==> ListPrice(r, BasePrice(r).value)
  {
    if r.item.Some? && !r.item.value.isFood && r.cupSize.Some? {
      FindCupSizeSpec(r.item.value.cupSizes, r.cupSize.value);
    }
  }

  /**
   * A discount the customer may claim: none, the membership's, that of a promotion that runs now for the
   * item or for all items, or 30% where the first batch on offer expires within a day.
   */
  ghost predicate MayClaim(m: Machine, r: Request, d: Percent) {
    || d == 0.0
    || r.membership == Some(d)
    || (exists i | 0 <= i < |r.promotions| ::
          var p := r.promotions[i];
          && p.active && p.start <= r.now && r.now <= p.end && (p.item == None || p.item == Some(r.itemId)) && p.discount == d)
    || (d == 30.0 && m.isFood
        && exists k: nat :: FirstOffer(m.batches, r, k) && r.now < m.batches[k].expiry <= r.now + 86_400_000)
  }

  lemma ClaimableIff(m: Machine, r: Request, d: Percent)
    ensures
      var batch := Priced(m.batches, r.itemId, r.quantity);
      var near := m.isFood && batch.Some? && NearExpiry(batch.value.expiry, r.now);
      Claimable(d, r.membership, r.promotions, r.itemId, r.now, near) <==> MayClaim(m, r, d)
  {
    PricedIsFirstOffer(m.batches, r);
    assert forall i | 0 <= i < |r.promotions| :: r.promotions[i] in r.promotions;
  }

  /** The quote is the least price over the claimable discounts, and that of one of them. */
  lemma QuoteIsLeast(ms: Fleet, r: Request, base: nat) returns (d: Percent)
    requires r.machine in ms
    ensures MayClaim(ms[r.machine], r, d) && QuoteFor(ms, r, base).total == Price(base, d)
    ensures forall e | MayClaim(ms[r.machine], r, e) :: QuoteFor(ms, r, base).total <= Price(base, e)
  {
    var m := ms[r.machine];
    var batch := Priced(m.batches, r.itemId, r.quantity);
    var near := m.isFood && batch.Some? && NearExpiry(batch.value.expiry, r.now);
    CascadeChargesTheMinimum(base, r.membership, r.promotions, r.itemId, r.now, near);
    d := CurrentBest(QuoteFor(ms, r, base));
    ClaimableIff(m, r, d);
    forall e | MayClaim(m, r, e) ensures QuoteFor(ms, r, base).total <= Price(base, e) { ClaimableIff(m, r, e); }
  }

  // ─── Placement ─────────────────────────────────────────────────────────────

  /** The machine can be used: awake, online, and with water if it boils any. */
  predicate Usable(m: Machine) { !m.sleepMode && m.isOnline && (m.isFood || m.water == "" || m.water == "present") }

  /** Nobody's order is on the machine, apart from the customer's own pending ones. */
  ghost predicate NobodyElse(s: State, r: Request) {
    forall i | 0 <= i < |s.orders| && s.orders[i].machine == r.machine ::
      s.orders[i].status != Dispensing && (s.orders[i].status == Pending ==> s.orders[i].user == r.user)
  }

  lemma OccupiedIff(s: State, r: Request)
    ensures Occupied(CancelPending(s.orders, r.user, r.machine), r.machine) <==> !NobodyElse(s, r)
  {
    var after := CancelPending(s.orders, r.user, r.machine);
    assert forall i | 0 <= i < |s.orders| ::
      Occupies(after[i], r.machine) <==>
        && s.orders[i].machine == r.machine
        && (s.orders[i].status == Dispensing || (s.orders[i].status == Pending && s.orders[i].user != r.user));
  }

  /** An order is recorded if and only if the item is on sale, the machine known, stocked, usable and free, and no call fails before. */
  lemma RecordedIff(s: State, r: Request, f: Faults)
    ensures |Place(s, r, f).0.orders| == |s.orders| + 1
       <==> f.stop == NoStop && OnSale(r) && r.machine in s.machines && InStock(s.machines[r.machine], r)
            && Usable(s.machines[r.machine]) && NobodyElse(s, r)
    ensures |Place(s, r, f).0.orders| == |s.orders| + 1 <==> Records(s, r, f)
    ensures |Place(s, r, f).0.orders| == |s.orders| + 1 <==> !Place(s, r, f).1.Refused?
  {
    PlaceIsTheSaga(s, r, f);
    BasePriceIff(r);
    OccupiedIff(s, r);
    if r.machine in s.machines { StockCheckIff(s.machines[r.machine], r); }
    if Records(s, r, f) { StoredOrder(s, r, f); }
  }

  /** The order a placement stores, apart from its status and payment, is the one it recorded. */
  lemma StoredOrder(s: State, r: Request, f: Faults)
    requires Records(s, r, f)
    ensures
      var id, s' := |s.orders|, Place(s, r, f).0;
      && |s'.orders| == id + 1 && r.machine in s.machines
      && s'.orders[id] == NewOrder(s, r, Precheck(s.machines, r).value).(status := s'.orders[id].status, payment := s'.orders[id].payment)
  {
    PlaceIsTheSaga(s, r, f);
    RecordedSpec(s, r, f);
    StoredLiveIff(Recorded(s, r, f), |s.orders|, s.machines[r.machine], r, f);
  }

  /**
   * Every order a placement records is the request's, and its total is the least rounded price over every
   * discount the customer may claim: that of one of them, and no more than that of any other.
   */
  lemma PlacedOrderIsBilled(s: State, r: Request, f: Faults) returns (base: nat, d: Percent)
    requires Records(s, r, f)
    ensures |Place(s, r, f).0.orders| == |s.orders| + 1 && r.machine in s.machines
    ensures ListPrice(r, base) && MayClaim(s.machines[r.machine], r, d)
    ensures
      var o := Place(s, r, f).0.orders[|s.orders|];
      && o == o.(user := r.user, machine := r.machine, item := r.itemId, quantity := r.quantity, createdAt := r.now)
      && o.total == Price(base, d)
      && forall e | MayClaim(s.machines[r.machine], r, e) :: o.total <= Price(base, e)
  {
    StoredOrder(s, r, f);
    BasePriceIff(r);
    base := Precheck(s.machines, r).value;
    d := QuoteIsLeast(s.machines, r, base);
  }

  /** The reason given for a refusal holds. */
  ghost predicate Holds(s: State, r: Request, f: Faults, e: OrderError) {
    match e
    case UnknownMachine => r.machine !in s.machines
    case MachineBusy => !NobodyElse(s, r)
    case Database => f.stop != NoStop
    case _ => if r.machine in s.machines && !OfItem(e) then OfMachine(s.machines[r.machine], r, e) else NotOnSale(r, e)
  }

  predicate OfItem(e: OrderError) {
    e in {ItemNotFound, ItemUnavailable, NoUnitPrice, CupSizeRequired, NoCupSizes, NoSuchCupSize}
  }

  /** Why the item is not on sale. */
  predicate NotOnSale(r: Request, e: OrderError) {
    if r.item.None? then e == ItemNotFound
    else
      var item := r.item.value;
      match e
      case ItemUnavailable => !item.available
      case NoUnitPrice => item.isFood && item.unitPrice == 0
      case CupSizeRequired => !item.isFood && r.cupSize.GetOr("") == ""
      case NoCupSizes => !item.isFood && item.cupSizes == []
      case NoSuchCupSize =>
        !item.isFood && r.cupSize.Some? && forall j | 0 <= j < |item.cupSizes| :: item.cupSizes[j].0 != r.cupSize.value
      case _ => false
  }

  /** Why the machine cannot serve the order. */
  ghost predicate OfMachine(m: Machine, r: Request, e: OrderError) {
    match e
    case SoldOut => m.isFood && !InStock(m, r)
    case InsufficientStock => !m.isFood && !InStock(m, r)
    case MachineAsleep => m.sleepMode
    case MachineOffline => !m.isOnline
    case NoWater => !m.isFood && m.water != "" && m.water != "present"
    case _ => false
  }

  lemma BaseRefusal(r: Request)
    requires BasePrice(r).Err?
    ensures OfItem(BasePrice(r).error) && NotOnSale(r, BasePrice(r).error)
  {
    if r.item.Some? && !r.item.value.isFood && r.cupSize.Some? { FindCupSizeSpec(r.item.value.cupSizes, r.cupSize.value); }
  }

  lemma MachineRefusal(m: Machine, r: Request)
    ensures StockCheck(m, r).Some? ==> !OfItem(StockCheck(m, r).value) && OfMachine(m, r, StockCheck(m, r).value)
    ensures MachineCheck(m).Some? ==> !OfItem(MachineCheck(m).value) && OfMachine(m, r, MachineCheck(m).value)
  {
    StockCheckIff(m, r);
  }

  lemma PrecheckRefusal(ms: Fleet, r: Request)
    requires Precheck(ms, r).Err?
    ensures
      var e := Precheck(ms, r).error;
      || (OfItem(e) && NotOnSale(r, e))
      || (e == UnknownMachine && r.machine !in ms)
      || (r.machine in ms && !OfItem(e) && OfMachine(ms[r.machine], r, e))
  {
    if BasePrice(r).Err? {
      BaseRefusal(r);
    } else if r.machine in ms {
      MachineRefusal(ms[r.machine], r);
    }
  }

  /** Where a refusal comes from. */
  lemma RefusedAt(s: State, r: Request, f: Faults)
    requires Place(s, r, f).1.Refused?
    ensures
      var e := Place(s, r, f).1.error;
      || (e == Database && f.stop != NoStop)
      || (Precheck(s.machines, r).Err? && e == Precheck(s.machines, r).error)
      || (e == MachineBusy && Occupied(CancelPending(s.orders, r.user, r.machine), r.machine))
  {
  }

  /** A placement is refused for a reason that holds. */
  lemma RefusalHolds(s: State, r: Request, f: Faults)
    requires Place(s, r, f).1.Refused?
    ensures Holds(s, r, f, Place(s, r, f).1.error)
  {
    RefusedAt(s, r, f);
    OccupiedIff(s, r);
    if Precheck(s.machines, r).Err? { PrecheckRefusal(s.machines, r); }
  }

  // ─── What is published ─────────────────────────────────────────────────────

  predicate Calibrates(c: Timers.Calibration, r: Request) { c.item == r.itemId && r.cupSize == Some(c.cupSize) }

  ghost predicate FirstCalibrated(cal: seq<Timers.Calibration>, r: Request, k: nat) {
    k < |cal| && Calibrates(cal[k], r) && forall j | 0 <= j < k :: !Calibrates(cal[j], r)
  }

  /** The multiple of 100 nearest to `t`, a half going up. */
  predicate NearestHundred(t: int, p: int) { p % 100 == 0 && -50 < p - t <= 50 }

  lemma CalibrationForIs(m: Machine, r: Request)
    ensures forall k: nat | FirstCalibrated(m.calibration, r, k) :: CalibrationFor(m, r) == Some(m.calibration[k])
    ensures (forall k | 0 <= k < |m.calibration| :: !Calibrates(m.calibration[k], r)) ==> CalibrationFor(m, r) == None
  {
    var cal := m.calibration;
    var i := Timers.FindEntry(cal, r.itemId, r.cupSize.GetOr(""));
    if r.cupSize.Some? {
      forall k: nat | FirstCalibrated(cal, r, k) ensures k == i {
        assert !(k < i);
        assert i < |cal| && Calibrates(cal[i], r);
      }
    }
  }

  /** The order and the published command of a placement that succeeds are about the item asked for. */
  lemma PlacedItem(s: State, r: Request, f: Faults)
    requires Place(s, r, f).1.Placed?
    ensures Records(s, r, f) && r.item.Some? && r.machine in s.machines && ItemName(r) == r.item.value.name
  {
    PlaceIsTheSaga(s, r, f);
    BasePriceIff(r);
  }

  /**
   * A placement on a coffee machine publishes the item and quantity asked for, on the nozzle and with the
   * timers of the first calibration entry for item and cup size: 1, 5000 and 3000 where there is none,
   * timers to the nearest 100 ms.
   */
  lemma CoffeeCommandIs(s: State, r: Request, f: Faults)
    requires Place(s, r, f).1.Placed? && r.machine in s.machines && !s.machines[r.machine].isFood
    ensures
      var cal, c := s.machines[r.machine].calibration, Place(s, r, f).1.command;
      && c.Some? && c.value.CoffeeCommand? && r.item.Some?
      && c.value.name == r.item.value.name && c.value.quantity == r.quantity
      && (forall k: nat | FirstCalibrated(cal, r, k) ::
            && c.value.nozzle == cal[k].nozzle
            && NearestHundred(cal[k].water.GetOr(5000), c.value.water) && NearestHundred(cal[k].powder.GetOr(3000), c.value.powder)
            && (cal[k].water.Some? && cal[k].powder.Some? ==> cal[k].water.value >= cal[k].powder.value + 100))
      && ((forall k | 0 <= k < |cal| :: !Calibrates(cal[k], r)) ==>
            c.value.nozzle == 1 && c.value.water == 5000 && c.value.powder == 3000)
  {
    PlacedItem(s, r, f);
    PlaceIsTheSaga(s, r, f);
    SagaCommand(Recorded(s, r, f), |s.orders|, s.machines[r.machine], r, f);
    CalibrationForIs(s.machines[r.machine], r);
    PublishedTimersAre(CalibrationFor(s.machines[r.machine], r));
  }

  lemma PublishedTimersAre(entry: Option<Timers.Calibration>)
    requires Timers.PublishTimers(entry).Some?
    ensures
      var (water, powder) := Timers.PublishTimers(entry).value;
      && (entry.None? ==> water == 5000 && powder == 3000)
      && (entry.Some? ==>
            && NearestHundred(entry.value.water.GetOr(5000), water) && NearestHundred(entry.value.powder.GetOr(3000), powder)
            && (entry.value.water.Some? && entry.value.powder.Some? ==> entry.value.water.value >= entry.value.powder.value + 100))
  {
    assert Timers.Round100(5000) == 5000 && Timers.Round100(3000) == 3000;
    if entry.Some? {
      Timers.RoundingKeepsLead(0, entry.value.water.GetOr(5000));
      Timers.RoundingKeepsLead(0, entry.value.powder.GetOr(3000));
    }
  }

  /** The earliest loaded batch that offers the order, and the first of those loaded at that time. */
  ghost predicate EarliestOffer(bs: seq<Batch>, r: Request, k: nat) {
    && k < |bs| && Offers(bs[k], r)
    && forall j | 0 <= j < |bs| && Offers(bs[j], r) ::
         if j < k then bs[k].loadedAt < bs[j].loadedAt else bs[k].loadedAt <= bs[j].loadedAt
  }

  /** A placement on a food machine publishes the item and quantity asked for, on the nozzle of the earliest batch. */
  lemma FoodCommandIs(s: State, r: Request, f: Faults) returns (k: nat)
    requires Place(s, r, f).1.Placed? && r.machine in s.machines && s.machines[r.machine].isFood
    ensures
      var bs := s.machines[r.machine].batches;
      && EarliestOffer(bs, r, k) && r.item.Some?
      && Place(s, r, f).1.command == Some(FoodCommand(bs[k].nozzle, r.item.value.name, r.quantity))
  {
    PlacedItem(s, r, f);
    PlaceIsTheSaga(s, r, f);
    RecordedSpec(s, r, f);
    SagaFoodCommand(Recorded(s, r, f), |s.orders|, s.machines[r.machine], r, f);
    k := AllocatedIsEarliest(s.machines[r.machine].batches, r.itemId, r.quantity);
    assert forall j | 0 <= j < |s.machines[r.machine].batches| ::
      Offers(s.machines[r.machine].batches[j], r) <==> Serves(s.machines[r.machine].batches[j], r.itemId, r.quantity);
  }

  /** From the fleet `ms`, machine `m` has had one more order booked, and nothing else but its shelf has changed. */
  ghost predicate Booked(ms: Fleet, ms': Fleet, m: MachineId, total: nat)
    requires m in ms
  {
    && ms'.Keys == ms.Keys
    && (forall k | k in ms && k != m :: ms'[k] == ms[k])
    && ms'[m] == ms[m].(isBusy := true, totalOrders := ms[m].totalOrders + 1, totalRevenue := ms[m].totalRevenue + total,
                        batches := ms'[m].batches)
  }

  /** A busy flag that was set anyway makes no difference. */
  lemma BookedFrom(ms: Fleet, flagged: Fleet, ms': Fleet, m: MachineId, total: nat)
    requires m in ms && m in flagged && (flagged == ms || exists busy :: flagged == SetBusy(ms, m, busy))
    requires Booked(flagged, ms', m, total)
    ensures Booked(ms, ms', m, total)
  {
  }

  /** A placement that succeeds marks the machine busy and counts one order and its total; otherwise only the shelf changes. */
  lemma PlacedMachine(s: State, r: Request, f: Faults)
    requires Place(s, r, f).1.Placed?
    ensures
      var s' := Place(s, r, f).0;
      && r.machine in s.machines && |s'.orders| == |s.orders| + 1
      && Booked(s.machines, s'.machines, r.machine, s'.orders[|s.orders|].total)
      && (!s.machines[r.machine].isFood ==> s'.machines[r.machine].batches == s.machines[r.machine].batches)
  {
    PlacedItem(s, r, f);
    PlaceIsTheSaga(s, r, f);
    RecordedSpec(s, r, f);
    StoredOrder(s, r, f);
    var s2 := Recorded(s, r, f);
    SagaMachine(s2, |s.orders|, s.machines[r.machine], r, f);
    AdmittedFleet(s, r, f);
    BookedFrom(s.machines, s2.machines, Place(s, r, f).0.machines, r.machine, Place(s, r, f).0.orders[|s.orders|].total);
  }

  lemma AdmittedFleet(s: State, r: Request, f: Faults)
    requires Records(s, r, f)
    ensures Recorded(s, r, f).machines == s.machines || Recorded(s, r, f).machines == SetBusy(s.machines, r.machine, false)
  {
  }

  lemma SagaMachine(s: State, id: nat, snap: Machine, r: Request, f: Faults)
    requires id < |s.orders| && r.machine in s.machines && RunSaga(s, id, snap, r, f).error.None?
    ensures
      var g := RunSaga(s, id, snap, r, f);
      && Booked(s.machines, g.s.machines, r.machine, s.orders[id].total)
      && (!snap.isFood ==> g.s.machines[r.machine].batches == s.machines[r.machine].batches)
  {
    SagaStages(s, id, snap, r, f);
    ChargeEffects(s, id, r, f);
    var charged, supplied := AfterCharge(s, id, r, f), AfterSupply(s, id, snap, r, f);
    SupplySpec(charged, snap, r, f);
    BookingSpec(supplied, r.machine, f);
    RollbackSpec(AfterBooking(s, id, snap, r, f), snap.isFood, r, f);
    BookkeepingBooks(s.machines, supplied, r.machine, f);
  }

  lemma BookkeepingBooks(ms: Fleet, g: Saga, m: MachineId, f: Faults)
    requires m in ms && g.Ok() && g.error.None? && Bookkeep(Publish(g, f), m, f).error.None?
    requires g.s.machines == ms || exists bs :: g.s.machines == SetBatches(ms, m, bs)
    ensures Booked(ms, Bookkeep(Publish(g, f), m, f).s.machines, m, g.mem.total)
    ensures Bookkeep(Publish(g, f), m, f).s.machines[m].batches == g.s.machines[m].batches
  {
  }

  // ─── What is given back ────────────────────────────────────────────────────

  /** The customer has the price back if `repays` or it was given back before, and is credited once at most; no other wallet changes. */
  ghost predicate Repaid(s: State, s': State, id: nat, repays: bool)
    requires id < |s.orders|
  {
    var o := s.orders[id];
    var had := Refunds(s.ledger.txs, o.user, OrderRef(id)) > 0;
    && s'.ledger.balances.Keys == s.ledger.balances.Keys
    && (Refunds(s'.ledger.txs, o.user, OrderRef(id)) > 0 <==> had || repays)
    && forall u | u in s.ledger.balances ::
         s'.ledger.balances[u] == s.ledger.balances[u] + if u == o.user && repays && !had then o.total else 0
  }

  lemma ReimburseRepays(s: State, id: nat)
    requires id < |s.orders| && s.orders[id].user in s.ledger.balances
    ensures Repaid(s, s, id, false) && Repaid(s, Reimburse(s, id, NoCreditFault), id, true)
    ensures RefundReturns(s, id, NoCreditFault)
  {
    var o := s.orders[id];
    RefundCounts(s.ledger, o.user, o.total, id, NoCreditFault);
    FindRefundIffCounted(s.ledger.txs, o.user, OrderRef(id));
  }

  /** Machine `m` is not busy any more, and nothing else has changed on any machine. */
  ghost predicate Freed(ms: Fleet, ms': Fleet, m: MachineId) {
    ms'.Keys == ms.Keys && forall k | k in ms :: ms'[k] == if k == m then ms[k].(isBusy := false) else ms[k]
  }

  /** Completing works exactly on a pending or dispensing order: it is completed and its machine free; no money moves. */
  lemma CompletedOutcome(s: State, id: nat)
    ensures
      var (s', r) := Orders.CompleteOrder(s, id, ALL_WORKS);
      && (r.Ok? <==> id < |s.orders| && (s.orders[id].status == Pending || s.orders[id].status == Dispensing))
      && (r.Err? ==> s' == s)
      && (r.Ok? ==>
            && s'.orders == s.orders[id := s.orders[id].(status := Completed)] && s'.ledger == s.ledger
            && Freed(s.machines, s'.machines, s.orders[id].machine))
  {
  }

  /** Failing works on every order: it is failed, given back if it was stored as paid, and its machine free. */
  lemma FailedOutcome(s: State, id: nat)
    requires id < |s.orders| && s.orders[id].user in s.ledger.balances
    ensures
      var (s', r) := Orders.FailOrder(s, id, ALL_WORKS);
      && r.Ok? && s'.orders == s.orders[id := s.orders[id].(status := Failed)]
      && Repaid(s, s', id, s.orders[id].payment == Paid) && Freed(s.machines, s'.machines, s.orders[id].machine)
  {
    ReimburseRepays(s, id);
  }

  /** An admin refund works on every order not refunded yet: it is refunded and given back; no machine changes. */
  lemma RefundedOutcome(s: State, id: nat)
    requires id < |s.orders| && s.orders[id].user in s.ledger.balances
    ensures
      var (s', r) := Orders.RefundOrder(s, id, ALL_WORKS);
      && (r.Ok? <==> s.orders[id].status != Refunded)
      && (r.Err? ==> s' == s)
      && (r.Ok? ==>
            && s'.orders == s.orders[id := s.orders[id].(status := Refunded)]
            && Repaid(s, s', id, true) && s'.machines == s.machines)
  {
    ReimburseRepays(s, id);
  }

  /**
   * The order service's handler: a completed order is completed, a cancelled one failed and given back if it
   * was dispensing, and either frees its machine; dispensing and half-completed are stored as they are.
   */
  lemma UpdatedOutcome(s: State, id: nat, status: UpdateStatus)
    requires id < |s.orders| && s.orders[id].user in s.ledger.balances
    ensures
      var s', o := MachineUpdate(s, id, status, ALL_WORKS), s.orders[id];
      && s'.orders == s.orders[id := o.(status :=
           match status
           case UCompleted => Completed
           case UCancelled => Failed
           case UDispensing => Dispensing
           case UHalf => HalfCompleted
           case _ => o.status)]
      && Repaid(s, s', id, status == UCancelled && o.status == Dispensing)
      && (if status == UCompleted || status == UCancelled then Freed(s.machines, s'.machines, o.machine) else s'.machines == s.machines)
  {
    ReimburseRepays(s, id);
    assert s.orders[id := s.orders[id].(status := s.orders[id].status)] == s.orders;
  }

  // ─── Acknowledgements ──────────────────────────────────────────────────────

  /** The units an acknowledgement of an order on this machine is taken to report. */
  function DispensedOf(s: State, id: nat, ord: Option<string>): int
    requires id < |s.orders|
  {
    if ord.Some? && s.orders[id].machine in s.machines then Total(ParseAck(ord.value)) else 0
  }

  /**
   * The handler of a machine that cancels closes the order by what came out: failed when nothing did,
   * half-completed when some but not all did, completed when all did, and it refunds unless all did.
   */
  lemma CancelledAckOutcome(s: State, id: nat, ord: Option<string>)
    requires id < |s.orders| && s.orders[id].user in s.ledger.balances
    ensures
      var s', o, out := HandleAck(s, id, AckCancelled, ord, ALL_WORKS), s.orders[id], DispensedOf(s, id, ord);
      && |s'.orders| == |s.orders| && s'.orders == s.orders[id := o.(status := s'.orders[id].status)]
      && (s'.orders[id].status == Failed <==> out == 0)
      && (s'.orders[id].status == HalfCompleted <==> 0 < out < o.quantity)
      && (s'.orders[id].status == Completed <==> out > 0 && out >= o.quantity)
      && Repaid(s, s', id, out == 0 || out < o.quantity)
  {
    if ord.Some? { AckIsSensible(ord.value); }
    AckOutcome(s, id, AckCancelled, ord);
  }

  /** The other acknowledgements set the status they name; only a half-completed order is refunded. */
  lemma OtherAckOutcome(s: State, id: nat, status: AckStatus, ord: Option<string>)
    requires id < |s.orders| && s.orders[id].user in s.ledger.balances && status != AckCancelled
    ensures
      var s', o := HandleAck(s, id, status, ord, ALL_WORKS), s.orders[id];
      && s'.orders == s.orders[id := o.(status :=
           if status == AckProcessing then Dispensing else if status == AckCompleted then Completed else HalfCompleted)]
      && Repaid(s, s', id, status == AckHalf)
  {
    AckOutcome(s, id, status, ord);
  }

  lemma AckOutcome(s: State, id: nat, status: AckStatus, ord: Option<string>)
    requires id < |s.orders| && s.orders[id].user in s.ledger.balances
    ensures
      var s', o := HandleAck(s, id, status, ord, ALL_WORKS), s.orders[id];
      var final := FinalStatus(status, o.quantity, Total(Reported(s, id, status, ord)));
      s'.orders == s.orders[id := o.(status := final)] && Repaid(s, s', id, status != AckProcessing && final != Completed)
  {
    AckMoves(s, id, status, ord, ALL_WORKS);
    ReimburseRepays(s, id);
  }

  /**
   * A completed or cancelled acknowledgement takes, from the first inventory entry on each nozzle of a known
   * coffee machine, the grams of what it reports there, and leaves every other entry as it was.
   */
  lemma AckTakesGrams(s: State, id: nat, status: AckStatus, ord: string, i: nat)
    requires id < |s.orders| && (status == AckCompleted || status == AckCancelled)
    requires s.orders[id].machine in s.machines && !s.machines[s.orders[id].machine].isFood
    requires i < |s.machines[s.orders[id].machine].inventory|
    ensures
      var m := s.orders[id].machine;
      var inv, s' := s.machines[m].inventory, HandleAck(s, id, status, Some(ord), ALL_WORKS);
      && m in s'.machines && |s'.machines[m].inventory| == |inv|
      && (if forall j | 0 <= j < i :: inv[j].nozzle != inv[i].nozzle
          then s'.machines[m].inventory[i].stock
               == inv[i].stock - Cups.Dispensed(ParseAck(ord), inv[i].nozzle) * GramsNeeded(inv[i], 1)
          else s'.machines[m].inventory[i] == inv[i])
  {
    AckMachines(s, id, status, Some(ord), ALL_WORKS);
    ReportTakesGrams(s.machines[s.orders[id].machine].inventory, ParseAck(ord), i);
  }

  lemma CupOfGrams(e: Cups.Entry)
    ensures GramsNeeded(e, 1) == Cups.Grams(e)
  {
  }

  lemma ReportTakesGrams(inv: seq<Cups.Entry>, parts: seq<Cups.Part>, i: nat)
    requires i < |inv|
    ensures
      var inv' := Cups.ConsumeAll(inv, parts);
      && |inv'| == |inv|
      && (if forall j | 0 <= j < i :: inv[j].nozzle != inv[i].nozzle
          then inv'[i].stock == inv[i].stock - Cups.Dispensed(parts, inv[i].nozzle) * GramsNeeded(inv[i], 1)
          else inv'[i] == inv[i])
  {
    Cups.ConsumeAllSpec(inv, parts, i);
    Cups.NothingNamed(parts, inv[i].nozzle);
    var k := Cups.FindNozzle(inv, inv[i].nozzle);
    assert k <= i;
    assert k < i ==> inv[k].nozzle == inv[i].nozzle;
    CupOfGrams(inv[i]);
  }

  // ─── The timeout sweep ─────────────────────────────────────────────────────

  /** Older than the cutoff and still pending or dispensing. */
  predicate Overdue(o: Order, cutoff: int) { (o.status == Pending || o.status == Dispensing) && o.createdAt < cutoff }

  /** The orders before number `n` that are overdue. */
  function OverdueBefore(orders: seq<Order>, cutoff: int, n: nat): set<nat>
    requires n <= |orders|
  {
    set i: nat | i < n && Overdue(orders[i], cutoff)
  }

  /** The list of the sweep holds each overdue order at the place its elder ones leave it. */
  lemma {:induction false} PlaceInLine(orders: seq<Order>, cutoff: int, n: nat)
    requires n <= |orders|
    ensures |StuckIds(orders, cutoff, n)| == |OverdueBefore(orders, cutoff, n)|
    ensures forall i: nat | i < n && Overdue(orders[i], cutoff) ::
              |OverdueBefore(orders, cutoff, i)| < |StuckIds(orders, cutoff, n)|
              && StuckIds(orders, cutoff, n)[|OverdueBefore(orders, cutoff, i)|] == i
  {
    if n > 0 {
      PlaceInLine(orders, cutoff, n - 1);
      var before := OverdueBefore(orders, cutoff, n - 1);
      assert OverdueBefore(orders, cutoff, n) == if Overdue(orders[n - 1], cutoff) then before + {n - 1} else before;
    }
  }

  /** A tick takes exactly the overdue orders that have fewer than fifty older ones in front of them. */
  lemma SweptIff(orders: seq<Order>, cutoff: int, i: nat)
    requires i < |orders|
    ensures i in Swept(orders, cutoff) <==> Overdue(orders[i], cutoff) && |OverdueBefore(orders, cutoff, i)| < 50
  {
    PlaceInLine(orders, cutoff, |orders|);
    StuckIdsSpec(orders, cutoff, |orders|);
    var all, swept := StuckIds(orders, cutoff, |orders|), Swept(orders, cutoff);
    if i in swept {
      var k :| 0 <= k < |swept| && swept[k] == i;
      assert all[k] == i && Overdue(orders[i], cutoff);
      var p := |OverdueBefore(orders, cutoff, i)|;
      assert all[p] == i;
      assert p == k;
    }
    if Overdue(orders[i], cutoff) && |OverdueBefore(orders, cutoff, i)| < 50 {
      assert swept[|OverdueBefore(orders, cutoff, i)|] == i;
    }
  }

  /** Whatever fails, a tick leaves alone every order that is not pending or dispensing, not old enough, or behind fifty older ones. */
  lemma OthersAreSpared(s: State, cutoff: int, fs: seq<SettleFaults>, i: nat)
    requires i < |s.orders|
    requires (s.orders[i].status != Pending && s.orders[i].status != Dispensing) || s.orders[i].createdAt >= cutoff
             || |OverdueBefore(s.orders, cutoff, i)| >= 50
    ensures
      var s' := Tick(s, cutoff, fs);
      && |s'.orders| == |s.orders| && s'.orders[i] == s.orders[i]
      && (Refunds(s'.ledger.txs, s.orders[i].user, OrderRef(i)) > 0 <==> Refunds(s.ledger.txs, s.orders[i].user, OrderRef(i)) > 0)
  {
    SweptIff(s.orders, cutoff, i);
    SweptSpec(s.orders, cutoff);
    SweepLeavesOthers(s, Swept(s.orders, cutoff), fs, i);
  }

  lemma {:induction false} WorkingSweep(s: State, ids: seq<nat>, fs: seq<SettleFaults>)
    requires forall i | 0 <= i < |ids| :: ids[i] < |s.orders|
    requires forall k | 0 <= k < |fs| :: fs[k] == ALL_WORKS
    ensures Sweep(s, ids, fs) == Sweep(s, ids, [])
    decreases |ids|
  {
    if ids != [] && SweepsOn(s, ids[0], ALL_WORKS) { WorkingSweep(TimeOut(s, ids[0], ALL_WORKS), ids[1..], FaultsLater(fs)); }
  }

  /** Where nothing fails, a tick fails and refunds every overdue order that has fewer than fifty older ones in front of it. */
  lemma OverdueOrderIsFailed(s: State, cutoff: int, fs: seq<SettleFaults>, i: nat)
    requires i < |s.orders| && Overdue(s.orders[i], cutoff) && |OverdueBefore(s.orders, cutoff, i)| < 50
    requires forall k | 0 <= k < |fs| :: fs[k] == ALL_WORKS
    requires forall j | 0 <= j < |s.orders| && Overdue(s.orders[j], cutoff) :: s.orders[j].user in s.ledger.balances
    ensures
      var s' := Tick(s, cutoff, fs);
      && |s'.orders| == |s.orders| && s'.orders[i] == s.orders[i].(status := Failed)
      && Refunds(s'.ledger.txs, s.orders[i].user, OrderRef(i)) > 0
  {
    var ids := Swept(s.orders, cutoff);
    SweptIff(s.orders, cutoff, i);
    SweptSpec(s.orders, cutoff);
    WorkingSweep(s, ids, fs);
    forall k | 0 <= k < |ids| ensures s.orders[ids[k]].user in s.ledger.balances {
      assert ids[k] in ids;
      SweptIff(s.orders, cutoff, ids[k]);
    }
    SweepSpec(s, ids);
    var k :| 0 <= k < |ids| && ids[k] == i;
    assert AccountOf(Tick(s, cutoff, fs), i).refunded;
  }

  /** A sweep sets no machine busy, and leaves the machines of the orders it lists free. */
  lemma {:induction false} SweepFrees(s: State, ids: seq<nat>, m: MachineId)
    requires forall i | 0 <= i < |ids| :: ids[i] < |s.orders| && s.orders[ids[i]].user in s.ledger.balances
    requires m in s.machines && (!s.machines[m].isBusy || exists i | 0 <= i < |ids| :: s.orders[ids[i]].machine == m)
    ensures m in Sweep(s, ids, []).machines && !Sweep(s, ids, []).machines[m].isBusy
    decreases |ids|
  {
    if ids != [] {
      var s1, rest := TimeOut(s, ids[0], ALL_WORKS), ids[1..];
      TimeOutFrees(s, ids[0], m);
      assert forall i | 0 <= i < |rest| :: rest[i] == ids[i + 1];
      SweepFrees(s1, rest, m);
    }
  }

  lemma TimeOutFrees(s: State, id: nat, m: MachineId)
    requires id < |s.orders| && s.orders[id].user in s.ledger.balances && m in s.machines
    ensures
      var s' := TimeOut(s, id, ALL_WORKS);
      && SweepsOn(s, id, ALL_WORKS)
      && m in s'.machines && s'.machines[m].isBusy == (s.machines[m].isBusy && m != s.orders[id].machine)
      && s'.orders == s.orders[id := s.orders[id].(status := Failed)] && s'.ledger.balances.Keys == s.ledger.balances.Keys
  {
    ReimburseRepays(s, id);
  }

  /** The machine of an order failed so is free afterwards. */
  lemma OverdueOrderFreesMachine(s: State, cutoff: int, fs: seq<SettleFaults>, i: nat)
    requires i < |s.orders| && Overdue(s.orders[i], cutoff) && |OverdueBefore(s.orders, cutoff, i)| < 50
    requires forall k | 0 <= k < |fs| :: fs[k] == ALL_WORKS
    requires forall j | 0 <= j < |s.orders| && Overdue(s.orders[j], cutoff) :: s.orders[j].user in s.ledger.balances
    requires s.orders[i].machine in s.machines
    ensures s.orders[i].machine in Tick(s, cutoff, fs).machines && !Tick(s, cutoff, fs).machines[s.orders[i].machine].isBusy
  {
    var ids := Swept(s.orders, cutoff);
    SweptIff(s.orders, cutoff, i);
    SweptSpec(s.orders, cutoff);
    WorkingSweep(s, ids, fs);
    var k :| 0 <= k < |ids| && ids[k] == i;
    forall k | 0 <= k < |ids| ensures s.orders[ids[k]].user in s.ledger.balances {
      assert ids[k] in ids;
      SweptIff(s.orders, cutoff, ids[k]);
    }
    SweepFrees(s, ids, s.orders[i].machine);
  }
}
