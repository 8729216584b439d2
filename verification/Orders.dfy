/**
 * The order protocol as a state machine over whole service calls: placement with its rollback, the two
 * acknowledgement handlers, completion, failure, admin refund and the timeout sweep.
 */
module Orders {
  import opened Common
  import opened Wallet
  import opened Batches
  import opened Machines
  import opened WireFormat
  import Cups
  import Timers
  import opened Pricing

  datatype Status = Pending | Dispensing | Completed | HalfCompleted | Failed | Refunded | Cancelled

  /** How the stored order says it was paid; Bypass is an admin test order. */
  datatype Payment = Unpaid | Bypass | Paid

  datatype Order = Order(
    user: UserId, machine: MachineId, item: ItemId, quantity: nat, total: nat,
    status: Status, payment: Payment, createdAt: int)
  {
    predicate Live() { status == Pending || status == Dispensing }
  }

  /** An order's number in the sequence is its _id. */
  datatype State = State(orders: seq<Order>, ledger: Ledger, machines: Fleet)

  datatype OrderError =
    | ItemNotFound | ItemUnavailable | NoUnitPrice | CupSizeRequired | NoCupSizes | NoSuchCupSize
    | UnknownMachine | SoldOut | InsufficientStock | MachineAsleep | MachineOffline | NoWater | MachineBusy
    | TimersMismatch | MachineUnreachable | OrderNotFound | WrongStatus | ReasonRequired | Database | WalletFailed(error: WalletError)

  // ─── Writing single fields ─────────────────────────────────────────────────

  function SetStatus(s: State, id: nat, status: Status): State
    requires id < |s.orders|
  {
    s.(orders := s.orders[id := s.orders[id].(status := status)])
  }

  function Free(s: State, m: MachineId): State { s.(machines := SetBusy(s.machines, m, false)) }

  /** Frees the machine; where the call may fail on its own, its failure is ignored. */
  function FreeUnless(s: State, m: MachineId, fails: bool): State { if fails then s else Free(s, m) }

  /** The wallet refund of an order, under the order's own key. */
  function RefundOf(s: State, id: nat, fault: CreditFault): (Ledger, Outcome<Transaction, WalletError>)
    requires id < |s.orders|
  {
    RefundCall(s.ledger, s.orders[id].user, s.orders[id].total, OrderRef(id), fault)
  }

  /** Whether the refund call returns rather than throws. */
  predicate RefundReturns(s: State, id: nat, fault: CreditFault)
    requires id < |s.orders|
  {
    RefundOf(s, id, fault).1.Ok?
  }

  /** The refund is attempted: it changes the ledger as far as it gets. */
  function Reimburse(s: State, id: nat, fault: CreditFault): State
    requires id < |s.orders|
  {
    s.(ledger := RefundOf(s, id, fault).0)
  }

  // ─── Placement: the checks before an order record exists ───────────────────

  datatype Item = Item(available: bool, isFood: bool, name: string, unitPrice: nat, cupSizes: seq<(string, nat)>)

  datatype Request = Request(
    user: UserId, bypass: bool, machine: MachineId, itemId: ItemId, item: Option<Item>,
    cupSize: Option<string>, quantity: nat, membership: Option<Percent>, promotions: seq<Promotion>, now: int)

  function FindCupSize(sizes: seq<(string, nat)>, size: string): Option<nat> {
    if sizes == [] then None else if sizes[0].0 == size then Some(sizes[0].1) else FindCupSize(sizes[1..], size)
  }

  /** The price before discounts. */
  function BasePrice(r: Request): Outcome<nat, OrderError> {
    if r.item.None? then Err(ItemNotFound)
    else
      var item := r.item.value;
      if !item.available then Err(ItemUnavailable)
      else if item.isFood then
        if item.unitPrice == 0 then Err(NoUnitPrice) else Ok(item.unitPrice * r.quantity)
      else if r.cupSize.GetOr("") == "" then Err(CupSizeRequired)
      else if item.cupSizes == [] then Err(NoCupSizes)
      else match FindCupSize(item.cupSizes, r.cupSize.value)
        case None => Err(NoSuchCupSize)
        case Some(price) => Ok(price * r.quantity)
  }

  function StockCheck(m: Machine, r: Request): Option<OrderError> {
    if m.isFood then
      if Priced(m.batches, r.itemId, r.quantity).None? then Some(SoldOut) else None
    else
      var i := Cups.FindItem(m.inventory, r.itemId);
      if i == |m.inventory| || m.inventory[i].stock < r.quantity * Cups.Grams(m.inventory[i])
      then Some(InsufficientStock) else None
  }

  function MachineCheck(m: Machine): Option<OrderError> {
    if m.sleepMode then Some(MachineAsleep)
    else if !m.isOnline then Some(MachineOffline)
    else if !m.isFood && m.water != "" && m.water != "present" then Some(NoWater)
    else None
  }

  /** The base price, if no check before the order queue refuses the request. */
  function Precheck(ms: Fleet, r: Request): Outcome<nat, OrderError> {
    match BasePrice(r)
    case Err(e) => Err(e)
    case Ok(base) =>
      if r.machine !in ms then Err(UnknownMachine)
      else match StockCheck(ms[r.machine], r)
        case Some(e) => Err(e)
        case None =>
          match MachineCheck(ms[r.machine])
          case Some(e) => Err(e)
          case None => Ok(base)
  }

  /** A new order replaces the same user's pending orders on the machine. */
  function CancelPending(orders: seq<Order>, u: UserId, m: MachineId): seq<Order> {
    seq(|orders|, i requires 0 <= i < |orders| =>
      if orders[i].user == u && orders[i].machine == m && orders[i].status == Pending
      then orders[i].(status := Cancelled) else orders[i])
  }

  predicate Occupies(o: Order, m: MachineId) { o.machine == m && o.Live() }

  predicate Occupied(orders: seq<Order>, m: MachineId) {
    exists i | 0 <= i < |orders| :: Occupies(orders[i], m)
  }

  /** The discount comes from the batch the stock check found. */
  function QuoteFor(ms: Fleet, r: Request, base: nat): Quote
    requires r.machine in ms
  {
    var batch := Priced(ms[r.machine].batches, r.itemId, r.quantity);
    var near := ms[r.machine].isFood && batch.Some? && NearExpiry(batch.value.expiry, r.now);
    Cascade(base, r.membership, Best(r.promotions, r.itemId, r.now), near)
  }

  // ─── Placement: the saga after the record exists ───────────────────────────

  /** How far a placement gets before its record is saved: a read of the checks, the queue look-up or the save fails. */
  datatype Stop = NoStop | AtChecks | AfterCancelling | AtRecord

  /**
   * Which database, wallet and broker calls of a placement fail. `clear` is the call that clears a stale
   * busy flag; its failure is ignored.
   */
  datatype Faults = Faults(
    stop: Stop, clear: bool, deduct: DebitFault, saveAfterCharge: bool, allocate: bool, publish: bool,
    innerSave: bool, innerRefund: CreditFault, busy: bool, stats: bool,
    handlerSave: bool, handlerRefund: CreditFault, restore: RestoreFault)

  /**
   * Where the saga stands: `mem` is the order object in memory, which can be ahead of the stored one,
   * and `error` what has been thrown.
   */
  datatype Saga = Saga(s: State, id: nat, mem: Order, batchDeducted: bool, command: Option<Command>, error: Option<OrderError>) {
    predicate Ok() { id < |s.orders| }

    function Throw(e: OrderError): Saga { this.(error := Some(e)) }

    /** `order.save()`. */
    function Save(): Saga
      requires Ok()
    {
      this.(s := s.(orders := s.orders[id := mem]))
    }
  }

  /** The saga's ledger call refunds what the order charged. */
  function SagaRefund(g: Saga, fault: CreditFault): (Ledger, Outcome<Transaction, WalletError>) {
    RefundCall(g.s.ledger, g.mem.user, g.mem.total, OrderRef(g.id), fault)
  }

  function Charge(s: State, id: nat, bypass: bool, f: Faults): Saga
    requires id < |s.orders|
  {
    var o := s.orders[id];
    var g := Saga(s, id, o, false, None, None);
    if bypass then
      var paid := g.(mem := o.(payment := Bypass, status := Dispensing));
      if f.saveAfterCharge then paid.Throw(Database) else paid.Save()
    else
      var (l, r) := DeductCall(s.ledger, o.user, o.total, OrderRef(id), f.deduct);
      var charged := g.(s := s.(ledger := l));
      if r.Err? then charged.Throw(WalletFailed(r.error))
      else
        var paid := charged.(mem := o.(payment := Paid, status := Dispensing));
        if f.saveAfterCharge then paid.Throw(Database) else paid.Save()
  }

  function CalibrationFor(m: Machine, r: Request): Option<Timers.Calibration> {
    var i := Timers.FindEntry(m.calibration, r.itemId, r.cupSize.GetOr(""));
    if i < |m.calibration| && r.cupSize.Some? then Some(m.calibration[i]) else None
  }

  function ItemName(r: Request): string { if r.item.Some? then r.item.value.name else r.itemId }

  /** Food is taken from a batch; coffee only needs timers that lead. `snap` is the machine read at the checks. */
  function Allocate(g: Saga, snap: Machine, r: Request, f: Faults): Saga {
    if g.error.Some? then g
    else if snap.isFood then
      if f.allocate then g.Throw(Database)
      else if r.machine !in g.s.machines then g.Throw(UnknownMachine)
      else match Deduct(g.s.machines[r.machine].batches, r.itemId, r.quantity)
        case None => g.Throw(SoldOut)
        case Some((bs, nozzle)) =>
          g.(s := g.s.(machines := SetBatches(g.s.machines, r.machine, bs)), batchDeducted := true,
             command := Some(FoodCommand(nozzle, ItemName(r), r.quantity)))
    else
      var entry := CalibrationFor(snap, r);
      match Timers.PublishTimers(entry)
      case None => g.Throw(TimersMismatch)
      case Some((water, powder)) =>
        g.(command := Some(CoffeeCommand(if entry.Some? then entry.value.nozzle else 1, ItemName(r), r.quantity, water, powder)))
  }

  /** Publishes the command; on failure marks the order failed and refunds at once. */
  function Publish(g: Saga, f: Faults): Saga
    requires g.Ok()
  {
    if g.error.Some? || !f.publish then g
    else
      var failed := g.(mem := g.mem.(status := Failed));
      if f.innerSave then failed.Throw(Database)
      else
        var saved := failed.Save();
        var (l, r) := SagaRefund(saved, f.innerRefund);
        saved.(s := saved.s.(ledger := l)).Throw(if r.Err? then WalletFailed(r.error) else MachineUnreachable)
  }

  function Bookkeep(g: Saga, m: MachineId, f: Faults): Saga {
    if g.error.Some? then g
    else if f.busy then g.Throw(Database)
    else
      var busy := g.(s := g.s.(machines := SetBusy(g.s.machines, m, true)));
      if f.stats then busy.Throw(Database)
      else busy.(s := busy.s.(machines := CountOrder(busy.s.machines, m, g.mem.total)))
  }

  /** The catch block: mark failed, refund what was paid, put allocated food back. */
  function Rollback(g: Saga, isFood: bool, r: Request, f: Faults): Saga
    requires g.Ok()
  {
    if g.error.None? then g
    else
      var failed := g.(mem := g.mem.(status := Failed));
      if f.handlerSave then failed.Throw(Database)
      else
        var saved := failed.Save();
        if !g.mem.payment.Paid? then saved
        else
          var refunded := saved.(s := saved.s.(ledger := SagaRefund(saved, f.handlerRefund).0));
          if isFood && g.batchDeducted then
            refunded.(s := refunded.s.(machines := RestoreOn(refunded.s.machines, r.machine, r.itemId, r.quantity, f.restore)))
          else refunded
  }

  /** Everything after the order record exists, from charging to the end of the catch block. */
  function RunSaga(s: State, id: nat, snap: Machine, r: Request, f: Faults): Saga
    requires id < |s.orders|
  {
    var charged := Charge(s, id, r.bypass, f);
    var supplied := Allocate(charged, snap, r, f);
    var published := Publish(supplied, f);
    var booked := Bookkeep(published, r.machine, f);
    Rollback(booked, snap.isFood, r, f)
  }

  datatype Placement = Refused(error: OrderError) | Threw(id: nat, thrown: OrderError) | Placed(id: nat, command: Option<Command>)

  /** The state once the user's stale orders are cancelled and a stale busy flag is cleared. */
  function Admitted(s: State, r: Request, f: Faults): State {
    var cancelled := s.(orders := CancelPending(s.orders, r.user, r.machine));
    if r.machine in s.machines && s.machines[r.machine].isBusy && !Occupied(cancelled.orders, r.machine)
    then FreeUnless(cancelled, r.machine, f.clear) else cancelled
  }

  function NewOrder(s: State, r: Request, base: nat): Order
    requires r.machine in s.machines
  {
    Order(r.user, r.machine, r.itemId, r.quantity, QuoteFor(s.machines, r, base).total, Pending, Unpaid, r.now)
  }

  function Place(s: State, r: Request, f: Faults): (State, Placement) {
    if f.stop == AtChecks then (s, Refused(Database))
    else match Precheck(s.machines, r)
      case Err(e) => (s, Refused(e))
      case Ok(base) =>
        if f.stop == AfterCancelling then (s.(orders := CancelPending(s.orders, r.user, r.machine)), Refused(Database))
        else
          var s1 := Admitted(s, r, f);
          if Occupied(s1.orders, r.machine) then (s1, Refused(MachineBusy))
          else if f.stop == AtRecord then (s1, Refused(Database))
          else
            var s2 := s1.(orders := s1.orders + [NewOrder(s, r, base)]);
            var g := RunSaga(s2, |s1.orders|, s.machines[r.machine], r, f);
            (g.s, if g.error.Some? then Threw(g.id, g.error.value) else Placed(g.id, g.command))
  }

  // ─── Settling ──────────────────────────────────────────────────────────────

  datatype AckStatus = AckProcessing | AckCompleted | AckCancelled | AckHalf

  /**
   * Which calls of a settling event fail: an acknowledgement's handler stops after `stop` parts of the
   * report, and a timeout's at the look-up of the machine; the restore, the save, the refund, and the
   * call that frees the machine.
   */
  datatype SettleFaults = SettleFaults(stop: Option<nat>, restore: RestoreFault, save: bool, refund: CreditFault, free: bool)

  const ALL_WORKS := SettleFaults(None, NoRestoreFault, false, NoCreditFault, false)

  /** Units the machine reports, counted only when its machine is known and the ack closes the order. */
  function Reported(s: State, id: nat, status: AckStatus, ord: Option<string>): seq<Cups.Part>
    requires id < |s.orders|
  {
    if ord.Some? && (status == AckCompleted || status == AckCancelled) && s.orders[id].machine in s.machines
    then ParseAck(ord.value) else []
  }

  /** The final status an acknowledgement gives an order of `quantity` of which `dispensed` came out. */
  function FinalStatus(status: AckStatus, quantity: nat, dispensed: int): Status {
    match status
    case AckProcessing => Dispensing
    case AckCompleted => Completed
    case AckHalf => HalfCompleted
    case AckCancelled => if dispensed == 0 then Failed else if dispensed < quantity then HalfCompleted else Completed
  }

  /** A cancelled order of food that did not all come out is to be put back on its machine. */
  predicate Restocks(o: Order, isFood: bool, status: AckStatus, dispensed: int) {
    isFood && status == AckCancelled && o.quantity - dispensed > 0
  }

  function Restocked(s: State, o: Order, isFood: bool, status: AckStatus, dispensed: int, fault: RestoreFault): State {
    if Restocks(o, isFood, status, dispensed)
    then s.(machines := RestoreOn(s.machines, o.machine, o.item, o.quantity - dispensed, fault)) else s
  }

  /** The final status is saved, and anything but a completed order refunded. */
  function Closed(s: State, id: nat, final: Status, fault: CreditFault): State
    requires id < |s.orders|
  {
    if final == Completed then SetStatus(s, id, final) else Reimburse(SetStatus(s, id, final), id, fault)
  }

  predicate IsFoodOrder(s: State, id: nat)
    requires id < |s.orders|
  {
    s.orders[id].machine in s.machines && s.machines[s.orders[id].machine].isFood
  }

  /** The handler ends before it saves the final status. */
  predicate AckStops(s: State, id: nat, status: AckStatus, ord: Option<string>, f: SettleFaults)
    requires id < |s.orders|
  {
    || f.stop.Some? || f.save
    || (Restocks(s.orders[id], IsFoodOrder(s, id), status, Total(Reported(s, id, status, ord))) && f.restore != NoRestoreFault)
  }

  /** The machine service's handler of `machine/order/status`. What it throws is logged. */
  function HandleAck(s: State, id: nat, status: AckStatus, ord: Option<string>, f: SettleFaults): State {
    if id >= |s.orders| then s
    else if status == AckProcessing then if f.save then s else SetStatus(s, id, Dispensing)
    else
      var o, parts := s.orders[id], Reported(s, id, status, ord);
      var consumed := s.(machines := ConsumeOn(s.machines, o.machine, UpTo(parts, f.stop)));
      if f.stop.Some? then consumed
      else
        var restocked := Restocked(consumed, o, IsFoodOrder(s, id), status, Total(parts), f.restore);
        if AckStops(s, id, status, ord, f) then restocked
        else Closed(restocked, id, FinalStatus(status, o.quantity, Total(parts)), f.refund)
  }

  datatype UpdateStatus = UCompleted | UCancelled | UProcessing | UDispensing | UHalf | UUnknown

  /** The order service's handler. `processing` is not a storable status, so saving it throws. */
  function MachineUpdate(s: State, id: nat, status: UpdateStatus, f: SettleFaults): State {
    if id >= |s.orders| then s
    else
      var o := s.orders[id];
      match status
      case UCompleted => if f.save then s else FreeUnless(SetStatus(s, id, Completed), o.machine, f.free)
      case UCancelled =>
        var refunded := if o.status == Dispensing then Reimburse(s, id, f.refund) else s;
        if f.save || (o.status == Dispensing && !RefundReturns(s, id, f.refund)) then refunded
        else FreeUnless(SetStatus(refunded, id, Failed), o.machine, f.free)
      case UDispensing => if f.save then s else SetStatus(s, id, Dispensing)
      case UHalf => if f.save then s else SetStatus(s, id, HalfCompleted)
      case _ => s
  }

  function CompleteOrder(s: State, id: nat, f: SettleFaults): (State, Outcome<(), OrderError>) {
    if id >= |s.orders| then (s, Err(OrderNotFound))
    else if !s.orders[id].Live() then (s, Err(WrongStatus))
    else if f.save then (s, Err(Database))
    else (FreeUnless(SetStatus(s, id, Completed), s.orders[id].machine, f.free), Ok(()))
  }

  function FailOrder(s: State, id: nat, f: SettleFaults): (State, Outcome<(), OrderError>) {
    if id >= |s.orders| then (s, Err(OrderNotFound))
    else
      var o := s.orders[id];
      var refunded := if o.payment.Paid? then Reimburse(s, id, f.refund) else s;
      if o.payment.Paid? && !RefundReturns(s, id, f.refund) then (refunded, Err(WalletFailed(RefundOf(s, id, f.refund).1.error)))
      else if f.save then (refunded, Err(Database))
      else (FreeUnless(SetStatus(refunded, id, Failed), o.machine, f.free), Ok(()))
  }

  function RefundOrder(s: State, id: nat, f: SettleFaults): (State, Outcome<(), OrderError>) {
    if id >= |s.orders| then (s, Err(OrderNotFound))
    else if s.orders[id].status == Refunded then (s, Err(WrongStatus))
    else
      var refunded := Reimburse(s, id, f.refund);
      if !RefundReturns(s, id, f.refund) then (refunded, Err(WalletFailed(RefundOf(s, id, f.refund).1.error)))
      else if f.save then (refunded, Err(Database))
      else (SetStatus(refunded, id, Refunded), Ok(()))
  }

  // ─── The timeout sweep ─────────────────────────────────────────────────────

  const SWEEP_LIMIT := 50

  predicate Stuck(o: Order, cutoff: int) { o.Live() && o.createdAt < cutoff }

  /** Order numbers below `n` that are stuck, oldest first. */
  function StuckIds(orders: seq<Order>, cutoff: int, n: nat): seq<nat>
    requires n <= |orders|
  {
    if n == 0 then [] else StuckIds(orders, cutoff, n - 1) + if Stuck(orders[n - 1], cutoff) then [n - 1] else []
  }

  /** One order of the sweep, as far as it gets: fail it, free its machine, refund it, put food back. */
  function TimeOut(s: State, id: nat, f: SettleFaults): State
    requires id < |s.orders|
  {
    var o := s.orders[id];
    if f.save then s
    else if f.free then SetStatus(s, id, Failed)
    else
      var refunded := Reimburse(Free(SetStatus(s, id, Failed), o.machine), id, f.refund);
      if RefundReturns(s, id, f.refund) && f.stop.None? && IsFoodOrder(s, id)
      then refunded.(machines := RestoreOn(refunded.machines, o.machine, o.item, o.quantity, f.restore)) else refunded
  }

  /** The sweep goes on to the next order: no call for this one threw. */
  predicate SweepsOn(s: State, id: nat, f: SettleFaults)
    requires id < |s.orders|
  {
    !f.save && !f.free && RefundReturns(s, id, f.refund) && f.stop.None? && (IsFoodOrder(s, id) ==> f.restore == NoRestoreFault)
  }

  function FaultsNow(fs: seq<SettleFaults>): SettleFaults { if fs == [] then ALL_WORKS else fs[0] }

  function FaultsLater(fs: seq<SettleFaults>): seq<SettleFaults> { if fs == [] then [] else fs[1..] }

  /** The orders one by one, each with its own faults; a call that throws ends the sweep. */
  function Sweep(s: State, ids: seq<nat>, fs: seq<SettleFaults>): State
    requires forall i | 0 <= i < |ids| :: ids[i] < |s.orders|
    decreases |ids|
  {
    if ids == [] then s
    else if !SweepsOn(s, ids[0], FaultsNow(fs)) then TimeOut(s, ids[0], FaultsNow(fs))
    else Sweep(TimeOut(s, ids[0], FaultsNow(fs)), ids[1..], FaultsLater(fs))
  }

  lemma {:induction false} StuckIdsSpec(orders: seq<Order>, cutoff: int, n: nat)
    requires n <= |orders|
    ensures forall i | 0 <= i < |StuckIds(orders, cutoff, n)| ::
              StuckIds(orders, cutoff, n)[i] < n && Stuck(orders[StuckIds(orders, cutoff, n)[i]], cutoff)
    ensures forall i, j | 0 <= i < j < |StuckIds(orders, cutoff, n)| :: StuckIds(orders, cutoff, n)[i] < StuckIds(orders, cutoff, n)[j]
    ensures forall k | 0 <= k < n && Stuck(orders[k], cutoff) :: k in StuckIds(orders, cutoff, n)
  {
    if n > 0 {
      StuckIdsSpec(orders, cutoff, n - 1);
    }
  }

  /** The orders one tick sweeps. */
  function Swept(orders: seq<Order>, cutoff: int): (ids: seq<nat>)
    ensures forall i | 0 <= i < |ids| :: ids[i] < |orders|
  {
    var all := StuckIds(orders, cutoff, |orders|);
    StuckIdsSpec(orders, cutoff, |orders|);
    if |all| <= SWEEP_LIMIT then all else all[..SWEEP_LIMIT]
  }

  function Tick(s: State, cutoff: int, fs: seq<SettleFaults>): State { Sweep(s, Swept(s.orders, cutoff), fs) }

  // ─── Runs ──────────────────────────────────────────────────────────────────

  /** Each event comes with the calls of it that fail. */
  datatype Event =
    | Placing(request: Request, faults: Faults)
    | Ack(id: nat, ack: AckStatus, ord: Option<string>, failing: SettleFaults)
    | Update(id: nat, update: UpdateStatus, failing: SettleFaults)
    | Completing(id: nat, failing: SettleFaults)
    | Failing(id: nat, failing: SettleFaults)
    | Refunding(id: nat, failing: SettleFaults)
    | Ticking(cutoff: int, sweep: seq<SettleFaults>)
    | ToppingUp(user: UserId, amount: nat, category: Category, text: string, fault: CreditFault)
    | Stocking(machine: MachineId, stock: StockEvent)

  /** The order a settling event addresses. */
  function Target(e: Event): Option<nat> {
    match e
    case Ack(id, _, _, _) => Some(id)
    case Update(id, _, _) => Some(id)
    case Completing(id, _) => Some(id)
    case Failing(id, _) => Some(id)
    case Refunding(id, _) => Some(id)
    case _ => None
  }

  /** Stock calls reach only food machines that exist. */
  function StockOn(ms: Fleet, m: MachineId, e: StockEvent): Fleet {
    if m in ms && ms[m].isFood then SetBatches(ms, m, Stock(ms[m].batches, e)) else ms
  }

  function Apply(s: State, e: Event): State {
    match e
    case Placing(r, f) => Place(s, r, f).0
    case Ack(id, status, ord, f) => HandleAck(s, id, status, ord, f)
    case Update(id, status, f) => MachineUpdate(s, id, status, f)
    case Completing(id, f) => CompleteOrder(s, id, f).0
    case Failing(id, f) => FailOrder(s, id, f).0
    case Refunding(id, f) => RefundOrder(s, id, f).0
    case Ticking(cutoff, fs) => Tick(s, cutoff, fs)
    case ToppingUp(u, amount, category, text, fault) =>
      s.(ledger := CreditCall(s.ledger, u, category, amount, External(text), fault).0)
    case Stocking(m, stock) => s.(machines := StockOn(s.machines, m, stock))
  }

  function Run(s: State, events: seq<Event>): State
    decreases |events|
  {
    if events == [] then s else Run(Apply(s, events[0]), events[1..])
  }

  /** Nothing placed, nothing recorded. */
  function Fresh(balances: map<UserId, int>, machines: Fleet): State {
    State([], Ledger(balances, []), machines)
  }
}
