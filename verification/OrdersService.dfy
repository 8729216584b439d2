/**
 * The order service over its stored collections. Every method is proved against the functions of the
 * order protocol. The acknowledgement handler and the timeout sweep are methods of the backend's machine
 * service; they are here because they write the same orders, wallets and machines.
 */
module OrdersService {
  import opened Common
  import opened Wallet
  import opened Batches
  import opened Machines
  import opened Orders
  import opened LegacyOrders
  import opened WireFormat
  import Timers
  import Placement

  class OrdersService {
    var orders: seq<Order>
    var nextNo: nat
    const wallet: WalletService
    const fleet: MachinesService

    ghost function View(): State
      reads this, wallet, fleet
    {
      State(orders, wallet.View(), fleet.machines)
    }

    constructor (wallet: WalletService, fleet: MachinesService)
      ensures this.wallet == wallet && this.fleet == fleet && orders == [] && nextNo == 0
    {
      this.wallet, this.fleet, orders, nextNo := wallet, fleet, [], 0;
    }

    method Save(id: nat, order: Order)
      requires id < |orders|
      modifies this`orders
      ensures orders == old(orders)[id := order]
    {
      orders := orders[id := order];
    }

    // ─── Placement ───────────────────────────────────────────────────────────

    /** Charges the customer, or marks an admin test order, and saves the order as dispensing. */
    method ChargeOrder(id: nat, bypass: bool, f: Faults) returns (order: Order, error: Option<OrderError>)
      requires id < |orders|
      modifies this`orders, wallet`balances, wallet`txs
      ensures var g := Charge(old(View()), id, bypass, f); View() == g.s && order == g.mem && error == g.error
    {
      order := orders[id];
      if bypass {
        order := order.(payment := Bypass);
      } else {
        var tx := wallet.Deduct(order.user, order.total, OrderRef(id), f.deduct);
        if tx.Err? { return order, Some(WalletFailed(tx.error)); }
        order := order.(payment := Paid);
      }
      order := order.(status := Dispensing);
      if f.saveAfterCharge { return order, Some(Database); }
      Save(id, order);
      error := None;
    }

    /** Takes food from a batch, or checks the coffee timers, and builds the command. */
    method Supply(id: nat, order: Order, machine: Machine, r: Request, f: Faults)
      returns (batchDeducted: bool, command: Option<Command>, error: Option<OrderError>)
      modifies fleet
      ensures
        var g := Allocate(Saga(old(View()), id, order, false, None, None), machine, r, f);
        View() == g.s && batchDeducted == g.batchDeducted && command == g.command && error == g.error
    {
      batchDeducted, command, error := false, None, None;
      if machine.isFood {
        if f.allocate { return false, None, Some(Database); }
        var taken := fleet.DeductBatchStock(r.machine, r.itemId, r.quantity);
        if taken.Err? { return false, None, Some(if taken.error == NoSuchMachine then UnknownMachine else SoldOut); }
        batchDeducted := true;
        command := Some(FoodCommand(taken.value, ItemName(r), r.quantity));
      } else {
        var calib := CalibrationFor(machine, r);
        var timers := Timers.PublishTimers(calib);
        if timers.None? { return false, None, Some(TimersMismatch); }
        var nozzle := if calib.Some? then calib.value.nozzle else 1;
        command := Some(CoffeeCommand(nozzle, ItemName(r), r.quantity, timers.value.0, timers.value.1));
      }
    }

    /** The inner handler of a failed publish: save the failure, refund at once, throw. */
    method PublishFailed(id: nat, order: Order, f: Faults) returns (failed: Order, error: OrderError)
      requires id < |orders| && f.publish
      modifies this`orders, wallet`balances, wallet`txs
      ensures
        var g := Publish(Saga(old(View()), id, order, false, None, None), f);
        View() == g.s && failed == g.mem && g.error == Some(error)
    {
      failed := order.(status := Failed);
      if f.innerSave { return failed, Database; }
      Save(id, failed);
      var refund := wallet.RefundPayment(failed.user, failed.total, OrderRef(id), f.innerRefund);
      error := if refund.Err? then WalletFailed(refund.error) else MachineUnreachable;
    }

    /** Marks the machine busy and counts the order. */
    method Book(m: MachineId, total: nat, f: Faults) returns (error: Option<OrderError>)
      modifies fleet
      ensures fleet.machines == if f.busy then old(fleet.machines) else if f.stats then SetBusy(old(fleet.machines), m, true)
                                else CountOrder(SetBusy(old(fleet.machines), m, true), m, total)
      ensures error == if f.busy || f.stats then Some(Database) else None
    {
      if f.busy { return Some(Database); }
      fleet.SetMachineBusy(m, true);
      if f.stats { return Some(Database); }
      fleet.IncrementOrderStats(m, total);
      error := None;
    }

    /** The outer handler: save the failure, refund what was paid, put allocated food back. */
    method Undo(id: nat, order: Order, batchDeducted: bool, isFood: bool, r: Request, f: Faults, error: OrderError) returns (thrown: OrderError)
      requires id < |orders|
      modifies this`orders, wallet`balances, wallet`txs, fleet
      ensures
        var g := Rollback(Saga(old(View()), id, order, batchDeducted, None, Some(error)), isFood, r, f);
        View() == g.s && g.error == Some(thrown)
    {
      var failed := order.(status := Failed);
      if f.handlerSave { return Database; }
      Save(id, failed);
      if order.payment.Paid? {
        var _ := wallet.RefundPayment(failed.user, failed.total, OrderRef(id), f.handlerRefund);
        if isFood && batchDeducted {
          var _ := fleet.RestoreBatchStock(r.machine, r.itemId, r.quantity, f.restore);
        }
      }
      thrown := error;
    }

    /** The order's record exists: charge, supply, publish, book. */
    method Attempt(id: nat, machine: Machine, r: Request, f: Faults)
      returns (order: Order, batchDeducted: bool, command: Option<Command>, error: Option<OrderError>)
      requires id < |orders|
      modifies this`orders, wallet`balances, wallet`txs, fleet
      ensures |orders| == |old(orders)|
      ensures Placement.AfterBooking(old(View()), id, machine, r, f) == Saga(View(), id, order, batchDeducted, command, error)
    {
      ghost var start := View();
      batchDeducted, command := false, None;
      order, error := ChargeOrder(id, r.bypass, f);
      Placement.SagaStages(start, id, machine, r, f);
      if error.None? {
        SupplyKeepsTheRest(Placement.AfterCharge(start, id, r, f), machine, r, f);
        batchDeducted, command, error := Supply(id, order, machine, r, f);
      }
      ghost var supplied := Placement.AfterSupply(start, id, machine, r, f);
      assert supplied == Saga(View(), id, order, batchDeducted, command, error);
      if error.None? {
        if f.publish {
          PublishIgnoresSupply(supplied, f);
          var why;
          order, why := PublishFailed(id, order, f);
          error := Some(why);
        } else {
          error := Book(r.machine, order.total, f);
        }
      }
    }

    /** The attempt inside its catch block. */
    method Fulfil(id: nat, machine: Machine, r: Request, f: Faults) returns (command: Option<Command>, error: Option<OrderError>)
      requires id < |orders|
      modifies this`orders, wallet`balances, wallet`txs, fleet
      ensures var g := RunSaga(old(View()), id, machine, r, f); View() == g.s && error == g.error && command == g.command
    {
      ghost var start := View();
      var order, batchDeducted;
      order, batchDeducted, command, error := Attempt(id, machine, r, f);
      Placement.SagaStages(start, id, machine, r, f);
      if error.Some? {
        RollbackIgnoresCommand(Placement.AfterBooking(start, id, machine, r, f), machine.isFood, r, f);
        var thrown := Undo(id, order, batchDeducted, machine.isFood, r, f, error.value);
        error := Some(thrown);
      }
    }

    method PlaceOrder(r: Request, f: Faults) returns (p: Orders.Placement)
      modifies this`orders, wallet`balances, wallet`txs, fleet
      ensures (View(), p) == Place(old(View()), r, f)
    {
      if f.stop == AtChecks { return Refused(Database); }
      var base := Precheck(fleet.machines, r);
      if base.Err? { return Refused(base.error); }
      var machine := fleet.machines[r.machine];
      var quote := QuoteFor(fleet.machines, r, base.value);
      orders := CancelPending(orders, r.user, r.machine);
      if f.stop == AfterCancelling { return Refused(Database); }
      var activeOrder := Occupied(orders, r.machine);
      if machine.isBusy && !activeOrder {
        if !f.clear { fleet.SetMachineBusy(r.machine, false); }
      } else if activeOrder {
        return Refused(MachineBusy);
      }
      assert View() == Admitted(old(View()), r, f);
      if f.stop == AtRecord { return Refused(Database); }
      var id := |orders|;
      orders := orders + [Order(r.user, r.machine, r.itemId, r.quantity, quote.total, Pending, Unpaid, r.now)];
      ghost var placed := View();
      var command, error := Fulfil(id, machine, r, f);
      Placement.SagaKeepsId(placed, id, machine, r, f);
      p := if error.Some? then Threw(id, error.value) else Placed(id, command);
    }

    // ─── Settling ────────────────────────────────────────────────────────────

    /** Deducts what the machine reports and returns how much that was. */
    method ConsumeReport(id: nat, status: AckStatus, ord: Option<string>, stop: Option<nat>) returns (totalDispensed: int, ok: bool)
      requires id < |orders|
      modifies fleet
      ensures ok == stop.None?
      ensures
        var parts := Reported(old(View()), id, status, ord);
        && View() == old(View()).(machines := ConsumeOn(old(fleet.machines), orders[id].machine, UpTo(parts, stop)))
        && (ok ==> totalDispensed == Total(parts))
    {
      totalDispensed, ok := 0, stop.None?;
      if ord.Some? && (status == AckCompleted || status == AckCancelled) {
        totalDispensed, ok := fleet.ConsumeAck(orders[id].machine, ord.value, stop);
      }
      NothingConsumed(old(fleet.machines), orders[id].machine);
    }

    /** Saves the final status and refunds anything but a completed order. */
    method Settle(id: nat, final: Status, refund: CreditFault)
      requires id < |orders|
      modifies this`orders, wallet`balances, wallet`txs
      ensures View() == Closed(old(View()), id, final, refund)
    {
      var order := orders[id];
      Save(id, order.(status := final));
      if final != Completed {
        var _ := wallet.RefundPayment(order.user, order.total, OrderRef(id), refund);
      }
    }

    /** Food that was not dispensed goes back to its batch when the machine cancels. */
    method RestoreUndelivered(order: Order, isFood: bool, status: AckStatus, totalDispensed: int, fault: RestoreFault) returns (ok: bool)
      modifies fleet
      ensures View() == Restocked(old(View()), order, isFood, status, totalDispensed, fault)
      ensures ok <==> !(Restocks(order, isFood, status, totalDispensed) && fault != NoRestoreFault)
    {
      ok := true;
      if isFood && status == AckCancelled {
        var undelivered := order.quantity - totalDispensed;
        if undelivered > 0 {
          ok := fleet.RestoreBatchStock(order.machine, order.item, undelivered, fault);
        }
      }
    }

    method HandleOrderStatusUpdate(id: nat, status: AckStatus, ord: Option<string>, f: SettleFaults)
      modifies this`orders, wallet`balances, wallet`txs, fleet
      ensures View() == HandleAck(old(View()), id, status, ord, f)
    {
      if id >= |orders| { return; }
      if status == AckProcessing {
        if !f.save { orders := orders[id := orders[id].(status := Dispensing)]; }
        return;
      }
      var order := orders[id];
      var isFood := order.machine in fleet.machines && fleet.machines[order.machine].isFood;
      var totalDispensed, read := ConsumeReport(id, status, ord, f.stop);
      if !read { return; }
      var restored := RestoreUndelivered(order, isFood, status, totalDispensed, f.restore);
      if !restored || f.save { return; }
      Settle(id, FinalStatus(status, order.quantity, totalDispensed), f.refund);
    }

    method MachineUpdateOrder(id: nat, status: UpdateStatus, f: SettleFaults)
      modifies this`orders, wallet`balances, wallet`txs, fleet
      ensures View() == MachineUpdate(old(View()), id, status, f)
    {
      if id >= |orders| || status == UUnknown { return; }
      var order := orders[id];
      var prevStatus := order.status;
      if status == UCompleted {
        order := order.(status := Completed);
      } else if status == UCancelled {
        order := order.(status := Failed);
        if prevStatus == Dispensing {
          var refund := wallet.RefundPayment(order.user, order.total, OrderRef(id), f.refund);
          if refund.Err? { return; }
        }
      } else if status == UProcessing {
        return; // not a storable status: the save is rejected
      } else {
        order := order.(status := if status == UDispensing then Dispensing else HalfCompleted);
      }
      if f.save { return; }
      Save(id, order);
      if (order.status == Completed || order.status == Failed) && !f.free {
        fleet.SetMachineBusy(order.machine, false);
      }
    }

    method CompleteOrder(id: nat, f: SettleFaults) returns (r: Outcome<(), OrderError>)
      modifies this`orders, fleet
      ensures (View(), r) == Orders.CompleteOrder(old(View()), id, f)
    {
      if id >= |orders| { return Err(OrderNotFound); }
      if !orders[id].Live() { return Err(WrongStatus); }
      if f.save { return Err(Database); }
      Save(id, orders[id].(status := Completed));
      if !f.free { fleet.SetMachineBusy(orders[id].machine, false); }
      return Ok(());
    }

    /** An agent fails an order for a stated reason. */
    method FailOrder(id: nat, reason: string, f: SettleFaults) returns (r: Outcome<(), OrderError>)
      modifies this`orders, wallet`balances, wallet`txs, fleet
      ensures TrimLeft(reason) == "" ==> r == Err(ReasonRequired) && View() == old(View())
      ensures TrimLeft(reason) != "" ==> (View(), r) == Orders.FailOrder(old(View()), id, f)
    {
      if TrimLeft(reason) == "" { return Err(ReasonRequired); }
      if id >= |orders| { return Err(OrderNotFound); }
      var order := orders[id];
      if order.payment.Paid? {
        var refund := wallet.RefundPayment(order.user, order.total, OrderRef(id), f.refund);
        if refund.Err? { return Err(WalletFailed(refund.error)); }
      }
      if f.save { return Err(Database); }
      Save(id, order.(status := Failed));
      if !f.free { fleet.SetMachineBusy(order.machine, false); }
      return Ok(());
    }

    method RefundOrder(id: nat, f: SettleFaults) returns (r: Outcome<(), OrderError>)
      modifies this`orders, wallet`balances, wallet`txs
      ensures (View(), r) == Orders.RefundOrder(old(View()), id, f)
    {
      if id >= |orders| { return Err(OrderNotFound); }
      var order := orders[id];
      if order.status == Refunded { return Err(WrongStatus); }
      var refund := wallet.RefundPayment(order.user, order.total, OrderRef(id), f.refund);
      if refund.Err? { return Err(WalletFailed(refund.error)); }
      if f.save { return Err(Database); }
      Save(id, order.(status := Refunded));
      return Ok(());
    }

    // ─── The timeout sweep ───────────────────────────────────────────────────

    /** One order of the sweep; false when a call throws. */
    method TimeOutOrder(id: nat, f: SettleFaults) returns (ok: bool)
      requires id < |orders|
      modifies this`orders, wallet`balances, wallet`txs, fleet
      ensures View() == TimeOut(old(View()), id, f) && ok == SweepsOn(old(View()), id, f)
    {
      var order := orders[id];
      if f.save { return false; }
      Save(id, order.(status := Failed));
      if f.free { return false; }
      fleet.SetMachineBusy(order.machine, false);
      var refund := wallet.RefundPayment(order.user, order.total, OrderRef(id), f.refund);
      if refund.Err? || f.stop.Some? { return false; }
      ok := true;
      if order.machine in fleet.machines && fleet.machines[order.machine].isFood {
        ok := fleet.RestoreBatchStock(order.machine, order.item, order.quantity, f.restore);
      }
    }

    method CancelTimedOutOrders(cutoff: int, faults: seq<SettleFaults>)
      modifies this`orders, wallet`balances, wallet`txs, fleet
      ensures View() == Tick(old(View()), cutoff, faults)
    {
      var stuckOrders := Swept(orders, cutoff);
      var later := faults;
      var i := 0;
      while i < |stuckOrders|
        invariant 0 <= i <= |stuckOrders| && |orders| == |old(orders)|
        invariant forall k | 0 <= k < |stuckOrders| :: stuckOrders[k] < |orders|
        invariant Sweep(View(), stuckOrders[i..], later) == Sweep(old(View()), stuckOrders, faults)
      {
        ghost var rest := stuckOrders[i..];
        assert rest[0] == stuckOrders[i] && rest[1..] == stuckOrders[i + 1..];
        var ok := TimeOutOrder(stuckOrders[i], FaultsNow(later));
        if !ok { return; }
        later := FaultsLater(later);
        i := i + 1;
      }
    }

    // ─── The old mobile app ──────────────────────────────────────────────────

    ghost function Desk(): LegacyOrders.Desk
      reads this, wallet, fleet
    {
      LegacyOrders.Desk(View(), nextNo)
    }

    /** A paid entry of a legacy request: record, allocate, publish, refund a failed publish. */
    method LegacyFulfil(no: nat, total: nat, q: LegacyRequest, machine: Machine, e: Entry, f: LegacyFaults) returns (t: Turn)
      requires e.record.Some? && total == TotalFor(machine, e)
      modifies this`orders, wallet`balances, wallet`txs, fleet
      ensures (Desk(), t) == LegacyOrders.Fulfil(old(Desk()), no, q, machine, e, f)
    {
      if f.save { return Aborted(Database); }
      var id := |orders|;
      var order := Order(q.payer, q.machine, e.itemId, e.quantity, total, Dispensing, Paid, q.now);
      orders := orders + [order];
      if machine.isFood && !f.allocate {
        var _ := fleet.DeductBatchStock(q.machine, e.itemId, e.quantity);
      }
      if f.publish {
        if f.saveFailed { return Aborted(Database); }
        Save(id, order.(status := Failed));
        assert orders == old(orders) + [order.(status := Failed)];
        var refund := wallet.RefundPayment(q.payer, total, HumanRef(no), f.refund);
        if refund.Err? { return Aborted(WalletFailed(refund.error)); }
        return Listed(Failure(e.itemId, Unreachable));
      }
      return Listed(Success(e.itemId, no, total, NozzleOf(machine, e), PublishedTimers(machine, e)));
    }

    /** One entry of a legacy request, from the price to the published command. */
    method LegacyTurn(q: LegacyRequest, machine: Machine, e: Entry, f: LegacyFaults) returns (t: Turn)
      modifies this, wallet`balances, wallet`txs, fleet
      ensures (Desk(), t) == TakeTurn(old(Desk()), q, machine, e, f)
    {
      if e.itemId == "" { return Skipped; }
      var refused := Preflight(machine, e);
      if refused.Some? { return Listed(Failure(e.itemId, refused.value)); }
      var total, no := TotalFor(machine, e), nextNo;
      nextNo := nextNo + 1;
      var tx := wallet.Deduct(q.payer, total, LegacyRef(no), f.deduct);
      if tx.Err? { return Listed(Failure(e.itemId, NotCharged(tx.error))); }
      t := LegacyFulfil(no, total, q, machine, e, f);
    }

    /** One entry's turn and what becomes of its result. */
    method LegacyStep(q: LegacyRequest, machine: Machine, e: Entry, f: LegacyFaults, results: seq<Result>)
      returns (after: seq<Result>, error: Option<OrderError>)
      modifies this, wallet`balances, wallet`txs, fleet
      ensures Next(Progress(old(Desk()), results, None), q, machine, e, f) == Progress(Desk(), after, error)
    {
      var t := LegacyTurn(q, machine, e, f);
      after, error := results, None;
      if t.Aborted? { error := Some(t.error); }
      if t.Listed? { after := results + [t.result]; }
    }

    /** The entries one by one; the first that throws ends the call. */
    method LegacyLoop(q: LegacyRequest, machine: Machine, faults: seq<LegacyFaults>) returns (results: seq<Result>, error: Option<OrderError>)
      requires |faults| == |q.entries|
      modifies this, wallet`balances, wallet`txs, fleet
      ensures Process(old(Desk()), q, machine, faults, |faults|) == Progress(Desk(), results, error)
    {
      results, error := [], None;
      ghost var start := Desk();
      var i := 0;
      while i < |q.entries|
        invariant 0 <= i <= |q.entries| && error.None?
        invariant Process(start, q, machine, faults, i) == Progress(Desk(), results, None)
      {
        ghost var before := Progress(Desk(), results, None);
        results, error := LegacyStep(q, machine, q.entries[i], faults[i], results);
        ProcessOneMore(start, q, machine, faults, i, before, Progress(Desk(), results, error));
        i := i + 1;
        if error.Some? { return; }
      }
    }

    method LegacyPlaceOrder(q: LegacyRequest, c: CallFaults, faults: seq<LegacyFaults>) returns (reply: Reply)
      requires |faults| == |q.entries|
      modifies this, wallet`balances, wallet`txs, fleet
      ensures (Desk(), reply) == LegacyPlace(old(Desk()), q, c, faults)
    {
      if q.user == "" || q.machine == "" || q.firstItemId == "" { return Declined(ItemNotFound); }
      if c.cancel { return Broke(Database); }
      orders := CancelPending(orders, q.user, q.machine);
      if q.machine !in fleet.machines { return Declined(UnknownMachine); }
      var machine := fleet.machines[q.machine];
      if !machine.isOnline { return Declined(MachineOffline); }
      if machine.sleepMode { return Declined(MachineAsleep); }
      if !machine.isFood && machine.water != "" && machine.water != "present" { return Declined(NoWater); }
      if c.queue { return Declined(Database); }
      if Occupied(orders, q.machine) { return Declined(MachineBusy); }
      if machine.isBusy && !c.clear { fleet.SetMachineBusy(q.machine, false); }
      assert Desk() == LegacyStart(old(Desk()), q, c);
      var results, error := LegacyLoop(q, machine, faults);
      if error.Some? { return Broke(error.value); }
      if AnySuccess(results) {
        if c.busy { return Broke(Database); }
        fleet.SetMachineBusy(q.machine, true);
      }
      return Answered(results);
    }
  }

  // ─── Facts the methods use ─────────────────────────────────────────────────

  lemma SupplyKeepsTheRest(g: Saga, machine: Machine, r: Request, f: Faults)
    ensures var g' := Allocate(g, machine, r, f); g'.id == g.id && g'.mem == g.mem && g'.s.orders == g.s.orders && g'.s.ledger == g.s.ledger
  {
  }

  /** Publishing does not look at the command or at what was allocated. */
  lemma PublishIgnoresSupply(g: Saga, f: Faults)
    requires g.Ok() && g.error.None?
    ensures var p := Publish(Saga(g.s, g.id, g.mem, false, None, None), f);
            Publish(g, f) == p.(batchDeducted := g.batchDeducted, command := g.command)
  {
  }

  lemma RollbackIgnoresCommand(g: Saga, isFood: bool, r: Request, f: Faults)
    requires g.Ok()
    ensures Rollback(g, isFood, r, f) == Rollback(g.(command := None), isFood, r, f).(command := g.command)
  {
  }

  lemma NothingConsumed(ms: Fleet, m: MachineId)
    ensures ConsumeOn(ms, m, []) == ms
  {
  }
}
