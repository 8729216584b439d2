/** The machine collection and the service calls that change a machine's stock, calibration and busy flag. */
module Machines {
  import opened Common
  import opened Batches
  import opened WireFormat
  import Cups
  import Timers

  /** `agent` is the assigned agent; `water` is the boiler reading, empty when there is none. */
  datatype Machine = Machine(
    agent: string, isFood: bool, batches: seq<Batch>, inventory: seq<Cups.Entry>, calibration: seq<Timers.Calibration>,
    isOnline: bool, sleepMode: bool, water: string, isBusy: bool, totalOrders: nat, totalRevenue: int)

  datatype MachineError = NoSuchMachine | NotAFoodMachine | NoSuchBatch | OutOfStock | NotInInventory | TimerMismatch | NotAssigned

  type Fleet = map<MachineId, Machine>

  function SetBusy(ms: Fleet, id: MachineId, busy: bool): Fleet {
    if id in ms then ms[id := ms[id].(isBusy := busy)] else ms
  }

  function SetBatches(ms: Fleet, id: MachineId, bs: seq<Batch>): Fleet
    requires id in ms
  {
    ms[id := ms[id].(batches := bs)]
  }

  function CountOrder(ms: Fleet, id: MachineId, amount: int): Fleet {
    if id in ms then ms[id := ms[id].(totalOrders := ms[id].totalOrders + 1, totalRevenue := ms[id].totalRevenue + amount)]
    else ms
  }

  function RestoreOn(ms: Fleet, id: MachineId, item: ItemId, quantity: int, fault: RestoreFault): Fleet {
    if id in ms then SetBatches(ms, id, RestoreUpTo(ms[id].batches, item, quantity, fault)) else ms
  }

  /** A coffee machine's inventory after an acknowledgement; a food machine has no grams to deduct. */
  function ConsumeOn(ms: Fleet, id: MachineId, parts: seq<Cups.Part>): Fleet {
    if id in ms && !ms[id].isFood then ms[id := ms[id].(inventory := Cups.ConsumeAll(ms[id].inventory, parts))] else ms
  }

  class MachinesService {
    var machines: Fleet

    constructor (machines: Fleet)
      ensures this.machines == machines
    {
      this.machines := machines;
    }

    method LoadBatch(id: MachineId, batchId: nat, item: ItemId, nozzle: int, quantity: nat, expiry: int, now: int)
      returns (r: Outcome<Machine, MachineError>)
      modifies this
      ensures
        if id !in old(machines) then r == Err(NoSuchMachine) && machines == old(machines)
        else if !old(machines)[id].isFood then r == Err(NotAFoodMachine) && machines == old(machines)
        else machines == SetBatches(old(machines), id, Load(old(machines)[id].batches, batchId, item, nozzle, quantity, expiry, now))
             && r == Ok(machines[id])
    {
      if id !in machines { return Err(NoSuchMachine); }
      if !machines[id].isFood { return Err(NotAFoodMachine); }
      var b := Batch(batchId, item, nozzle, quantity, quantity, expiry, now, Active);
      machines := machines[id := machines[id].(batches := machines[id].batches + [b])];
      return Ok(machines[id]);
    }

    method RemoveBatch(id: MachineId, batchId: nat) returns (r: Outcome<Machine, MachineError>)
      modifies this
      ensures
        if id !in old(machines) then r == Err(NoSuchMachine) && machines == old(machines)
        else if forall b | b in old(machines)[id].batches :: b.id != batchId then r == Err(NoSuchBatch) && machines == old(machines)
        else machines == SetBatches(old(machines), id, Remove(old(machines)[id].batches, batchId)) && r == Ok(machines[id])
    {
      if id !in machines { return Err(NoSuchMachine); }
      if forall b | b in machines[id].batches :: b.id != batchId { return Err(NoSuchBatch); }
      machines := SetBatches(machines, id, Remove(machines[id].batches, batchId));
      return Ok(machines[id]);
    }

    method DeductBatchStock(id: MachineId, item: ItemId, quantity: nat) returns (r: Outcome<int, MachineError>)
      modifies this
      ensures
        if id !in old(machines) then r == Err(NoSuchMachine) && machines == old(machines)
        else match Deduct(old(machines)[id].batches, item, quantity)
          case None => r == Err(OutOfStock) && machines == old(machines)
          case Some((bs, nozzle)) => r == Ok(nozzle) && machines == SetBatches(old(machines), id, bs)
    {
      if id !in machines { return Err(NoSuchMachine); }
      var batches := machines[id].batches;
      var activeBatches := SortByLoad(Serving(batches, item, quantity));
      if |activeBatches| == 0 { return Err(OutOfStock); }
      var batch := activeBatches[0];
      var newQty := batch.quantity - quantity;
      var k := FirstIndex(batches, HasId(batch.id));
      if k < |batches| {
        batches := batches[k := batches[k].(quantity := newQty)];
        if newQty <= 0 {
          batches := batches[k := batches[k].(status := Depleted)];
        }
      }
      machines := machines[id := machines[id].(batches := batches)];
      assert batches == UpdateFirst(old(machines)[id].batches, HasId(batch.id), SetTaken(batch, quantity));
      return Ok(batch.nozzle);
    }

    /** Two updates: put the units back, then re-activate a depleted batch that has units again. Either can fail. */
    method RestoreBatchStock(id: MachineId, item: ItemId, quantity: int, fault: RestoreFault) returns (ok: bool)
      modifies this
      ensures machines == RestoreOn(old(machines), id, item, quantity, fault)
      ensures ok == (fault == NoRestoreFault)
    {
      if fault == BeforeRestore { return false; }
      if id in machines {
        machines := SetBatches(machines, id, PutBack(machines[id].batches, item, quantity));
      }
      if fault == AfterPutBack { return false; }
      if id in machines {
        machines := SetBatches(machines, id, Reactivate(machines[id].batches, item));
      }
      return true;
    }

    /** The hourly sweep over all food machines. */
    method CheckBatchExpiry(now: int)
      modifies this
      ensures machines == map id | id in old(machines) ::
                            if old(machines)[id].isFood then old(machines)[id].(batches := Expire(old(machines)[id].batches, now))
                            else old(machines)[id]
      ensures machines.Keys == old(machines).Keys
      ensures forall id | id in old(machines) && !old(machines)[id].isFood :: machines[id] == old(machines)[id]
      ensures forall id | id in old(machines) && old(machines)[id].isFood ::
                && machines[id] == old(machines)[id].(batches := machines[id].batches)
                && |machines[id].batches| == |old(machines)[id].batches|
                && forall i | 0 <= i < |machines[id].batches| ::
                     var b := old(machines)[id].batches[i];
                     machines[id].batches[i] == if b.status == Active && b.expiry < now then b.(status := Expired) else b
    {
      var found := set id | id in machines && machines[id].isFood
                            && exists b :: b in machines[id].batches && Expires(b, now);
      forall id | id in machines && id !in found && machines[id].isFood
        ensures Expire(machines[id].batches, now) == machines[id].batches
      {
        var bs := machines[id].batches;
        assert forall i | 0 <= i < |bs| :: bs[i] in bs && !Expires(bs[i], now);
      }
      var todo := found;
      while todo != {}
        invariant todo <= found <= old(machines).Keys && machines.Keys == old(machines).Keys
        invariant forall id | id in machines ::
                    machines[id] == if id in found && id !in todo then old(machines)[id].(batches := Expire(old(machines)[id].batches, now))
                                    else old(machines)[id]
        decreases todo
      {
        var id :| id in todo;
        machines := SetBatches(machines, id, Expire(machines[id].batches, now));
        todo := todo - {id};
      }
    }

    method UpdateInventory(id: MachineId, u: Cups.StockUpdate) returns (r: Outcome<Machine, MachineError>)
      modifies this
      ensures
        if id !in old(machines) then r == Err(NoSuchMachine) && machines == old(machines)
        else machines == old(machines)[id := old(machines)[id].(inventory := Cups.UpdateInventory(old(machines)[id].inventory, u))]
             && r == Ok(machines[id])
    {
      if id !in machines { return Err(NoSuchMachine); }
      var inventory := machines[id].inventory;
      var idx := Cups.FindItem(inventory, u.item);
      var stored := if idx < |inventory| then inventory[idx].gramsPerCup else Cups.DEFAULT_GRAMS;
      var gramsPerCup := u.gramsPerCup.GetOr(stored);
      var cupcount := FloorDiv(u.stock, if gramsPerCup == 0 then Cups.DEFAULT_GRAMS else gramsPerCup);
      if idx < |inventory| {
        inventory := inventory[idx := inventory[idx].(stock := u.stock)];
        inventory := inventory[idx := inventory[idx].(cups := cupcount)];
        if u.minStock.Some? {
          inventory := inventory[idx := inventory[idx].(minStock := u.minStock.value)];
        }
        if u.gramsPerCup.Some? {
          inventory := inventory[idx := inventory[idx].(gramsPerCup := u.gramsPerCup.value)];
        }
      } else {
        inventory := inventory + [Cups.Entry(u.item, u.stock, cupcount, u.minStock.GetOr(5), u.nozzle.GetOr(1), gramsPerCup)];
      }
      machines := machines[id := machines[id].(inventory := inventory)];
      assert inventory == Cups.UpdateInventory(old(machines)[id].inventory, u);
      return Ok(machines[id]);
    }

    /** An agent loading or unloading stock on a machine. */
    method UpdateMachineStock(agent: string, id: MachineId, item: ItemId, load: bool, quantity: nat,
                              batchId: nat, nozzle: Option<int>, expiry: int, now: int)
      returns (r: Outcome<(), MachineError>)
      modifies this
      ensures id !in old(machines) ==> r == Err(NoSuchMachine) && machines == old(machines)
      ensures id in old(machines) ==>
        var m := old(machines)[id];
        if m.agent != agent then r == Err(NotAssigned) && machines == old(machines)
        else if m.isFood && load then
          if nozzle.GetOr(0) == 0 then r == Err(NotInInventory) && machines == old(machines)
          else r.Ok? && machines == SetBatches(old(machines), id, Load(m.batches, batchId, item, nozzle.value, quantity, expiry, now))
        else if m.isFood then
          match Deduct(m.batches, item, quantity)
          case None => r == Err(OutOfStock) && machines == old(machines)
          case Some((bs, _)) => r.Ok? && machines == SetBatches(old(machines), id, bs)
        else
          match Cups.MoveCups(m.inventory, item, load, quantity)
          case None => r == Err(NotInInventory) && machines == old(machines)
          case Some(inv) => r.Ok? && machines == old(machines)[id := m.(inventory := inv)]
    {
      if id !in machines { return Err(NoSuchMachine); }
      var m := machines[id];
      if m.agent != agent { return Err(NotAssigned); }
      if m.isFood {
        if load {
          if nozzle.GetOr(0) == 0 { return Err(NotInInventory); }
          var _ := LoadBatch(id, batchId, item, nozzle.value, quantity, expiry, now);
        } else {
          var taken := DeductBatchStock(id, item, quantity);
          if taken.Err? { return Err(taken.error); }
        }
      } else {
        var idx := Cups.FindItem(m.inventory, item);
        if idx == |m.inventory| { return Err(NotInInventory); }
        var gramsPerCup := Cups.Grams(m.inventory[idx]);
        var gramsChange := quantity * gramsPerCup;
        var newStock := if load then m.inventory[idx].stock + gramsChange else Max(0, m.inventory[idx].stock - gramsChange);
        var _ := UpdateInventory(id, Cups.StockUpdate(item, newStock, None, None, Some(gramsPerCup)));
      }
      return Ok(());
    }

    method UpdateCalibration(id: MachineId, u: Timers.CalibrationUpdate) returns (r: Outcome<Machine, MachineError>)
      modifies this
      ensures
        if id !in old(machines) then r == Err(NoSuchMachine) && machines == old(machines)
        else match Timers.UpdateCalibration(old(machines)[id].calibration, u)
          case None => r == Err(TimerMismatch) && machines == old(machines)
          case Some(cal) => machines == old(machines)[id := old(machines)[id].(calibration := cal)] && r == Ok(machines[id])
    {
      if id !in machines { return Err(NoSuchMachine); }
      var calibration := machines[id].calibration;
      var request := u;
      if u.volGram.Some? && u.volGram.value > 0 {
        request := request.(powder := Some(RoundDiv(1000 * u.volGram.value, 6)));
      }
      if u.volMl.Some? && u.volMl.value > 0 {
        request := request.(water := Some(RoundDiv(2000 * u.volMl.value, 37)));
      }
      if request.water.Some? && request.powder.Some? {
        if request.water.value < request.powder.value + Timers.LEAD { return Err(TimerMismatch); }
      }
      var idx := Timers.FindEntry(calibration, request.item, request.cupSize);
      if idx < |calibration| {
        var c := calibration[idx];
        calibration := calibration[idx := Timers.Calibration(
          c.item, c.cupSize, request.nozzle.GetOr(c.nozzle), Timers.OrElse(request.water, c.water),
          Timers.OrElse(request.powder, c.powder), request.volMl.GetOr(c.volMl), request.volGram.GetOr(c.volGram))];
      } else {
        calibration := calibration + [Timers.Calibration(
          request.item, request.cupSize, request.nozzle.GetOr(1), request.water, request.powder,
          request.volMl.GetOr(0), request.volGram.GetOr(0))];
      }
      machines := machines[id := machines[id].(calibration := calibration)];
      return Ok(machines[id]);
    }

    /** One part: grams and cups computed from the machine as it was read, written to the stored entry. */
    static method ConsumePart(read: seq<Cups.Entry>, stored: seq<Cups.Entry>, part: Cups.Part) returns (inventory: seq<Cups.Entry>)
      ensures inventory == Cups.Consume(read, stored, part)
    {
      inventory := stored;
      if part.nozzle.None? || part.quantity == 0 { return; }
      var i := Cups.FindNozzle(read, part.nozzle.value);
      var k := Cups.FindNozzle(stored, part.nozzle.value);
      if i == |read| || k == |stored| { return; }
      var gramsPerCup := Cups.Grams(read[i]);
      var gramsConsumed := part.quantity * gramsPerCup;
      var newStock := Max(0, read[i].stock - gramsConsumed);
      var newCupcount := newStock / gramsPerCup;
      inventory := stored[k := stored[k].(stock := stored[k].stock - gramsConsumed, cups := newCupcount)];
    }

    /**
     * The stock part of an acknowledgement: one pass over its parts, adding up and deducting grams. It
     * fails after `stop` parts, if that is given.
     */
    method ConsumeAck(id: MachineId, ord: string, stop: Option<nat>) returns (totalDispensed: int, ok: bool)
      modifies this
      ensures ok == stop.None?
      ensures id !in old(machines) ==> totalDispensed == 0 && machines == old(machines)
      ensures id in old(machines) ==>
                && (ok ==> totalDispensed == Total(ParseAck(ord)))
                && machines == ConsumeOn(old(machines), id, UpTo(ParseAck(ord), stop))
    {
      totalDispensed, ok := 0, stop.None?;
      if id !in machines { return; }
      var machine := machines[id];
      var ordList := NonEmpty(Split(ord, ','));
      ghost var parts := ParseParts(ordList);
      ParsePartsIndex(ordList);
      var inventory := machine.inventory;
      var i := 0;
      while i < |ordList| && !(stop.Some? && i == stop.value)
        invariant 0 <= i <= |ordList| && |parts| == |ordList| && (stop.Some? ==> i <= stop.value)
        invariant totalDispensed == Total(parts[..i])
        invariant inventory == if machine.isFood then machine.inventory else Cups.ConsumeAll(machine.inventory, parts[..i])
        invariant machines == old(machines)
        decreases |ordList| - i
      {
        var part := ParsePart(ordList[i]);
        PrefixStep(machine.inventory, parts, i);
        totalDispensed := totalDispensed + part.quantity;
        if !machine.isFood {
          inventory := ConsumePart(machine.inventory, inventory, part);
        }
        i := i + 1;
      }
      assert parts[..|ordList|] == parts;
      assert UpTo(parts, stop) == parts[..i];
      if !machine.isFood {
        machines := machines[id := machine.(inventory := inventory)];
      }
    }

    method SetMachineBusy(id: MachineId, busy: bool)
      modifies this
      ensures machines == SetBusy(old(machines), id, busy)
    {
      if id in machines {
        machines := machines[id := machines[id].(isBusy := busy)];
      }
    }

    method IncrementOrderStats(id: MachineId, amount: int)
      modifies this
      ensures machines == CountOrder(old(machines), id, amount)
    {
      if id in machines {
        var m := machines[id];
        machines := machines[id := m.(totalOrders := m.totalOrders + 1, totalRevenue := m.totalRevenue + amount)];
      }
    }
  }

  /** One more part of an acknowledgement. */
  lemma PrefixStep(read: seq<Cups.Entry>, parts: seq<Cups.Part>, i: nat)
    requires i < |parts|
    ensures Total(parts[..i + 1]) == Total(parts[..i]) + parts[i].quantity
    ensures Cups.ConsumeAll(read, parts[..i + 1]) == Cups.Consume(read, Cups.ConsumeAll(read, parts[..i]), parts[i])
  {
    assert parts[..i + 1][..i] == parts[..i];
  }

  lemma {:induction false} ParsePartsIndex(list: seq<string>)
    ensures |ParseParts(list)| == |list|
    ensures forall i | 0 <= i < |list| :: ParseParts(list)[i] == ParsePart(list[i])
  {
    if list != [] { ParsePartsIndex(list[1..]); }
  }
}
