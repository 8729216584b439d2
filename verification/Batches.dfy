/** Food batches on one machine: first-in-first-out allocation, depletion, restoration and expiry. */
module Batches {
  import opened Common

  datatype BatchStatus = Active | Depleted | Expired

  datatype Batch = Batch(
    id: nat, item: ItemId, nozzle: int, quantity: int, total: nat, expiry: int, loadedAt: int, status: BatchStatus)

  /** `updateOne` with a positional operator: changes the first matching batch, if there is one. */
  function UpdateFirst(bs: seq<Batch>, p: Batch -> bool, f: Batch -> Batch): seq<Batch> {
    var i := FirstIndex(bs, p);
    if i < |bs| then bs[i := f(bs[i])] else bs
  }

  // ─── The operations ────────────────────────────────────────────────────────

  /** Can serve an order for `quantity` units of `item`. */
  predicate Serves(b: Batch, item: ItemId, quantity: int) {
    b.item == item && b.status == Active && b.quantity >= quantity
  }

  function IsServing(item: ItemId, quantity: int): Batch -> bool { (b: Batch) => Serves(b, item, quantity) }

  function HasId(id: nat): Batch -> bool { (b: Batch) => b.id == id }

  function IsRestorable(item: ItemId): Batch -> bool { (b: Batch) => Restorable(b, item) }

  function IsRefilled(item: ItemId): Batch -> bool {
    (b: Batch) => b.item == item && b.status == Depleted && b.quantity > 0
  }

  function AddUnits(quantity: int): Batch -> Batch { (b: Batch) => b.(quantity := b.quantity + quantity) }

  function Activate(b: Batch): Batch { b.(status := Active) }

  /** The order service's stock pre-check: the first batch that serves, in array order. */
  function Priced(bs: seq<Batch>, item: ItemId, quantity: int): Option<Batch> {
    var i := FirstIndex(bs, IsServing(item, quantity));
    if i < |bs| then Some(bs[i]) else None
  }

  function Serving(bs: seq<Batch>, item: ItemId, quantity: int): seq<Batch> {
    if bs == [] then []
    else (if Serves(bs[0], item, quantity) then [bs[0]] else []) + Serving(bs[1..], item, quantity)
  }

  /** Puts a batch in front of the first batch that was not loaded before it. */
  function InsertByLoad(b: Batch, sorted: seq<Batch>): seq<Batch> {
    if sorted == [] || b.loadedAt <= sorted[0].loadedAt then [b] + sorted
    else [sorted[0]] + InsertByLoad(b, sorted[1..])
  }

  /** `Array.sort` by load time, which is stable. */
  function SortByLoad(bs: seq<Batch>): seq<Batch> {
    if bs == [] then [] else InsertByLoad(bs[0], SortByLoad(bs[1..]))
  }

  /** The allocator's choice: filter the batches that serve, sort them by load time, take the first. */
  function Allocated(bs: seq<Batch>, item: ItemId, quantity: int): Option<Batch> {
    var sorted := SortByLoad(Serving(bs, item, quantity));
    if sorted == [] then None else Some(sorted[0])
  }

  function TakeFrom(b: Batch, quantity: int): Batch {
    b.(quantity := b.quantity - quantity, status := if b.quantity - quantity <= 0 then Depleted else b.status)
  }

  /** Quantity and status are set from the batch that was read. */
  function SetTaken(chosen: Batch, quantity: int): Batch -> Batch {
    (b: Batch) => b.(quantity := TakeFrom(chosen, quantity).quantity,
                     status := if chosen.quantity - quantity <= 0 then Depleted else b.status)
  }

  /** Deducts an order from the allocated batch. */
  function Deduct(bs: seq<Batch>, item: ItemId, quantity: int): Option<(seq<Batch>, int)> {
    match Allocated(bs, item, quantity)
    case None => None
    case Some(chosen) =>
      Some((UpdateFirst(bs, HasId(chosen.id), SetTaken(chosen, quantity)),
            chosen.nozzle))
  }

  predicate Restorable(b: Batch, item: ItemId) {
    b.item == item && (b.status == Active || b.status == Depleted)
  }

  /** Puts units back on the first active or depleted batch of the item. */
  function PutBack(bs: seq<Batch>, item: ItemId, quantity: int): seq<Batch> {
    UpdateFirst(bs, IsRestorable(item), AddUnits(quantity))
  }

  /** Re-activates the first depleted batch of the item that has units. */
  function Reactivate(bs: seq<Batch>, item: ItemId): seq<Batch> {
    UpdateFirst(bs, IsRefilled(item), Activate)
  }

  function Restore(bs: seq<Batch>, item: ItemId, quantity: int): seq<Batch> {
    Reactivate(PutBack(bs, item, quantity), item)
  }

  /** Which of a restore's two updates fails. */
  datatype RestoreFault = NoRestoreFault | BeforeRestore | AfterPutBack

  /** A restore as far as it gets. */
  function RestoreUpTo(bs: seq<Batch>, item: ItemId, quantity: int, fault: RestoreFault): seq<Batch> {
    match fault
    case NoRestoreFault => Restore(bs, item, quantity)
    case BeforeRestore => bs
    case AfterPutBack => PutBack(bs, item, quantity)
  }

  function Remove(bs: seq<Batch>, id: nat): seq<Batch> {
    if bs == [] then []
    else (if bs[0].id == id then [] else [bs[0]]) + Remove(bs[1..], id)
  }

  predicate Expires(b: Batch, now: int) { b.status == Active && b.expiry < now }

  function Expire(bs: seq<Batch>, now: int): seq<Batch> {
    seq(|bs|, i requires 0 <= i < |bs| => if Expires(bs[i], now) then bs[i].(status := Expired) else bs[i])
  }

  function Load(bs: seq<Batch>, id: nat, item: ItemId, nozzle: int, quantity: nat, expiry: int, now: int): seq<Batch> {
    bs + [Batch(id, item, nozzle, quantity, quantity, expiry, now, Active)]
  }

  // ─── The batch that is priced is the batch that is dispensed ───────────────

  ghost predicate Chronological(bs: seq<Batch>) {
    forall i, j | 0 <= i < j < |bs| :: bs[i].loadedAt <= bs[j].loadedAt
  }

  lemma {:induction false} InsertKeepsBatches(b: Batch, sorted: seq<Batch>)
    ensures multiset(InsertByLoad(b, sorted)) == multiset([b] + sorted)
  {
    if sorted != [] && b.loadedAt > sorted[0].loadedAt {
      InsertKeepsBatches(b, sorted[1..]);
      assert sorted == [sorted[0]] + sorted[1..];
    }
  }

  lemma {:induction false} InsertKeepsOrder(b: Batch, sorted: seq<Batch>)
    requires Chronological(sorted)
    ensures Chronological(InsertByLoad(b, sorted))
  {
    if sorted != [] && b.loadedAt > sorted[0].loadedAt {
      var rest := InsertByLoad(b, sorted[1..]);
      InsertKeepsOrder(b, sorted[1..]);
      InsertedAfter(b, sorted, rest);
      PrependInOrder(sorted[0], rest);
    } else {
      PrependInOrder(b, sorted);
    }
  }

  lemma PrependInOrder(b: Batch, rest: seq<Batch>)
    requires Chronological(rest) && forall k | 0 <= k < |rest| :: b.loadedAt <= rest[k].loadedAt
    ensures Chronological([b] + rest)
  {
  }

  /** Everything behind the first batch was loaded no earlier. */
  lemma InsertedAfter(b: Batch, sorted: seq<Batch>, rest: seq<Batch>)
    requires sorted != [] && Chronological(sorted) && b.loadedAt > sorted[0].loadedAt
    requires rest == InsertByLoad(b, sorted[1..])
    ensures forall k | 0 <= k < |rest| :: sorted[0].loadedAt <= rest[k].loadedAt
  {
    InsertKeepsBatches(b, sorted[1..]);
    forall k | 0 <= k < |rest| ensures sorted[0].loadedAt <= rest[k].loadedAt {
      assert rest[k] in multiset([b] + sorted[1..]);
    }
  }

  /** Position k holds the earliest batch, and the first of those loaded at that time. */
  ghost predicate Leads(bs: seq<Batch>, k: nat)
    requires k < |bs|
  {
    && (forall j | 0 <= j < k :: bs[j].loadedAt > bs[k].loadedAt)
    && (forall j | k < j < |bs| :: bs[j].loadedAt >= bs[k].loadedAt)
  }

  lemma LeadsShift(bs: seq<Batch>, k: nat)
    requires bs != [] && k < |bs| - 1 && Leads(bs[1..], k)
    ensures bs[0].loadedAt > bs[k + 1].loadedAt ==> Leads(bs, k + 1)
    ensures bs[0].loadedAt <= bs[k + 1].loadedAt ==> Leads(bs, 0)
  {
  }

  /** The sort orders by load time and keeps exactly the given batches. */
  lemma {:induction false} SortSpec(bs: seq<Batch>)
    ensures Chronological(SortByLoad(bs))
    ensures multiset(SortByLoad(bs)) == multiset(bs)
  {
    if bs != [] {
      SortSpec(bs[1..]);
      InsertKeepsBatches(bs[0], SortByLoad(bs[1..]));
      InsertKeepsOrder(bs[0], SortByLoad(bs[1..]));
      assert bs == [bs[0]] + bs[1..];
    }
  }

  /** The head of the sorted array is the batch that leads the unsorted one. */
  lemma {:induction false} SortHead(bs: seq<Batch>)
    requires bs != []
    ensures SortByLoad(bs) != []
    ensures exists k :: 0 <= k < |bs| && bs[k] == SortByLoad(bs)[0] && Leads(bs, k)
  {
    var rest := SortByLoad(bs[1..]);
    SortSpec(bs[1..]);
    if bs[1..] == [] {
      assert rest == [] && Leads(bs, 0);
    } else {
      SortHead(bs[1..]);
      var k :| 0 <= k < |bs| - 1 && bs[1..][k] == rest[0] && Leads(bs[1..], k);
      LeadsShift(bs, k);
    }
  }

  /** The filter keeps the batches that serve, in order, starting with the pre-check's batch. */
  lemma {:induction false} ServingSpec(bs: seq<Batch>, item: ItemId, quantity: int)
    ensures forall b :: b in Serving(bs, item, quantity) <==> b in bs && Serves(b, item, quantity)
    ensures Priced(bs, item, quantity)
         == if Serving(bs, item, quantity) == [] then None else Some(Serving(bs, item, quantity)[0])
  {
    if bs != [] {
      ServingSpec(bs[1..], item, quantity);
      assert bs == [bs[0]] + bs[1..];
    }
  }

  /** The pre-check accepts exactly the orders the allocator can serve. */
  lemma PrecheckMatchesAllocator(bs: seq<Batch>, item: ItemId, quantity: int)
    ensures Priced(bs, item, quantity).Some? <==> Deduct(bs, item, quantity).Some?
    ensures Allocated(bs, item, quantity).Some? ==>
              Allocated(bs, item, quantity).value in bs && Serves(Allocated(bs, item, quantity).value, item, quantity)
  {
    var c := Serving(bs, item, quantity);
    ServingSpec(bs, item, quantity);
    SortSpec(c);
    assert |SortByLoad(c)| == |multiset(SortByLoad(c))| == |c|;
    if c != [] {
      assert SortByLoad(c)[0] in multiset(SortByLoad(c));
    }
  }

  /**
   * For any array: the batch the discount was computed from is the batch dispensed exactly when no
   * other batch that can serve the order was loaded before it.
   */
  lemma PricedIsDispensedIff(bs: seq<Batch>, item: ItemId, quantity: int)
    requires Priced(bs, item, quantity).Some?
    ensures Allocated(bs, item, quantity) == Priced(bs, item, quantity)
        <==> forall b | b in bs && Serves(b, item, quantity) :: Priced(bs, item, quantity).value.loadedAt <= b.loadedAt
  {
    var c := Serving(bs, item, quantity);
    ServingSpec(bs, item, quantity);
    SortHead(c);
    var k :| 0 <= k < |c| && c[k] == SortByLoad(c)[0] && Leads(c, k);
    if k == 0 {
      forall b | b in bs && Serves(b, item, quantity) ensures c[0].loadedAt <= b.loadedAt {
        assert b in c;
        var j :| 0 <= j < |c| && c[j] == b;
      }
    } else {
      assert c[k] in c && c[0].loadedAt > c[k].loadedAt;
    }
  }

  /** On a chronological array the pre-check and the allocator agree. */
  lemma ChronologicalPricedIsDispensed(bs: seq<Batch>, item: ItemId, quantity: int)
    requires Chronological(bs)
    ensures Allocated(bs, item, quantity) == Priced(bs, item, quantity)
  {
    PrecheckMatchesAllocator(bs, item, quantity);
    if Priced(bs, item, quantity).Some? {
      var i := FirstIndex(bs, IsServing(item, quantity));
      forall b | b in bs && Serves(b, item, quantity) ensures bs[i].loadedAt <= b.loadedAt {
        var j :| 0 <= j < |bs| && bs[j] == b;
        assert i <= j;
      }
      PricedIsDispensedIff(bs, item, quantity);
    }
  }

  /** The allocator takes the earliest loaded batch that serves, and the first of those loaded at that time. */
  lemma {:induction false} AllocatedIsEarliest(bs: seq<Batch>, item: ItemId, quantity: int) returns (k: nat)
    requires Allocated(bs, item, quantity).Some?
    ensures k < |bs| && bs[k] == Allocated(bs, item, quantity).value && Serves(bs[k], item, quantity)
    ensures forall j | 0 <= j < |bs| && Serves(bs[j], item, quantity) ::
              if j < k then bs[k].loadedAt < bs[j].loadedAt else bs[k].loadedAt <= bs[j].loadedAt
  {
    var tail := bs[1..];
    assert bs == [bs[0]] + tail;
    if Serves(bs[0], item, quantity) { assert ([bs[0]] + Serving(tail, item, quantity))[1..] == Serving(tail, item, quantity); }
    else { assert Serving(bs, item, quantity) == Serving(tail, item, quantity); }
    if Allocated(tail, item, quantity).None? {
      PrecheckMatchesAllocator(tail, item, quantity);
      assert forall j | 1 <= j < |bs| :: bs[j] == tail[j - 1];
      k := 0;
    } else {
      var i := AllocatedIsEarliest(tail, item, quantity);
      k := if Serves(bs[0], item, quantity) && bs[0].loadedAt <= tail[i].loadedAt then 0 else i + 1;
      assert forall j | 1 <= j < |bs| :: bs[j] == tail[j - 1];
    }
  }

  // ─── The state of a shelf ──────────────────────────────────────────────────

  predicate GoodBatch(b: Batch) {
    b.quantity >= 0 && (b.status == Active ==> b.quantity > 0)
  }

  ghost predicate UniqueIds(bs: seq<Batch>) {
    forall i, j | 0 <= i < j < |bs| :: bs[i].id != bs[j].id
  }

  /** No units lie on a depleted batch, where no order finds them. */
  ghost predicate NoneStranded(bs: seq<Batch>) {
    forall i | 0 <= i < |bs| && bs[i].status == Depleted :: bs[i].quantity == 0
  }

  /** Quantities are natural, active batches have units, ids are unique, and the array is in load order. */
  ghost predicate GoodShelf(bs: seq<Batch>) {
    && (forall i | 0 <= i < |bs| :: GoodBatch(bs[i]))
    && UniqueIds(bs)
    && Chronological(bs)
  }

  /** A batch that can only lose its units or its turn: the same batch, and frozen once expired. */
  predicate Continues(b: Batch, b': Batch) {
    && b'.id == b.id && b'.item == b.item && b'.loadedAt == b.loadedAt && b'.nozzle == b.nozzle && b'.total == b.total
    && (b.status == Expired ==> b' == b)
  }

  /** Same positions, each batch a continuation of the one before. */
  ghost predicate Evolves(bs: seq<Batch>, bs': seq<Batch>) {
    |bs'| == |bs| && forall i | 0 <= i < |bs| :: Continues(bs[i], bs'[i])
  }

  /** The position of the batch the allocator chooses. */
  function Chosen(bs: seq<Batch>, item: ItemId, quantity: int): nat
    requires Allocated(bs, item, quantity).Some?
  {
    FirstIndex(bs, HasId(Allocated(bs, item, quantity).value.id))
  }

  /** Under unique ids a deduction takes the units off the one batch the allocator chose. */
  lemma DeductSpec(bs: seq<Batch>, item: ItemId, quantity: int)
    requires UniqueIds(bs) && Deduct(bs, item, quantity).Some?
    ensures
      var i := Chosen(bs, item, quantity);
      && i < |bs| && bs[i] == Allocated(bs, item, quantity).value && Serves(bs[i], item, quantity)
      && Deduct(bs, item, quantity).value == (bs[i := TakeFrom(bs[i], quantity)], bs[i].nozzle)
  {
    PrecheckMatchesAllocator(bs, item, quantity);
    var i :| 0 <= i < |bs| && bs[i] == Allocated(bs, item, quantity).value;
    assert Chosen(bs, item, quantity) == i;
  }

  lemma UpdateKeepsShelf(bs: seq<Batch>, i: nat, b: Batch)
    requires GoodShelf(bs) && i < |bs| && Continues(bs[i], b) && GoodBatch(b)
    ensures GoodShelf(bs[i := b]) && Evolves(bs, bs[i := b])
  {
  }

  lemma DeductKeepsShelf(bs: seq<Batch>, item: ItemId, quantity: nat)
    requires GoodShelf(bs) && quantity > 0 && Deduct(bs, item, quantity).Some?
    ensures GoodShelf(Deduct(bs, item, quantity).value.0) && Evolves(bs, Deduct(bs, item, quantity).value.0)
  {
    DeductSpec(bs, item, quantity);
    var i := Chosen(bs, item, quantity);
    UpdateKeepsShelf(bs, i, TakeFrom(bs[i], quantity));
  }

  lemma NothingRefilled(bs: seq<Batch>, item: ItemId)
    requires NoneStranded(bs)
    ensures Reactivate(bs, item) == bs
  {
  }

  function Revived(b: Batch, quantity: int): Batch {
    b.(quantity := b.quantity + quantity, status := Active)
  }

  lemma RestoreAt(bs: seq<Batch>, i: nat, item: ItemId, quantity: nat)
    requires quantity > 0 && NoneStranded(bs)
    requires i < |bs| && Restorable(bs[i], item)
    ensures Reactivate(bs[i := AddUnits(quantity)(bs[i])], item) == bs[i := Revived(bs[i], quantity)]
  {
  }

  /** Where no units are stranded, a restore puts the units on one batch and leaves it active. */
  lemma RestoreSpec(bs: seq<Batch>, item: ItemId, quantity: nat)
    requires quantity > 0 && NoneStranded(bs)
    ensures
      var i := FirstIndex(bs, IsRestorable(item));
      Restore(bs, item, quantity) == if i < |bs| then bs[i := Revived(bs[i], quantity)] else bs
  {
    var i := FirstIndex(bs, IsRestorable(item));
    if i < |bs| {
      assert IsRestorable(item)(bs[i]);
      RestoreAt(bs, i, item, quantity);
    } else {
      NothingRefilled(bs, item);
    }
  }

  /** A restore that stops half-way strands its units exactly when the batch it put them on is depleted. */
  lemma HalfRestoreStrandsIff(bs: seq<Batch>, item: ItemId, quantity: nat)
    requires quantity > 0 && NoneStranded(bs)
    ensures
      var i := FirstIndex(bs, IsRestorable(item));
      NoneStranded(PutBack(bs, item, quantity)) <==> (i < |bs| ==> bs[i].status == Active)
  {
    var i, after := FirstIndex(bs, IsRestorable(item)), PutBack(bs, item, quantity);
    if i < |bs| {
      assert IsRestorable(item)(bs[i]);
      assert after[i] == AddUnits(quantity)(bs[i]);
    }
  }

  /** Stranded units serve no order: every order finds the batch it would have found without them. */
  lemma StrandedUnitsServeNoOrder(bs: seq<Batch>, item: ItemId, quantity: nat, wanted: ItemId, amount: int)
    requires
      var i := FirstIndex(bs, IsRestorable(item));
      i < |bs| && bs[i].status == Depleted
    ensures Priced(PutBack(bs, item, quantity), wanted, amount) == Priced(bs, wanted, amount)
  {
    var i, serving := FirstIndex(bs, IsRestorable(item)), IsServing(wanted, amount);
    var after := bs[i := AddUnits(quantity)(bs[i])];
    assert PutBack(bs, item, quantity) == after;
    SameFirst(bs, after, serving);
    assert !serving(bs[i]);
  }

  lemma PutBackKeepsShelf(bs: seq<Batch>, item: ItemId, quantity: nat)
    requires GoodShelf(bs)
    ensures GoodShelf(PutBack(bs, item, quantity)) && Evolves(bs, PutBack(bs, item, quantity))
  {
    var i := FirstIndex(bs, IsRestorable(item));
    if i < |bs| {
      assert IsRestorable(item)(bs[i]) && GoodBatch(bs[i]);
      UpdateKeepsShelf(bs, i, AddUnits(quantity)(bs[i]));
    }
  }

  lemma ReactivateKeepsShelf(bs: seq<Batch>, item: ItemId)
    requires GoodShelf(bs)
    ensures GoodShelf(Reactivate(bs, item)) && Evolves(bs, Reactivate(bs, item))
  {
    var i := FirstIndex(bs, IsRefilled(item));
    if i < |bs| {
      assert IsRefilled(item)(bs[i]);
      UpdateKeepsShelf(bs, i, Activate(bs[i]));
    }
  }

  lemma EvolvesThrough(a: seq<Batch>, b: seq<Batch>, c: seq<Batch>)
    requires Evolves(a, b) && Evolves(b, c)
    ensures Evolves(a, c)
  {
  }

  /** Wherever a restore stops, the shelf stays good. */
  lemma RestoreKeepsShelf(bs: seq<Batch>, item: ItemId, quantity: nat, fault: RestoreFault)
    requires GoodShelf(bs)
    ensures GoodShelf(RestoreUpTo(bs, item, quantity, fault)) && Evolves(bs, RestoreUpTo(bs, item, quantity, fault))
  {
    PutBackKeepsShelf(bs, item, quantity);
    ReactivateKeepsShelf(PutBack(bs, item, quantity), item);
    EvolvesThrough(bs, PutBack(bs, item, quantity), Restore(bs, item, quantity));
  }

  lemma UpdateFirstKeepsIds(bs: seq<Batch>, p: Batch -> bool, f: Batch -> Batch)
    requires UniqueIds(bs) && forall b :: f(b).id == b.id
    ensures UniqueIds(UpdateFirst(bs, p, f))
  {
  }

  lemma RestoreKeepsIds(bs: seq<Batch>, item: ItemId, quantity: int, fault: RestoreFault)
    requires UniqueIds(bs)
    ensures UniqueIds(RestoreUpTo(bs, item, quantity, fault))
  {
    UpdateFirstKeepsIds(bs, IsRestorable(item), AddUnits(quantity));
    UpdateFirstKeepsIds(PutBack(bs, item, quantity), IsRefilled(item), Activate);
  }

  /** A complete restore strands nothing. */
  lemma RestoreStrandsNone(bs: seq<Batch>, item: ItemId, quantity: nat)
    requires NoneStranded(bs)
    ensures NoneStranded(Restore(bs, item, quantity))
  {
    if quantity == 0 {
      var i := FirstIndex(bs, IsRestorable(item));
      assert i < |bs| ==> bs[i := AddUnits(0)(bs[i])] == bs;
      NothingRefilled(bs, item);
    } else {
      RestoreSpec(bs, item, quantity);
    }
  }

  /** A removal drops exactly the batches with the given number. */
  lemma {:induction false} RemoveSpec(bs: seq<Batch>, id: nat)
    ensures forall b :: b in Remove(bs, id) <==> b in bs && b.id != id
  {
    if bs != [] {
      RemoveSpec(bs[1..], id);
      assert bs == [bs[0]] + bs[1..];
    }
  }

  /** What remains after a removal was there before it. */
  lemma RemainingIndex(bs: seq<Batch>, id: nat, k: nat) returns (j: nat)
    requires k < |Remove(bs, id)|
    ensures j < |bs| && bs[j] == Remove(bs, id)[k]
  {
    RemoveSpec(bs, id);
    assert Remove(bs, id)[k] in bs;
    j :| 0 <= j < |bs| && bs[j] == Remove(bs, id)[k];
  }

  lemma {:induction false} RemoveKeepsShelf(bs: seq<Batch>, id: nat)
    requires GoodShelf(bs)
    ensures GoodShelf(Remove(bs, id))
  {
    if bs != [] {
      var tail, rest := bs[1..], Remove(bs[1..], id);
      RemoveKeepsShelf(tail, id);
      forall k | 0 <= k < |rest| ensures rest[k].id != bs[0].id && bs[0].loadedAt <= rest[k].loadedAt {
        var j := RemainingIndex(tail, id, k);
        assert bs[j + 1] == rest[k];
      }
      if bs[0].id != id { PrependKeepsShelf(bs[0], rest); }
    }
  }

  lemma PrependKeepsShelf(b: Batch, rest: seq<Batch>)
    requires GoodShelf(rest) && GoodBatch(b)
    requires forall k | 0 <= k < |rest| :: rest[k].id != b.id && b.loadedAt <= rest[k].loadedAt
    ensures GoodShelf([b] + rest)
  {
  }

  // ─── Unit totals ───────────────────────────────────────────────────────────

  /** Units of an item on the shelf, whatever the status of their batch. */
  function Units(bs: seq<Batch>, item: ItemId): int {
    if bs == [] then 0
    else Units(bs[..|bs| - 1], item) + if bs[|bs| - 1].item == item then bs[|bs| - 1].quantity else 0
  }

  lemma UnitsAppend(bs: seq<Batch>, b: Batch, item: ItemId)
    ensures Units(bs + [b], item) == Units(bs, item) + if b.item == item then b.quantity else 0
  {
  }

  lemma {:induction false} UnitsUpdate(bs: seq<Batch>, i: nat, b: Batch, item: ItemId)
    requires i < |bs| && b.item == bs[i].item
    ensures Units(bs[i := b], item) == Units(bs, item) + if b.item == item then b.quantity - bs[i].quantity else 0
  {
    var n := |bs| - 1;
    if i == n {
      assert bs[i := b][..n] == bs[..n];
    } else {
      assert bs[i := b][..n] == bs[..n][i := b];
      UnitsUpdate(bs[..n], i, b, item);
    }
  }

  /** A deduction takes exactly the ordered units off the item and nothing off any other. */
  lemma DeductUnits(bs: seq<Batch>, item: ItemId, quantity: int, other: ItemId)
    requires UniqueIds(bs) && Deduct(bs, item, quantity).Some?
    ensures Units(Deduct(bs, item, quantity).value.0, other) == Units(bs, other) - if other == item then quantity else 0
  {
    DeductSpec(bs, item, quantity);
    var i := Chosen(bs, item, quantity);
    UnitsUpdate(bs, i, TakeFrom(bs[i], quantity), other);
  }

  ghost predicate CanRestore(bs: seq<Batch>, item: ItemId) {
    exists i :: 0 <= i < |bs| && bs[i].item == item && (bs[i].status == Active || bs[i].status == Depleted)
  }

  lemma UpdateFirstUnits(bs: seq<Batch>, p: Batch -> bool, f: Batch -> Batch, item: ItemId)
    requires forall b :: f(b).item == b.item
    ensures
      var i := FirstIndex(bs, p);
      Units(UpdateFirst(bs, p, f), item)
      == Units(bs, item) + if i < |bs| && bs[i].item == item then f(bs[i]).quantity - bs[i].quantity else 0
  {
    var i := FirstIndex(bs, p);
    if i < |bs| { UnitsUpdate(bs, i, f(bs[i]), item); }
  }

  /** A restore puts the units back exactly when its first update works and an active or depleted batch of the item remains. */
  lemma RestoreUnits(bs: seq<Batch>, item: ItemId, quantity: int, fault: RestoreFault, other: ItemId)
    ensures Units(RestoreUpTo(bs, item, quantity, fault), other)
         == Units(bs, other) + if other == item && CanRestore(bs, item) && fault != BeforeRestore then quantity else 0
  {
    UpdateFirstUnits(bs, IsRestorable(item), AddUnits(quantity), other);
    UpdateFirstUnits(PutBack(bs, item, quantity), IsRefilled(item),
                     Activate, other);
  }

  /** After a deduction there is a batch to restore to. */
  lemma DeductedCanRestore(bs: seq<Batch>, item: ItemId, quantity: int)
    requires UniqueIds(bs) && Deduct(bs, item, quantity).Some?
    ensures CanRestore(Deduct(bs, item, quantity).value.0, item)
  {
    DeductSpec(bs, item, quantity);
    var i := Chosen(bs, item, quantity);
    assert bs[i].item == item && bs[i].status == Active;
    assert Restorable(Deduct(bs, item, quantity).value.0[i], item);
  }

  lemma {:induction false} ExpireUnits(bs: seq<Batch>, now: int, item: ItemId)
    ensures Units(Expire(bs, now), item) == Units(bs, item)
  {
    if bs != [] {
      var n := |bs| - 1;
      assert Expire(bs, now)[..n] == Expire(bs[..n], now);
      ExpireUnits(bs[..n], now, item);
    }
  }

  /** The units a removal takes away. */
  function UnitsOf(bs: seq<Batch>, id: nat, item: ItemId): int {
    if bs == [] then 0
    else (if bs[0].id == id && bs[0].item == item then bs[0].quantity else 0) + UnitsOf(bs[1..], id, item)
  }

  lemma {:induction false} UnitsPrepend(b: Batch, bs: seq<Batch>, item: ItemId)
    ensures Units([b] + bs, item) == Units(bs, item) + if b.item == item then b.quantity else 0
  {
    if bs == [] {
      assert ([b] + bs)[..0] == [];
    } else {
      var n := |bs| - 1;
      assert ([b] + bs)[..n + 1] == [b] + bs[..n];
      UnitsPrepend(b, bs[..n], item);
    }
  }

  lemma {:induction false} RemoveUnits(bs: seq<Batch>, id: nat, item: ItemId)
    ensures Units(Remove(bs, id), item) == Units(bs, item) - UnitsOf(bs, id, item)
  {
    if bs != [] {
      RemoveUnits(bs[1..], id, item);
      UnitsPrepend(bs[0], bs[1..], item);
      assert bs == [bs[0]] + bs[1..];
      UnitsPrepend(bs[0], Remove(bs[1..], id), item);
      assert [] + Remove(bs[1..], id) == Remove(bs[1..], id);
    }
  }

  // ─── Runs of stock operations ──────────────────────────────────────────────

  datatype StockEvent =
    | Loading(id: nat, item: ItemId, nozzle: int, quantity: nat, expiry: int, now: int)
    | Deducting(item: ItemId, quantity: nat)
    | Restoring(item: ItemId, quantity: nat, fault: RestoreFault)
    | Removing(id: nat)
    | Expiring(now: int)

  function Stock(bs: seq<Batch>, e: StockEvent): seq<Batch> {
    match e
    case Loading(id, item, nozzle, quantity, expiry, now) => Load(bs, id, item, nozzle, quantity, expiry, now)
    case Deducting(item, quantity) => if Deduct(bs, item, quantity).Some? then Deduct(bs, item, quantity).value.0 else bs
    case Restoring(item, quantity, fault) => RestoreUpTo(bs, item, quantity, fault)
    case Removing(id) => Remove(bs, id)
    case Expiring(now) => Expire(bs, now)
  }

  function StockRun(bs: seq<Batch>, events: seq<StockEvent>): seq<Batch>
    decreases |events|
  {
    if events == [] then bs else StockRun(Stock(bs, events[0]), events[1..])
  }

  /** Batch numbers are fresh, load times do not run backwards, and quantities are at least one. */
  ghost predicate Regular(bs: seq<Batch>, e: StockEvent) {
    match e
    case Loading(id, _, _, quantity, _, now) =>
      quantity > 0 && forall i | 0 <= i < |bs| :: bs[i].id != id && bs[i].loadedAt <= now
    case Deducting(_, quantity) => quantity > 0
    case _ => true
  }

  ghost predicate RegularRun(bs: seq<Batch>, events: seq<StockEvent>)
    decreases |events|
  {
    events != [] ==> Regular(bs, events[0]) && RegularRun(Stock(bs, events[0]), events[1..])
  }

  /** Each batch of the second shelf that was expired on the first is unchanged; none is expired and active again. */
  ghost predicate FrozenOnceExpired(bs: seq<Batch>, bs': seq<Batch>) {
    forall b, b' | b in bs && b' in bs' && b.id == b'.id && b.status == Expired :: b' == b
  }

  /** A later batch with a number already in use on the earlier shelf continues that batch. */
  ghost predicate SameBatches(bs: seq<Batch>, bs': seq<Batch>) {
    forall b, b' | b in bs && b' in bs' && b.id == b'.id :: Continues(b, b')
  }

  lemma EvolvesSameBatches(bs: seq<Batch>, bs': seq<Batch>)
    requires UniqueIds(bs) && Evolves(bs, bs')
    ensures SameBatches(bs, bs')
  {
  }

  lemma LoadKeepsShelf(bs: seq<Batch>, b: Batch)
    requires GoodShelf(bs) && GoodBatch(b) && forall i | 0 <= i < |bs| :: bs[i].id != b.id && bs[i].loadedAt <= b.loadedAt
    ensures GoodShelf(bs + [b]) && SameBatches(bs, bs + [b])
  {
  }

  lemma ExpireKeepsShelf(bs: seq<Batch>, now: int)
    requires GoodShelf(bs)
    ensures GoodShelf(Expire(bs, now)) && Evolves(bs, Expire(bs, now))
  {
  }

  lemma RemoveKeepsBatches(bs: seq<Batch>, id: nat)
    requires UniqueIds(bs)
    ensures SameBatches(bs, Remove(bs, id))
  {
    RemoveSpec(bs, id);
  }

  lemma StockStep(bs: seq<Batch>, e: StockEvent)
    requires GoodShelf(bs) && Regular(bs, e)
    ensures GoodShelf(Stock(bs, e)) && SameBatches(bs, Stock(bs, e))
  {
    match e
    case Loading(id, item, nozzle, quantity, expiry, now) =>
      LoadKeepsShelf(bs, Batch(id, item, nozzle, quantity, quantity, expiry, now, Active));
    case Deducting(item, quantity) =>
      if Deduct(bs, item, quantity).Some? {
        DeductKeepsShelf(bs, item, quantity);
        EvolvesSameBatches(bs, Stock(bs, e));
      }
    case Restoring(item, quantity, fault) =>
      RestoreKeepsShelf(bs, item, quantity, fault);
      EvolvesSameBatches(bs, Stock(bs, e));
    case Removing(id) =>
      RemoveKeepsBatches(bs, id);
      RemoveKeepsShelf(bs, id);
    case Expiring(now) =>
      ExpireKeepsShelf(bs, now);
      EvolvesSameBatches(bs, Stock(bs, e));
  }

  lemma StockStrandsNone(bs: seq<Batch>, e: StockEvent)
    requires GoodShelf(bs) && NoneStranded(bs) && (e.Restoring? ==> e.fault != AfterPutBack)
    ensures NoneStranded(Stock(bs, e))
  {
    match e
    case Deducting(item, quantity) => if Deduct(bs, item, quantity).Some? { DeductSpec(bs, item, quantity); }
    case Restoring(item, quantity, _) => RestoreStrandsNone(bs, item, quantity);
    case Removing(id) => forall k | 0 <= k < |Remove(bs, id)| ensures Remove(bs, id)[k] in bs { var j := RemainingIndex(bs, id, k); }
    case _ =>
  }

  /** An expiry in a run expires the active batches whose expiry is before now, and changes nothing else. */
  lemma ExpiringExpires(bs: seq<Batch>, now: int, i: nat)
    requires i < |bs|
    ensures |Stock(bs, Expiring(now))| == |bs|
    ensures Stock(bs, Expiring(now))[i] == if bs[i].status == Active && bs[i].expiry < now then bs[i].(status := Expired) else bs[i]
  {
  }

  /** Over every run in which no restore stops half-way, no units are stranded. */
  lemma {:induction false} CompleteRestoresStrandNone(bs: seq<Batch>, events: seq<StockEvent>)
    requires GoodShelf(bs) && NoneStranded(bs) && RegularRun(bs, events)
    requires forall k | 0 <= k < |events| && events[k].Restoring? :: events[k].fault != AfterPutBack
    ensures NoneStranded(StockRun(bs, events))
    decreases |events|
  {
    if events != [] {
      StockStep(bs, events[0]);
      StockStrandsNone(bs, events[0]);
      CompleteRestoresStrandNone(Stock(bs, events[0]), events[1..]);
    }
  }

  /** Numbers that have left the shelf do not come back. */
  ghost predicate NeverReused(retired: set<nat>, bs: seq<Batch>, events: seq<StockEvent>)
    decreases |events|
  {
    events != [] ==>
      && (events[0].Loading? ==> events[0].id !in retired)
      && NeverReused(retired, Stock(bs, events[0]), events[1..])
  }

  function Ids(bs: seq<Batch>): set<nat> { set b | b in bs :: b.id }

  /** Over every run the shelf stays good, the priced batch is the dispensed one, and expired batches are frozen. */
  lemma {:induction false} EveryStockRun(start: seq<Batch>, bs: seq<Batch>, events: seq<StockEvent>)
    requires GoodShelf(start) && GoodShelf(bs) && RegularRun(bs, events)
    requires NeverReused(Ids(start), bs, events)
    requires FrozenOnceExpired(start, bs)
    ensures GoodShelf(StockRun(bs, events))
    ensures FrozenOnceExpired(start, StockRun(bs, events))
    ensures forall item, quantity :: Allocated(StockRun(bs, events), item, quantity) == Priced(StockRun(bs, events), item, quantity)
    decreases |events|
  {
    if events == [] {
      forall item, quantity ensures Allocated(bs, item, quantity) == Priced(bs, item, quantity) {
        ChronologicalPricedIsDispensed(bs, item, quantity);
      }
    } else {
      StockStep(bs, events[0]);
      StaysFrozen(start, bs, events[0]);
      EveryStockRun(start, Stock(bs, events[0]), events[1..]);
    }
  }

  /** A batch found through its number on three shelves, expired on the first. */
  lemma FrozenThrough(start: seq<Batch>, bs: seq<Batch>, bs': seq<Batch>, b: Batch, b0: Batch, b': Batch)
    requires FrozenOnceExpired(start, bs) && SameBatches(bs, bs')
    requires b in start && b0 in bs && b' in bs' && b.id == b0.id == b'.id && b.status == Expired
    ensures b' == b
  {
    assert b0 == b;
  }

  lemma OldNumber(start: seq<Batch>, bs: seq<Batch>, e: StockEvent, b: Batch, b': Batch) returns (b0: Batch)
    requires UniqueIds(bs) && (e.Loading? ==> e.id !in Ids(start))
    requires b in start && b' in Stock(bs, e) && b.id == b'.id
    ensures b0 in bs && b0.id == b.id
  {
    assert b.id in Ids(start);
    StockOrigin(bs, e, b');
    b0 :| b0 in bs && b0.id == b'.id;
  }

  /** A batch that was expired at the start and is still unchanged stays unchanged through an event. */
  lemma StaysFrozen(start: seq<Batch>, bs: seq<Batch>, e: StockEvent)
    requires GoodShelf(bs) && Regular(bs, e) && FrozenOnceExpired(start, bs)
    requires e.Loading? ==> e.id !in Ids(start)
    ensures FrozenOnceExpired(start, Stock(bs, e))
  {
    var bs' := Stock(bs, e);
    StockStep(bs, e);
    forall b, b' | b in start && b' in bs' && b.id == b'.id && b.status == Expired ensures b' == b {
      var b0 := OldNumber(start, bs, e, b, b');
      FrozenThrough(start, bs, bs', b, b0, b');
    }
  }

  /** Apart from the batch an event loads, every batch on the shelf was there before. */
  lemma StockOrigin(bs: seq<Batch>, e: StockEvent, b': Batch)
    requires UniqueIds(bs) && b' in Stock(bs, e)
    ensures (e.Loading? && b'.id == e.id) || exists b :: b in bs && b.id == b'.id
  {
    var j :| 0 <= j < |Stock(bs, e)| && Stock(bs, e)[j] == b';
    match e
    case Loading(id, _, _, _, _, _) =>
      if j < |bs| { assert bs[j] in bs; }
    case Deducting(item, quantity) =>
      if Deduct(bs, item, quantity).Some? { DeductSpec(bs, item, quantity); }
      assert bs[j] in bs && bs[j].id == b'.id;
    case Restoring(item, quantity, _) =>
      var mid := PutBack(bs, item, quantity);
      assert bs[j] in bs && mid[j].id == bs[j].id && bs[j].id == b'.id;
    case Removing(id) => RemoveSpec(bs, id);
    case Expiring(now) => assert bs[j] in bs && bs[j].id == b'.id;
  }
}
