/** Coffee stock: grams on each nozzle and the cup count derived from them. */
module Cups {
  import opened Common
  import opened Arithmetic

  const DEFAULT_GRAMS := 18

  datatype Entry = Entry(item: ItemId, stock: int, cups: int, minStock: int, nozzle: int, gramsPerCup: int)

  /** Grams per cup as the stock-moving code reads them. */
  function Grams(e: Entry): int { if e.gramsPerCup > 0 then e.gramsPerCup else DEFAULT_GRAMS }

  function CupsIn(stock: int, grams: int): int
    requires grams > 0
  {
    Max(0, stock) / grams
  }

  /** The stored cup count is the number of whole cups in the grams left. */
  predicate Agrees(e: Entry) { e.cups == CupsIn(e.stock, Grams(e)) }

  function FindItem(inv: seq<Entry>, item: ItemId): nat { FirstIndex(inv, (e: Entry) => e.item == item) }

  function FindNozzle(inv: seq<Entry>, nozzle: int): nat { FirstIndex(inv, (e: Entry) => e.nozzle == nozzle) }

  // ─── Setting the stock of one item ─────────────────────────────────────────

  datatype StockUpdate = StockUpdate(
    item: ItemId, stock: int, minStock: Option<int>, nozzle: Option<int>, gramsPerCup: Option<int>)

  /** Grams per cup as an inventory update stores them: the given value, else the stored one, else 18. */
  function StoredGrams(inv: seq<Entry>, u: StockUpdate): int {
    var i := FindItem(inv, u.item);
    u.gramsPerCup.GetOr(if i < |inv| then inv[i].gramsPerCup else DEFAULT_GRAMS)
  }

  function UpdateInventory(inv: seq<Entry>, u: StockUpdate): seq<Entry> {
    var i := FindItem(inv, u.item);
    var grams := StoredGrams(inv, u);
    var cups := FloorDiv(u.stock, if grams == 0 then DEFAULT_GRAMS else grams);
    if i < |inv| then
      inv[i := inv[i].(stock := u.stock, cups := cups, minStock := u.minStock.GetOr(inv[i].minStock), gramsPerCup := grams)]
    else
      inv + [Entry(u.item, u.stock, cups, u.minStock.GetOr(5), u.nozzle.GetOr(1), grams)]
  }

  /**
   * An update leaves the item's cup count right exactly when its grams and grams per cup are not
   * negative; negative grams per cup get it right only for a stock below one cup.
   */
  lemma UpdateAgreesIff(inv: seq<Entry>, u: StockUpdate)
    ensures
      var inv', g := UpdateInventory(inv, u), StoredGrams(inv, u);
      var i := FindItem(inv, u.item);
      && i < |inv'| && inv'[i].item == u.item && inv'[i].stock == u.stock
      && (forall j | 0 <= j < |inv| && j != i :: inv'[j] == inv[j])
      && (Agrees(inv'[i]) <==> (g >= 0 && u.stock >= 0) || (g < 0 && (u.stock == 0 || g < u.stock < 0)))
  {
    FloorAgreesIff(u.stock, StoredGrams(inv, u));
  }

  /**
   * An update writes the first entry of the item, or a new one at the end: stock as sent, and of minimum,
   * nozzle and grams per cup what was sent, else what was stored, else 5, 1 and 18. A stored nozzle stays.
   */
  lemma InventoryAfterUpdate(inv: seq<Entry>, u: StockUpdate, i: nat)
    requires i <= |inv| && forall j | 0 <= j < i :: inv[j].item != u.item
    requires i < |inv| ==> inv[i].item == u.item
    ensures
      var inv' := UpdateInventory(inv, u);
      && |inv'| == Max(|inv|, i + 1) && (forall j | 0 <= j < |inv| && j != i :: inv'[j] == inv[j])
      && inv'[i].item == u.item && inv'[i].stock == u.stock
      && inv'[i].minStock == u.minStock.GetOr(if i < |inv| then inv[i].minStock else 5)
      && inv'[i].nozzle == (if i < |inv| then inv[i].nozzle else u.nozzle.GetOr(1))
      && inv'[i].gramsPerCup == u.gramsPerCup.GetOr(if i < |inv| then inv[i].gramsPerCup else 18)
  {
    assert FindItem(inv, u.item) == i;
  }

  /** Dividing by the stored grams per cup gives the whole cups in the stock. */
  lemma FloorAgreesIff(stock: int, g: int)
    ensures FloorDiv(stock, if g == 0 then DEFAULT_GRAMS else g) == CupsIn(stock, if g > 0 then g else DEFAULT_GRAMS)
        <==> (g >= 0 && stock >= 0) || (g < 0 && (stock == 0 || g < stock < 0))
  {
    if g >= 0 {
      SignOfQuotient(stock, if g > 0 then g else DEFAULT_GRAMS);
      DivUnique(0, if g > 0 then g else DEFAULT_GRAMS, 0);
    } else {
      NegativeGrams(stock, g);
    }
  }

  lemma NegativeGrams(stock: int, g: int)
    requires g < 0
    ensures (-stock) / (-g) == CupsIn(stock, DEFAULT_GRAMS) <==> stock == 0 || g < stock < 0
  {
    SignOfQuotient(-stock, -g);
    if stock >= 0 {
      SignOfQuotient(stock, DEFAULT_GRAMS);
      if stock == 0 { DivUnique(0, -g, 0); }
    } else if g < stock {
      DivUnique(-stock, -g, 0);
    } else {
      DivMonotone(-g, -stock, -g);
      DivUnique(-g, -g, 1);
    }
  }

  lemma SignOfQuotient(n: int, d: int)
    requires d > 0
    ensures n >= 0 ==> n / d >= 0
    ensures n < 0 ==> n / d < 0
  {
    DivBounds(n, d);
    if n < 0 && n / d >= 0 { MulMonotone(d, 0, n / d); }
    if n >= 0 && n / d < 0 { MulMonotone(d, n / d + 1, 0); }
  }

  // ─── An agent loading and unloading cups ───────────────────────────────────

  /** Adds the grams of `q` cups, or takes them away down to zero; None if the item is not on the machine. */
  function MoveCups(inv: seq<Entry>, item: ItemId, load: bool, q: nat): Option<seq<Entry>> {
    var i := FindItem(inv, item);
    if i == |inv| then None
    else
      var g := Grams(inv[i]);
      var stock := if load then inv[i].stock + q * g else Max(0, inv[i].stock - q * g);
      Some(UpdateInventory(inv, StockUpdate(item, stock, None, None, Some(g))))
  }

  /** One entry after a move: its new stock and the whole cups in it. */
  function Moved(e: Entry, load: bool, q: nat): Entry {
    var g := Grams(e);
    var stock := if load then e.stock + q * g else Max(0, e.stock - q * g);
    e.(stock := stock, cups := stock / g, gramsPerCup := g)
  }

  lemma MoveSpec(inv: seq<Entry>, item: ItemId, load: bool, q: nat)
    requires FindItem(inv, item) < |inv|
    ensures
      var i := FindItem(inv, item);
      MoveCups(inv, item, load, q) == Some(inv[i := Moved(inv[i], load, q)])
  {
  }

  lemma MovedBack(e: Entry, q: nat)
    ensures
      var back := Moved(Moved(e, true, q), false, q);
      back.stock == Max(0, e.stock) && back.cups == CupsIn(e.stock, Grams(e))
  {
    assert Moved(e, true, q).stock - q * Grams(e) == e.stock;
  }

  /** Whole cups in a stock that may be in debt. */
  lemma CupsInSpec(stock: int, grams: int)
    requires grams > 0
    ensures CupsIn(stock, grams) == Max(0, stock / grams)
  {
    SignOfQuotient(stock, grams);
    DivUnique(0, grams, 0);
  }

  lemma QuotientLess(stock: int, grams: int, q: nat)
    requires grams > 0
    ensures (stock - q * grams) / grams == stock / grams - q
  {
    DivShift(stock, grams, 0 - q);
    assert (0 - q) * grams == 0 - q * grams;
  }

  /** Taking whole cups out of the grams takes them off the count, down to zero. */
  lemma CupsLess(stock: int, grams: int, q: nat)
    requires grams > 0
    ensures CupsIn(stock - q * grams, grams) == Max(0, CupsIn(stock, grams) - q)
  {
    CupsInSpec(stock, grams);
    CupsInSpec(stock - q * grams, grams);
    QuotientLess(stock, grams, q);
  }

  /** Loading q cups raises the count by exactly q precisely when the machine is not in debt of grams. */
  lemma LoadRaisesCupsIff(inv: seq<Entry>, item: ItemId, q: nat)
    requires MoveCups(inv, item, true, q).Some? && Agrees(inv[FindItem(inv, item)])
    ensures
      var i := FindItem(inv, item);
      var inv' := MoveCups(inv, item, true, q).value;
      && |inv'| == |inv| && inv'[i].stock == inv[i].stock + q * Grams(inv[i])
      && (inv'[i].cups == inv[i].cups + q <==> inv[i].stock >= 0)
  {
    var i := FindItem(inv, item);
    var g := Grams(inv[i]);
    DivShift(inv[i].stock, g, q);
    SignOfQuotient(inv[i].stock, g);
  }

  /** Unloading q cups leaves max(0, cups - q), whatever the grams. */
  lemma UnloadLowersCups(inv: seq<Entry>, item: ItemId, q: nat)
    requires MoveCups(inv, item, false, q).Some? && Agrees(inv[FindItem(inv, item)])
    ensures
      var i := FindItem(inv, item);
      var inv' := MoveCups(inv, item, false, q).value;
      |inv'| == |inv| && inv'[i].cups == Max(0, inv[i].cups - q) && inv'[i].stock >= 0 && Agrees(inv'[i])
  {
    var i := FindItem(inv, item);
    CupsLess(inv[i].stock, Grams(inv[i]), q);
  }

  lemma TwoMoves(inv: seq<Entry>, item: ItemId, q: nat)
    requires FindItem(inv, item) < |inv|
    ensures
      var i := FindItem(inv, item);
      var loaded := MoveCups(inv, item, true, q);
      loaded.Some? && MoveCups(loaded.value, item, false, q) == Some(inv[i := Moved(Moved(inv[i], true, q), false, q)])
  {
    var once := Moved(inv[FindItem(inv, item)], true, q);
    MoveSpec(inv, item, true, q);
    Rewritten(inv, item, once, Moved(once, false, q));
    MoveSpec(inv[FindItem(inv, item) := once], item, false, q);
  }

  /** Rewriting an item's entry keeps its place, and a second rewrite replaces the first. */
  lemma Rewritten(inv: seq<Entry>, item: ItemId, once: Entry, twice: Entry)
    requires FindItem(inv, item) < |inv| && once.item == item
    ensures
      var i := FindItem(inv, item);
      FindItem(inv[i := once], item) == i && inv[i := once][i := twice] == inv[i := twice]
  {
    var i := FindItem(inv, item);
    assert inv[i := once][i].item == item;
  }

  /** Loading and unloading the same cups restores grams and count precisely when the grams were not negative. */
  lemma LoadThenUnloadIsIdentityIff(inv: seq<Entry>, item: ItemId, q: nat)
    requires FindItem(inv, item) < |inv| && Agrees(inv[FindItem(inv, item)])
    ensures
      var i := FindItem(inv, item);
      var loaded := MoveCups(inv, item, true, q);
      && loaded.Some? && MoveCups(loaded.value, item, false, q).Some?
      && var back := MoveCups(loaded.value, item, false, q).value;
         && |back| == |inv|
         && ((back[i].stock == inv[i].stock && back[i].cups == inv[i].cups) <==> inv[i].stock >= 0)
  {
    TwoMoves(inv, item, q);
    MovedBack(inv[FindItem(inv, item)], q);
  }

  // ─── A machine reporting what it dispensed ─────────────────────────────────

  /** One part of an acknowledgement: the nozzle number, if it could be read, and the cups dispensed. */
  datatype Part = Part(nozzle: Option<int>, quantity: int)

  /** A part that moves stock on this nozzle. */
  predicate Names(p: Part, nozzle: int) { p.nozzle == Some(nozzle) && p.quantity != 0 }

  /** One part, computed from the inventory as it was read and applied to the stored one. */
  function Consume(read: seq<Entry>, inv: seq<Entry>, p: Part): seq<Entry> {
    if p.nozzle.None? || p.quantity == 0 then inv
    else
      var i := FindNozzle(read, p.nozzle.value);
      if i == |read| then inv
      else
        var g := Grams(read[i]);
        var k := FindNozzle(inv, p.nozzle.value);
        if k == |inv| then inv
        else inv[k := inv[k].(stock := inv[k].stock - p.quantity * g, cups := CupsIn(read[i].stock - p.quantity * g, g))]
  }

  /** The whole acknowledgement: every part is computed from the same read. */
  function ConsumeAll(read: seq<Entry>, parts: seq<Part>): seq<Entry> {
    if parts == [] then read else Consume(read, ConsumeAll(read, parts[..|parts| - 1]), parts[|parts| - 1])
  }

  function Dispensed(parts: seq<Part>, nozzle: int): int {
    if parts == [] then 0
    else Dispensed(parts[..|parts| - 1], nozzle) + if Names(parts[|parts| - 1], nozzle) then parts[|parts| - 1].quantity else 0
  }

  /** The quantity of the last part that names the nozzle. */
  function LastNamed(parts: seq<Part>, nozzle: int): Option<int> {
    if parts == [] then None
    else if Names(parts[|parts| - 1], nozzle) then Some(parts[|parts| - 1].quantity)
    else LastNamed(parts[..|parts| - 1], nozzle)
  }

  /** The part is applied to this entry: the first one with the part's nozzle. */
  predicate Hits(read: seq<Entry>, p: Part, i: nat)
    requires i < |read|
  {
    Names(p, read[i].nozzle) && i == FindNozzle(read, read[i].nozzle)
  }

  ghost predicate SameLayout(read: seq<Entry>, inv: seq<Entry>) {
    |inv| == |read| && forall j | 0 <= j < |read| :: inv[j].nozzle == read[j].nozzle && inv[j].gramsPerCup == read[j].gramsPerCup
  }

  /** One part changes the stock and the count of the entry it hits, and no other entry. */
  lemma ConsumeStep(read: seq<Entry>, inv: seq<Entry>, p: Part, i: nat)
    requires i < |read| && SameLayout(read, inv)
    ensures
      var inv' := Consume(read, inv, p);
      && SameLayout(read, inv')
      && inv'[i] == if Hits(read, p, i)
                    then inv[i].(stock := inv[i].stock - p.quantity * Grams(read[i]),
                                 cups := CupsIn(read[i].stock - p.quantity * Grams(read[i]), Grams(read[i])))
                    else inv[i]
  {
    if p.nozzle.Some? {
      assert FindNozzle(inv, p.nozzle.value) == FindNozzle(read, p.nozzle.value);
    }
  }

  /** One entry after an acknowledgement. */
  function Consumed(e: Entry, first: bool, parts: seq<Part>): Entry {
    var g, last := Grams(e), LastNamed(parts, e.nozzle);
    if !first || last.None? then e
    else e.(stock := e.stock - Dispensed(parts, e.nozzle) * g, cups := CupsIn(e.stock - last.value * g, g))
  }

  lemma ConsumedStep(e: Entry, first: bool, front: seq<Part>, p: Part)
    ensures
      var was, now, g := Consumed(e, first, front), Consumed(e, first, front + [p]), Grams(e);
      now == if first && Names(p, e.nozzle)
            then was.(stock := was.stock - p.quantity * g, cups := CupsIn(e.stock - p.quantity * g, g)) else was
  {
    assert (front + [p])[..|front|] == front;
    NothingNamed(front, e.nozzle);
    var d, q, g := Dispensed(front, e.nozzle), p.quantity, Grams(e);
    assert (d + q) * g == d * g + q * g;
  }

  lemma {:induction false} NothingNamed(parts: seq<Part>, nozzle: int)
    ensures LastNamed(parts, nozzle).None? ==> Dispensed(parts, nozzle) == 0
  {
    if parts != [] { NothingNamed(parts[..|parts| - 1], nozzle); }
  }

  /** Grams are deducted for every part naming the nozzle; the count comes from the last one alone. */
  lemma {:induction false} ConsumeAllSpec(read: seq<Entry>, parts: seq<Part>, i: nat)
    requires i < |read|
    ensures SameLayout(read, ConsumeAll(read, parts))
    ensures ConsumeAll(read, parts)[i] == Consumed(read[i], i == FindNozzle(read, read[i].nozzle), parts)
  {
    if parts != [] {
      var front, p := parts[..|parts| - 1], parts[|parts| - 1];
      ConsumeAllSpec(read, front, i);
      ConsumeStep(read, ConsumeAll(read, front), p, i);
      assert front + [p] == parts;
      ConsumedStep(read[i], i == FindNozzle(read, read[i].nozzle), front, p);
    }
  }

  /** No part reports a negative quantity, as parsing guarantees. */
  ghost predicate Sensible(parts: seq<Part>) {
    forall i | 0 <= i < |parts| :: parts[i].quantity >= 0
  }

  lemma {:induction false} DispensedAtLeastLast(parts: seq<Part>, nozzle: int)
    requires Sensible(parts)
    ensures Dispensed(parts, nozzle) >= 0
    ensures LastNamed(parts, nozzle).Some? ==> 0 < LastNamed(parts, nozzle).value <= Dispensed(parts, nozzle)
  {
    if parts != [] {
      DispensedAtLeastLast(parts[..|parts| - 1], nozzle);
    }
  }

  /**
   * An acknowledgement leaves the cup count of a nozzle right exactly when the last part naming it
   * carries everything dispensed there, or already empties it. Every part is computed from one read,
   * so a nozzle named twice forgets the earlier parts.
   */
  lemma AckAgreesIff(read: seq<Entry>, parts: seq<Part>, i: nat)
    requires i < |read| && Agrees(read[i]) && Sensible(parts)
    ensures
      var inv, n := ConsumeAll(read, parts), read[i].nozzle;
      && |inv| == |read|
      && (Agrees(inv[i]) <==>
            i != FindNozzle(read, n) || LastNamed(parts, n).None?
            || LastNamed(parts, n).value == Dispensed(parts, n) || read[i].cups <= LastNamed(parts, n).value)
  {
    var n, g := read[i].nozzle, Grams(read[i]);
    ConsumeAllSpec(read, parts, i);
    if i == FindNozzle(read, n) && LastNamed(parts, n).Some? {
      DispensedAtLeastLast(parts, n);
      CupsLess(read[i].stock, g, LastNamed(parts, n).value);
      CupsLess(read[i].stock, g, Dispensed(parts, n));
    }
  }

  ghost predicate NamesEachOnce(parts: seq<Part>) {
    forall i, j | 0 <= i < j < |parts| :: parts[i].nozzle.None? || parts[i].nozzle != parts[j].nozzle
  }

  lemma {:induction false} NamedOnce(parts: seq<Part>, nozzle: int)
    requires NamesEachOnce(parts)
    ensures LastNamed(parts, nozzle).Some? ==> LastNamed(parts, nozzle).value == Dispensed(parts, nozzle)
    ensures LastNamed(parts, nozzle).None? ==> Dispensed(parts, nozzle) == 0
    ensures LastNamed(parts, nozzle).Some? ==> exists j :: 0 <= j < |parts| && Names(parts[j], nozzle)
  {
    if parts != [] {
      NamedOnce(parts[..|parts| - 1], nozzle);
    }
  }

  /** An acknowledgement that names each nozzle once keeps every cup count right. */
  lemma AckNamingOnceKeepsAgreement(read: seq<Entry>, parts: seq<Part>)
    requires (forall i | 0 <= i < |read| :: Agrees(read[i])) && Sensible(parts) && NamesEachOnce(parts)
    ensures |ConsumeAll(read, parts)| == |read| && forall i | 0 <= i < |read| :: Agrees(ConsumeAll(read, parts)[i])
  {
    forall i | 0 <= i < |read| ensures |ConsumeAll(read, parts)| == |read| && Agrees(ConsumeAll(read, parts)[i]) {
      AckAgreesIff(read, parts, i);
      NamedOnce(parts, read[i].nozzle);
    }
    if read == [] { ConsumeNothing(parts); }
  }

  lemma {:induction false} ConsumeNothing(parts: seq<Part>)
    ensures ConsumeAll([], parts) == []
  {
    if parts != [] { ConsumeNothing(parts[..|parts| - 1]); }
  }

  // ─── Runs ──────────────────────────────────────────────────────────────────

  /** What changes a coffee machine's stock: an inventory update, an agent moving cups, an acknowledgement. */
  datatype CupEvent = Setting(update: StockUpdate) | Moving(item: ItemId, load: bool, quantity: nat) | Reporting(parts: seq<Part>)

  function Apply(inv: seq<Entry>, e: CupEvent): seq<Entry> {
    match e
    case Setting(u) => UpdateInventory(inv, u)
    case Moving(item, load, q) => MoveCups(inv, item, load, q).GetOr(inv)
    case Reporting(parts) => ConsumeAll(inv, parts)
  }

  ghost predicate AllAgree(inv: seq<Entry>) { forall i | 0 <= i < |inv| :: Agrees(inv[i]) }

  /** The numbers an update stores fit each other. */
  predicate Fits(stock: int, grams: int) { (grams >= 0 && stock >= 0) || (grams < 0 && (stock == 0 || grams < stock < 0)) }

  /** The report gets the count of this entry right. */
  predicate Reports(inv: seq<Entry>, parts: seq<Part>, i: nat)
    requires i < |inv|
  {
    var n := inv[i].nozzle;
    || i != FindNozzle(inv, n) || LastNamed(parts, n).None?
    || LastNamed(parts, n).value == Dispensed(parts, n) || inv[i].cups <= LastNamed(parts, n).value
  }

  /** The guard of an event: the numbers of an update, the debt a load makes up for, the last part of a report. */
  ghost predicate CupSafe(inv: seq<Entry>, e: CupEvent) {
    match e
    case Setting(u) => Fits(u.stock, StoredGrams(inv, u))
    case Moving(item, load, q) =>
      var i := FindItem(inv, item);
      i < |inv| && load ==> inv[i].stock + q * Grams(inv[i]) >= 0
    case Reporting(parts) => forall i | 0 <= i < |inv| :: Reports(inv, parts, i)
  }

  lemma UpdateKeepsAgreementIff(inv: seq<Entry>, u: StockUpdate)
    requires AllAgree(inv)
    ensures AllAgree(UpdateInventory(inv, u)) <==> Fits(u.stock, StoredGrams(inv, u))
  {
    UpdateAgreesIff(inv, u);
  }

  lemma MoveKeepsAgreementIff(inv: seq<Entry>, item: ItemId, load: bool, q: nat)
    requires AllAgree(inv)
    ensures AllAgree(Apply(inv, Moving(item, load, q))) <==> CupSafe(inv, Moving(item, load, q))
  {
    var i := FindItem(inv, item);
    if i < |inv| {
      var g := Grams(inv[i]);
      var stock := if load then inv[i].stock + q * g else Max(0, inv[i].stock - q * g);
      UpdateKeepsAgreementIff(inv, StockUpdate(item, stock, None, None, Some(g)));
    }
  }

  lemma ReportKeepsAgreementIff(inv: seq<Entry>, parts: seq<Part>)
    requires AllAgree(inv) && Sensible(parts)
    ensures AllAgree(ConsumeAll(inv, parts)) <==> CupSafe(inv, Reporting(parts))
  {
    if inv == [] {
      ConsumeNothing(parts);
    } else {
      forall i | 0 <= i < |inv|
        ensures |ConsumeAll(inv, parts)| == |inv| && (Agrees(ConsumeAll(inv, parts)[i]) <==> Reports(inv, parts, i))
      {
        AckAgreesIff(inv, parts, i);
      }
      AckAgreesIff(inv, parts, 0);
    }
  }

  ghost predicate CupSafeRun(inv: seq<Entry>, events: seq<CupEvent>)
    decreases |events|
  {
    events != [] ==> CupSafe(inv, events[0]) && CupSafeRun(Apply(inv, events[0]), events[1..])
  }

  ghost predicate AgreesThroughout(inv: seq<Entry>, events: seq<CupEvent>)
    decreases |events|
  {
    AllAgree(inv) && (events != [] ==> AgreesThroughout(Apply(inv, events[0]), events[1..]))
  }

  /** Every cup count is right throughout a run of updates, moves and reports exactly when each event's guard holds. */
  lemma {:induction false} CupsAgreeThroughoutIff(inv: seq<Entry>, events: seq<CupEvent>)
    requires AllAgree(inv) && forall k | 0 <= k < |events| :: events[k].Reporting? ==> Sensible(events[k].parts)
    ensures AgreesThroughout(inv, events) <==> CupSafeRun(inv, events)
    decreases |events|
  {
    if events != [] {
      var e := events[0];
      assert e.Reporting? ==> Sensible(e.parts);
      match e {
        case Setting(u) => UpdateKeepsAgreementIff(inv, u);
        case Moving(item, load, q) => MoveKeepsAgreementIff(inv, item, load, q);
        case Reporting(parts) => ReportKeepsAgreementIff(inv, parts);
      }
      if CupSafe(inv, e) { CupsAgreeThroughoutIff(Apply(inv, e), events[1..]); }
    }
  }
}
