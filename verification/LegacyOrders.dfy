/** The old mobile app's order call: several items in one request, charged and published one by one. */
module LegacyOrders {
  import opened Common
  import opened Wallet
  import opened Batches
  import opened Machines
  import opened Orders
  import opened WireFormat
  import Timers

  // ─── Requests ──────────────────────────────────────────────────────────────

  /** One entry of the request with the item record found for it; an empty item id is a missing one. */
  datatype Entry = Entry(itemId: string, record: Option<Item>, vol: Option<string>, cupSize: Option<string>,
                         nozzle: Option<int>, quantity: nat)

  datatype LegacyRequest = LegacyRequest(user: UserId, payer: UserId, machine: MachineId, firstItemId: string,
                                         entries: seq<Entry>, now: int)

  datatype Reason = NoSuchItem | NotAvailable | TimerMismatch | NotCharged(error: WalletError) | Unreachable

  datatype Result =
    | Failure(itemId: string, reason: Reason)
    | Success(itemId: string, orderNo: nat, deducted: nat, nozzle: int, timers: Option<(int, int)>)

  /** How the turn of one entry ends: nothing listed, a result listed, or the whole call thrown out. */
  datatype Turn = Skipped | Listed(result: Result) | Aborted(error: OrderError)

  /** Which calls fail in the turn of one entry. */
  datatype LegacyFaults = LegacyFaults(
    deduct: DebitFault, save: bool, allocate: bool, publish: bool, saveFailed: bool, refund: CreditFault)

  /** Which calls fail around the loop: cancelling, the queue look-up, clearing a stale flag, setting the flag. */
  datatype CallFaults = CallFaults(cancel: bool, queue: bool, clear: bool, busy: bool)

  /** The order state with the next unused printed order number. */
  datatype Desk = Desk(s: State, nextNo: nat)

  // ─── Cup sizes and calibration ─────────────────────────────────────────────

  predicate IsMl(s: string) { |s| >= 2 && (s[0] == 'm' || s[0] == 'M') && (s[1] == 'l' || s[1] == 'L') }

  /** `s.replace(/ml/i, '')`: the first occurrence only. */
  function DropMl(s: string): string {
    if s == "" then "" else if IsMl(s) then s[2..] else [s[0]] + DropMl(s[1..])
  }

  function TrimRight(s: string): string
    decreases |s|
  {
    if s != "" && IsSpace(s[|s| - 1]) then TrimRight(s[..|s| - 1]) else s
  }

  function NormalVol(s: string): string { TrimRight(TrimLeft(DropMl(s))) }

  function FirstCalibration(cal: seq<Timers.Calibration>, p: Timers.Calibration -> bool): Option<Timers.Calibration> {
    var i := FirstIndex(cal, p);
    if i < |cal| then Some(cal[i]) else None
  }

  predicate Given(s: Option<string>) { s.Some? && s.value != "" }

  predicate SameVolume(c: Timers.Calibration, vol: string) {
    c.cupSize == vol || NormalVol(c.cupSize) == NormalVol(vol) || Print(c.volMl) == NormalVol(vol)
  }

  lemma {:induction false} MlDropped(s: string, unit: string, rest: string)
    requires (forall i | 0 <= i < |s| :: s[i] != 'm' && s[i] != 'M') && unit in ["ml", "mL", "Ml", "ML"]
    ensures DropMl(s + (unit + rest)) == s + rest
  {
    var t := s + (unit + rest);
    if s == "" {
      assert t == unit + rest && t[2..] == rest && s + rest == rest;
    } else {
      assert t[1..] == s[1..] + (unit + rest);
      MlDropped(s[1..], unit, rest);
      assert s + rest == [s[0]] + (s[1..] + rest);
    }
  }

  lemma {:induction false} NothingDropped(s: string)
    requires forall i | 0 <= i < |s| :: s[i] != 'm' && s[i] != 'M'
    ensures DropMl(s) == s
  {
    if s != "" {
      NothingDropped(s[1..]);
      assert s == [s[0]] + s[1..];
    }
  }

  lemma {:induction false} RightTrimmed(s: string, space: string)
    requires s != "" && !IsSpace(s[|s| - 1]) && forall i | 0 <= i < |space| :: IsSpace(space[i])
    ensures TrimRight(s + space) == s
    decreases |space|
  {
    if space == "" {
      assert s + space == s;
    } else {
      var n := |space| - 1;
      assert (s + space)[..|s + space| - 1] == s + space[..n];
      RightTrimmed(s, space[..n]);
    }
  }

  /** A volume in millilitres is its number, with or without the unit in either case, and whatever the white space around. */
  lemma VolumeIsItsNumber(a: string, n: nat, b: string, unit: string, c: string)
    requires forall i | 0 <= i < |a| :: a[i] == ' '
    requires forall i | 0 <= i < |b| :: b[i] == ' '
    requires forall i | 0 <= i < |c| :: c[i] == ' '
    requires unit in ["", "ml", "mL", "Ml", "ML"]
    ensures NormalVol((a + (Digits(n) + b)) + (unit + c)) == Digits(n)
  {
    DigitsAreDigits(n);
    var d, s, tail := Digits(n), a + (Digits(n) + b), b + c;
    forall i | 0 <= i < |s| ensures s[i] != 'm' && s[i] != 'M' {
      assert i < |a| || (i - |a| < |d| && s[i] == d[i - |a|]) || s[i] == b[i - |a| - |d|];
    }
    if unit == "" {
      assert s + (unit + c) == s + c;
      NothingDropped(s + c);
    } else {
      MlDropped(s, unit, c);
    }
    assert s + c == a + (d + tail);
    SpacesTrimmed(a, d + tail);
    RightTrimmed(d, tail);
  }

  /** The cup size of the entry, or the one its volume is calibrated for. */
  function CupSizeOf(m: Machine, e: Entry): Option<string>
    requires e.record.Some?
  {
    if e.record.value.isFood || Given(e.cupSize) || !Given(e.vol) then e.cupSize
    else
      match FirstCalibration(m.calibration, (c: Timers.Calibration) => c.item == e.itemId && SameVolume(c, e.vol.value))
      case Some(c) => Some(c.cupSize)
      case None => None
  }

  function TotalFor(m: Machine, e: Entry): nat
    requires e.record.Some?
  {
    var item := e.record.value;
    if item.isFood then item.unitPrice * e.quantity
    else
      var size := CupSizeOf(m, e);
      var price := if size.Some? then FindCupSize(item.cupSizes, size.value) else None;
      price.GetOr(0) * e.quantity
  }

  /** The look-up before the charge. */
  function PreflightEntry(m: Machine, e: Entry, resolved: Option<string>): Option<Timers.Calibration> {
    var volForCalib := e.vol.GetOr(resolved.GetOr(""));
    var volNorm := TrimRight(TrimLeft(DropMl(volForCalib)));
    FirstCalibration(m.calibration, (c: Timers.Calibration) =>
      c.item == e.itemId
      && (c.cupSize == volForCalib || TrimRight(TrimLeft(DropMl(c.cupSize))) == volNorm
          || Print(c.volMl) == volNorm || Some(c.cupSize) == resolved))
  }

  /** The look-up before publishing: a second scan of the machine as it was first read. */
  function PublishEntry(m: Machine, e: Entry, resolved: Option<string>): Option<Timers.Calibration> {
    var volForCalib := if e.vol.Some? then e.vol.value else resolved.GetOr("");
    FirstCalibration(m.calibration, (c: Timers.Calibration) =>
      c.item == e.itemId && (SameVolume(c, volForCalib) || Some(c.cupSize) == resolved))
  }

  /** The first element that satisfies a test is the first that satisfies any equivalent one. */
  lemma {:induction false} SameCalibration(cal: seq<Timers.Calibration>, p: Timers.Calibration -> bool, q: Timers.Calibration -> bool)
    requires forall c :: p(c) <==> q(c)
    ensures FirstCalibration(cal, p) == FirstCalibration(cal, q)
  {
    if cal != [] && !p(cal[0]) {
      SameCalibration(cal[1..], p, q);
    }
  }

  /** Both scans stop at the same entry, whatever the request and the calibration say. */
  lemma LookupsAgree(m: Machine, e: Entry, resolved: Option<string>)
    ensures PublishEntry(m, e, resolved) == PreflightEntry(m, e, resolved)
  {
    var vol := e.vol.GetOr(resolved.GetOr(""));
    var norm := TrimRight(TrimLeft(DropMl(vol)));
    SameCalibration(m.calibration,
              (c: Timers.Calibration) => c.item == e.itemId && (SameVolume(c, vol) || Some(c.cupSize) == resolved),
              (c: Timers.Calibration) =>
                c.item == e.itemId
                && (c.cupSize == vol || TrimRight(TrimLeft(DropMl(c.cupSize))) == norm
                    || Print(c.volMl) == norm || Some(c.cupSize) == resolved));
  }

  /** The timers an entry stands for, defaults included. */
  function WaterOf(c: Option<Timers.Calibration>): int {
    if c.Some? then c.value.water.GetOr(Timers.DEFAULT_WATER) else Timers.DEFAULT_WATER
  }

  function PowderOf(c: Option<Timers.Calibration>): int {
    if c.Some? then c.value.powder.GetOr(Timers.DEFAULT_POWDER) else Timers.DEFAULT_POWDER
  }

  /** Before the wallet is touched a coffee machine's timers are checked, defaults included. */
  function Preflight(m: Machine, e: Entry): Option<Reason> {
    if e.record.None? then Some(NoSuchItem)
    else if !e.record.value.available then Some(NotAvailable)
    else
      var calib := PreflightEntry(m, e, CupSizeOf(m, e));
      if !m.isFood && !Timers.Leads(WaterOf(calib), PowderOf(calib)) then Some(Reason.TimerMismatch) else None
  }

  /** The published timers, looked up again after the charge; a food command has none. */
  function PublishedTimers(m: Machine, e: Entry): Option<(int, int)>
    requires e.record.Some?
  {
    var calib := PublishEntry(m, e, CupSizeOf(m, e));
    if m.isFood then None else Some((WaterOf(calib), PowderOf(calib)))
  }

  function NozzleOf(m: Machine, e: Entry): int
    requires e.record.Some?
  {
    var calib := PublishEntry(m, e, CupSizeOf(m, e));
    e.nozzle.GetOr(if calib.Some? then calib.value.nozzle else 1)
  }

  // ─── One entry's turn ──────────────────────────────────────────────────────

  /** Food is taken if a batch can serve; a failing allocation is ignored. */
  function TakeFood(ms: Fleet, q: LegacyRequest, m: Machine, e: Entry, f: LegacyFaults): Fleet {
    if m.isFood && !f.allocate && q.machine in ms && Deduct(ms[q.machine].batches, e.itemId, e.quantity).Some?
    then SetBatches(ms, q.machine, Deduct(ms[q.machine].batches, e.itemId, e.quantity).value.0) else ms
  }

  function OrderFor(q: LegacyRequest, m: Machine, e: Entry): Order
    requires e.record.Some?
  {
    Order(q.payer, q.machine, e.itemId, e.quantity, TotalFor(m, e), Dispensing, Paid, q.now)
  }

  /** After the charge: record, allocate, publish; a failed publish is refunded under the printed number. */
  function Fulfil(d: Desk, no: nat, q: LegacyRequest, m: Machine, e: Entry, f: LegacyFaults): (Desk, Turn)
    requires e.record.Some?
  {
    if f.save then (d, Aborted(Database))
    else
      var o := OrderFor(q, m, e);
      var stored := d.s.(orders := d.s.orders + [o], machines := TakeFood(d.s.machines, q, m, e, f));
      if !f.publish then
        (d.(s := stored), Listed(Success(e.itemId, no, o.total, NozzleOf(m, e), PublishedTimers(m, e))))
      else if f.saveFailed then (d.(s := stored), Aborted(Database))
      else
        var failed := stored.(orders := d.s.orders + [o.(status := Failed)]);
        var (l, r) := RefundCall(failed.ledger, q.payer, o.total, HumanRef(no), f.refund);
        (d.(s := failed.(ledger := l)), if r.Err? then Aborted(WalletFailed(r.error)) else Listed(Failure(e.itemId, Unreachable)))
  }

  function TakeTurn(d: Desk, q: LegacyRequest, m: Machine, e: Entry, f: LegacyFaults): (Desk, Turn) {
    if e.itemId == "" then (d, Skipped)
    else
      var refused := Preflight(m, e);
      if refused.Some? then (d, Listed(Failure(e.itemId, refused.value)))
      else
        var no := d.nextNo;
        var (l, r) := DeductCall(d.s.ledger, q.payer, TotalFor(m, e), LegacyRef(no), f.deduct);
        var charged := Desk(d.s.(ledger := l), no + 1);
        if r.Err? then (charged, Listed(Failure(e.itemId, NotCharged(r.error))))
        else Fulfil(charged, no, q, m, e, f)
  }

  // ─── The loop ──────────────────────────────────────────────────────────────

  datatype Progress = Progress(desk: Desk, results: seq<Result>, error: Option<OrderError>)

  function Note(p: Progress, d: Desk, t: Turn): Progress {
    match t
    case Skipped => p.(desk := d)
    case Listed(r) => p.(desk := d, results := p.results + [r])
    case Aborted(e) => p.(desk := d, error := Some(e))
  }

  /** The turn of the next entry, unless an earlier one threw. */
  function Next(p: Progress, q: LegacyRequest, m: Machine, e: Entry, f: LegacyFaults): Progress {
    if p.error.Some? then p
    else
      var (d, t) := TakeTurn(p.desk, q, m, e, f);
      Note(p, d, t)
  }

  /** The first `k` entries, stopping at the first that throws. */
  function Process(d: Desk, q: LegacyRequest, m: Machine, fs: seq<LegacyFaults>, k: nat): Progress
    requires k <= |q.entries| == |fs|
  {
    if k == 0 then Progress(d, [], None) else Next(Process(d, q, m, fs, k - 1), q, m, q.entries[k - 1], fs[k - 1])
  }

  lemma AbortIsKept(p: Progress, q: LegacyRequest, m: Machine, e: Entry, f: LegacyFaults)
    requires p.error.Some?
    ensures Next(p, q, m, e, f) == p
  {
  }

  lemma {:induction false} AbortEndsTheLoop(d: Desk, q: LegacyRequest, m: Machine, fs: seq<LegacyFaults>, j: nat, k: nat)
    requires j <= k <= |q.entries| == |fs| && Process(d, q, m, fs, j).error.Some?
    ensures Process(d, q, m, fs, k) == Process(d, q, m, fs, j)
  {
    if j < k {
      AbortEndsTheLoop(d, q, m, fs, j, k - 1);
      AbortIsKept(Process(d, q, m, fs, k - 1), q, m, q.entries[k - 1], fs[k - 1]);
    }
  }

  /** One turn more of the loop; when it throws, that is where the loop ends. */
  lemma ProcessOneMore(d: Desk, q: LegacyRequest, m: Machine, fs: seq<LegacyFaults>, k: nat, p: Progress, p': Progress)
    requires k < |q.entries| == |fs| && Process(d, q, m, fs, k) == p && Next(p, q, m, q.entries[k], fs[k]) == p'
    ensures Process(d, q, m, fs, k + 1) == p'
    ensures p'.error.Some? ==> Process(d, q, m, fs, |fs|) == p'
  {
    if p'.error.Some? { AbortEndsTheLoop(d, q, m, fs, k + 1, |fs|); }
  }

  // ─── The customer pays for what succeeds ───────────────────────────────────

  function Deducted(results: seq<Result>): nat {
    if results == [] then 0
    else Deducted(results[..|results| - 1]) + if results[|results| - 1].Success? then results[|results| - 1].deducted else 0
  }

  function DeductedBy(t: Turn): nat { if t.Listed? && t.result.Success? then t.result.deducted else 0 }

  /** The turn gets as far as the wallet, and the wallet holds the price. */
  predicate Affords(d: Desk, q: LegacyRequest, m: Machine, e: Entry) {
    && e.itemId != "" && Preflight(m, e).None?
    && q.payer in d.s.ledger.balances && d.s.ledger.balances[q.payer] >= TotalFor(m, e)
  }

  /**
   * Money a turn takes without a success to show for it: the debit was neither recorded nor put back,
   * the order record failed after the debit, or a failed publish was not refunded.
   */
  function LostBy(d: Desk, q: LegacyRequest, m: Machine, e: Entry, f: LegacyFaults): nat {
    if !Affords(d, q, m, e) then 0
    else if f.deduct == DebitInsertAndRestoreFail then TotalFor(m, e)
    else if f.deduct == NoDebitFault && (f.save || (f.publish && (f.saveFailed || f.refund == BeforeCredit))) then TotalFor(m, e)
    else 0
  }

  function Lost(d: Desk, q: LegacyRequest, m: Machine, fs: seq<LegacyFaults>, k: nat): nat
    requires k <= |q.entries| == |fs|
  {
    if k == 0 then 0
    else
      var p := Process(d, q, m, fs, k - 1);
      Lost(d, q, m, fs, k - 1) + if p.error.Some? then 0 else LostBy(p.desk, q, m, q.entries[k - 1], fs[k - 1])
  }

  /** Printed order numbers from `nextNo` on are unused. */
  ghost predicate FreshNumbers(d: Desk) {
    forall i | 0 <= i < |d.s.ledger.txs| :: d.s.ledger.txs[i].ref.HumanRef? ==> d.s.ledger.txs[i].ref.orderNo < d.nextNo
  }

  lemma {:induction false} UnusedNumber(txs: seq<Transaction>, u: UserId, no: nat)
    requires forall i | 0 <= i < |txs| :: txs[i].ref != HumanRef(no)
    ensures FindRefund(txs, u, HumanRef(no)).None?
  {
  }

  /** The wallet of `u` after a part of a turn, as a difference. */
  predicate Pays(l: Ledger, l': Ledger, u: UserId, amount: int) {
    u in l.balances ==> u in l'.balances && l'.balances[u] == l.balances[u] - amount
  }

  lemma FulfilMoney(d: Desk, no: nat, q: LegacyRequest, m: Machine, e: Entry, f: LegacyFaults, u: UserId)
    requires e.record.Some? && FindRefund(d.s.ledger.txs, q.payer, HumanRef(no)).None? && q.payer in d.s.ledger.balances
    ensures
      var (d', t) := Fulfil(d, no, q, m, e, f);
      && d'.nextNo == d.nextNo
      && (t.Listed? && t.result.Success? ==> d'.s.ledger == d.s.ledger && t.result.deducted == TotalFor(m, e))
      && (f.save || !f.publish || f.saveFailed || f.refund == BeforeCredit ==> d'.s.ledger == d.s.ledger)
      && (!f.save && f.publish && !f.saveFailed && f.refund != BeforeCredit ==>
            Pays(d.s.ledger, d'.s.ledger, u, if u == q.payer then 0 - TotalFor(m, e) else 0))
      && (t.Listed? && t.result.Success? <==> !f.save && !f.publish)
  {
  }

  /** A turn whose debit is tried on a wallet that holds the price. */
  lemma AffordedTurnMoney(d: Desk, q: LegacyRequest, m: Machine, e: Entry, f: LegacyFaults, u: UserId)
    requires FreshNumbers(d) && Affords(d, q, m, e)
    ensures
      var (d', t) := TakeTurn(d, q, m, e, f);
      Pays(d.s.ledger, d'.s.ledger, u, if u == q.payer then DeductedBy(t) + LostBy(d, q, m, e, f) else 0)
  {
    var no := d.nextNo;
    var (l, r) := DeductCall(d.s.ledger, q.payer, TotalFor(m, e), LegacyRef(no), f.deduct);
    if r.Ok? {
      UnusedNumber(l.txs, q.payer, no);
      FulfilMoney(Desk(d.s.(ledger := l), no + 1), no, q, m, e, f, u);
    }
  }

  lemma TurnMoney(d: Desk, q: LegacyRequest, m: Machine, e: Entry, f: LegacyFaults, u: UserId)
    requires FreshNumbers(d)
    ensures
      var (d', t) := TakeTurn(d, q, m, e, f);
      Pays(d.s.ledger, d'.s.ledger, u, if u == q.payer then DeductedBy(t) + LostBy(d, q, m, e, f) else 0)
  {
    if Affords(d, q, m, e) { AffordedTurnMoney(d, q, m, e, f, u); }
  }

  lemma TurnKeepsFresh(d: Desk, q: LegacyRequest, m: Machine, e: Entry, f: LegacyFaults)
    requires FreshNumbers(d)
    ensures FreshNumbers(TakeTurn(d, q, m, e, f).0)
  {
  }

  lemma NoteDeducts(p: Progress, d: Desk, t: Turn)
    ensures Deducted(Note(p, d, t).results) == Deducted(p.results) + DeductedBy(t)
  {
  }

  /** For any mix of entries and failures: what the payer lost is what the successes deducted plus what was lost on the way. */
  lemma {:induction false} LoopMoney(d: Desk, q: LegacyRequest, m: Machine, fs: seq<LegacyFaults>, k: nat, u: UserId)
    requires k <= |q.entries| == |fs| && FreshNumbers(d)
    ensures
      var p := Process(d, q, m, fs, k);
      && FreshNumbers(p.desk)
      && Pays(d.s.ledger, p.desk.s.ledger, u, if u == q.payer then Deducted(p.results) + Lost(d, q, m, fs, k) else 0)
  {
    if k > 0 {
      LoopMoney(d, q, m, fs, k - 1, u);
      var p := Process(d, q, m, fs, k - 1);
      if p.error.None? {
        var e, f := q.entries[k - 1], fs[k - 1];
        TurnMoney(p.desk, q, m, e, f, u);
        TurnKeepsFresh(p.desk, q, m, e, f);
        var (d', t) := TakeTurn(p.desk, q, m, e, f);
        NoteDeducts(p, d', t);
      }
    }
  }

  /** A turn that ends normally loses money only when its debit was neither recorded nor put back. */
  lemma {:induction false} ReturningLoses(d: Desk, q: LegacyRequest, m: Machine, fs: seq<LegacyFaults>, k: nat)
    requires k <= |q.entries| == |fs| && FreshNumbers(d) && Process(d, q, m, fs, k).error.None?
    requires forall i | 0 <= i < k :: fs[i].deduct != DebitInsertAndRestoreFail
    ensures Lost(d, q, m, fs, k) == 0
  {
    if k > 0 { ReturningLoses(d, q, m, fs, k - 1); }
  }

  /**
   * The customer is charged exactly for what succeeds precisely when nothing was lost on the way. A call
   * that returns normally loses nothing unless some debit was neither recorded nor put back.
   */
  lemma LegacyChargesForSuccessesIff(d: Desk, q: LegacyRequest, m: Machine, fs: seq<LegacyFaults>)
    requires |fs| == |q.entries| && FreshNumbers(d) && q.payer in d.s.ledger.balances
    ensures
      var p := Process(d, q, m, fs, |fs|);
      var before, after := d.s.ledger.balances, p.desk.s.ledger.balances;
      && q.payer in after
      && (before[q.payer] - after[q.payer] == Deducted(p.results) <==> Lost(d, q, m, fs, |fs|) == 0)
      && (p.error.None? && (forall i | 0 <= i < |fs| :: fs[i].deduct != DebitInsertAndRestoreFail) ==>
            before[q.payer] - after[q.payer] == Deducted(p.results))
      && (forall u | u in before && u != q.payer :: u in after && after[u] == before[u])
  {
    LoopMoney(d, q, m, fs, |fs|, q.payer);
    var p := Process(d, q, m, fs, |fs|);
    forall u | u in d.s.ledger.balances && u != q.payer
      ensures u in p.desk.s.ledger.balances && p.desk.s.ledger.balances[u] == d.s.ledger.balances[u]
    {
      LoopMoney(d, q, m, fs, |fs|, u);
    }
    if p.error.None? && forall i | 0 <= i < |fs| :: fs[i].deduct != DebitInsertAndRestoreFail {
      ReturningLoses(d, q, m, fs, |fs|);
    }
  }

  // ─── Every published coffee command leads ──────────────────────────────────

  predicate CommandLeads(r: Result) {
    r.Success? && r.timers.Some? ==> Timers.Leads(r.timers.value.0, r.timers.value.1)
  }

  lemma TurnPublishesLead(d: Desk, q: LegacyRequest, m: Machine, e: Entry, f: LegacyFaults)
    ensures
      var t := TakeTurn(d, q, m, e, f).1;
      t.Listed? ==> CommandLeads(t.result) && (t.result.Success? ==> (t.result.timers.Some? <==> !m.isFood))
  {
    if e.record.Some? { LookupsAgree(m, e, CupSizeOf(m, e)); }
  }

  /** The timers that were checked before the charge are the timers that are published, so they lead. */
  lemma {:induction false} EveryPublishedCommandLeads(d: Desk, q: LegacyRequest, m: Machine, fs: seq<LegacyFaults>, k: nat)
    requires k <= |q.entries| == |fs|
    ensures forall i | 0 <= i < |Process(d, q, m, fs, k).results| :: CommandLeads(Process(d, q, m, fs, k).results[i])
  {
    if k > 0 {
      EveryPublishedCommandLeads(d, q, m, fs, k - 1);
      var p := Process(d, q, m, fs, k - 1);
      if p.error.None? { TurnPublishesLead(p.desk, q, m, q.entries[k - 1], fs[k - 1]); }
    }
  }

  // ─── What each entry comes to ──────────────────────────────────────────────

  /** The calibration entry is for the item of `e`, under this volume or this cup size. */
  predicate Matches(c: Timers.Calibration, e: Entry, vol: Option<string>, size: Option<string>) {
    && c.item == e.itemId
    && (|| (vol.Some? && (c.cupSize == vol.value || NormalVol(c.cupSize) == NormalVol(vol.value) || Print(c.volMl) == NormalVol(vol.value)))
        || (size.Some? && c.cupSize == size.value))
  }

  ghost predicate FirstMatch(cal: seq<Timers.Calibration>, e: Entry, vol: Option<string>, size: Option<string>, k: nat) {
    k < |cal| && Matches(cal[k], e, vol, size) && forall j | 0 <= j < k :: !Matches(cal[j], e, vol, size)
  }

  ghost predicate NoMatch(cal: seq<Timers.Calibration>, e: Entry, vol: Option<string>, size: Option<string>) {
    forall k | 0 <= k < |cal| :: !Matches(cal[k], e, vol, size)
  }

  /** The cup size of an entry: its own, or without one that of the first calibration entry for its volume. */
  ghost predicate Sized(m: Machine, e: Entry, size: Option<string>) {
    if e.record.None? || e.record.value.isFood || e.cupSize.GetOr("") != "" || e.vol.GetOr("") == "" then size == e.cupSize
    else if NoMatch(m.calibration, e, e.vol, None) then size == None
    else exists k: nat :: FirstMatch(m.calibration, e, e.vol, None, k) && size == Some(m.calibration[k].cupSize)
  }

  /** The price of an entry: the unit price, or that of the first cup size listed under its size, if any, for each. */
  ghost predicate Costs(item: Item, size: Option<string>, quantity: nat, price: nat) {
    if item.isFood then price == item.unitPrice * quantity
    else if size.None? || forall j | 0 <= j < |item.cupSizes| :: item.cupSizes[j].0 != size.value then price == 0
    else exists k :: 0 <= k < |item.cupSizes| && item.cupSizes[k].0 == size.value
                     && (forall j | 0 <= j < k :: item.cupSizes[j].0 != size.value) && price == item.cupSizes[k].1 * quantity
  }

  /** Nozzle and timers for an entry: its own nozzle, else those of the first calibration entry for its volume or size, else 1, 5000 and 3000. */
  ghost predicate Calibrated(m: Machine, e: Entry, size: Option<string>, nozzle: int, water: int, powder: int) {
    var vol := if e.vol.Some? then e.vol else Some(size.GetOr(""));
    if NoMatch(m.calibration, e, vol, size) then nozzle == e.nozzle.GetOr(1) && water == 5000 && powder == 3000
    else exists k: nat ::
      && FirstMatch(m.calibration, e, vol, size, k)
      && nozzle == e.nozzle.GetOr(m.calibration[k].nozzle)
      && water == m.calibration[k].water.GetOr(5000) && powder == m.calibration[k].powder.GetOr(3000)
  }

  /** A listed success is of an item on sale, at its price, on its nozzle, with its timers where coffee is made, and they lead. */
  ghost predicate Earned(m: Machine, e: Entry, r: Result)
    requires r.Success?
  {
    && e.record.Some? && e.record.value.available && r.itemId == e.itemId
    && exists size, water, powder ::
         && Sized(m, e, size) && Costs(e.record.value, size, e.quantity, r.deducted)
         && Calibrated(m, e, size, r.nozzle, water, powder)
         && r.timers == (if m.isFood then None else Some((water, powder)))
         && (!m.isFood ==> water >= powder + 100)
  }

  /** A listed failure names its entry's item, and the reason given for a refusal before the charge holds. */
  ghost predicate Excused(m: Machine, e: Entry, r: Result)
    requires r.Failure?
  {
    && r.itemId == e.itemId
    && match r.reason
       case NoSuchItem => e.record.None?
       case NotAvailable => e.record.Some? && !e.record.value.available
       case TimerMismatch =>
         && !m.isFood && e.record.Some?
         && exists size, nozzle, water, powder :: Sized(m, e, size) && Calibrated(m, e, size, nozzle, water, powder) && water < powder + 100
       case _ => e.record.Some? && e.record.value.available
  }

  ghost predicate TrueOf(m: Machine, e: Entry, r: Result) { if r.Success? then Earned(m, e, r) else Excused(m, e, r) }

  lemma FirstCalibrationSpec(cal: seq<Timers.Calibration>, p: Timers.Calibration -> bool,
                             e: Entry, vol: Option<string>, size: Option<string>)
    requires forall c :: p(c) <==> Matches(c, e, vol, size)
    ensures FirstCalibration(cal, p).None? <==> NoMatch(cal, e, vol, size)
    ensures FirstCalibration(cal, p).Some? ==> exists k: nat :: FirstMatch(cal, e, vol, size, k) && cal[k] == FirstCalibration(cal, p).value
  {
    var i := FirstIndex(cal, p);
    if i < |cal| { assert FirstMatch(cal, e, vol, size, i); }
  }

  lemma CupSizeIs(m: Machine, e: Entry)
    requires e.record.Some?
    ensures Sized(m, e, CupSizeOf(m, e))
  {
    if e.vol.Some? {
      var p := (c: Timers.Calibration) => c.item == e.itemId && SameVolume(c, e.vol.value);
      FirstCalibrationSpec(m.calibration, p, e, e.vol, None);
    }
  }

  lemma {:induction false} ListedPrice(sizes: seq<(string, nat)>, size: string)
    ensures
      match FindCupSize(sizes, size)
      case None => forall j | 0 <= j < |sizes| :: sizes[j].0 != size
      case Some(price) =>
        exists k :: 0 <= k < |sizes| && sizes[k].0 == size && (forall j | 0 <= j < k :: sizes[j].0 != size) && sizes[k].1 == price
  {
    if sizes != [] && sizes[0].0 != size {
      ListedPrice(sizes[1..], size);
      assert forall j | 1 <= j < |sizes| :: sizes[j] == sizes[1..][j - 1];
      if FindCupSize(sizes, size).Some? {
        var k :| 0 <= k < |sizes| - 1 && sizes[1..][k].0 == size && (forall j | 0 <= j < k :: sizes[1..][j].0 != size)
                 && sizes[1..][k].1 == FindCupSize(sizes, size).value;
        assert sizes[k + 1].0 == size;
      }
    }
  }

  lemma TotalIs(m: Machine, e: Entry)
    requires e.record.Some?
    ensures Costs(e.record.value, CupSizeOf(m, e), e.quantity, TotalFor(m, e))
  {
    var size := CupSizeOf(m, e);
    if size.Some? { ListedPrice(e.record.value.cupSizes, size.value); }
  }

  lemma PublishedSettings(m: Machine, e: Entry)
    requires e.record.Some?
    ensures
      var calib := PublishEntry(m, e, CupSizeOf(m, e));
      Calibrated(m, e, CupSizeOf(m, e), NozzleOf(m, e), WaterOf(calib), PowderOf(calib))
  {
    var size := CupSizeOf(m, e);
    var vol := if e.vol.Some? then e.vol.value else size.GetOr("");
    var p := (c: Timers.Calibration) => c.item == e.itemId && (SameVolume(c, vol) || Some(c.cupSize) == size);
    FirstCalibrationSpec(m.calibration, p, e, Some(vol), size);
  }

  lemma PreflightIsTrue(m: Machine, e: Entry)
    ensures Preflight(m, e).Some? ==> Excused(m, e, Failure(e.itemId, Preflight(m, e).value))
    ensures Preflight(m, e).None? ==> e.record.Some? && e.record.value.available
    ensures Preflight(m, e).None? && !m.isFood ==>
              var calib := PublishEntry(m, e, CupSizeOf(m, e)); WaterOf(calib) >= PowderOf(calib) + 100
  {
    if e.record.Some? {
      CupSizeIs(m, e);
      PublishedSettings(m, e);
      LookupsAgree(m, e, CupSizeOf(m, e));
    }
  }

  lemma SuccessIsTrue(m: Machine, e: Entry, no: nat)
    requires Preflight(m, e).None?
    ensures e.record.Some? && Earned(m, e, Success(e.itemId, no, TotalFor(m, e), NozzleOf(m, e), PublishedTimers(m, e)))
  {
    PreflightIsTrue(m, e);
    CupSizeIs(m, e);
    TotalIs(m, e);
    PublishedSettings(m, e);
  }

  /** What a turn lists: a refusal before the charge, a failure after it, or a success at the entry's price. */
  lemma TurnLists(d: Desk, q: LegacyRequest, m: Machine, e: Entry, f: LegacyFaults)
    ensures
      var t := TakeTurn(d, q, m, e, f).1;
      && (t.Skipped? <==> e.itemId == "")
      && (t.Listed? ==>
            if Preflight(m, e).Some? then t.result == Failure(e.itemId, Preflight(m, e).value)
            else if t.result.Failure? then t.result.itemId == e.itemId && (t.result.reason.NotCharged? || t.result.reason.Unreachable?)
            else e.record.Some?
                 && t.result == Success(e.itemId, d.nextNo, TotalFor(m, e), NozzleOf(m, e), PublishedTimers(m, e)))
  {
  }

  lemma TurnIsTrue(d: Desk, q: LegacyRequest, m: Machine, e: Entry, f: LegacyFaults)
    ensures TakeTurn(d, q, m, e, f).1.Skipped? <==> e.itemId == ""
    ensures TakeTurn(d, q, m, e, f).1.Listed? ==> TrueOf(m, e, TakeTurn(d, q, m, e, f).1.result)
  {
    TurnLists(d, q, m, e, f);
    PreflightIsTrue(m, e);
    if Preflight(m, e).None? { SuccessIsTrue(m, e, d.nextNo); }
  }

  /** The fleet after an entry is served: on a food machine its units are gone if a batch offers them, and nothing else changes. */
  ghost predicate Served(ms: Fleet, ms': Fleet, id: MachineId, e: Entry, takes: bool)
    requires id in ms
  {
    && ms'.Keys == ms.Keys && (forall k | k in ms && k != id :: ms'[k] == ms[k])
    && ms'[id] == ms[id].(batches := ms'[id].batches)
    && forall item :: Units(ms'[id].batches, item) == Units(ms[id].batches, item) - if item == e.itemId && takes then e.quantity else 0
  }

  predicate Offered(bs: seq<Batch>, e: Entry) {
    exists b | b in bs :: b.item == e.itemId && b.status == Active && b.quantity >= e.quantity
  }

  lemma FoodTaken(ms: Fleet, q: LegacyRequest, m: Machine, e: Entry, f: LegacyFaults)
    requires q.machine in ms && UniqueIds(ms[q.machine].batches)
    ensures Served(ms, TakeFood(ms, q, m, e, f), q.machine, e, m.isFood && !f.allocate && Offered(ms[q.machine].batches, e))
  {
    var bs := ms[q.machine].batches;
    PrecheckMatchesAllocator(bs, e.itemId, e.quantity);
    ServingSpec(bs, e.itemId, e.quantity);
    assert Deduct(bs, e.itemId, e.quantity).Some? <==> Offered(bs, e);
    if Deduct(bs, e.itemId, e.quantity).Some? {
      forall item { DeductUnits(bs, e.itemId, e.quantity, item); }
    }
  }

  /** A success stores a paid, dispensing order of its entry at the price it deducted, and takes the units of food a batch offers. */
  lemma SuccessStores(d: Desk, q: LegacyRequest, m: Machine, e: Entry, f: LegacyFaults)
    requires TakeTurn(d, q, m, e, f).1.Listed? && TakeTurn(d, q, m, e, f).1.result.Success?
    requires q.machine in d.s.machines && UniqueIds(d.s.machines[q.machine].batches)
    ensures
      var (d', t) := TakeTurn(d, q, m, e, f);
      && d'.s.orders == d.s.orders + [Order(q.payer, q.machine, e.itemId, e.quantity, t.result.deducted, Dispensing, Paid, q.now)]
      && Served(d.s.machines, d'.s.machines, q.machine, e, m.isFood && !f.allocate && Offered(d.s.machines[q.machine].batches, e))
  {
    FoodTaken(d.s.machines, q, m, e, f);
  }

  /** The entries that name an item: the others are passed over. */
  function Named(entries: seq<Entry>): seq<Entry> {
    if entries == [] then []
    else Named(entries[..|entries| - 1]) + if entries[|entries| - 1].itemId == "" then [] else [entries[|entries| - 1]]
  }

  /** One result for each entry that names an item, in the order of the request, until a call throws. */
  ghost predicate AnswersInOrder(m: Machine, entries: seq<Entry>, p: Progress) {
    && |p.results| <= |Named(entries)| && (p.error.None? ==> |p.results| == |Named(entries)|)
    && forall i | 0 <= i < |p.results| :: TrueOf(m, Named(entries)[i], p.results[i])
  }

  /** Whatever fails, each result the loop lists is true of its entry: price, nozzle and timers of a success, reason of a refusal. */
  lemma {:induction false} EveryResultIsTrue(d: Desk, q: LegacyRequest, m: Machine, fs: seq<LegacyFaults>, k: nat)
    requires k <= |q.entries| == |fs|
    ensures AnswersInOrder(m, q.entries[..k], Process(d, q, m, fs, k))
  {
    if k > 0 {
      EveryResultIsTrue(d, q, m, fs, k - 1);
      assert q.entries[..k][..k - 1] == q.entries[..k - 1];
      var p := Process(d, q, m, fs, k - 1);
      TurnIsTrue(p.desk, q, m, q.entries[k - 1], fs[k - 1]);
    }
  }

  // ─── The whole call ────────────────────────────────────────────────────────

  datatype Reply = Declined(error: OrderError) | Answered(results: seq<Result>) | Broke(error: OrderError)

  function LegacyCheck(s: State, q: LegacyRequest, c: CallFaults): Option<OrderError> {
    if q.machine !in s.machines then Some(UnknownMachine)
    else
      var m := s.machines[q.machine];
      if !m.isOnline then Some(MachineOffline)
      else if m.sleepMode then Some(MachineAsleep)
      else if !m.isFood && m.water != "" && m.water != "present" then Some(NoWater)
      else if c.queue then Some(Database)
      else if Occupied(s.orders, q.machine) then Some(MachineBusy)
      else None
  }

  predicate AnySuccess(results: seq<Result>) { exists i | 0 <= i < |results| :: results[i].Success? }

  /** The call has what it needs and cancels the user's pending orders. */
  predicate LegacyCancels(q: LegacyRequest, c: CallFaults) {
    q.user != "" && q.machine != "" && q.firstItemId != "" && !c.cancel
  }

  function Cancelled(s: State, q: LegacyRequest): State { s.(orders := CancelPending(s.orders, q.user, q.machine)) }

  /** The loop starts: the machine can be used and nobody occupies it. */
  predicate LegacyStarts(d: Desk, q: LegacyRequest, c: CallFaults) {
    LegacyCancels(q, c) && LegacyCheck(Cancelled(d.s, q), q, c).None?
  }

  /** The desk when the loop starts: a stale busy flag is cleared. */
  function LegacyStart(d: Desk, q: LegacyRequest, c: CallFaults): Desk
    requires q.machine in d.s.machines
  {
    var s1 := Cancelled(d.s, q);
    d.(s := if s1.machines[q.machine].isBusy then FreeUnless(s1, q.machine, c.clear) else s1)
  }

  /** Stale pending orders are cancelled first, even if the machine then turns out unusable. */
  function LegacyPlace(d: Desk, q: LegacyRequest, c: CallFaults, fs: seq<LegacyFaults>): (Desk, Reply)
    requires |fs| == |q.entries|
  {
    if q.user == "" || q.machine == "" || q.firstItemId == "" then (d, Declined(ItemNotFound))
    else if c.cancel then (d, Broke(Database))
    else
      match LegacyCheck(Cancelled(d.s, q), q, c)
      case Some(e) => (d.(s := Cancelled(d.s, q)), Declined(e))
      case None =>
        var p := Process(LegacyStart(d, q, c), q, d.s.machines[q.machine], fs, |fs|);
        if p.error.Some? then (p.desk, Broke(p.error.value))
        else if !AnySuccess(p.results) then (p.desk, Answered(p.results))
        else if c.busy then (p.desk, Broke(Database))
        else (p.desk.(s := p.desk.s.(machines := SetBusy(p.desk.s.machines, q.machine, true))), Answered(p.results))
  }

  /** The call is its loop, or a refusal. */
  lemma LegacyPlaceIsTheLoop(d: Desk, q: LegacyRequest, c: CallFaults, fs: seq<LegacyFaults>)
    requires |fs| == |q.entries|
    ensures
      var (d', reply) := LegacyPlace(d, q, c, fs);
      if LegacyStarts(d, q, c) then
        && q.machine in d.s.machines
        && (var p := Process(LegacyStart(d, q, c), q, d.s.machines[q.machine], fs, |fs|);
            && d'.s.orders == p.desk.s.orders && d'.s.ledger == p.desk.s.ledger && !reply.Declined?
            && (reply.Answered? ==> p.error.None? && reply.results == p.results))
      else
        && !reply.Answered? && d'.s.ledger == d.s.ledger && d'.nextNo == d.nextNo && d'.s.machines == d.s.machines
        && d'.s.orders == if LegacyCancels(q, c) then Cancelled(d.s, q).orders else d.s.orders
  {
  }

  /** An answered call charges the payer exactly for the successes it reports. */
  lemma AnsweredCallChargesForSuccesses(d: Desk, q: LegacyRequest, c: CallFaults, fs: seq<LegacyFaults>)
    requires |fs| == |q.entries| && FreshNumbers(d) && q.payer in d.s.ledger.balances
    requires forall i | 0 <= i < |fs| :: fs[i].deduct != DebitInsertAndRestoreFail
    requires LegacyPlace(d, q, c, fs).1.Answered?
    ensures
      var (d', reply) := LegacyPlace(d, q, c, fs);
      && q.payer in d'.s.ledger.balances
      && d.s.ledger.balances[q.payer] - d'.s.ledger.balances[q.payer] == Deducted(reply.results)
      && forall i | 0 <= i < |reply.results| :: CommandLeads(reply.results[i])
  {
    LegacyPlaceIsTheLoop(d, q, c, fs);
    var start, m := LegacyStart(d, q, c), d.s.machines[q.machine];
    LegacyChargesForSuccessesIff(start, q, m, fs);
    EveryPublishedCommandLeads(start, q, m, fs, |fs|);
  }

  /** The results a call answers with are true of its entries, one by one. */
  lemma AnsweredResultsAreTrue(d: Desk, q: LegacyRequest, c: CallFaults, fs: seq<LegacyFaults>)
    requires |fs| == |q.entries| && LegacyPlace(d, q, c, fs).1.Answered?
    ensures
      var results := LegacyPlace(d, q, c, fs).1.results;
      && q.machine in d.s.machines && |results| == |Named(q.entries)|
      && forall i | 0 <= i < |results| :: TrueOf(d.s.machines[q.machine], Named(q.entries)[i], results[i])
  {
    LegacyPlaceIsTheLoop(d, q, c, fs);
    EveryResultIsTrue(LegacyStart(d, q, c), q, d.s.machines[q.machine], fs, |fs|);
    assert q.entries[..|fs|] == q.entries;
  }

  lemma TurnKeepsFlags(d: Desk, q: LegacyRequest, m: Machine, e: Entry, f: LegacyFaults, id: MachineId)
    requires id in d.s.machines
    ensures
      var ms := TakeTurn(d, q, m, e, f).0.s.machines;
      id in ms && ms[id].isBusy == d.s.machines[id].isBusy
  {
  }

  lemma {:induction false} LoopKeepsFlags(d: Desk, q: LegacyRequest, m: Machine, fs: seq<LegacyFaults>, k: nat, id: MachineId)
    requires k <= |q.entries| == |fs| && id in d.s.machines
    ensures
      var ms := Process(d, q, m, fs, k).desk.s.machines;
      id in ms && ms[id].isBusy == d.s.machines[id].isBusy
  {
    if k > 0 {
      LoopKeepsFlags(d, q, m, fs, k - 1, id);
      TurnKeepsFlags(Process(d, q, m, fs, k - 1).desk, q, m, q.entries[k - 1], fs[k - 1], id);
    }
  }

  /** An answered call leaves its machine busy exactly when something was sold, or a stale flag could not be cleared. */
  lemma BusyIffSold(d: Desk, q: LegacyRequest, c: CallFaults, fs: seq<LegacyFaults>)
    requires |fs| == |q.entries| && LegacyPlace(d, q, c, fs).1.Answered?
    ensures
      var (d', reply) := LegacyPlace(d, q, c, fs);
      && q.machine in d.s.machines && q.machine in d'.s.machines
      && (d'.s.machines[q.machine].isBusy <==>
            || (exists i | 0 <= i < |reply.results| :: reply.results[i].Success?)
            || (d.s.machines[q.machine].isBusy && c.clear))
  {
    LegacyPlaceIsTheLoop(d, q, c, fs);
    LoopKeepsFlags(LegacyStart(d, q, c), q, d.s.machines[q.machine], fs, |fs|, q.machine);
  }
}
