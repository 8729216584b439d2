/** Calibration timers: the water timer must lead the powder timer by at least 100 ms. */
module Timers {
  import opened Common
  import opened Arithmetic

  const LEAD := 100
  const DEFAULT_WATER := 5000
  const DEFAULT_POWDER := 3000

  datatype Calibration = Calibration(
    item: string, cupSize: string, nozzle: int, water: Option<int>, powder: Option<int>, volMl: int, volGram: int)

  predicate Leads(water: int, powder: int) { water >= powder + LEAD }

  /** A stored entry respects the hardware constraint when it has both timers. */
  predicate EntryLeads(c: Calibration) {
    c.water.Some? && c.powder.Some? ==> Leads(c.water.value, c.powder.value)
  }

  ghost predicate AllLead(cal: seq<Calibration>) {
    forall i | 0 <= i < |cal| :: EntryLeads(cal[i])
  }

  datatype CalibrationUpdate = CalibrationUpdate(
    item: string, cupSize: string, nozzle: Option<int>,
    water: Option<int>, powder: Option<int>, volMl: Option<int>, volGram: Option<int>)

  /** Powder flows at 6 g/s. A measured weight replaces the powder timer of the request. */
  function PowderTimer(u: CalibrationUpdate): Option<int> {
    if u.volGram.Some? && u.volGram.value > 0 then Some(RoundDiv(1000 * u.volGram.value, 6)) else u.powder
  }

  /** Water flows at 18.5 ml/s. A measured volume replaces the water timer of the request. */
  function WaterTimer(u: CalibrationUpdate): Option<int> {
    if u.volMl.Some? && u.volMl.value > 0 then Some(RoundDiv(2000 * u.volMl.value, 37)) else u.water
  }

  function FindEntry(cal: seq<Calibration>, item: string, cupSize: string): nat {
    FirstIndex(cal, (c: Calibration) => c.item == item && c.cupSize == cupSize)
  }

  function OrElse(a: Option<int>, b: Option<int>): Option<int> { if a.Some? then a else b }

  /** None when the request's own timers break the constraint. Fields left out keep their stored value. */
  function UpdateCalibration(cal: seq<Calibration>, u: CalibrationUpdate): Option<seq<Calibration>> {
    var w, p := WaterTimer(u), PowderTimer(u);
    if w.Some? && p.Some? && !Leads(w.value, p.value) then None
    else
      var i := FindEntry(cal, u.item, u.cupSize);
      if i < |cal| then
        Some(cal[i := cal[i].(nozzle := u.nozzle.GetOr(cal[i].nozzle),
                              water := OrElse(w, cal[i].water), powder := OrElse(p, cal[i].powder),
                              volMl := u.volMl.GetOr(cal[i].volMl), volGram := u.volGram.GetOr(cal[i].volGram))])
      else
        Some(cal + [Calibration(u.item, u.cupSize, u.nozzle.GetOr(1), w, p, u.volMl.GetOr(0), u.volGram.GetOr(0))])
  }

  /** `t` is `n / d` to the nearest whole number, a half going up. */
  predicate Nearest(t: int, n: int, d: int) { -d < 2 * (t * d - n) <= d }

  lemma RoundDivIsNearest(n: int, d: int)
    requires d > 0
    ensures Nearest(RoundDiv(n, d), n, d)
  {
    DivBounds(2 * n + d, 2 * d);
    var t := RoundDiv(n, d);
    assert (2 * d) * t == 2 * (t * d);
  }

  /**
   * An accepted update writes the first entry of the item and cup size, or a new one at the end. A weight
   * gives the powder timer at 6 g/s and a volume the water timer at 18.5 ml/s, to the nearest millisecond;
   * what the request leaves out keeps its stored value, or is nozzle 1 and volumes 0 in a new entry.
   */
  lemma CalibrationAfterUpdate(cal: seq<Calibration>, u: CalibrationUpdate, i: nat)
    requires UpdateCalibration(cal, u).Some?
    requires i <= |cal| && forall j | 0 <= j < i :: cal[j].item != u.item || cal[j].cupSize != u.cupSize
    requires i < |cal| ==> cal[i].item == u.item && cal[i].cupSize == u.cupSize
    ensures
      var cal' := UpdateCalibration(cal, u).value;
      var was := if i < |cal| then cal[i] else Calibration(u.item, u.cupSize, 1, None, None, 0, 0);
      && |cal'| == Max(|cal|, i + 1) && (forall j | 0 <= j < |cal| && j != i :: cal'[j] == cal[j])
      && cal'[i].item == u.item && cal'[i].cupSize == u.cupSize && cal'[i].nozzle == u.nozzle.GetOr(was.nozzle)
      && cal'[i].volMl == u.volMl.GetOr(was.volMl) && cal'[i].volGram == u.volGram.GetOr(was.volGram)
      && (if u.volMl.GetOr(0) > 0 then cal'[i].water.Some? && Nearest(cal'[i].water.value, 2000 * u.volMl.value, 37)
          else cal'[i].water == if u.water.Some? then u.water else was.water)
      && (if u.volGram.GetOr(0) > 0 then cal'[i].powder.Some? && Nearest(cal'[i].powder.value, 1000 * u.volGram.value, 6)
          else cal'[i].powder == if u.powder.Some? then u.powder else was.powder)
  {
    assert FindEntry(cal, u.item, u.cupSize) == i;
    if u.volMl.Some? { RoundDivIsNearest(2000 * u.volMl.value, 37); }
    if u.volGram.Some? { RoundDivIsNearest(1000 * u.volGram.value, 6); }
  }

  /** A lone new timer is compatible with the timer it will be stored beside. */
  predicate LoneTimerFits(cal: seq<Calibration>, u: CalibrationUpdate) {
    var i := FindEntry(cal, u.item, u.cupSize);
    var w, p := WaterTimer(u), PowderTimer(u);
    && (i < |cal| && w.Some? && p.None? && cal[i].powder.Some? ==> Leads(w.value, cal[i].powder.value))
    && (i < |cal| && p.Some? && w.None? && cal[i].water.Some? ==> Leads(cal[i].water.value, p.value))
  }

  /** An accepted update keeps the constraint on every stored entry exactly when a lone timer fits the stored one. */
  lemma UpdateKeepsLeadIff(cal: seq<Calibration>, u: CalibrationUpdate)
    requires AllLead(cal) && UpdateCalibration(cal, u).Some?
    ensures AllLead(UpdateCalibration(cal, u).value) <==> LoneTimerFits(cal, u)
  {
    var cal' := UpdateCalibration(cal, u).value;
    var i := FindEntry(cal, u.item, u.cupSize);
    if i < |cal| {
      assert forall j | 0 <= j < |cal| && j != i :: cal'[j] == cal[j];
      assert EntryLeads(cal[i]);
      assert EntryLeads(cal'[i]) <==> LoneTimerFits(cal, u);
    } else {
      assert forall j | 0 <= j < |cal| :: cal'[j] == cal[j];
      assert cal'[|cal|].water == WaterTimer(u) && cal'[|cal|].powder == PowderTimer(u);
    }
  }

  /** A request with both timers, as the request schema demands. */
  predicate Complete(u: CalibrationUpdate) { u.water.Some? && u.powder.Some? }

  /** Both timers are stored, and they lead. */
  predicate Sure(c: Calibration) { c.water.Some? && c.powder.Some? && Leads(c.water.value, c.powder.value) }

  ghost predicate AllSure(cal: seq<Calibration>) { forall i | 0 <= i < |cal| :: Sure(cal[i]) }

  /** A complete request is accepted exactly when the timers it comes to lead, and then every entry has both timers and leads. */
  lemma CompleteUpdateKeepsLead(cal: seq<Calibration>, u: CalibrationUpdate)
    requires Complete(u)
    ensures UpdateCalibration(cal, u).Some? <==> Leads(WaterTimer(u).value, PowderTimer(u).value)
    ensures UpdateCalibration(cal, u).Some? && AllLead(cal) ==> AllLead(UpdateCalibration(cal, u).value)
    ensures UpdateCalibration(cal, u).Some? && AllSure(cal) ==> AllSure(UpdateCalibration(cal, u).value)
  {
    if UpdateCalibration(cal, u).Some? && AllLead(cal) { UpdateKeepsLeadIff(cal, u); }
  }

  /** The stored calibration after a run of requests; a refused one changes nothing. */
  function Updates(cal: seq<Calibration>, us: seq<CalibrationUpdate>): seq<Calibration>
    decreases |us|
  {
    if us == [] then cal
    else
      var next := UpdateCalibration(cal, us[0]);
      Updates(if next.Some? then next.value else cal, us[1..])
  }

  lemma {:induction false} UpdatesKeepSure(cal: seq<Calibration>, us: seq<CalibrationUpdate>)
    requires AllSure(cal) && forall k | 0 <= k < |us| :: Complete(us[k])
    ensures AllSure(Updates(cal, us))
    decreases |us|
  {
    if us != [] {
      assert Complete(us[0]);
      CompleteUpdateKeepsLead(cal, us[0]);
      var next := UpdateCalibration(cal, us[0]);
      UpdatesKeepSure(if next.Some? then next.value else cal, us[1..]);
    }
  }

  /** The schema refuses a request with one timer; without it, a powder timer alone would break a stored entry. */
  lemma LoneTimerBreaksLead()
    ensures
      var cal := [Calibration("latte", "small", 1, Some(5000), Some(3000), 0, 0)];
      var u := CalibrationUpdate("latte", "small", None, None, Some(6000), None, None);
      AllLead(cal) && UpdateCalibration(cal, u).Some? && !AllLead(UpdateCalibration(cal, u).value)
  {
    var cal := [Calibration("latte", "small", 1, Some(5000), Some(3000), 0, 0)];
    var u := CalibrationUpdate("latte", "small", None, None, Some(6000), None, None);
    assert FindEntry(cal, "latte", "small") == 0;
    assert !EntryLeads(UpdateCalibration(cal, u).value[0]);
  }

  // ─── Rounding for the firmware ─────────────────────────────────────────────

  function Round100(t: int): int { RoundDiv(t, 100) * 100 }

  /** Rounding is to the nearest multiple of 100 and keeps the lead, for all integers. */
  lemma RoundingKeepsLead(water: int, powder: int)
    ensures Round100(powder) % 100 == 0 && -50 < Round100(powder) - powder <= 50
    ensures Leads(water, powder) ==> Leads(Round100(water), Round100(powder))
  {
    DivBounds(2 * powder + 100, 200);
    DivShift(2 * powder + 100, 200, 1);
    if Leads(water, powder) {
      DivMonotone(2 * (powder + 100) + 100, 2 * water + 100, 200);
    }
  }

  /** The order path: rejects an entry whose two timers mismatch, else publishes rounded timers with defaults. */
  function PublishTimers(entry: Option<Calibration>): Option<(int, int)> {
    if entry.Some? && !EntryLeads(entry.value) then None
    else
      var w := if entry.Some? then entry.value.water else None;
      var p := if entry.Some? then entry.value.powder else None;
      Some((Round100(w.GetOr(DEFAULT_WATER)), Round100(p.GetOr(DEFAULT_POWDER))))
  }

  /**
   * The order path rejects exactly the entries whose two timers do not lead. What it publishes leads
   * exactly when the entry has both timers or neither, or its only timer fits beside the default.
   */
  lemma PublishedLeadIff(entry: Option<Calibration>)
    ensures PublishTimers(entry).None? <==> entry.Some? && !EntryLeads(entry.value)
    ensures PublishTimers(entry).Some? ==>
              (Leads(PublishTimers(entry).value.0, PublishTimers(entry).value.1) <==>
                 || entry.None?
                 || (entry.value.water.Some? <==> entry.value.powder.Some?)
                 || (entry.value.powder.None? && entry.value.water.value >= 3050)
                 || (entry.value.water.None? && entry.value.powder.value < 4950))
  {
    assert Round100(DEFAULT_WATER) == 5000 && Round100(DEFAULT_POWDER) == 3000;
    if entry.Some? && PublishTimers(entry).Some? {
      var w, p := entry.value.water, entry.value.powder;
      if w.Some? && p.Some? {
        RoundingKeepsLead(w.value, p.value);
      } else if w.Some? {
        RoundSide(w.value, 3050, 31);
      } else if p.Some? {
        RoundSide(p.value, 4950, 50);
      }
    }
  }

  /** After any run of complete requests the order path refuses no item for its timers, and publishes only timers that lead. */
  lemma EveryUpdateRunPublishesLead(us: seq<CalibrationUpdate>, item: string, cupSize: string)
    requires forall k | 0 <= k < |us| :: Complete(us[k])
    ensures
      var cal := Updates([], us);
      var i := FindEntry(cal, item, cupSize);
      var timers := PublishTimers(if i < |cal| then Some(cal[i]) else None);
      timers.Some? && Leads(timers.value.0, timers.value.1)
  {
    UpdatesKeepSure([], us);
    var cal := Updates([], us);
    var i := FindEntry(cal, item, cupSize);
    var entry := if i < |cal| then Some(cal[i]) else None;
    PublishedLeadIff(entry);
  }

  lemma PublishedRound(entry: Option<Calibration>)
    requires PublishTimers(entry).Some?
    ensures PublishTimers(entry).value.0 % 100 == 0 && PublishTimers(entry).value.1 % 100 == 0
  {
    var w := if entry.Some? then entry.value.water else None;
    var p := if entry.Some? then entry.value.powder else None;
    RoundingKeepsLead(0, w.GetOr(DEFAULT_WATER));
    RoundingKeepsLead(0, p.GetOr(DEFAULT_POWDER));
  }

  lemma RoundSide(t: int, edge: int, k: int)
    requires edge == 100 * k - 50
    ensures Round100(t) >= 100 * k <==> t >= edge
  {
    DivBounds(2 * t + 100, 200);
    DivUnique(2 * edge + 100, 200, k);
    if t >= edge { DivMonotone(2 * edge + 100, 2 * t + 100, 200); }
  }
}
