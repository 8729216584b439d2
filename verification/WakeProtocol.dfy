/**
 * The retained wake message of one machine. Status callbacks, the silence sweep and manual writes
 * interleave one database step at a time; a callback that brings the machine online clears the message.
 */
module WakeProtocol {
  import opened Common

  datatype Reported = Online | Offline | Busy | Unstated

  /** A status message; `sleepAck` is the error text that confirms sleep mode. */
  datatype Report = Report(status: Reported, sleepAck: bool) {
    /** Only these reports try the offline-to-online transition. */
    predicate Connects() { !sleepAck && status == Online }

    /** What the callback's last write stores. */
    function Stored(): bool { !sleepAck && status != Offline }
  }

  datatype Phase =
    | Arrived     // nothing written yet
    | Won         // the conditional update matched; the clear is still to come
    | Finishing   // the last write is still to come
    | Done

  datatype Callback = Callback(report: Report, phase: Phase)

  /** What happened to the online field and to the retained message, in order. */
  datatype Mark = Write(before: bool, after: bool, winner: Option<nat>) | Clear(id: nat)

  datatype State = State(online: bool, sleep: bool, flush: bool, lastSeen: int, callbacks: seq<Callback>, trace: seq<Mark>)

  datatype Event =
    | Arrive(report: Report)
    | Step(id: nat, ok: bool, now: int)
    | SilenceSweep(cutoff: int)
    | SetOnline(value: bool)
    | SetModes(sleepMode: bool, flushMode: bool)

  function SetField(s: State, value: bool, winner: Option<nat>): State {
    s.(online := value, trace := s.trace + [Write(s.online, value, winner)])
  }

  function Enter(s: State, id: nat, phase: Phase): State
    requires id < |s.callbacks|
  {
    s.(callbacks := s.callbacks[id := s.callbacks[id].(phase := phase)])
  }

  /** The next step of one callback. A failing database operation ends it. */
  function Advance(s: State, id: nat, ok: bool, now: int): State
    requires id < |s.callbacks|
  {
    var r := s.callbacks[id].report;
    match s.callbacks[id].phase
    case Arrived =>
      if !r.Connects() then Enter(s, id, Finishing)
      else if !ok then Enter(s, id, Done)
      else if !s.online then SetField(Enter(s, id, Won), true, Some(id)).(sleep := false)
      else Enter(s, id, Finishing)
    case Won => Enter(s, id, Finishing).(trace := s.trace + [Clear(id)])
    case Finishing =>
      if !ok then Enter(s, id, Done)
      else
        SetField(Enter(s, id, Done), r.Stored(), None)
          .(lastSeen := now, sleep := if r.sleepAck then true else if r.status == Online then false else s.sleep)
    case Done => s
  }

  predicate Silent(s: State, cutoff: int) { s.online && !s.sleep && !s.flush && s.lastSeen < cutoff }

  function Apply(s: State, e: Event): State {
    match e
    case Arrive(r) => s.(callbacks := s.callbacks + [Callback(r, Arrived)])
    case Step(id, ok, now) => if id < |s.callbacks| then Advance(s, id, ok, now) else s
    case SilenceSweep(cutoff) => if Silent(s, cutoff) then SetField(s, false, None) else s
    case SetOnline(value) => SetField(s, value, None)
    case SetModes(sleepMode, flushMode) => s.(sleep := sleepMode, flush := flushMode)
  }

  function Run(s: State, events: seq<Event>): State
    decreases |events|
  {
    if events == [] then s else Run(Apply(s, events[0]), events[1..])
  }

  // ─── One report, and one sweep ─────────────────────────────────────────────

  /** The steps of one callback with nothing in between. */
  function Alone(s: State, r: Report, now: int): State {
    var next := Step(|s.callbacks|, true, now);
    Apply(Apply(Apply(Apply(s, Arrive(r)), next), next), next)
  }

  /**
   * A report handled alone leaves the machine online unless it says offline or confirms sleep, asleep if it
   * confirms sleep and awake if it says online, and clears the message exactly when it says online of a
   * machine that was offline.
   */
  lemma ReportAlone(s: State, r: Report, now: int)
    ensures
      var s' := Alone(s, r, now);
      && (s'.online <==> !r.sleepAck && r.status != Offline)
      && (s'.sleep <==> r.sleepAck || (s.sleep && r.status != Online))
      && s'.flush == s.flush && s'.lastSeen == now
      && s.trace <= s'.trace
      && ((exists k | |s.trace| <= k < |s'.trace| :: s'.trace[k].Clear?) <==> !s.online && r.status == Online && !r.sleepAck)
  {
    var s' := Alone(s, r, now);
    if r.Connects() && !s.online {
      assert s'.trace == s.trace + [Write(false, true, Some(|s.callbacks|))] + [Clear(|s.callbacks|)] + [Write(true, true, None)];
      assert s'.trace[|s.trace| + 1].Clear?;
    } else {
      assert s'.trace == s.trace + [Write(s.online, r.Stored(), None)];
    }
  }

  /** The silence sweep takes a machine offline if and only if it was online, neither asleep nor flushing, and not heard of since. */
  lemma SilencedIff(s: State, cutoff: int)
    ensures
      var s' := Apply(s, SilenceSweep(cutoff));
      && (s.online && !s'.online <==> s.online && !s.sleep && !s.flush && s.lastSeen < cutoff)
      && (!s.online ==> s' == s) && s' == s.(online := s'.online, trace := s'.trace)
  {
  }

  /** A machine put to sleep or into flushing is not taken offline by the sweep, and one taken out of both is if it is silent. */
  lemma ModesShield(s: State, sleepMode: bool, flushMode: bool, cutoff: int)
    ensures Apply(Apply(s, SetModes(sleepMode, flushMode)), SilenceSweep(cutoff)).online
       <==> s.online && (sleepMode || flushMode || s.lastSeen >= cutoff)
  {
  }

  // ─── Reading the trace ─────────────────────────────────────────────────────

  /** The online field after the trace, starting from `init`. */
  function OnlineAfter(init: bool, trace: seq<Mark>): bool {
    if trace == [] then init
    else if trace[|trace| - 1].Write? then trace[|trace| - 1].after
    else OnlineAfter(init, trace[..|trace| - 1])
  }

  /** Every write saw the field as the writes before it left it, and a winning write turned it from false to true. */
  predicate Truthful(init: bool, trace: seq<Mark>) {
    trace == [] ||
    (var front, m := trace[..|trace| - 1], trace[|trace| - 1];
     && Truthful(init, front)
     && (m.Write? ==> m.before == OnlineAfter(init, front) && (m.winner.Some? ==> !m.before && m.after)))
  }

  function WinsOf(trace: seq<Mark>, id: nat): nat {
    if trace == [] then 0
    else WinsOf(trace[..|trace| - 1], id) + if trace[|trace| - 1].Write? && trace[|trace| - 1].winner == Some(id) then 1 else 0
  }

  function ClearsOf(trace: seq<Mark>, id: nat): nat {
    if trace == [] then 0 else ClearsOf(trace[..|trace| - 1], id) + if trace[|trace| - 1] == Clear(id) then 1 else 0
  }

  function Wins(trace: seq<Mark>): nat {
    if trace == [] then 0
    else Wins(trace[..|trace| - 1]) + if trace[|trace| - 1].Write? && trace[|trace| - 1].winner.Some? then 1 else 0
  }

  function Clears(trace: seq<Mark>): nat {
    if trace == [] then 0 else Clears(trace[..|trace| - 1]) + if trace[|trace| - 1].Clear? then 1 else 0
  }

  predicate WritesFalse(trace: seq<Mark>) {
    exists i | 0 <= i < |trace| :: trace[i].Write? && !trace[i].after
  }

  predicate Owes(s: State, id: nat) { id < |s.callbacks| && s.callbacks[id].phase == Won }

  /** Callbacks that have won and not cleared yet. */
  function Pending(callbacks: seq<Callback>): nat {
    if callbacks == [] then 0
    else Pending(callbacks[..|callbacks| - 1]) + if callbacks[|callbacks| - 1].phase == Won then 1 else 0
  }

  lemma {:induction false} PendingUpdate(cs: seq<Callback>, i: nat, c: Callback)
    requires i < |cs|
    ensures Pending(cs[i := c]) + (if cs[i].phase == Won then 1 else 0) == Pending(cs) + if c.phase == Won then 1 else 0
  {
    var n := |cs| - 1;
    if i == n {
      assert cs[i := c][..n] == cs[..n];
    } else {
      assert cs[i := c][..n] == cs[..n][i := c];
      PendingUpdate(cs[..n], i, c);
    }
  }

  /** The mark an event leaves. */
  function MarkOf(s: State, e: Event): Option<Mark> {
    match e
    case Step(id, ok, _) =>
      if id >= |s.callbacks| then None
      else
        var c := s.callbacks[id];
        if c.phase == Arrived && c.report.Connects() && ok && !s.online then Some(Write(false, true, Some(id)))
        else if c.phase == Won then Some(Clear(id))
        else if c.phase == Finishing && ok then Some(Write(s.online, c.report.Stored(), None))
        else None
    case SilenceSweep(cutoff) => if Silent(s, cutoff) then Some(Write(true, false, None)) else None
    case SetOnline(value) => Some(Write(s.online, value, None))
    case _ => None
  }

  function Append(trace: seq<Mark>, m: Option<Mark>): seq<Mark> { if m.Some? then trace + [m.value] else trace }

  /** An event appends its mark and sets the field to what the mark says. */
  lemma TraceGrows(s: State, e: Event)
    ensures Apply(s, e).trace == Append(s.trace, MarkOf(s, e))
    ensures Apply(s, e).online == if MarkOf(s, e).Some? && MarkOf(s, e).value.Write? then MarkOf(s, e).value.after else s.online
  {
  }

  lemma AppendMark(trace: seq<Mark>, m: Mark, init: bool, id: nat)
    ensures
      var t := trace + [m];
      && OnlineAfter(init, t) == (if m.Write? then m.after else OnlineAfter(init, trace))
      && (Truthful(init, t) <==>
            (Truthful(init, trace)
             && (m.Write? ==> m.before == OnlineAfter(init, trace) && (m.winner.Some? ==> !m.before && m.after))))
      && WinsOf(t, id) == WinsOf(trace, id) + (if m.Write? && m.winner == Some(id) then 1 else 0)
      && ClearsOf(t, id) == ClearsOf(trace, id) + (if m == Clear(id) then 1 else 0)
      && Wins(t) == Wins(trace) + (if m.Write? && m.winner.Some? then 1 else 0)
      && Clears(t) == Clears(trace) + (if m.Clear? then 1 else 0)
  {
  }

  // ─── What every interleaving keeps ─────────────────────────────────────────

  /** Compared with `start`, whose trace is empty: the field is what the trace says, and every clear is accounted for. */
  ghost predicate Accounted(start: State, s: State) {
    && Truthful(start.online, s.trace) && s.online == OnlineAfter(start.online, s.trace)
    && |start.callbacks| <= |s.callbacks|
    && Clears(s.trace) + Pending(s.callbacks) == Pending(start.callbacks) + Wins(s.trace)
    && forall id: nat :: CallbackAccounted(start, s, id)
  }

  /** A callback clears once for its own win, which it wins at most once. */
  ghost predicate CallbackAccounted(start: State, s: State, id: nat) {
    && ClearsOf(s.trace, id) + (if Owes(s, id) then 1 else 0) == WinsOf(s.trace, id) + (if Owes(start, id) then 1 else 0)
    && (WinsOf(s.trace, id) > 0 || Owes(start, id) ==> id < |s.callbacks| && s.callbacks[id].phase != Arrived)
    && WinsOf(s.trace, id) + (if Owes(start, id) then 1 else 0) <= 1
  }

  lemma StepKeepsTruth(start: State, s: State, e: Event)
    requires Truthful(start.online, s.trace) && s.online == OnlineAfter(start.online, s.trace)
    ensures Truthful(start.online, Apply(s, e).trace) && Apply(s, e).online == OnlineAfter(start.online, Apply(s, e).trace)
  {
    TraceGrows(s, e);
    if MarkOf(s, e).Some? { AppendMark(s.trace, MarkOf(s, e).value, start.online, 0); }
  }

  /** An event changes at most one callback, and adds new ones as they arrive. */
  lemma PendingAfter(s: State, e: Event)
    ensures
      var s' := Apply(s, e);
      var m := MarkOf(s, e);
      && |s.callbacks| <= |s'.callbacks|
      && Pending(s'.callbacks) + (if m.Some? && m.value.Clear? then 1 else 0)
         == Pending(s.callbacks) + (if m.Some? && m.value.Write? && m.value.winner.Some? then 1 else 0)
  {
    if e.Arrive? {
      assert (s.callbacks + [Callback(e.report, Arrived)])[..|s.callbacks|] == s.callbacks;
    } else if e.Step? && e.id < |s.callbacks| {
      PendingUpdate(s.callbacks, e.id, Apply(s, e).callbacks[e.id]);
    }
  }

  lemma StepKeepsTotal(s: State, e: Event)
    ensures
      var s' := Apply(s, e);
      && |s.callbacks| <= |s'.callbacks|
      && Clears(s'.trace) + Pending(s'.callbacks) + Wins(s.trace) == Clears(s.trace) + Pending(s.callbacks) + Wins(s'.trace)
  {
    TraceGrows(s, e);
    PendingAfter(s, e);
    if MarkOf(s, e).Some? { AppendMark(s.trace, MarkOf(s, e).value, false, 0); }
  }

  /** How one callback moves, and which marks carry its number. */
  lemma CallbackMoves(s: State, e: Event, id: nat)
    ensures
      var s', m := Apply(s, e), MarkOf(s, e);
      && (id < |s.callbacks| ==> id < |s'.callbacks| && (s.callbacks[id].phase != Arrived ==> s'.callbacks[id].phase != Arrived))
      && (m == Some(Clear(id)) ==> Owes(s, id) && !Owes(s', id))
      && (m.Some? && m.value.Write? && m.value.winner == Some(id) ==>
            id < |s.callbacks| && s.callbacks[id].phase == Arrived && Owes(s', id))
      && (m != Some(Clear(id)) && !(m.Some? && m.value.Write? && m.value.winner == Some(id)) ==> Owes(s', id) == Owes(s, id))
  {
  }

  lemma StepKeepsCallback(start: State, s: State, e: Event, id: nat)
    requires CallbackAccounted(start, s, id)
    ensures CallbackAccounted(start, Apply(s, e), id)
  {
    TraceGrows(s, e);
    CallbackMoves(s, e, id);
    if MarkOf(s, e).Some? { AppendMark(s.trace, MarkOf(s, e).value, start.online, id); }
  }

  lemma {:induction false} RunKeepsAccount(start: State, s: State, events: seq<Event>)
    requires Accounted(start, s)
    ensures Accounted(start, Run(s, events))
    decreases |events|
  {
    if events != [] {
      var e := events[0];
      StepKeepsTruth(start, s, e);
      StepKeepsTotal(s, e);
      forall id: nat ensures CallbackAccounted(start, Apply(s, e), id) { StepKeepsCallback(start, s, e, id); }
      RunKeepsAccount(start, Apply(s, e), events[1..]);
    }
  }

  /**
   * From any state and in every interleaving: every winning write is a false-to-true flip of the field
   * as the earlier writes left it; a callback clears at most once, and only for its own win; and the
   * clears are the wins, give or take the wins whose clear is still to come.
   */
  lemma EveryInterleavingAccounts(start: State, events: seq<Event>)
    requires start.trace == []
    ensures Accounted(start, Run(start, events))
  {
    RunKeepsAccount(start, start, events);
  }

  /** A stretch with no write of false holds at most one win, and none if it starts online. */
  lemma {:induction false} OneWinPerOnlineStretch(init: bool, trace: seq<Mark>)
    requires Truthful(init, trace) && !WritesFalse(trace)
    ensures Wins(trace) <= 1 && (init ==> Wins(trace) == 0) && (Wins(trace) == 1 || init ==> OnlineAfter(init, trace))
  {
    if trace != [] {
      var front, m := trace[..|trace| - 1], trace[|trace| - 1];
      assert forall i | 0 <= i < |front| :: front[i] == trace[i];
      assert trace[|trace| - 1] == m;
      OneWinPerOnlineStretch(init, front);
    }
  }

  /** Between two wins the field is written false. */
  lemma {:induction false} FalseBetweenWins(init: bool, trace: seq<Mark>, i: nat, j: nat)
    requires Truthful(init, trace) && i < j < |trace|
    requires trace[i].Write? && trace[i].winner.Some? && trace[j].Write? && trace[j].winner.Some?
    ensures exists k :: i < k < j && trace[k].Write? && !trace[k].after
  {
    var front := trace[..|trace| - 1];
    if j < |trace| - 1 {
      FalseBetweenWins(init, front, i, j);
      var k :| i < k < j && front[k].Write? && !front[k].after;
      assert trace[k] == front[k];
    } else {
      WinnersWriteTrue(init, front, i);
      LastWriteWasFalse(init, front, i);
    }
  }

  lemma {:induction false} WinnersWriteTrue(init: bool, trace: seq<Mark>, i: nat)
    requires Truthful(init, trace) && i < |trace| && trace[i].Write? && trace[i].winner.Some?
    ensures !trace[i].before && trace[i].after
  {
    if i < |trace| - 1 { WinnersWriteTrue(init, trace[..|trace| - 1], i); }
  }

  lemma {:induction false} LastWriteWasFalse(init: bool, trace: seq<Mark>, i: nat)
    requires i < |trace| && trace[i].Write? && trace[i].after && !OnlineAfter(init, trace)
    ensures exists k :: i < k < |trace| && trace[k].Write? && !trace[k].after
  {
    var n := |trace| - 1;
    if trace[n].Clear? {
      LastWriteWasFalse(init, trace[..n], i);
      var k :| i < k < n && trace[..n][k].Write? && !trace[..n][k].after;
      assert trace[k] == trace[..n][k];
    }
  }

  /**
   * While nothing writes false, the clears are at most one more than the wins that were still to be
   * cleared when the stretch began, and exactly the wins settled during it.
   */
  lemma ClearsBetweenFalseWrites(start: State, events: seq<Event>)
    requires start.trace == [] && !WritesFalse(Run(start, events).trace)
    ensures
      var s := Run(start, events);
      && Wins(s.trace) <= (if start.online then 0 else 1)
      && Clears(s.trace) == Pending(start.callbacks) + Wins(s.trace) - Pending(s.callbacks)
      && (Pending(start.callbacks) == 0 ==> Clears(s.trace) <= 1)
  {
    EveryInterleavingAccounts(start, events);
    OneWinPerOnlineStretch(start.online, Run(start, events).trace);
  }

  lemma {:induction false} PendingOne(cs: seq<Callback>) returns (i: nat)
    requires Pending(cs) >= 1
    ensures i < |cs| && cs[i].phase == Won
  {
    var n := |cs| - 1;
    if cs[n].phase == Won { i := n; } else { i := PendingOne(cs[..n]); }
  }

  lemma {:induction false} PendingTwo(cs: seq<Callback>) returns (i: nat, j: nat)
    requires Pending(cs) >= 2
    ensures i < j < |cs| && cs[i].phase == Won && cs[j].phase == Won
  {
    var n := |cs| - 1;
    if cs[n].phase == Won {
      j := n;
      i := PendingOne(cs[..n]);
    } else {
      i, j := PendingTwo(cs[..n]);
    }
  }

  lemma RunSplit(s: State, a: seq<Event>, b: seq<Event>)
    ensures Run(s, a + b) == Run(Run(s, a), b)
    decreases |a|
  {
    if a == [] {
      assert a + b == b;
    } else {
      assert (a + b)[1..] == a[1..] + b;
      RunSplit(Apply(s, a[0]), a[1..], b);
    }
  }

  lemma RunTwo(s: State, a: Event, b: Event)
    ensures Run(s, [a, b]) == Apply(Apply(s, a), b)
  {
    RunSplit(s, [a], [b]);
    assert [a] + [b] == [a, b] && [a][1..] == [] && [b][1..] == [];
  }

  lemma TwoClears(i: nat, j: nat)
    ensures Clears([Clear(i), Clear(j)]) == 2 && !WritesFalse([Clear(i), Clear(j)])
    ensures Clears([Write(false, true, Some(j)), Clear(i), Clear(j)]) == 2
    ensures !WritesFalse([Write(false, true, Some(j)), Clear(i), Clear(j)])
  {
    var w: Mark := Write(false, true, Some(j));
    AppendMark([], Clear(i), false, i);
    AppendMark([Clear(i)], Clear(j), false, j);
    AppendMark([], w, false, i);
    AppendMark([w], Clear(i), false, i);
    AppendMark([w, Clear(i)], Clear(j), false, j);
    assert [] + [Clear(i)] == [Clear(i)] && [Clear(i)] + [Clear(j)] == [Clear(i), Clear(j)];
    assert [] + [w] == [w] && [w] + [Clear(i)] == [w, Clear(i)] && [w, Clear(i)] + [Clear(j)] == [w, Clear(i), Clear(j)];
  }

  /** Two wins are still to be cleared: both clears can come with nothing between them. */
  lemma TwoOwedClears(start: State) returns (events: seq<Event>)
    requires start.trace == [] && Pending(start.callbacks) >= 2
    ensures !WritesFalse(Run(start, events).trace) && Clears(Run(start, events).trace) == 2
  {
    var i, j := PendingTwo(start.callbacks);
    events := [Step(i, true, 0), Step(j, true, 0)];
    RunTwo(start, Step(i, true, 0), Step(j, true, 0));
    assert Run(start, events).trace == [Clear(i), Clear(j)];
    TwoClears(i, j);
  }

  /** A win from an offline machine: the newest callback arrives and turns it online. */
  lemma NewcomerWins(start: State)
    requires !start.online
    ensures
      var n := |start.callbacks|;
      var s := Run(start, [Arrive(Report(Online, false)), Step(n, true, 0)]);
      && s.online && s.trace == start.trace + [Write(false, true, Some(n))]
      && s.callbacks == start.callbacks + [Callback(Report(Online, false), Won)]
  {
    var n, r := |start.callbacks|, Report(Online, false);
    RunTwo(start, Arrive(r), Step(n, true, 0));
    assert Apply(start, Arrive(r)) == start.(callbacks := start.callbacks + [Callback(r, Arrived)]);
  }

  lemma ClearsNow(s: State, i: nat, j: nat)
    requires i < j < |s.callbacks| && s.callbacks[i].phase == Won && s.callbacks[j].phase == Won
    ensures Run(s, [Step(i, true, 0), Step(j, true, 0)]).trace == s.trace + [Clear(i), Clear(j)]
  {
    RunTwo(s, Step(i, true, 0), Step(j, true, 0));
    assert s.trace + [Clear(i)] + [Clear(j)] == s.trace + [Clear(i), Clear(j)];
  }

  /** One win is still to be cleared and the machine is offline: its clear can meet that of the next win. */
  lemma OwedAndNextClear(start: State) returns (events: seq<Event>)
    requires start.trace == [] && Pending(start.callbacks) >= 1 && !start.online
    ensures !WritesFalse(Run(start, events).trace) && Clears(Run(start, events).trace) == 2
  {
    var n := |start.callbacks|;
    var p := PendingOne(start.callbacks);
    var wins, clears := [Arrive(Report(Online, false)), Step(n, true, 0)], [Step(p, true, 0), Step(n, true, 0)];
    events := wins + clears;
    NewcomerWins(start);
    ClearsNow(Run(start, wins), p, n);
    RunSplit(start, wins, clears);
    assert Run(start, events).trace == [Write(false, true, Some(n)), Clear(p), Clear(n)];
    TwoClears(p, n);
  }

  /** Unless the run writes false, it clears at most once. */
  predicate ClearsAtMostOnce(start: State, events: seq<Event>) {
    !WritesFalse(Run(start, events).trace) ==> Clears(Run(start, events).trace) <= 1
  }

  /**
   * No run without a write of false has two clears exactly when, at its start, at most one clear can come
   * of what is there: a win still to be cleared, or a machine offline and so free to be won.
   */
  lemma OneClearBetweenFalseWritesIff(start: State)
    requires start.trace == []
    ensures (forall events :: ClearsAtMostOnce(start, events)) <==> Pending(start.callbacks) + (if start.online then 0 else 1) <= 1
  {
    if Pending(start.callbacks) + (if start.online then 0 else 1) <= 1 {
      forall events ensures ClearsAtMostOnce(start, events) {
        if !WritesFalse(Run(start, events).trace) { ClearsBetweenFalseWrites(start, events); }
      }
    } else if Pending(start.callbacks) >= 2 {
      var events := TwoOwedClears(start);
      assert !ClearsAtMostOnce(start, events);
    } else {
      var events := OwedAndNextClear(start);
      assert !ClearsAtMostOnce(start, events);
    }
  }

  /**
   * A clear delayed past the next disconnection meets the next one, from an idle and offline machine: it
   * connects, is set offline before its callback clears, connects again, and then both callbacks clear.
   */
  lemma DelayedClearsMeet(start: State)
    requires start.trace == [] && !start.online && forall i | 0 <= i < |start.callbacks| :: start.callbacks[i].phase == Done
    ensures
      var p, q, r := |start.callbacks|, |start.callbacks| + 1, Report(Online, false);
      Run(start, [Arrive(r), Step(p, true, 0)] + [SetOnline(false)] + [Arrive(r), Step(q, true, 0)]
                 + [Step(p, true, 0), Step(q, true, 0)]).trace
      == [Write(false, true, Some(p)), Write(true, false, None), Write(false, true, Some(q)), Clear(p), Clear(q)]
  {
    var p, q, r := |start.callbacks|, |start.callbacks| + 1, Report(Online, false);
    var a, b, c, d := [Arrive(r), Step(p, true, 0)], [SetOnline(false)], [Arrive(r), Step(q, true, 0)], [Step(p, true, 0), Step(q, true, 0)];
    RunSplit(start, a + b + c, d);
    RunSplit(start, a + b, c);
    RunSplit(start, a, b);
    NewcomerWins(start);
    var s1 := Run(start, a);
    assert b[1..] == [] && Run(s1, b) == Apply(s1, SetOnline(false));
    var s2 := Run(s1, b);
    NewcomerWins(s2);
    ClearsNow(Run(s2, c), p, q);
  }

  /** Once every callback has finished, each win has had its clear: from an idle start, exactly one clear per win. */
  lemma QuietClearsMatchWins(start: State, events: seq<Event>)
    requires start.trace == [] && (forall i | 0 <= i < |start.callbacks| :: start.callbacks[i].phase == Done)
    requires forall i | 0 <= i < |Run(start, events).callbacks| :: Run(start, events).callbacks[i].phase == Done
    ensures Clears(Run(start, events).trace) == Wins(Run(start, events).trace)
  {
    EveryInterleavingAccounts(start, events);
    NonePending(start.callbacks);
    NonePending(Run(start, events).callbacks);
  }

  lemma {:induction false} NonePending(cs: seq<Callback>)
    requires forall i | 0 <= i < |cs| :: cs[i].phase == Done
    ensures Pending(cs) == 0
  {
    if cs != [] { NonePending(cs[..|cs| - 1]); }
  }

  // ─── Flips that owe no clear ───────────────────────────────────────────────

  /** Writes that turned the field from false to true. */
  function Flips(trace: seq<Mark>): nat {
    if trace == [] then 0
    else
      var m := trace[|trace| - 1];
      Flips(trace[..|trace| - 1]) + if m.Write? && !m.before && m.after then 1 else 0
  }

  lemma FlipsAppend(trace: seq<Mark>, m: Option<Mark>)
    ensures Flips(Append(trace, m)) == Flips(trace) + if m.Some? && m.value.Write? && !m.value.before && m.value.after then 1 else 0
    ensures Wins(Append(trace, m)) == Wins(trace) + if m.Some? && m.value.Write? && m.value.winner.Some? then 1 else 0
  {
    if m.Some? { assert (trace + [m.value])[..|trace|] == trace; }
  }

  /** The event finds the machine offline and writes it online unconditionally: a last write, or a manual one. */
  predicate FlipsUnowed(s: State, e: Event) {
    !s.online &&
    match e
    case Step(id, ok, _) => id < |s.callbacks| && s.callbacks[id].phase == Finishing && ok && s.callbacks[id].report.Stored()
    case SetOnline(value) => value
    case _ => false
  }

  function UnowedFlips(s: State, events: seq<Event>): nat
    decreases |events|
  {
    if events == [] then 0 else (if FlipsUnowed(s, events[0]) then 1 else 0) + UnowedFlips(Apply(s, events[0]), events[1..])
  }

  /** The marks that flip the field are the winning writes and the unowed ones. */
  lemma FlippingMarks(s: State, e: Event)
    ensures
      var m := MarkOf(s, e);
      && (FlipsUnowed(s, e) <==> m.Some? && m.value.Write? && !m.value.before && m.value.after && m.value.winner.None?)
      && (m.Some? && m.value.Write? && m.value.winner.Some? ==> !m.value.before && m.value.after)
  {
  }

  lemma StepFlips(s: State, e: Event)
    ensures Flips(Apply(s, e).trace) - Wins(Apply(s, e).trace) == Flips(s.trace) - Wins(s.trace) + if FlipsUnowed(s, e) then 1 else 0
  {
    TraceGrows(s, e);
    FlippingMarks(s, e);
    FlipsAppend(s.trace, MarkOf(s, e));
  }

  lemma {:induction false} RunFlips(s: State, events: seq<Event>)
    ensures var t := Run(s, events).trace; Flips(t) - Wins(t) == Flips(s.trace) - Wins(s.trace) + UnowedFlips(s, events)
    decreases |events|
  {
    if events != [] {
      StepFlips(s, events[0]);
      RunFlips(Apply(s, events[0]), events[1..]);
    }
  }

  /**
   * In every interleaving from an idle start that ends idle, the machine came online once per clear, plus
   * once for every last write or manual write that found it offline and set it online.
   */
  lemma FlipsAreClearsAndUnowedWrites(start: State, events: seq<Event>)
    requires start.trace == [] && (forall i | 0 <= i < |start.callbacks| :: start.callbacks[i].phase == Done)
    requires forall i | 0 <= i < |Run(start, events).callbacks| :: Run(start, events).callbacks[i].phase == Done
    ensures Flips(Run(start, events).trace) == Clears(Run(start, events).trace) + UnowedFlips(start, events)
  {
    RunFlips(start, events);
    QuietClearsMatchWins(start, events);
  }

  /** A machine that reports busy on reconnecting comes online with no clear at all. */
  lemma BusyReconnectionIsNotCleared(start: State)
    requires start.trace == [] && start.callbacks == [] && !start.online
    ensures
      var s := Run(start, [Arrive(Report(Busy, false)), Step(0, true, 0), Step(0, true, 0)]);
      s.online && s.callbacks[0].phase == Done && Flips(s.trace) == 1 && Clears(s.trace) == 0
  {
    var r := Report(Busy, false);
    var arrived := start.(callbacks := [Callback(r, Arrived)]);
    var finishing := start.(callbacks := [Callback(r, Finishing)]);
    assert [Arrive(r)] + [Step(0, true, 0), Step(0, true, 0)] == [Arrive(r), Step(0, true, 0), Step(0, true, 0)];
    RunSplit(start, [Arrive(r)], [Step(0, true, 0), Step(0, true, 0)]);
    RunTwo(arrived, Step(0, true, 0), Step(0, true, 0));
    assert [Arrive(r)][1..] == [] && Run(start, [Arrive(r)]) == arrived;
    assert Apply(arrived, Step(0, true, 0)) == finishing;
    var s := Apply(finishing, Step(0, true, 0));
    assert s.trace == [Write(false, true, None)] && s.callbacks[0].phase == Done && s.online;
    OneWrite();
  }

  lemma OneWrite()
    ensures Flips([Write(false, true, None)]) == 1 && Clears([Write(false, true, None)]) == 0
  {
    assert [Write(false, true, None)][..0] == [];
  }
}
