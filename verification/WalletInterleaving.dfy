/**
 * Concurrent wallet calls. Each database operation of a call is one atomic step; steps of
 * different calls interleave freely and any step's database operation may fail.
 */
module WalletInterleaving {
  import opened Common
  import opened Wallet

  datatype Call =
    | TopupCall(user: UserId, amount: nat, category: Category, ref: Ref)
    | AgentTopupCall(user: UserId, amount: nat, agent: UserId)
    | Deduct(user: UserId, amount: nat, ref: Ref)
    | RefundOf(user: UserId, amount: nat, ref: Ref)
  {
    function TxKind(): Kind { if Deduct? then Debit else Credit }

    function TxCategory(): Category {
      match this
      case TopupCall(_, _, c, _) => c
      case AgentTopupCall(_, _, _) => Category.AgentTopup
      case Deduct(_, _, _) => OrderPayment
      case RefundOf(_, _, _) => Refund
    }

    function Reference(): Ref { if AgentTopupCall? then AgentRef(agent) else ref }

    /** What the call adds to its user's balance. */
    function Delta(): int { if Deduct? then 0 - amount else amount }

    predicate Valid() { AgentTopupCall? ==> 0 < amount <= MAX_TOPUP }
  }

  /** Where a call stands between two of its database operations. */
  datatype Phase =
    | Ready                         // nothing done yet
    | GuardPassed                   // a refund has seen that no refund is recorded
    | Moved(before: int, at: nat)   // balance changed by update number `at`, record not yet written
    | Restoring(at: nat)            // a debit's record failed; its balance is about to be put back
    | Closed                        // returned or thrown, owing nothing
    | Orphaned                      // thrown with the balance changed and no record

  datatype Process = Process(call: Call, phase: Phase) {
    /** What this call has done to the balance of `u` without a record. */
    function Unrecorded(u: UserId): int {
      if call.user == u && (phase.Moved? || phase.Restoring? || phase.Orphaned?) then call.Delta() else 0
    }
  }

  /** One atomic balance update, in the serial order the database applied them. */
  datatype Update = Update(pid: nat, user: UserId, delta: int)

  /**
   * `log` and `origin` are bookkeeping: the serial order of balance updates, and for each recorded
   * transaction the update it records.
   */
  datatype State = State(ledger: Ledger, procs: seq<Process>, log: seq<Update>, origin: seq<nat>)

  datatype Event = Start(call: Call) | Step(pid: nat, ok: bool)

  function Initial(balances: map<UserId, int>): State {
    State(Ledger(balances, []), [], [], [])
  }

  function Enter(s: State, pid: nat, phase: Phase): State
    requires pid < |s.procs|
  {
    s.(procs := s.procs[pid := s.procs[pid].(phase := phase)])
  }

  /** The `$inc` of a call, or of a compensation, as one atomic operation. */
  function Move(s: State, pid: nat, delta: int, phase: Phase): State
    requires pid < |s.procs| && s.procs[pid].call.user in s.ledger.balances
  {
    var u := s.procs[pid].call.user;
    Enter(s, pid, phase).(ledger := Shift(s.ledger, u, delta), log := s.log + [Update(pid, u, delta)])
  }

  /** The update of a call; its filter may not match. */
  function TryMove(s: State, pid: nat): State
    requires pid < |s.procs|
  {
    var c := s.procs[pid].call;
    if c.user !in s.ledger.balances || (c.Deduct? && s.ledger.balances[c.user] < c.amount) then
      Enter(s, pid, Closed)
    else
      Move(s, pid, c.Delta(), Moved(s.ledger.balances[c.user], |s.log|))
  }

  function Record(c: Call, before: int): Transaction {
    Transaction(c.user, c.amount, c.TxKind(), c.TxCategory(), c.Reference(), before, before + c.Delta())
  }

  /** The next database operation of one call. A failing operation changes nothing. */
  function Advance(s: State, pid: nat, ok: bool): State
    requires pid < |s.procs|
  {
    var c := s.procs[pid].call;
    match s.procs[pid].phase
    case Ready =>
      if !c.Valid() || !ok then Enter(s, pid, Closed)
      else if c.RefundOf? then
        Enter(s, pid, if FindRefund(s.ledger.txs, c.user, c.ref).Some? then Closed else GuardPassed)
      else TryMove(s, pid)
    case GuardPassed => if ok then TryMove(s, pid) else Enter(s, pid, Closed)
    case Moved(before, at) =>
      if ok then
        Enter(s, pid, Closed).(ledger := s.ledger.(txs := s.ledger.txs + [Record(c, before)]), origin := s.origin + [at])
      else Enter(s, pid, if c.Deduct? then Restoring(at) else Orphaned)
    case Restoring(_) =>
      if ok && c.user in s.ledger.balances then Move(s, pid, c.amount, Closed) else Enter(s, pid, Orphaned)
    case _ => s
  }

  function Apply(s: State, e: Event): State {
    match e
    case Start(call) => s.(procs := s.procs + [Process(call, Ready)])
    case Step(pid, ok) => if pid < |s.procs| then Advance(s, pid, ok) else s
  }

  function Run(s: State, events: seq<Event>): State
    decreases |events|
  {
    if events == [] then s else Run(Apply(s, events[0]), events[1..])
  }

  // ─── What a run has to account for ─────────────────────────────────────────

  /** The balance of `u` after the first `k` updates, replayed from the initial balances. */
  function BalanceAt(init: map<UserId, int>, log: seq<Update>, k: nat, u: UserId): int
    requires u in init && k <= |log|
  {
    if k == 0 then init[u]
    else BalanceAt(init, log, k - 1, u) + if log[k - 1].user == u then log[k - 1].delta else 0
  }

  lemma {:induction false} BalanceAtStable(init: map<UserId, int>, log: seq<Update>, x: Update, k: nat, u: UserId)
    requires u in init && k <= |log|
    ensures BalanceAt(init, log + [x], k, u) == BalanceAt(init, log, k, u)
  {
    if k > 0 { BalanceAtStable(init, log, x, k - 1, u); }
  }

  /** Sum of the unrecorded movements of all calls: in flight or orphaned. */
  function Outstanding(procs: seq<Process>, u: UserId): int {
    if procs == [] then 0
    else Outstanding(procs[..|procs| - 1], u) + procs[|procs| - 1].Unrecorded(u)
  }

  lemma OutstandingAppend(procs: seq<Process>, p: Process, u: UserId)
    ensures Outstanding(procs + [p], u) == Outstanding(procs, u) + p.Unrecorded(u)
  {
  }

  lemma {:induction false} OutstandingUpdate(procs: seq<Process>, i: nat, p: Process, u: UserId)
    requires i < |procs|
    ensures Outstanding(procs[i := p], u) == Outstanding(procs, u) - procs[i].Unrecorded(u) + p.Unrecorded(u)
  {
    var n := |procs| - 1;
    if i == n {
      assert procs[i := p][..n] == procs[..n];
    } else {
      assert procs[i := p][..n] == procs[..n][i := p];
      OutstandingUpdate(procs[..n], i, p, u);
    }
  }

  /** Balances are the recorded credits minus debits plus what calls have moved but not recorded. */
  ghost predicate Balanced(init: map<UserId, int>, s: State) {
    && s.ledger.balances.Keys == init.Keys
    && (forall p | 0 <= p < |s.procs| :: s.procs[p].phase.Restoring? ==> s.procs[p].call.Deduct?)
    && forall u | u in init ::
         && s.ledger.balances[u] >= 0
         && s.ledger.balances[u] == init[u] + Net(s.ledger.txs, u) + Outstanding(s.procs, u)
  }

  /** The current balances are the replay of the whole update log. */
  ghost predicate Replayed(init: map<UserId, int>, s: State) {
    && s.ledger.balances.Keys == init.Keys
    && (forall i | 0 <= i < |s.log| :: s.log[i].pid < |s.procs|)
    && forall u | u in init :: s.ledger.balances[u] == BalanceAt(init, s.log, |s.log|, u)
  }

  /** `at` is the position of the update that call `pid` made, and `before` the true balance just before it. */
  ghost predicate TrueUpdate(init: map<UserId, int>, s: State, pid: nat, c: Call, before: int, at: nat) {
    && c.user in init && at < |s.log|
    && s.log[at] == Update(pid, c.user, c.Delta())
    && before == BalanceAt(init, s.log, at, c.user)
  }

  ghost predicate MovesTrue(init: map<UserId, int>, s: State) {
    forall pid | 0 <= pid < |s.procs| && s.procs[pid].phase.Moved? ::
      TrueUpdate(init, s, pid, s.procs[pid].call, s.procs[pid].phase.before, s.procs[pid].phase.at)
  }

  /**
   * Record number i describes update number origin[i] of the serial order: the same user and signed
   * amount, with the true balances before and after it.
   */
  ghost predicate AuditTrue(init: map<UserId, int>, s: State, i: nat)
    requires i < |s.ledger.txs| == |s.origin|
  {
    var t, k := s.ledger.txs[i], s.origin[i];
    && t.user in init && k < |s.log|
    && s.log[k].user == t.user && s.log[k].delta == t.Signed()
    && t.before == BalanceAt(init, s.log, k, t.user)
    && t.after == BalanceAt(init, s.log, k + 1, t.user)
  }

  ghost predicate OwnerClosed(s: State, k: nat) {
    k < |s.log| && s.log[k].pid < |s.procs| && s.procs[s.log[k].pid].phase == Closed
  }

  /** Every record is true of its own update, and no update is recorded twice. */
  ghost predicate Audited(init: map<UserId, int>, s: State) {
    && |s.origin| == |s.ledger.txs|
    && (forall i | 0 <= i < |s.origin| :: AuditTrue(init, s, i) && OwnerClosed(s, s.origin[i]))
    && (forall i, j | 0 <= i < j < |s.origin| :: s.origin[i] != s.origin[j])
  }

  ghost predicate Inv(init: map<UserId, int>, s: State) {
    Balanced(init, s) && Replayed(init, s) && MovesTrue(init, s) && Audited(init, s)
  }

  // ─── Every step keeps the account ──────────────────────────────────────────

  /** What one event can do to the log, the records and the other calls. */
  lemma Footprint(s: State, e: Event)
    ensures
      var s' := Apply(s, e);
      && |s.procs| <= |s'.procs|
      && (forall p | 0 <= p < |s.procs| :: (e.Start? || p != e.pid) ==> s'.procs[p] == s.procs[p])
      && (forall p | 0 <= p < |s.procs| :: s.procs[p].phase == Closed ==> s'.procs[p] == s.procs[p])
      && (s'.log == s.log || (e.Step? && e.pid < |s.procs| && |s'.log| == |s.log| + 1 && s'.log[..|s.log|] == s.log
                              && s'.log[|s.log|].pid == e.pid))
  {
  }

  /** A move transfers its delta between the balance and the unrecorded movements. */
  lemma MoveShiftsOutstanding(s: State, pid: nat, delta: int, phase: Phase, u: UserId)
    requires pid < |s.procs| && s.procs[pid].call.user in s.ledger.balances && u in s.ledger.balances
    ensures
      var s' := Move(s, pid, delta, phase);
      var gain := s'.procs[pid].Unrecorded(u) - s.procs[pid].Unrecorded(u);
      && s'.ledger.balances[u] == s.ledger.balances[u] + (if u == s.procs[pid].call.user then delta else 0)
      && Outstanding(s'.procs, u) == Outstanding(s.procs, u) + gain
  {
    OutstandingUpdate(s.procs, pid, s.procs[pid].(phase := phase), u);
  }

  lemma TryMoveKeepsBalance(s: State, pid: nat, u: UserId)
    requires pid < |s.procs| && u in s.ledger.balances
    requires s.procs[pid].phase.Ready? || s.procs[pid].phase.GuardPassed?
    ensures
      var s' := TryMove(s, pid);
      && u in s'.ledger.balances && Unexplained(s', u) == Unexplained(s, u)
      && (s.ledger.balances[u] >= 0 ==> s'.ledger.balances[u] >= 0)
  {
    var c := s.procs[pid].call;
    OutstandingUpdate(s.procs, pid, s.procs[pid].(phase := Closed), u);
    if c.user in s.ledger.balances {
      MoveShiftsOutstanding(s, pid, c.Delta(), Moved(s.ledger.balances[c.user], |s.log|), u);
    }
  }

  /** The part of a user's account that no step may change: balance less records less movements in flight. */
  ghost function Unexplained(s: State, u: UserId): int
    requires u in s.ledger.balances
  {
    s.ledger.balances[u] - Outstanding(s.procs, u) - Net(s.ledger.txs, u)
  }

  lemma RecordingKeepsBalance(s: State, pid: nat, ok: bool, u: UserId)
    requires pid < |s.procs| && u in s.ledger.balances && s.procs[pid].phase.Moved?
    ensures var s' := Advance(s, pid, ok);
            s'.ledger.balances == s.ledger.balances && Unexplained(s', u) == Unexplained(s, u)
  {
    OutstandingUpdate(s.procs, pid, Advance(s, pid, ok).procs[pid], u);
    NetAppend(s.ledger.txs, Record(s.procs[pid].call, s.procs[pid].phase.before), u);
  }

  lemma RestoringKeepsBalance(s: State, pid: nat, ok: bool, u: UserId)
    requires pid < |s.procs| && u in s.ledger.balances && s.procs[pid].phase.Restoring? && s.procs[pid].call.Deduct?
    ensures
      var s' := Advance(s, pid, ok);
      && u in s'.ledger.balances && Unexplained(s', u) == Unexplained(s, u)
      && s'.ledger.balances[u] >= s.ledger.balances[u]
  {
    OutstandingUpdate(s.procs, pid, Advance(s, pid, ok).procs[pid], u);
  }

  lemma EnteringKeepsBalance(s: State, pid: nat, phase: Phase, u: UserId)
    requires pid < |s.procs| && u in s.ledger.balances
    requires s.procs[pid].phase.Ready? || s.procs[pid].phase.GuardPassed?
    requires phase.Closed? || phase.GuardPassed?
    ensures Unexplained(Enter(s, pid, phase), u) == Unexplained(s, u)
  {
    OutstandingUpdate(s.procs, pid, s.procs[pid].(phase := phase), u);
  }

  lemma AdvanceKeepsBalance(s: State, pid: nat, ok: bool, u: UserId)
    requires pid < |s.procs| && u in s.ledger.balances
    requires s.procs[pid].phase.Restoring? ==> s.procs[pid].call.Deduct?
    ensures
      var s' := Advance(s, pid, ok);
      && u in s'.ledger.balances && Unexplained(s', u) == Unexplained(s, u)
      && (s.ledger.balances[u] >= 0 ==> s'.ledger.balances[u] >= 0)
  {
    match s.procs[pid].phase {
      case Moved(before, at) => RecordingKeepsBalance(s, pid, ok, u);
      case Restoring(_) => RestoringKeepsBalance(s, pid, ok, u);
      case Ready =>
        TryMoveKeepsBalance(s, pid, u);
        EnteringKeepsBalance(s, pid, Closed, u);
        EnteringKeepsBalance(s, pid, GuardPassed, u);
      case GuardPassed =>
        TryMoveKeepsBalance(s, pid, u);
        EnteringKeepsBalance(s, pid, Closed, u);
      case _ =>
    }
  }

  lemma EventKeepsBalance(s: State, e: Event, u: UserId)
    requires u in s.ledger.balances
    requires e.Step? && e.pid < |s.procs| && s.procs[e.pid].phase.Restoring? ==> s.procs[e.pid].call.Deduct?
    ensures
      var s' := Apply(s, e);
      && u in s'.ledger.balances && Unexplained(s', u) == Unexplained(s, u)
      && (s.ledger.balances[u] >= 0 ==> s'.ledger.balances[u] >= 0)
  {
    match e
    case Start(call) => OutstandingAppend(s.procs, Process(call, Ready), u);
    case Step(pid, ok) => if pid < |s.procs| { AdvanceKeepsBalance(s, pid, ok, u); }
  }

  lemma StepKeepsRestoring(s: State, e: Event)
    requires forall p | 0 <= p < |s.procs| :: s.procs[p].phase.Restoring? ==> s.procs[p].call.Deduct?
    ensures forall p | 0 <= p < |Apply(s, e).procs| :: Apply(s, e).procs[p].phase.Restoring? ==> Apply(s, e).procs[p].call.Deduct?
  {
  }

  lemma StepKeepsBalanced(init: map<UserId, int>, s: State, e: Event)
    requires Balanced(init, s)
    ensures Balanced(init, Apply(s, e))
  {
    var s' := Apply(s, e);
    StepKeepsRestoring(s, e);
    if e.Step? && e.pid < |s.procs| { AdvanceKeepsKeys(s, e.pid, e.ok); }
    forall u | u in init
      ensures s'.ledger.balances[u] >= 0
      ensures s'.ledger.balances[u] == init[u] + Net(s'.ledger.txs, u) + Outstanding(s'.procs, u)
    {
      EventKeepsBalance(s, e, u);
    }
  }

  lemma AdvanceKeepsKeys(s: State, pid: nat, ok: bool)
    requires pid < |s.procs|
    ensures Advance(s, pid, ok).ledger.balances.Keys == s.ledger.balances.Keys
  {
  }

  lemma StepKeepsReplayed(init: map<UserId, int>, s: State, e: Event)
    requires Replayed(init, s)
    ensures Replayed(init, Apply(s, e))
  {
    var s' := Apply(s, e);
    Footprint(s, e);
    if e.Step? && e.pid < |s.procs| { AdvanceKeepsKeys(s, e.pid, e.ok); }
    forall u | u in init
      ensures s'.ledger.balances[u] == BalanceAt(init, s'.log, |s'.log|, u)
    {
      UpdateIsLogged(s, e, u);
      if s'.log != s.log {
        BalanceAtStable(init, s.log, s'.log[|s.log|], |s.log|, u);
      }
    }
  }

  lemma AdvanceIsLogged(s: State, pid: nat, ok: bool, u: UserId)
    requires pid < |s.procs| && u in s.ledger.balances
    ensures
      var s' := Advance(s, pid, ok);
      && u in s'.ledger.balances
      && ((s'.log == s.log && s'.ledger.balances[u] == s.ledger.balances[u])
          || exists x :: s'.log == s.log + [x] && s'.ledger.balances[u] == s.ledger.balances[u] + if x.user == u then x.delta else 0)
  {
  }

  /** A balance changes only by the update the event appends to the log. */
  lemma UpdateIsLogged(s: State, e: Event, u: UserId)
    requires u in s.ledger.balances
    ensures
      var s' := Apply(s, e);
      && u in s'.ledger.balances
      && (s'.log == s.log ==> s'.ledger.balances[u] == s.ledger.balances[u])
      && (s'.log != s.log ==>
            && |s'.log| == |s.log| + 1 && s'.log == s.log + [s'.log[|s.log|]]
            && s'.ledger.balances[u] == s.ledger.balances[u] + if s'.log[|s.log|].user == u then s'.log[|s.log|].delta else 0)
  {
    if e.Step? && e.pid < |s.procs| { AdvanceIsLogged(s, e.pid, e.ok, u); }
  }

  /** Balances at positions already in the log are the same after an event. */
  lemma HistoryStable(init: map<UserId, int>, s: State, e: Event, k: nat, u: UserId)
    requires u in init && k <= |s.log|
    ensures k <= |Apply(s, e).log| && BalanceAt(init, Apply(s, e).log, k, u) == BalanceAt(init, s.log, k, u)
  {
  }

  lemma StepKeepsMovesTrue(init: map<UserId, int>, s: State, e: Event)
    requires Replayed(init, s) && MovesTrue(init, s)
    ensures MovesTrue(init, Apply(s, e))
  {
    var s' := Apply(s, e);
    Footprint(s, e);
    forall p | 0 <= p < |s'.procs| && s'.procs[p].phase.Moved?
      ensures TrueUpdate(init, s', p, s'.procs[p].call, s'.procs[p].phase.before, s'.procs[p].phase.at)
    {
      if p < |s.procs| && s'.procs[p] == s.procs[p] {
        HistoryStable(init, s, e, s.procs[p].phase.at, s.procs[p].call.user);
      } else if p < |s.procs| {
        HistoryStable(init, s, e, |s.log|, s.procs[p].call.user);
      }
    }
  }

  lemma OldRecordStaysTrue(init: map<UserId, int>, s: State, e: Event, i: nat)
    requires |s.origin| == |s.ledger.txs| && i < |s.origin| && AuditTrue(init, s, i) && OwnerClosed(s, s.origin[i])
    ensures
      var s' := Apply(s, e);
      && |s'.origin| == |s'.ledger.txs| && i < |s'.origin| && s'.origin[i] == s.origin[i]
      && AuditTrue(init, s', i) && OwnerClosed(s', s'.origin[i])
  {
    Footprint(s, e);
    HistoryStable(init, s, e, s.origin[i], s.ledger.txs[i].user);
    HistoryStable(init, s, e, s.origin[i] + 1, s.ledger.txs[i].user);
  }

  /** The record an event writes is true of the update its call made, and no other record describes that update. */
  lemma NewRecordIsTrue(init: map<UserId, int>, s: State, e: Event)
    requires MovesTrue(init, s) && Audited(init, s) && |Apply(s, e).origin| > |s.origin|
    ensures
      var s' := Apply(s, e);
      && |s'.origin| == |s.origin| + 1 == |s'.ledger.txs|
      && AuditTrue(init, s', |s.origin|) && OwnerClosed(s', s'.origin[|s.origin|])
      && forall i | 0 <= i < |s.origin| :: s'.origin[i] == s.origin[i] != s'.origin[|s.origin|]
  {
  }

  lemma StepKeepsAudited(init: map<UserId, int>, s: State, e: Event)
    requires Inv(init, s)
    ensures Audited(init, Apply(s, e))
  {
    var s' := Apply(s, e);
    forall i | 0 <= i < |s.origin|
      ensures |s'.origin| == |s'.ledger.txs| && i < |s'.origin| && s'.origin[i] == s.origin[i]
      ensures AuditTrue(init, s', i) && OwnerClosed(s', s'.origin[i])
    {
      OldRecordStaysTrue(init, s, e, i);
    }
    if |s'.origin| > |s.origin| { NewRecordIsTrue(init, s, e); }
  }

  lemma {:induction false} RunKeepsInv(init: map<UserId, int>, s: State, events: seq<Event>)
    requires Inv(init, s)
    ensures Inv(init, Run(s, events))
    decreases |events|
  {
    if events != [] {
      StepKeepsBalanced(init, s, events[0]);
      StepKeepsReplayed(init, s, events[0]);
      StepKeepsMovesTrue(init, s, events[0]);
      StepKeepsAudited(init, s, events[0]);
      RunKeepsInv(init, Apply(s, events[0]), events[1..]);
    }
  }

  /**
   * In every interleaving, with any operation failing: balances are never negative and equal the
   * records plus the unrecorded movements, and every record tells the truth about its own update.
   */
  lemma EveryInterleavingAccounts(balances: map<UserId, int>, events: seq<Event>)
    requires forall u | u in balances :: balances[u] >= 0
    ensures Inv(balances, Run(Initial(balances), events))
  {
    RunKeepsInv(balances, Initial(balances), events);
  }

  ghost predicate Quiescent(s: State) {
    forall p | 0 <= p < |s.procs| :: s.procs[p].phase in {Closed, Orphaned}
  }

  function Orphan(p: Process, u: UserId): int { if p.phase.Orphaned? && p.call.user == u then p.call.Delta() else 0 }

  /** The unrecorded movements of calls that threw for good. */
  function OrphanSum(procs: seq<Process>, u: UserId): int {
    if procs == [] then 0 else OrphanSum(procs[..|procs| - 1], u) + Orphan(procs[|procs| - 1], u)
  }

  lemma {:induction false} QuiescentOutstanding(procs: seq<Process>, u: UserId)
    requires forall p | 0 <= p < |procs| :: procs[p].phase in {Closed, Orphaned}
    ensures Outstanding(procs, u) == OrphanSum(procs, u)
  {
    if procs != [] { QuiescentOutstanding(procs[..|procs| - 1], u); }
  }

  lemma {:induction false} OrphanSumUpdate(procs: seq<Process>, i: nat, p: Process, u: UserId)
    requires i < |procs|
    ensures OrphanSum(procs[i := p], u) == OrphanSum(procs, u) - Orphan(procs[i], u) + Orphan(p, u)
  {
    var n := |procs| - 1;
    if i == n {
      assert procs[i := p][..n] == procs[..n];
    } else {
      assert procs[i := p][..n] == procs[..n][i := p];
      OrphanSumUpdate(procs[..n], i, p, u);
    }
  }

  /** This step gives a movement up: the record of a credit fails, or the repayment of a debit whose record failed. */
  predicate GivesUp(s: State, e: Event) {
    && e.Step? && e.pid < |s.procs|
    && var p := s.procs[e.pid];
       || (p.phase.Moved? && !e.ok && !p.call.Deduct?)
       || (p.phase.Restoring? && !(e.ok && p.call.user in s.ledger.balances))
  }

  /** What the steps of a run have moved on the balance of `u` and given up. */
  function GivenUp(s: State, events: seq<Event>, u: UserId): int
    decreases |events|
  {
    if events == [] then 0
    else
      (if GivesUp(s, events[0]) && s.procs[events[0].pid].call.user == u then s.procs[events[0].pid].call.Delta() else 0)
      + GivenUp(Apply(s, events[0]), events[1..], u)
  }

  lemma StepOrphans(s: State, e: Event, u: UserId)
    ensures
      OrphanSum(Apply(s, e).procs, u)
      == OrphanSum(s.procs, u) + if GivesUp(s, e) && s.procs[e.pid].call.user == u then s.procs[e.pid].call.Delta() else 0
  {
    if e.Start? {
      assert (s.procs + [Process(e.call, Ready)])[..|s.procs|] == s.procs;
    } else if e.pid < |s.procs| {
      OrphanSumUpdate(s.procs, e.pid, Apply(s, e).procs[e.pid], u);
      OneProcess(s, e.pid, e.ok);
    }
  }

  lemma OneProcess(s: State, pid: nat, ok: bool)
    requires pid < |s.procs|
    ensures
      var s' := Advance(s, pid, ok);
      && |s'.procs| == |s.procs| && s'.procs == s.procs[pid := s'.procs[pid]]
      && s'.procs[pid].call == s.procs[pid].call
      && (s'.procs[pid].phase.Orphaned? <==> s.procs[pid].phase.Orphaned? || GivesUp(s, Step(pid, ok)))
  {
    assert s.procs[pid := s.procs[pid]] == s.procs;
  }

  lemma {:induction false} RunOrphans(s: State, events: seq<Event>, u: UserId)
    ensures OrphanSum(Run(s, events).procs, u) == OrphanSum(s.procs, u) + GivenUp(s, events, u)
    decreases |events|
  {
    if events != [] {
      StepOrphans(s, events[0], u);
      RunOrphans(Apply(s, events[0]), events[1..], u);
    }
  }

  /** Once no call is running, the records explain a balance exactly when the movements that failing steps gave up cancel out. */
  lemma QuiescentLedgerReconcilesIff(balances: map<UserId, int>, events: seq<Event>, u: UserId)
    requires u in balances && forall v | v in balances :: balances[v] >= 0
    requires Quiescent(Run(Initial(balances), events))
    ensures
      var s, lost := Run(Initial(balances), events), GivenUp(Initial(balances), events, u);
      && u in s.ledger.balances && s.ledger.balances[u] == balances[u] + Net(s.ledger.txs, u) + lost
      && (s.ledger.balances[u] == balances[u] + Net(s.ledger.txs, u) <==> lost == 0)
  {
    EveryInterleavingAccounts(balances, events);
    QuiescentOutstanding(Run(Initial(balances), events).procs, u);
    RunOrphans(Initial(balances), events, u);
  }

  // ─── A call that runs alone is the service call ────────────────────────────

  /** The steps of the newest call, with no other call in between; `oks` says which operations succeed. */
  function Alone(s: State, c: Call, oks: seq<bool>): State {
    Run(Apply(s, Start(c)), seq(|oks|, i requires 0 <= i < |oks| => Step(|s.procs|, oks[i])))
  }

  lemma RunThree(s: State, e0: Event, e1: Event, e2: Event)
    ensures Run(s, [e0, e1, e2]) == Apply(Apply(Apply(s, e0), e1), e2)
  {
    assert [e0, e1, e2][1..] == [e1, e2] && [e1, e2][1..] == [e2] && [e2][1..] == [];
    assert Run(s, [e0, e1, e2]) == Run(Apply(s, e0), [e1, e2]);
    assert Run(Apply(s, e0), [e1, e2]) == Run(Apply(Apply(s, e0), e1), [e2]);
  }

  lemma AloneUnfolds(s: State, c: Call, a: bool, b: bool, d: bool)
    ensures
      var p := |s.procs|;
      Alone(s, c, [a, b, d]) == Advance(Advance(Advance(Apply(s, Start(c)), p, a), p, b), p, d)
  {
    var p := |s.procs|;
    assert seq(3, i requires 0 <= i < 3 => Step(p, [a, b, d][i])) == [Step(p, a), Step(p, b), Step(p, d)];
    RunThree(Apply(s, Start(c)), Step(p, a), Step(p, b), Step(p, d));
  }

  /** Without interference the steps of a call have exactly the effect of the sequential call. */
  lemma AloneIsTheCall(s: State, c: Call)
    ensures
      Alone(s, c, [true, true, true]).ledger ==
      match c
      case TopupCall(u, a, cat, r) => CreditCall(s.ledger, u, cat, a, r, NoCreditFault).0
      case AgentTopupCall(u, a, agent) =>
        if 0 < a <= 50_000 then CreditCall(s.ledger, u, Category.AgentTopup, a, AgentRef(agent), NoCreditFault).0 else s.ledger
      case Deduct(u, a, r) => DeductCall(s.ledger, u, a, r, NoDebitFault).0
      case RefundOf(u, a, r) => RefundCall(s.ledger, u, a, r, NoCreditFault).0
  {
    AloneUnfolds(s, c, true, true, true);
  }

  /** A debit whose record fails is undone; a credit or a refund whose record fails stays, as in the sequential call. */
  lemma AloneWithFailedRecord(s: State, c: Call)
    requires c.Valid()
    ensures c.RefundOf? ==>
              Alone(s, c, [true, true, false]).ledger == RefundCall(s.ledger, c.user, c.amount, c.ref, CreditInsertFails).0
    ensures !c.RefundOf? ==>
              Alone(s, c, [true, false, true]).ledger ==
              if c.Deduct? then DeductCall(s.ledger, c.user, c.amount, c.ref, DebitInsertFails).0
              else CreditCall(s.ledger, c.user, c.TxCategory(), c.amount, c.Reference(), CreditInsertFails).0
  {
    if c.RefundOf? {
      AloneUnfolds(s, c, true, true, false);
    } else {
      AloneUnfolds(s, c, true, false, true);
      if c.user in s.ledger.balances && (c.Deduct? ==> s.ledger.balances[c.user] >= c.amount) {
        var b := s.ledger.balances;
        assert b[c.user := b[c.user] - c.amount][c.user := b[c.user]] == b;
      }
    }
  }

  // ─── When the refund guard is exact ────────────────────────────────────────

  /** A refund for this key that has passed its guard without a record: still running, or ended with its money moved. */
  predicate Pays(p: Process, u: UserId, ref: Ref) {
    p.call.RefundOf? && p.call.user == u && p.call.ref == ref
    && !p.phase.Ready? && !p.phase.Closed?
  }

  function Paying(procs: seq<Process>, u: UserId, ref: Ref): nat {
    if procs == [] then 0
    else Paying(procs[..|procs| - 1], u, ref) + if Pays(procs[|procs| - 1], u, ref) then 1 else 0
  }

  lemma {:induction false} PayingUpdate(procs: seq<Process>, i: nat, p: Process, u: UserId, ref: Ref)
    requires i < |procs|
    ensures Paying(procs[i := p], u, ref) + (if Pays(procs[i], u, ref) then 1 else 0)
         == Paying(procs, u, ref) + if Pays(p, u, ref) then 1 else 0
  {
    var n := |procs| - 1;
    if i == n {
      assert procs[i := p][..n] == procs[..n];
    } else {
      assert procs[i := p][..n] == procs[..n][i := p];
      PayingUpdate(procs[..n], i, p, u, ref);
    }
  }

  /** This event lets a refund of the key check its guard. */
  predicate ChecksGuard(s: State, e: Event, u: UserId, ref: Ref) {
    && e.Step? && e.ok && e.pid < |s.procs|
    && s.procs[e.pid].phase == Ready
    && s.procs[e.pid].call.RefundOf? && s.procs[e.pid].call.user == u && s.procs[e.pid].call.ref == ref
  }

  /** How often the key is refunded on record, or has passed its guard without one. */
  function Claims(s: State, u: UserId, ref: Ref): nat { Refunds(s.ledger.txs, u, ref) + Paying(s.procs, u, ref) }

  /** A refund of the key passes its guard while another one, running or ended without its record, has passed it. */
  predicate Slips(s: State, e: Event, u: UserId, ref: Ref) {
    ChecksGuard(s, e, u, ref) && FindRefund(s.ledger.txs, u, ref).None? && Paying(s.procs, u, ref) > 0
  }

  predicate NeverSlips(s: State, events: seq<Event>, u: UserId, ref: Ref)
    decreases |events|
  {
    events != [] ==> !Slips(s, events[0], u, ref) && NeverSlips(Apply(s, events[0]), events[1..], u, ref)
  }

  /** At no point of the run is the key claimed twice. */
  predicate ClaimedOnce(s: State, events: seq<Event>, u: UserId, ref: Ref)
    decreases |events|
  {
    Claims(s, u, ref) <= 1 && (events != [] ==> ClaimedOnce(Apply(s, events[0]), events[1..], u, ref))
  }

  /** Only ordinary refunds carry the refund category. */
  predicate OnlyRefundsRefund(e: Event) {
    e.Start? && e.call.TopupCall? ==> e.call.category != Refund
  }

  lemma RecordingCountsRefunds(s: State, pid: nat, ok: bool, u: UserId, ref: Ref)
    requires pid < |s.procs| && s.procs[pid].phase.Moved?
    requires s.procs[pid].call.TopupCall? ==> s.procs[pid].call.category != Refund
    ensures
      var s' := Advance(s, pid, ok);
      Refunds(s'.ledger.txs, u, ref) + Paying(s'.procs, u, ref) == Refunds(s.ledger.txs, u, ref) + Paying(s.procs, u, ref)
  {
    PayingUpdate(s.procs, pid, Advance(s, pid, ok).procs[pid], u, ref);
    RefundsAppend(s.ledger.txs, Record(s.procs[pid].call, s.procs[pid].phase.before), u, ref);
  }

  lemma AdvancingCountsRefunds(s: State, pid: nat, ok: bool, u: UserId, ref: Ref)
    requires pid < |s.procs| && !s.procs[pid].phase.Moved?
    ensures
      var s' := Advance(s, pid, ok);
      && s'.ledger.txs == s.ledger.txs
      && if ChecksGuard(s, Step(pid, ok), u, ref) && FindRefund(s.ledger.txs, u, ref).None?
         then Paying(s'.procs, u, ref) == Paying(s.procs, u, ref) + 1
         else Paying(s'.procs, u, ref) <= Paying(s.procs, u, ref)
  {
    PayingUpdate(s.procs, pid, Advance(s, pid, ok).procs[pid], u, ref);
  }

  ghost predicate OnlyRefundsInFlight(s: State) {
    forall p | 0 <= p < |s.procs| :: s.procs[p].call.TopupCall? ==> s.procs[p].call.category != Refund
  }

  /** From at most one claim, an event leaves at most one exactly when it is not such a slip. */
  lemma StepClaimsOnceIff(s: State, e: Event, u: UserId, ref: Ref)
    requires OnlyRefundsInFlight(s) && Claims(s, u, ref) <= 1
    ensures Claims(Apply(s, e), u, ref) <= 1 <==> !Slips(s, e, u, ref)
  {
    match e
    case Start(c) =>
      assert (s.procs + [Process(c, Ready)])[..|s.procs|] == s.procs;
    case Step(pid, ok) =>
      if pid < |s.procs| {
        FindRefundIffCounted(s.ledger.txs, u, ref);
        if s.procs[pid].phase.Moved? {
          RecordingCountsRefunds(s, pid, ok, u, ref);
        } else {
          AdvancingCountsRefunds(s, pid, ok, u, ref);
        }
      }
  }

  lemma CategoriesStay(s: State, e: Event)
    requires OnlyRefundsRefund(e) && OnlyRefundsInFlight(s)
    ensures OnlyRefundsInFlight(Apply(s, e))
  {
  }

  /** Throughout a run the key is claimed at most once, in flight or not, exactly when no refund of it slips past the guard. */
  lemma {:induction false} ClaimedOnceIff(s: State, events: seq<Event>, u: UserId, ref: Ref)
    requires OnlyRefundsInFlight(s) && Claims(s, u, ref) <= 1
    requires forall i | 0 <= i < |events| :: OnlyRefundsRefund(events[i])
    ensures ClaimedOnce(s, events, u, ref) <==> NeverSlips(s, events, u, ref)
    ensures NeverSlips(s, events, u, ref) ==> Claims(Run(s, events), u, ref) <= 1
    decreases |events|
  {
    if events != [] {
      var s' := Apply(s, events[0]);
      StepClaimsOnceIff(s, events[0], u, ref);
      assert OnlyRefundsRefund(events[0]);
      CategoriesStay(s, events[0]);
      if Claims(s', u, ref) <= 1 { ClaimedOnceIff(s', events[1..], u, ref); }
    }
  }

  // ─── When a key is paid once ───────────────────────────────────────────────

  /** A refund for this key that has moved its money and has no record: still running, or ended. */
  predicate HasPaid(p: Process, u: UserId, ref: Ref) {
    p.call.RefundOf? && p.call.user == u && p.call.ref == ref && (p.phase.Moved? || p.phase.Orphaned?)
  }

  function Unrecorded(procs: seq<Process>, u: UserId, ref: Ref): nat {
    if procs == [] then 0
    else Unrecorded(procs[..|procs| - 1], u, ref) + if HasPaid(procs[|procs| - 1], u, ref) then 1 else 0
  }

  /** How often the key's money has been paid back, on record or not. */
  function Payments(s: State, u: UserId, ref: Ref): nat { Refunds(s.ledger.txs, u, ref) + Unrecorded(s.procs, u, ref) }

  lemma {:induction false} UnrecordedUpdate(procs: seq<Process>, i: nat, p: Process, u: UserId, ref: Ref)
    requires i < |procs|
    ensures Unrecorded(procs[i := p], u, ref) + (if HasPaid(procs[i], u, ref) then 1 else 0)
         == Unrecorded(procs, u, ref) + if HasPaid(p, u, ref) then 1 else 0
  {
    var n := |procs| - 1;
    if i == n {
      assert procs[i := p][..n] == procs[..n];
    } else {
      assert procs[i := p][..n] == procs[..n][i := p];
      UnrecordedUpdate(procs[..n], i, p, u, ref);
    }
  }

  /** A refund of the key past its guard moves its money. */
  predicate PaysNow(s: State, e: Event, u: UserId, ref: Ref) {
    && e.Step? && e.ok && e.pid < |s.procs|
    && s.procs[e.pid].phase == GuardPassed && u in s.ledger.balances
    && s.procs[e.pid].call.RefundOf? && s.procs[e.pid].call.user == u && s.procs[e.pid].call.ref == ref
  }

  lemma AdvancePays(s: State, pid: nat, ok: bool, u: UserId, ref: Ref)
    requires pid < |s.procs|
    requires s.procs[pid].call.TopupCall? ==> s.procs[pid].call.category != Refund
    requires s.procs[pid].phase.Restoring? ==> s.procs[pid].call.Deduct?
    ensures
      Payments(Advance(s, pid, ok), u, ref) == Payments(s, u, ref) + if PaysNow(s, Step(pid, ok), u, ref) then 1 else 0
  {
    var s' := Advance(s, pid, ok);
    OneProcess(s, pid, ok);
    UnrecordedUpdate(s.procs, pid, s'.procs[pid], u, ref);
    if s.procs[pid].phase.Moved? && ok {
      RefundsAppend(s.ledger.txs, Record(s.procs[pid].call, s.procs[pid].phase.before), u, ref);
    }
  }

  ghost predicate OnlyDebitsRestore(s: State) {
    forall p | 0 <= p < |s.procs| :: s.procs[p].phase.Restoring? ==> s.procs[p].call.Deduct?
  }

  /** An event pays the key once more exactly when it moves the money of a refund past its guard. */
  lemma StepPays(s: State, e: Event, u: UserId, ref: Ref)
    requires OnlyRefundsInFlight(s) && OnlyDebitsRestore(s)
    ensures Payments(Apply(s, e), u, ref) == Payments(s, u, ref) + if PaysNow(s, e, u, ref) then 1 else 0
  {
    match e
    case Start(c) => assert (s.procs + [Process(c, Ready)])[..|s.procs|] == s.procs;
    case Step(pid, ok) => if pid < |s.procs| { AdvancePays(s, pid, ok, u, ref); }
  }

  /** No refund of the key moves its money when the key has been paid. */
  predicate NeverPaysAgain(s: State, events: seq<Event>, u: UserId, ref: Ref)
    decreases |events|
  {
    events != [] ==>
      && !(PaysNow(s, events[0], u, ref) && Payments(s, u, ref) > 0)
      && NeverPaysAgain(Apply(s, events[0]), events[1..], u, ref)
  }

  predicate PaidOnce(s: State, events: seq<Event>, u: UserId, ref: Ref)
    decreases |events|
  {
    Payments(s, u, ref) <= 1 && (events != [] ==> PaidOnce(Apply(s, events[0]), events[1..], u, ref))
  }

  /** Throughout an interleaving the key is paid at most once exactly when no refund of it moves its money after that. */
  lemma {:induction false} PaidOnceIff(s: State, events: seq<Event>, u: UserId, ref: Ref)
    requires OnlyRefundsInFlight(s) && OnlyDebitsRestore(s) && Payments(s, u, ref) <= 1
    requires forall i | 0 <= i < |events| :: OnlyRefundsRefund(events[i])
    ensures PaidOnce(s, events, u, ref) <==> NeverPaysAgain(s, events, u, ref)
    ensures NeverPaysAgain(s, events, u, ref) ==> Payments(Run(s, events), u, ref) <= 1
    decreases |events|
  {
    if events != [] {
      var s' := Apply(s, events[0]);
      StepPays(s, events[0], u, ref);
      assert OnlyRefundsRefund(events[0]);
      CategoriesStay(s, events[0]);
      StepKeepsRestoring(s, events[0]);
      if Payments(s', u, ref) <= 1 { PaidOnceIff(s', events[1..], u, ref); }
    }
  }

  lemma {:induction false} PaidAreClaimed(procs: seq<Process>, u: UserId, ref: Ref)
    ensures Unrecorded(procs, u, ref) <= Paying(procs, u, ref)
  {
    if procs != [] { PaidAreClaimed(procs[..|procs| - 1], u, ref); }
  }

  /** A key that is never claimed twice is never paid twice: keeping every refund from slipping past the guard is enough. */
  lemma {:induction false} NoSlipPaysOnce(s: State, events: seq<Event>, u: UserId, ref: Ref)
    requires OnlyRefundsInFlight(s) && Claims(s, u, ref) <= 1 && NeverSlips(s, events, u, ref)
    requires forall i | 0 <= i < |events| :: OnlyRefundsRefund(events[i])
    ensures PaidOnce(s, events, u, ref)
    decreases |events|
  {
    PaidAreClaimed(s.procs, u, ref);
    if events != [] {
      StepClaimsOnceIff(s, events[0], u, ref);
      assert OnlyRefundsRefund(events[0]);
      CategoriesStay(s, events[0]);
      NoSlipPaysOnce(Apply(s, events[0]), events[1..], u, ref);
    }
  }

  lemma UnrecordedThenRecorded(l: Ledger, u: UserId, amount: nat, ref: Ref)
    requires u in l.balances && FindRefund(l.txs, u, ref).None?
    ensures
      var l1 := RefundCall(l, u, amount, ref, CreditInsertFails).0;
      var l2 := RefundCall(l1, u, amount, ref, NoCreditFault).0;
      Refunds(l2.txs, u, ref) == 1 && u in l2.balances && l2.balances[u] == l.balances[u] + amount + amount
  {
    var l1 := Shift(l, u, amount);
    FindRefundIffCounted(l.txs, u, ref);
    RefundsAppend(l.txs, Entry(l1, u, Credit, Refund, amount, ref), u, ref);
  }

  /** A refund that ends with its money moved and no record is paid again by the next one, with no overlap at all. */
  lemma OrphanedRefundIsPaidAgain(s: State, u: UserId, amount: nat, ref: Ref)
    requires u in s.ledger.balances && FindRefund(s.ledger.txs, u, ref).None?
    ensures
      var c := RefundOf(u, amount, ref);
      var s' := Alone(Alone(s, c, [true, true, false]), c, [true, true, true]);
      && Refunds(s'.ledger.txs, u, ref) == 1
      && u in s'.ledger.balances && s'.ledger.balances[u] == s.ledger.balances[u] + amount + amount
  {
    var c := RefundOf(u, amount, ref);
    AloneWithFailedRecord(s, c);
    AloneIsTheCall(Alone(s, c, [true, true, false]), c);
    UnrecordedThenRecorded(s.ledger, u, amount, ref);
  }

  lemma RunFive(s: State, a: Event, b: Event, c: Event, d: Event, e: Event)
    ensures Run(s, [a, b, c, d, e]) == Apply(Apply(Apply(Apply(Apply(s, a), b), c), d), e)
  {
    var es := [a, b, c, d, e];
    assert es[1..] == [b, c, d, e] && es[1..][1..] == [c, d, e];
    assert Run(s, es) == Run(Apply(s, a), es[1..]) == Run(Apply(Apply(s, a), b), es[1..][1..]);
    RunThree(Apply(Apply(s, a), b), c, d, e);
  }

  lemma ChecksAndPasses(s: State, q: nat)
    requires q < |s.procs| && s.procs[q].call.RefundOf? && s.procs[q].phase == Ready
    requires FindRefund(s.ledger.txs, s.procs[q].call.user, s.procs[q].call.ref).None?
    ensures Apply(s, Step(q, true)) == Enter(s, q, GuardPassed)
  {
  }

  lemma BothPay(s: State, p: nat, q: nat)
    requires p < |s.procs| && q < |s.procs| && p != q
    requires s.procs[p].call.RefundOf? && s.procs[p].phase == GuardPassed && s.procs[p].call.user in s.ledger.balances
    requires s.procs[q].call.RefundOf? && s.procs[q].phase == GuardPassed && s.procs[q].call.user in s.ledger.balances
    ensures
      var a, b := s.procs[p].call, s.procs[q].call;
      Apply(Apply(Apply(Apply(s, Step(p, true)), Step(p, true)), Step(q, true)), Step(q, true)).ledger
      == Post(Post(s.ledger, a.user, Credit, Refund, a.amount, a.ref), b.user, Credit, Refund, b.amount, b.ref)
  {
  }

  lemma TwoPosts(l: Ledger, u: UserId, first: nat, second: nat, ref: Ref)
    requires u in l.balances && FindRefund(l.txs, u, ref).None?
    ensures
      var l' := Post(Post(l, u, Credit, Refund, first, ref), u, Credit, Refund, second, ref);
      Refunds(l'.txs, u, ref) == 2 && l'.balances[u] == l.balances[u] + first + second
  {
    var l1 := Post(l, u, Credit, Refund, first, ref);
    FindRefundIffCounted(l.txs, u, ref);
    RefundsAppend(l.txs, Entry(l, u, Credit, Refund, first, ref), u, ref);
    RefundsAppend(l1.txs, Entry(l1, u, Credit, Refund, second, ref), u, ref);
  }

  /** With overlap the guard fails from every state: two refunds past it together can both be paid and recorded. */
  lemma OverlapRefundsTwice(s: State, p: nat, q: nat)
    requires p < |s.procs| && q < |s.procs| && p != q
    requires s.procs[p].call.RefundOf? && s.procs[q].call.RefundOf?
    requires s.procs[p].call.user == s.procs[q].call.user && s.procs[p].call.ref == s.procs[q].call.ref
    requires s.procs[p].call.user in s.ledger.balances
    requires s.procs[p].phase == GuardPassed && s.procs[q].phase == Ready
    requires FindRefund(s.ledger.txs, s.procs[q].call.user, s.procs[q].call.ref).None?
    ensures
      var u, ref := s.procs[p].call.user, s.procs[p].call.ref;
      var s' := Run(s, [Step(q, true), Step(p, true), Step(p, true), Step(q, true), Step(q, true)]);
      && Refunds(s'.ledger.txs, u, ref) == 2
      && u in s'.ledger.balances
      && s'.ledger.balances[u] == s.ledger.balances[u] + s.procs[p].call.amount + s.procs[q].call.amount
  {
    var a, b := s.procs[p].call, s.procs[q].call;
    ChecksAndPasses(s, q);
    BothPay(Apply(s, Step(q, true)), p, q);
    RunFive(s, Step(q, true), Step(p, true), Step(p, true), Step(q, true), Step(q, true));
    TwoPosts(s.ledger, a.user, a.amount, b.amount, a.ref);
  }
}
