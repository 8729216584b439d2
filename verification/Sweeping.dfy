/** The timeout sweep drains the stuck orders, fifty a tick, and never pays one twice. */
module Sweeping {
  import opened Common
  import opened Wallet
  import opened Batches
  import opened Machines
  import opened Orders
  import opened OrderBooks
  import opened Lifecycle

  // ─── Increasing sequences ──────────────────────────────────────────────────

  ghost predicate Increasing(a: seq<nat>) {
    forall i, j | 0 <= i < j < |a| :: a[i] < a[j]
  }

  lemma FrontsSame(a: seq<nat>, b: seq<nat>, x: nat)
    requires Increasing(a) && a != [] && b != [] && a[|a| - 1] == b[|b| - 1]
    requires (forall y :: y in a ==> y in b) && x in a[..|a| - 1]
    ensures x in b[..|b| - 1]
  {
    var i :| 0 <= i < |a| - 1 && a[i] == x;
    assert x < a[|a| - 1] && a[i] in b;
    var j :| 0 <= j < |b| && b[j] == x;
    assert j != |b| - 1 && b[..|b| - 1][j] == x;
  }

  /** An increasing sequence is determined by its elements. */
  lemma {:induction false} IncreasingUnique(a: seq<nat>, b: seq<nat>)
    requires Increasing(a) && Increasing(b) && forall x :: x in a <==> x in b
    ensures a == b
  {
    var x := if a != [] then a[0] else if b != [] then b[0] else 0;
    assert x in a || x in b || (a == [] && b == []);
    if a != [] {
      var n, m := |a| - 1, |b| - 1;
      assert a[n] in b && b[m] in a;
      assert a[n] == b[m];
      forall x ensures x in a[..n] <==> x in b[..m] {
        if x in a[..n] { FrontsSame(a, b, x); }
        if x in b[..m] { FrontsSame(b, a, x); }
      }
      IncreasingUnique(a[..n], b[..m]);
      assert a == a[..n] + [a[n]] && b == b[..m] + [b[m]];
    }
  }

  // ─── One tick ──────────────────────────────────────────────────────────────

  function AllStuck(s: State, cutoff: int): seq<nat> { StuckIds(s.orders, cutoff, |s.orders|) }

  /** Customers of stuck orders have wallets, as every charged order's customer does. */
  ghost predicate Payable(s: State, cutoff: int) {
    forall i | 0 <= i < |s.orders| && Stuck(s.orders[i], cutoff) :: s.orders[i].user in s.ledger.balances
  }

  /** What a sweep owes a customer: the totals of their swept orders that have no refund yet. */
  function Owed(s: State, ids: seq<nat>, u: UserId): nat
    requires forall i | 0 <= i < |ids| :: ids[i] < |s.orders|
    decreases |ids|
  {
    if ids == [] then 0
    else
      (if s.orders[ids[0]].user == u && !AccountOf(s, ids[0]).refunded then s.orders[ids[0]].total else 0)
      + Owed(s, ids[1..], u)
  }

  /** What is owed depends only on the orders listed. */
  lemma {:induction false} OwedSame(s: State, s': State, ids: seq<nat>, u: UserId)
    requires |s'.orders| == |s.orders|
    requires forall i | 0 <= i < |ids| :: ids[i] < |s.orders| && s'.orders[ids[i]] == s.orders[ids[i]] && AccountOf(s', ids[i]) == AccountOf(s, ids[i])
    ensures Owed(s', ids, u) == Owed(s, ids, u)
    decreases |ids|
  {
    if ids != [] {
      assert forall i | 0 <= i < |ids[1..]| :: ids[1..][i] == ids[i + 1];
      OwedSame(s, s', ids[1..], u);
    }
  }

  lemma {:induction false} OwedSplit(s: State, a: seq<nat>, b: seq<nat>, u: UserId)
    requires forall i | 0 <= i < |a + b| :: (a + b)[i] < |s.orders|
    requires forall i | 0 <= i < |a| :: a[i] < |s.orders|
    requires forall i | 0 <= i < |b| :: b[i] < |s.orders|
    ensures Owed(s, a + b, u) == Owed(s, a, u) + Owed(s, b, u)
    decreases |a|
  {
    if a == [] {
      assert a + b == b;
    } else {
      assert (a + b)[1..] == a[1..] + b;
      assert forall i | 0 <= i < |a[1..] + b| :: (a[1..] + b)[i] == (a + b)[i + 1];
      OwedSplit(s, a[1..], b, u);
    }
  }

  lemma TimeOutCredits(s: State, id: nat, u: UserId)
    requires id < |s.orders| && s.orders[id].user in s.ledger.balances && u in s.ledger.balances
    ensures u in TimeOut(s, id, ALL_WORKS).ledger.balances
    ensures TimeOut(s, id, ALL_WORKS).ledger.balances[u]
         == s.ledger.balances[u] + if s.orders[id].user == u && !AccountOf(s, id).refunded then s.orders[id].total else 0
  {
    TimeOutSpec(s, id);
    FindRefundIffCounted(s.ledger.txs, s.orders[id].user, OrderRef(id));
  }

  /** The wallet credits of a sweep are the sums of the newly refunded totals. */
  lemma {:induction false} SweepCredits(s: State, ids: seq<nat>, u: UserId)
    requires forall i | 0 <= i < |ids| :: ids[i] < |s.orders| && s.orders[ids[i]].user in s.ledger.balances
    requires Distinct(ids) && u in s.ledger.balances
    ensures u in Sweep(s, ids, []).ledger.balances
    ensures Sweep(s, ids, []).ledger.balances[u] == s.ledger.balances[u] + Owed(s, ids, u)
    decreases |ids|
  {
    if ids != [] {
      var s1, rest := TimeOut(s, ids[0], ALL_WORKS), ids[1..];
      TimeOutSpec(s, ids[0]);
      TimeOutCredits(s, ids[0], u);
      assert forall i | 0 <= i < |rest| :: rest[i] == ids[i + 1];
      OwedSame(s, s1, rest, u);
      SweepCredits(s1, rest, u);
    }
  }

  /** Sweeping orders that were swept before moves no money and changes no order. */
  lemma {:induction false} SweptTwiceIsOnce(s: State, ids: seq<nat>)
    requires forall i | 0 <= i < |ids| :: ids[i] < |s.orders| && s.orders[ids[i]].status == Failed && AccountOf(s, ids[i]).refunded
    ensures Sweep(s, ids, []).orders == s.orders && Sweep(s, ids, []).ledger == s.ledger
    decreases |ids|
  {
    if ids != [] {
      var s1 := TimeOut(s, ids[0], ALL_WORKS);
      FindRefundIffCounted(s.ledger.txs, s.orders[ids[0]].user, OrderRef(ids[0]));
      assert s.orders[ids[0] := s.orders[ids[0]].(status := Failed)] == s.orders;
      assert s1.orders == s.orders && s1.ledger == s.ledger;
      var rest := ids[1..];
      assert forall i | 0 <= i < |rest| :: rest[i] == ids[i + 1];
      assert forall i | 0 <= i < |rest| :: AccountOf(s1, rest[i]) == AccountOf(s, rest[i]);
      SweptTwiceIsOnce(s1, rest);
    }
  }

  /** Two sweeps that read the same list, one after the other, pay as one; only food stock is put back twice. */
  lemma OverlappingSweepsPayOnce(s: State, cutoff: int)
    requires Payable(s, cutoff)
    ensures
      var ids := Swept(s.orders, cutoff);
      && |Tick(s, cutoff, []).orders| == |s.orders|
      && Sweep(Tick(s, cutoff, []), ids, []).orders == Tick(s, cutoff, []).orders
      && Sweep(Tick(s, cutoff, []), ids, []).ledger == Tick(s, cutoff, []).ledger
  {
    SweptSpec(s.orders, cutoff);
    SweepSpec(s, Swept(s.orders, cutoff));
    SweptTwiceIsOnce(Tick(s, cutoff, []), Swept(s.orders, cutoff));
  }

  /** After a sweep of some stuck orders, the others are exactly those still stuck. */
  lemma StuckAfter(s: State, s': State, cutoff: int, ids: seq<nat>, x: nat)
    requires SweptExactly(s, s', ids)
    ensures x in AllStuck(s', cutoff) <==> x in AllStuck(s, cutoff) && x !in ids
  {
    StuckIdsSpec(s.orders, cutoff, |s.orders|);
    StuckIdsSpec(s'.orders, cutoff, |s'.orders|);
    if x in AllStuck(s', cutoff) {
      assert Stuck(s'.orders[x], cutoff);
      assert x !in ids;
    }
    if x in AllStuck(s, cutoff) && x !in ids {
      assert s'.orders[x] == s.orders[x];
    }
  }

  lemma InSuffix(all: seq<nat>, k: nat, x: nat)
    requires Increasing(all) && k <= |all|
    ensures x in all[k..] <==> x in all && x !in all[..k]
  {
  }

  lemma StuckIncreasing(s: State, cutoff: int)
    ensures Increasing(AllStuck(s, cutoff))
  {
    StuckIdsSpec(s.orders, cutoff, |s.orders|);
  }

  /** Sweeping the oldest `k` leaves the rest of the list, in order. */
  lemma SweptPrefixDrains(s: State, s': State, cutoff: int, k: nat)
    requires k <= |AllStuck(s, cutoff)| && SweptExactly(s, s', AllStuck(s, cutoff)[..k])
    ensures AllStuck(s', cutoff) == AllStuck(s, cutoff)[k..]
  {
    var all := AllStuck(s, cutoff);
    StuckIncreasing(s, cutoff);
    StuckIncreasing(s', cutoff);
    forall x ensures x in AllStuck(s', cutoff) <==> x in all[k..] {
      StuckAfter(s, s', cutoff, all[..k], x);
      InSuffix(all, k, x);
    }
    IncreasingUnique(AllStuck(s', cutoff), all[k..]);
  }

  /** A sweep makes no customer unpayable. */
  lemma StillPayable(s: State, s': State, cutoff: int, ids: seq<nat>)
    requires Payable(s, cutoff) && SweptExactly(s, s', ids)
    ensures Payable(s', cutoff)
  {
  }

  // ─── Many ticks ────────────────────────────────────────────────────────────

  function Ticks(s: State, cutoffs: seq<int>): State
    decreases |cutoffs|
  {
    if cutoffs == [] then s else Ticks(Tick(s, cutoffs[0], []), cutoffs[1..])
  }

  /** No order becomes stuck between the ticks: each cutoff finds the same live orders too old as `cutoff`. */
  ghost predicate NoNewOnes(orders: seq<Order>, cutoffs: seq<int>, cutoff: int) {
    forall k, i | 0 <= k < |cutoffs| && 0 <= i < |orders| && orders[i].Live() ::
      orders[i].createdAt < cutoffs[k] <==> orders[i].createdAt < cutoff
  }

  lemma {:induction false} SameStuck(orders: seq<Order>, a: int, b: int, n: nat)
    requires n <= |orders| && forall i | 0 <= i < |orders| && orders[i].Live() :: orders[i].createdAt < a <==> orders[i].createdAt < b
    ensures StuckIds(orders, a, n) == StuckIds(orders, b, n)
  {
    if n > 0 { SameStuck(orders, a, b, n - 1); }
  }

  /** How many orders `k` ticks reach, at fifty (`SWEEP_LIMIT`) a tick. */
  function Reach(n: nat, k: nat): nat { Min(50 * k, n) }

  lemma ReachStep(n: nat, k: nat)
    requires k > 0
    ensures Reach(n, k) == Min(SWEEP_LIMIT, n) + Reach(n - Min(SWEEP_LIMIT, n), k - 1)
  {
  }

  /** The oldest fifty, or all of them. */
  function Oldest(s: State, cutoff: int): seq<nat> { AllStuck(s, cutoff)[..Min(SWEEP_LIMIT, |AllStuck(s, cutoff)|)] }

  /** A tick sweeps the oldest fifty and leaves the rest on the list. */
  lemma OneTick(s: State, at: int, cutoff: int)
    requires Payable(s, cutoff)
    requires forall i | 0 <= i < |s.orders| && s.orders[i].Live() :: s.orders[i].createdAt < at <==> s.orders[i].createdAt < cutoff
    ensures
      var ids := Oldest(s, cutoff);
      && (forall i | 0 <= i < |ids| :: ids[i] < |s.orders| && s.orders[ids[i]].user in s.ledger.balances)
      && Distinct(ids) && Tick(s, at, []) == Sweep(s, ids, []) && SweptExactly(s, Tick(s, at, []), ids)
      && AllStuck(Tick(s, at, []), cutoff) == AllStuck(s, cutoff)[|ids|..] && Payable(Tick(s, at, []), cutoff)
  {
    SameStuck(s.orders, at, cutoff, |s.orders|);
    assert Swept(s.orders, at) == Swept(s.orders, cutoff) == Oldest(s, cutoff);
    SweptSpec(s.orders, cutoff);
    SweepSpec(s, Oldest(s, cutoff));
    SweptPrefixDrains(s, Tick(s, at, []), cutoff, |Oldest(s, cutoff)|);
    StillPayable(s, Tick(s, at, []), cutoff, Oldest(s, cutoff));
  }

  lemma TakeDrop(all: seq<nat>, first: nat, more: nat)
    requires first + more <= |all|
    ensures all[..first] + all[first..][..more] == all[..first + more]
    ensures all[first..][more..] == all[first + more..]
  {
  }

  /** The result of `k` ticks: the oldest that `k` ticks reach are swept, the rest are left. */
  ghost predicate Drained(s: State, s': State, cutoff: int, k: nat) {
    var all := AllStuck(s, cutoff);
    var done := Reach(|all|, k);
    AllStuck(s', cutoff) == all[done..] && SweptExactly(s, s', all[..done])
  }

  lemma DrainedThen(s: State, s1: State, s2: State, cutoff: int, k: nat)
    requires SweptExactly(s, s1, Oldest(s, cutoff)) && AllStuck(s1, cutoff) == AllStuck(s, cutoff)[|Oldest(s, cutoff)|..]
    requires Drained(s1, s2, cutoff, k)
    ensures Drained(s, s2, cutoff, k + 1)
  {
  }

  /**
   * With n stuck orders and no new ones, k ticks fail and refund exactly the oldest min(50k, n) of
   * them, leave the other max(0, n - 50k) in order, and leave every other order as it was.
   */
  lemma {:induction false} TicksDrain(s: State, cutoffs: seq<int>, cutoff: int)
    requires Payable(s, cutoff) && NoNewOnes(s.orders, cutoffs, cutoff)
    ensures Drained(s, Ticks(s, cutoffs), cutoff, |cutoffs|)
    decreases |cutoffs|
  {
    if cutoffs == [] {
      assert AllStuck(s, cutoff)[..0] == [];
    } else {
      var ids, s1, rest := Oldest(s, cutoff), Tick(s, cutoffs[0], []), cutoffs[1..];
      OneTick(s, cutoffs[0], cutoff);
      StillNoNewOnes(s, s1, ids, cutoffs, cutoff);
      TicksDrain(s1, rest, cutoff);
      DrainedThen(s, s1, Ticks(s1, rest), cutoff, |rest|);
    }
  }

  /** How many are left after k ticks. */
  lemma TicksLeave(s: State, cutoffs: seq<int>, cutoff: int)
    requires Payable(s, cutoff) && NoNewOnes(s.orders, cutoffs, cutoff)
    ensures |AllStuck(Ticks(s, cutoffs), cutoff)| == Max(0, |AllStuck(s, cutoff)| - 50 * |cutoffs|)
  {
    TicksDrain(s, cutoffs, cutoff);
  }

  lemma StillNoNewOnes(s: State, s1: State, ids: seq<nat>, cutoffs: seq<int>, cutoff: int)
    requires cutoffs != [] && NoNewOnes(s.orders, cutoffs, cutoff) && SweptExactly(s, s1, ids)
    ensures NoNewOnes(s1.orders, cutoffs[1..], cutoff)
  {
  }

  /** The wallet of `u` gained the totals of the orders listed that were theirs and had no refund. */
  ghost predicate CreditedFor(s: State, s': State, ids: seq<nat>, u: UserId) {
    && (forall i | 0 <= i < |ids| :: ids[i] < |s.orders|)
    && u in s.ledger.balances && u in s'.ledger.balances
    && s'.ledger.balances[u] == s.ledger.balances[u] + Owed(s, ids, u)
  }

  /** What is credited for the first orders of a list, and then for more of it, is credited for all of them. */
  lemma CreditedThen(s: State, s1: State, s2: State, all: seq<nat>, first: nat, more: nat, u: UserId)
    requires first + more <= |all| && Increasing(all) && forall i | 0 <= i < |all| :: all[i] < |s.orders|
    requires SweptExactly(s, s1, all[..first])
    requires CreditedFor(s, s1, all[..first], u) && CreditedFor(s1, s2, all[first..][..more], u)
    ensures CreditedFor(s, s2, all[..first + more], u)
  {
    TakeDrop(all, first, more);
    LaterUntouched(s, s1, all, first, more);
    OwedSame(s, s1, all[first..][..more], u);
    OwedSplit(s, all[..first], all[first..][..more], u);
  }

  /** What the first tick credits and leaves. */
  lemma OneTickCredits(s: State, at: int, cutoff: int, u: UserId)
    requires Payable(s, cutoff) && u in s.ledger.balances
    requires forall i | 0 <= i < |s.orders| && s.orders[i].Live() :: s.orders[i].createdAt < at <==> s.orders[i].createdAt < cutoff
    ensures
      var ids, s1 := Oldest(s, cutoff), Tick(s, at, []);
      && CreditedFor(s, s1, ids, u) && SweptExactly(s, s1, ids)
      && Payable(s1, cutoff) && AllStuck(s1, cutoff) == AllStuck(s, cutoff)[|ids|..]
  {
    OneTick(s, at, cutoff);
    SweepCredits(s, Oldest(s, cutoff), u);
  }

  /** What `k` ticks credit: the orders they reach. */
  ghost predicate Credited(s: State, s': State, cutoff: int, k: nat, u: UserId) {
    var all := AllStuck(s, cutoff);
    CreditedFor(s, s', all[..Reach(|all|, k)], u)
  }

  lemma OneTickMore(s: State, s1: State, s2: State, cutoff: int, k: nat, u: UserId)
    requires CreditedFor(s, s1, Oldest(s, cutoff), u) && SweptExactly(s, s1, Oldest(s, cutoff))
    requires AllStuck(s1, cutoff) == AllStuck(s, cutoff)[|Oldest(s, cutoff)|..] && Credited(s1, s2, cutoff, k, u)
    ensures Credited(s, s2, cutoff, k + 1, u)
  {
    var all, first := AllStuck(s, cutoff), |Oldest(s, cutoff)|;
    StuckInRange(s, cutoff);
    StuckIncreasing(s, cutoff);
    ReachStep(|all|, k + 1);
    CreditedThen(s, s1, s2, all, first, Reach(|all| - first, k), u);
  }

  lemma NoTickCredits(s: State, cutoff: int, u: UserId)
    requires u in s.ledger.balances
    ensures Credited(s, s, cutoff, 0, u)
  {
    assert AllStuck(s, cutoff)[..0] == [];
  }

  /** Over all ticks, each wallet gains exactly the totals of its swept orders that had no refund. */
  lemma {:induction false} TicksCredit(s: State, cutoffs: seq<int>, cutoff: int, u: UserId)
    requires Payable(s, cutoff) && NoNewOnes(s.orders, cutoffs, cutoff) && u in s.ledger.balances
    ensures Credited(s, Ticks(s, cutoffs), cutoff, |cutoffs|, u)
    decreases |cutoffs|
  {
    if cutoffs == [] {
      NoTickCredits(s, cutoff, u);
    } else {
      var s1, rest := Tick(s, cutoffs[0], []), cutoffs[1..];
      OneTickCredits(s, cutoffs[0], cutoff, u);
      StillNoNewOnes(s, s1, Oldest(s, cutoff), cutoffs, cutoff);
      TicksCredit(s1, rest, cutoff, u);
      OneTickMore(s, s1, Ticks(s1, rest), cutoff, |rest|, u);
    }
  }

  lemma StuckInRange(s: State, cutoff: int)
    ensures forall i | 0 <= i < |AllStuck(s, cutoff)| :: AllStuck(s, cutoff)[i] < |s.orders|
  {
    StuckIdsSpec(s.orders, cutoff, |s.orders|);
  }

  /** The orders of later ticks are not touched by the first one. */
  lemma LaterUntouched(s: State, s1: State, all: seq<nat>, first: nat, more: nat)
    requires first + more <= |all| && Increasing(all) && SweptExactly(s, s1, all[..first])
    requires forall i | 0 <= i < |all| :: all[i] < |s.orders|
    ensures
      var later := all[first..][..more];
      forall i | 0 <= i < |later| ::
        later[i] < |s.orders| && s1.orders[later[i]] == s.orders[later[i]] && AccountOf(s1, later[i]) == AccountOf(s, later[i])
  {
  }

  /** In an account in order, a charged swept order ends failed with exactly one refund. */
  lemma SweptOrderRefundedOnce(s: State, cutoffs: seq<int>, cutoff: int, i: nat)
    requires Books(s.orders, s.ledger) && Payable(s, cutoff) && NoNewOnes(s.orders, cutoffs, cutoff)
    requires i < |s.orders| && i in AllStuck(s, cutoff)[..Reach(|AllStuck(s, cutoff)|, |cutoffs|)]
    ensures
      var s' := Ticks(s, cutoffs);
      && |s'.orders| == |s.orders| && s'.orders[i].status == Failed
      && Refunds(s'.ledger.txs, s.orders[i].user, OrderRef(i)) == 1
  {
    TicksDrain(s, cutoffs, cutoff);
    TicksKeepBooks(s, cutoffs);
    assert OrderKept(Ticks(s, cutoffs).orders, Ticks(s, cutoffs).ledger, i);
    assert AccountOf(Ticks(s, cutoffs), i).refunded;
  }

  lemma {:induction false} TicksKeepBooks(s: State, cutoffs: seq<int>)
    requires Books(s.orders, s.ledger)
    ensures Books(Ticks(s, cutoffs).orders, Ticks(s, cutoffs).ledger)
    decreases |cutoffs|
  {
    if cutoffs != [] {
      SweepKeepsBooks(s, Swept(s.orders, cutoffs[0]), []);
      TicksKeepBooks(Tick(s, cutoffs[0], []), cutoffs[1..]);
    }
  }
}
