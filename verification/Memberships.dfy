/** Membership sales: periods that never overlap, and prices that match the wallet's debits. */
module Memberships {
  import opened Common
  import opened Wallet
  import opened Pricing

  const DAY := 24 * HOUR

  datatype MembershipStatus = Active | Expired | Cancelled

  datatype Membership = Membership(
    user: UserId, plan: string, discount: Percent, start: int, end: int, status: MembershipStatus, pricePaid: nat, agent: Option<UserId>)
  {
    predicate LiveAt(now: int) { status == Active && end > now }
  }

  datatype Terms = Terms(price: nat, discount: Percent, days: nat)

  function PlanTerms(plan: string): (t: Option<Terms>)
    ensures t.Some? ==> t.value.price > 0 && t.value.days > 0
  {
    if plan == "1month" then Some(Terms(500, 15.0, 30))
    else if plan == "3month" then Some(Terms(1300, 20.0, 90))
    else if plan == "5month" then Some(Terms(2000, 25.0, 150))
    else None
  }

  datatype MembershipError = AlreadyMember | InvalidPlan | NoSuchMembership | NotYours | SaleFailed | Unpaid(error: WalletError)

  /** The three times a sale reads the clock: the check, the start date and the base of the end date. */
  datatype Clock = Clock(checked: int, start: int, base: int) {
    predicate Forward() { checked <= start <= base }
  }

  datatype Club = Club(members: seq<Membership>, ledger: Ledger)

  /** `findOne` on user, status and end date. */
  function FindLive(ms: seq<Membership>, u: UserId, now: int): (m: Option<Membership>)
    ensures m.Some? ==> m.value in ms && m.value.user == u && m.value.LiveAt(now)
    ensures m.None? ==> forall i | 0 <= i < |ms| :: !(ms[i].user == u && ms[i].LiveAt(now))
  {
    if ms == [] then None
    else if ms[0].user == u && ms[0].LiveAt(now) then Some(ms[0])
    else
      var rest := FindLive(ms[1..], u, now);
      assert rest.None? ==> forall i | 1 <= i < |ms| :: ms[i] == ms[1..][i - 1];
      rest
  }

  datatype Sale = Sale(user: UserId, plan: string, clock: Clock, number: nat, agent: Option<UserId>, fault: DebitFault, saveFails: bool)

  function NewMembership(x: Sale, t: Terms): Membership {
    Membership(x.user, x.plan, t.discount, x.clock.start, x.clock.base + t.days * DAY, Active, t.price, x.agent)
  }

  function Sell(c: Club, x: Sale): (Club, Outcome<Membership, MembershipError>) {
    if FindLive(c.members, x.user, x.clock.checked).Some? then (c, Err(AlreadyMember))
    else match PlanTerms(x.plan)
      case None => (c, Err(InvalidPlan))
      case Some(t) =>
        var (l, r) := DeductCall(c.ledger, x.user, t.price, MembershipRef(x.number), x.fault);
        if r.Err? then (c.(ledger := l), Err(Unpaid(r.error)))
        else if x.saveFails then (c.(ledger := l), Err(SaleFailed))
        else (Club(c.members + [NewMembership(x, t)], l), Ok(NewMembership(x, t)))
  }

  function Cancel(ms: seq<Membership>, id: nat, requester: UserId, privileged: bool): (seq<Membership>, Outcome<Membership, MembershipError>) {
    if id >= |ms| then (ms, Err(NoSuchMembership))
    else if !privileged && ms[id].user != requester then (ms, Err(NotYours))
    else
      var m := ms[id].(status := Cancelled);
      (ms[id := m], Ok(m))
  }

  function Expire(ms: seq<Membership>, now: int): seq<Membership> {
    seq(|ms|, i requires 0 <= i < |ms| => if ms[i].status == Active && ms[i].end < now then ms[i].(status := Expired) else ms[i])
  }

  /** What a plan costs, takes off each order, and lasts. */
  predicate Offered(plan: string, price: nat, discount: real, days: nat) {
    || (plan == "1month" && price == 500 && discount == 15.0 && days == 30)
    || (plan == "3month" && price == 1300 && discount == 20.0 && days == 90)
    || (plan == "5month" && price == 2000 && discount == 25.0 && days == 150)
  }

  /** The customer holds a membership that is active and not over. */
  ghost predicate Member(ms: seq<Membership>, u: UserId, now: int) {
    exists i | 0 <= i < |ms| :: ms[i].user == u && ms[i].status == Active && ms[i].end > now
  }

  /**
   * A sale goes through if and only if the customer is no member, the plan is on offer, the wallet holds its
   * price and no call fails. It then adds one membership on the plan's terms and takes its price.
   */
  lemma SaleIff(c: Club, x: Sale)
    ensures Sell(c, x).1.Ok?
       <==> !Member(c.members, x.user, x.clock.checked) && x.fault == NoDebitFault && !x.saveFails && x.user in c.ledger.balances
            && PlanTerms(x.plan).Some? && c.ledger.balances[x.user] >= PlanTerms(x.plan).value.price
    ensures PlanTerms(x.plan).Some? <==> x.plan in ["1month", "3month", "5month"]
    ensures Sell(c, x).1.Ok? ==>
      var (c', m) := (Sell(c, x).0, Sell(c, x).1.value);
      && c'.members == c.members + [m] && m.user == x.user && m.plan == x.plan && m.agent == x.agent
      && m.status == Active && m.start == x.clock.start
      && (exists days: nat :: Offered(x.plan, m.pricePaid, m.discount, days) && m.end == x.clock.base + days * 86_400_000)
      && c'.ledger.balances == c.ledger.balances[x.user := c.ledger.balances[x.user] - m.pricePaid]
  {
    if PlanTerms(x.plan).Some? {
      var t := PlanTerms(x.plan).value;
      assert Offered(x.plan, t.price, t.discount, t.days);
    }
  }

  /** A membership is cancelled if and only if it exists and the caller is privileged or owns it; no other one changes. */
  lemma CancelledIff(ms: seq<Membership>, id: nat, requester: UserId, privileged: bool)
    ensures
      var (ms', r) := Cancel(ms, id, requester, privileged);
      && (r.Ok? <==> id < |ms| && (privileged || ms[id].user == requester))
      && |ms'| == |ms|
      && forall i | 0 <= i < |ms| :: ms'[i] == if r.Ok? && i == id then ms[i].(status := Cancelled) else ms[i]
  {
  }

  class MembershipsService {
    var members: seq<Membership>
    const wallet: WalletService

    ghost function View(): Club
      reads this, wallet
    {
      Club(members, wallet.View())
    }

    constructor (wallet: WalletService)
      ensures this.wallet == wallet && members == []
    {
      this.wallet := wallet;
      members := [];
    }

    method Subscribe(x: Sale) returns (r: Outcome<Membership, MembershipError>)
      modifies this, wallet`balances, wallet`txs
      ensures (View(), r) == Sell(old(View()), x)
    {
      var existing := FindLive(members, x.user, x.clock.checked);
      if existing.Some? { return Err(AlreadyMember); }
      var terms := PlanTerms(x.plan);
      if terms.None? { return Err(InvalidPlan); }
      var tx := wallet.Deduct(x.user, terms.value.price, MembershipRef(x.number), x.fault);
      if tx.Err? { return Err(Unpaid(tx.error)); }
      var endDate := x.clock.base + terms.value.days * DAY;
      if x.saveFails { return Err(SaleFailed); }
      var m := Membership(x.user, x.plan, terms.value.discount, x.clock.start, endDate, Active, terms.value.price, x.agent);
      members := members + [m];
      return Ok(m);
    }

    method CancelMembership(id: nat, requester: UserId, privileged: bool) returns (r: Outcome<Membership, MembershipError>)
      modifies this`members
      ensures (members, r) == Cancel(old(members), id, requester, privileged)
    {
      if id >= |members| { return Err(NoSuchMembership); }
      if !privileged && members[id].user != requester { return Err(NotYours); }
      members := members[id := members[id].(status := Cancelled)];
      return Ok(members[id]);
    }

    /** The daily sweep is one `updateMany`. */
    method ExpireMemberships(now: int)
      modifies this`members
      ensures |members| == |old(members)|
      ensures forall i | 0 <= i < |members| :: members[i] ==
                if old(members)[i].status == Active && old(members)[i].end < now then old(members)[i].(status := Expired) else old(members)[i]
    {
      members := Expire(members, now);
    }
  }

  // ─── Periods ───────────────────────────────────────────────────────────────

  /** The periods of a user's memberships that were not cancelled do not overlap. */
  ghost predicate Disjoint(ms: seq<Membership>) {
    forall i, j | 0 <= i < j < |ms| && ms[i].user == ms[j].user && ms[i].status != Cancelled && ms[j].status != Cancelled ::
      ms[i].end <= ms[j].start
  }

  /** Nothing has started after `now`, everything expired had ended by then, and periods do not overlap. */
  ghost predicate InOrder(ms: seq<Membership>, now: int) {
    && (forall i | 0 <= i < |ms| :: ms[i].start <= now && ms[i].start < ms[i].end)
    && (forall i | 0 <= i < |ms| && ms[i].status == Expired :: ms[i].end < now)
    && Disjoint(ms)
  }

  /** While memberships are in order a customer has at most one live membership, the one pricing finds. */
  lemma LiveMembershipIsUnique(ms: seq<Membership>, asOf: int, now: int, i: nat)
    requires InOrder(ms, asOf) && asOf <= now && i < |ms| && ms[i].LiveAt(now)
    ensures FindLive(ms, ms[i].user, now) == Some(ms[i])
    ensures forall j | 0 <= j < |ms| && j != i && ms[j].user == ms[i].user :: !ms[j].LiveAt(now)
  {
  }

  datatype Event =
    | Subscribing(sale: Sale)
    | Cancelling(id: nat, requester: UserId, privileged: bool)
    | Expiring(now: int)
    | ToppingUp(user: UserId, amount: nat, text: string)

  function Apply(c: Club, e: Event): Club {
    match e
    case Subscribing(x) => Sell(c, x).0
    case Cancelling(id, requester, privileged) => c.(members := Cancel(c.members, id, requester, privileged).0)
    case Expiring(now) => c.(members := Expire(c.members, now))
    case ToppingUp(u, amount, text) => c.(ledger := CreditCall(c.ledger, u, TopupBank, amount, External(text), NoCreditFault).0)
  }

  function Run(c: Club, events: seq<Event>): Club
    decreases |events|
  {
    if events == [] then c else Run(Apply(c, events[0]), events[1..])
  }

  /** The first time an event reads the clock, and the last. */
  function Begins(e: Event, now: int): int {
    match e
    case Subscribing(x) => x.clock.checked
    case Expiring(at) => at
    case _ => now
  }

  function Ends(e: Event, now: int): int {
    match e
    case Subscribing(x) => x.clock.base
    case Expiring(at) => at
    case _ => now
  }

  /** The clock never runs backwards, neither between events nor inside one. */
  predicate Monotone(now: int, events: seq<Event>)
    decreases |events|
  {
    events != [] ==>
      && now <= Begins(events[0], now)
      && (events[0].Subscribing? ==> events[0].sale.clock.Forward())
      && Monotone(Ends(events[0], now), events[1..])
  }

  function LastTime(now: int, events: seq<Event>): int
    decreases |events|
  {
    if events == [] then now else LastTime(Ends(events[0], now), events[1..])
  }

  lemma SaleKeepsOrder(c: Club, x: Sale, now: int)
    requires InOrder(c.members, now) && now <= x.clock.checked && x.clock.Forward()
    ensures InOrder(Sell(c, x).0.members, x.clock.base)
  {
    if Sell(c, x).1.Ok? {
      var ms, ms' := c.members, Sell(c, x).0.members;
      forall i | 0 <= i < |ms| && ms[i].user == x.user && ms[i].status != Cancelled ensures ms[i].end <= x.clock.start {
        assert !ms[i].LiveAt(x.clock.checked);
      }
    }
  }

  lemma EventKeepsOrder(c: Club, e: Event, now: int)
    requires InOrder(c.members, now) && Monotone(now, [e])
    ensures InOrder(Apply(c, e).members, Ends(e, now))
  {
    assert [e][1..] == [];
    match e
    case Subscribing(x) => SaleKeepsOrder(c, x, now);
    case Cancelling(_, _, _) =>
    case Expiring(at) =>
    case ToppingUp(_, _, _) =>
  }

  /** Over every run of serial calls with a forward clock, periods never overlap. */
  lemma {:induction false} EveryRunKeepsPeriodsDisjoint(c: Club, events: seq<Event>, now: int)
    requires InOrder(c.members, now) && Monotone(now, events)
    ensures InOrder(Run(c, events).members, LastTime(now, events))
    decreases |events|
  {
    if events != [] {
      assert [events[0]][1..] == [];
      EventKeepsOrder(c, events[0], now);
      EveryRunKeepsPeriodsDisjoint(Apply(c, events[0]), events[1..], Ends(events[0], now));
    }
  }

  // ─── Prices and debits ─────────────────────────────────────────────────────

  function Paid(ms: seq<Membership>, u: UserId): nat {
    if ms == [] then 0 else Paid(ms[..|ms| - 1], u) + if ms[|ms| - 1].user == u then ms[|ms| - 1].pricePaid else 0
  }

  function MembershipDebits(txs: seq<Transaction>, u: UserId): nat {
    if txs == [] then 0
    else
      var t := txs[|txs| - 1];
      MembershipDebits(txs[..|txs| - 1], u) + if t.user == u && t.kind == Debit && t.ref.MembershipRef? then t.amount else 0
  }

  lemma {:induction false} PaidSame(ms: seq<Membership>, ms': seq<Membership>, u: UserId)
    requires |ms'| == |ms| && forall i | 0 <= i < |ms| :: ms'[i].user == ms[i].user && ms'[i].pricePaid == ms[i].pricePaid
    ensures Paid(ms', u) == Paid(ms, u)
  {
    if ms != [] { PaidSame(ms[..|ms| - 1], ms'[..|ms| - 1], u); }
  }

  /** A sale whose debit is recorded and whose membership is not. */
  predicate LosesSale(c: Club, e: Event) {
    && e.Subscribing? && e.sale.saveFails && e.sale.fault == NoDebitFault
    && FindLive(c.members, e.sale.user, e.sale.clock.checked).None? && PlanTerms(e.sale.plan).Some?
    && e.sale.user in c.ledger.balances && c.ledger.balances[e.sale.user] >= PlanTerms(e.sale.plan).value.price
  }

  function LostBy(c: Club, e: Event, u: UserId): nat {
    if LosesSale(c, e) && e.sale.user == u then PlanTerms(e.sale.plan).value.price else 0
  }

  /** Total price of a customer's lost sales in a run. */
  function Lost(c: Club, events: seq<Event>, u: UserId): nat
    decreases |events|
  {
    if events == [] then 0 else LostBy(c, events[0], u) + Lost(Apply(c, events[0]), events[1..], u)
  }

  lemma SaleAccounts(c: Club, x: Sale, u: UserId)
    ensures
      var c', e := Sell(c, x).0, Subscribing(x);
      MembershipDebits(c'.ledger.txs, u) + Paid(c.members, u) == MembershipDebits(c.ledger.txs, u) + Paid(c'.members, u) + LostBy(c, e, u)
  {
    var c' := Sell(c, x).0;
    if |c'.ledger.txs| > |c.ledger.txs| {
      assert c'.ledger.txs[..|c.ledger.txs|] == c.ledger.txs;
    }
    if |c'.members| > |c.members| {
      assert c'.members[..|c.members|] == c.members;
    }
  }

  lemma EventAccounts(c: Club, e: Event, u: UserId)
    ensures
      var c' := Apply(c, e);
      MembershipDebits(c'.ledger.txs, u) + Paid(c.members, u) == MembershipDebits(c.ledger.txs, u) + Paid(c'.members, u) + LostBy(c, e, u)
  {
    match e
    case Subscribing(x) => SaleAccounts(c, x, u);
    case Cancelling(_, _, _) => PaidSame(c.members, Apply(c, e).members, u);
    case Expiring(_) => PaidSame(c.members, Apply(c, e).members, u);
    case ToppingUp(v, amount, text) =>
      var c' := Apply(c, e);
      if v in c.ledger.balances { assert c'.ledger.txs[..|c.ledger.txs|] == c.ledger.txs; }
  }

  lemma {:induction false} RunAccounts(c: Club, events: seq<Event>, u: UserId)
    ensures
      var c' := Run(c, events);
      MembershipDebits(c'.ledger.txs, u) + Paid(c.members, u) == MembershipDebits(c.ledger.txs, u) + Paid(c'.members, u) + Lost(c, events, u)
    decreases |events|
  {
    if events != [] {
      EventAccounts(c, events[0], u);
      RunAccounts(Apply(c, events[0]), events[1..], u);
    }
  }

  /**
   * From an empty club: what a customer's memberships say was paid is what the wallet debited for
   * memberships, exactly when no sale of theirs was charged and then failed to save.
   */
  lemma PricesMatchDebitsIff(balances: map<UserId, int>, events: seq<Event>, u: UserId)
    ensures
      var c := Run(Club([], Ledger(balances, [])), events);
      Paid(c.members, u) == MembershipDebits(c.ledger.txs, u) <==> Lost(Club([], Ledger(balances, [])), events, u) == 0
  {
    RunAccounts(Club([], Ledger(balances, [])), events, u);
  }
}
