/** The wallet ledger: balances, the transaction collection, and the calls that move money. */
module Wallet {
  import opened Common

  type UserId = string

  /** What a transaction refers to. Generated references of different kinds never collide. */
  datatype Ref =
    | NoRef
    | OrderRef(order: nat)          // an order's canonical _id
    | HumanRef(orderNo: nat)        // an order's printed ETR-... number
    | LegacyRef(legacyNo: nat)      // `legacy-` followed by an ETR-... number
    | MembershipRef(sale: nat)
    | RequestRef(request: nat)      // a bank-slip top-up request
    | AgentRef(agent: UserId)
    | External(text: string)

  datatype Kind = Credit | Debit

  datatype Category = TopupQr | TopupBank | AgentTopup | OrderPayment | Refund | Adjustment

  datatype Transaction = Transaction(
    user: UserId, amount: nat, kind: Kind, category: Category, ref: Ref, before: int, after: int)
  {
    function Signed(): int { if kind == Credit then amount else 0 - amount }
  }

  datatype Ledger = Ledger(balances: map<UserId, int>, txs: seq<Transaction>)

  datatype WalletError = WalletNotFound | InsufficientBalance | InvalidAmount | DatabaseError

  /** Where the database fails during a credit. */
  datatype CreditFault = NoCreditFault | BeforeCredit | CreditInsertFails

  /** Where the database fails during a deduction. */
  datatype DebitFault = NoDebitFault | BeforeDebit | DebitInsertFails | DebitInsertAndRestoreFail

  const MAX_TOPUP := 50_000

  // ─── The ledger as a value ─────────────────────────────────────────────────

  /** Sum of the recorded credits of a user minus the recorded debits. */
  function Net(txs: seq<Transaction>, u: UserId): int {
    if txs == [] then 0
    else Net(txs[..|txs| - 1], u) + (if txs[|txs| - 1].user == u then txs[|txs| - 1].Signed() else 0)
  }

  lemma NetAppend(txs: seq<Transaction>, t: Transaction, u: UserId)
    ensures Net(txs + [t], u) == Net(txs, u) + if t.user == u then t.Signed() else 0
  {
  }

  predicate IsRefund(t: Transaction, u: UserId, ref: Ref) {
    t.user == u && t.ref == ref && t.category == Refund
  }

  /** How many refunds are recorded for a user under one reference. */
  function Refunds(txs: seq<Transaction>, u: UserId, ref: Ref): nat {
    if txs == [] then 0
    else Refunds(txs[..|txs| - 1], u, ref) + if IsRefund(txs[|txs| - 1], u, ref) then 1 else 0
  }

  lemma RefundsAppend(txs: seq<Transaction>, t: Transaction, u: UserId, ref: Ref)
    ensures Refunds(txs + [t], u, ref) == Refunds(txs, u, ref) + if IsRefund(t, u, ref) then 1 else 0
  {
  }

  /** The idempotency guard: the first recorded refund of this user under this reference. */
  function FindRefund(txs: seq<Transaction>, u: UserId, ref: Ref): (r: Option<Transaction>)
    ensures r.Some? ==> r.value in txs && IsRefund(r.value, u, ref)
    ensures r.None? ==> forall t | t in txs :: !IsRefund(t, u, ref)
  {
    if txs == [] then None
    else if IsRefund(txs[0], u, ref) then Some(txs[0])
    else FindRefund(txs[1..], u, ref)
  }

  /** The guard answers exactly when the refund count is positive. */
  lemma {:induction false} FindRefundIffCounted(txs: seq<Transaction>, u: UserId, ref: Ref)
    ensures FindRefund(txs, u, ref).Some? <==> Refunds(txs, u, ref) > 0
  {
    if txs != [] {
      var front, last := txs[..|txs| - 1], txs[|txs| - 1];
      FindRefundIffCounted(front, u, ref);
      assert txs == front + [last];
      if FindRefund(front, u, ref).Some? {
        assert FindRefund(front, u, ref).value in txs;
      }
    }
  }

  /** Balance moved and the matching record written. */
  function Post(l: Ledger, u: UserId, kind: Kind, category: Category, amount: nat, ref: Ref): Ledger
    requires u in l.balances
  {
    var t := Entry(l, u, kind, category, amount, ref);
    Ledger(l.balances[u := t.after], l.txs + [t])
  }

  function Entry(l: Ledger, u: UserId, kind: Kind, category: Category, amount: nat, ref: Ref): Transaction
    requires u in l.balances
  {
    var before := l.balances[u];
    Transaction(u, amount, kind, category, ref, before, if kind == Credit then before + amount else before - amount)
  }

  /** Balance moved with no record: what is left when the record of a movement cannot be written. */
  function Shift(l: Ledger, u: UserId, delta: int): Ledger
    requires u in l.balances
  {
    l.(balances := l.balances[u := l.balances[u] + delta])
  }

  function CreditCall(l: Ledger, u: UserId, category: Category, amount: nat, ref: Ref, fault: CreditFault)
    : (Ledger, Outcome<Transaction, WalletError>)
  {
    if fault == BeforeCredit then (l, Err(DatabaseError))
    else if u !in l.balances then (l, Err(WalletNotFound))
    else if fault == CreditInsertFails then (Shift(l, u, amount), Err(DatabaseError))
    else (Post(l, u, Credit, category, amount, ref), Ok(Entry(l, u, Credit, category, amount, ref)))
  }

  function DeductCall(l: Ledger, u: UserId, amount: nat, ref: Ref, fault: DebitFault)
    : (Ledger, Outcome<Transaction, WalletError>)
  {
    if fault == BeforeDebit then (l, Err(DatabaseError))
    else if u !in l.balances then (l, Err(WalletNotFound))
    else if l.balances[u] < amount then (l, Err(InsufficientBalance))
    else match fault
      case NoDebitFault =>
        (Post(l, u, Debit, OrderPayment, amount, ref), Ok(Entry(l, u, Debit, OrderPayment, amount, ref)))
      case DebitInsertAndRestoreFail => (Shift(l, u, 0 - amount), Err(DatabaseError))
      case _ => (l, Err(DatabaseError))
  }

  function RefundCall(l: Ledger, u: UserId, amount: nat, ref: Ref, fault: CreditFault)
    : (Ledger, Outcome<Transaction, WalletError>)
  {
    if fault == BeforeCredit then (l, Err(DatabaseError))
    else if FindRefund(l.txs, u, ref).Some? then (l, Ok(FindRefund(l.txs, u, ref).value))
    else CreditCall(l, u, Refund, amount, ref, fault)
  }

  /** Every balance is the initial one plus the recorded credits less the recorded debits, and none is negative. */
  ghost predicate Backed(init: map<UserId, int>, l: Ledger) {
    && l.balances.Keys == init.Keys
    && forall u | u in init :: l.balances[u] == init[u] + Net(l.txs, u) && l.balances[u] >= 0
  }

  // ─── What a call moves without a record ────────────────────────────────────

  /** What the balance of `u` shows beyond its records. */
  function Gap(l: Ledger, u: UserId): int
    requires u in l.balances
  {
    l.balances[u] - Net(l.txs, u)
  }

  function CreditLost(l: Ledger, u: UserId, amount: nat, fault: CreditFault): int {
    if fault == CreditInsertFails && u in l.balances then amount else 0
  }

  function RefundLost(l: Ledger, u: UserId, amount: nat, ref: Ref, fault: CreditFault): int {
    if FindRefund(l.txs, u, ref).None? then CreditLost(l, u, amount, fault) else 0
  }

  function DebitLost(l: Ledger, u: UserId, amount: nat, fault: DebitFault): int {
    if fault == DebitInsertAndRestoreFail && u in l.balances && l.balances[u] >= amount then 0 - amount else 0
  }

  /** The wallet of `v` gains `lost` beyond its records, and is not overdrawn if it was not. */
  ghost predicate Widens(l: Ledger, l': Ledger, v: UserId, lost: int)
    requires v in l.balances
  {
    && l'.balances.Keys == l.balances.Keys && Gap(l', v) == Gap(l, v) + lost
    && (l.balances[v] >= 0 ==> l'.balances[v] >= 0)
  }

  /** The gap of a wallet changes by exactly what a credit to it moves without a record. */
  lemma CreditGap(l: Ledger, u: UserId, category: Category, amount: nat, ref: Ref, fault: CreditFault, v: UserId)
    requires v in l.balances
    ensures Widens(l, CreditCall(l, u, category, amount, ref, fault).0, v, if v == u then CreditLost(l, u, amount, fault) else 0)
  {
    if u in l.balances { NetAppend(l.txs, Entry(l, u, Credit, category, amount, ref), v); }
  }

  lemma RefundGap(l: Ledger, u: UserId, amount: nat, ref: Ref, fault: CreditFault, v: UserId)
    requires v in l.balances
    ensures Widens(l, RefundCall(l, u, amount, ref, fault).0, v, if v == u then RefundLost(l, u, amount, ref, fault) else 0)
  {
    if fault != BeforeCredit && FindRefund(l.txs, u, ref).None? { CreditGap(l, u, Refund, amount, ref, fault, v); }
  }

  lemma DebitGap(l: Ledger, u: UserId, amount: nat, ref: Ref, fault: DebitFault, v: UserId)
    requires v in l.balances
    ensures Widens(l, DeductCall(l, u, amount, ref, fault).0, v, if v == u then DebitLost(l, u, amount, fault) else 0)
  {
    if u in l.balances { NetAppend(l.txs, Entry(l, u, Debit, OrderPayment, amount, ref), v); }
  }

  /** A debit whose record and whose repayment both fail leaves the wallet short of what the records explain. */
  lemma UnrecordedDebitIsNotBacked(init: map<UserId, int>, l: Ledger, u: UserId, amount: nat, ref: Ref)
    requires Backed(init, l) && u in l.balances && amount <= l.balances[u]
    ensures Backed(init, DeductCall(l, u, amount, ref, DebitInsertAndRestoreFail).0) <==> amount == 0
  {
  }

  /** Repeating a refund changes nothing and returns a record of the same refund. */
  lemma RefundIsIdempotent(l: Ledger, u: UserId, amount: nat, again: nat, ref: Ref)
    ensures
      var (l1, r1) := RefundCall(l, u, amount, ref, NoCreditFault);
      var (l2, r2) := RefundCall(l1, u, again, ref, NoCreditFault);
      l2 == l1 && (r1.Ok? ==> r2.Ok? && IsRefund(r2.value, u, ref) && Refunds(l1.txs, u, ref) >= 1)
  {
    var (l1, r1) := RefundCall(l, u, amount, ref, NoCreditFault);
    FindRefundIffCounted(l.txs, u, ref);
    FindRefundIffCounted(l1.txs, u, ref);
    if r1.Ok? && FindRefund(l.txs, u, ref).None? {
      RefundsAppend(l.txs, r1.value, u, ref);
    }
  }

  // ─── Bank-slip requests ────────────────────────────────────────────────────

  datatype RequestStatus = RequestPending | Approved | Rejected

  datatype TopupRequest = TopupRequest(user: UserId, amount: nat, status: RequestStatus,
                                       reviewedBy: Option<UserId>, transaction: Option<Transaction>)

  /** How many bank top-ups are recorded for request number `id`. */
  function SlipCredits(txs: seq<Transaction>, id: nat): nat {
    if txs == [] then 0
    else SlipCredits(txs[..|txs| - 1], id)
         + if txs[|txs| - 1].category == TopupBank && txs[|txs| - 1].ref == RequestRef(id) then 1 else 0
  }

  lemma SlipCreditsAppend(txs: seq<Transaction>, t: Transaction, id: nat)
    ensures SlipCredits(txs + [t], id)
         == SlipCredits(txs, id) + if t.category == TopupBank && t.ref == RequestRef(id) then 1 else 0
  {
  }

  /** An approved slip has exactly one credit on record, for its amount; no other slip has any. */
  ghost predicate SlipsPaidOnce(txs: seq<Transaction>, requests: seq<TopupRequest>) {
    && (forall i: nat :: SlipCredits(txs, i) == if i < |requests| && requests[i].status == Approved then 1 else 0)
    && (forall i | 0 <= i < |requests| :: requests[i].status == Approved <==> requests[i].transaction.Some?)
    && (forall i | 0 <= i < |requests| && requests[i].transaction.Some? ::
          && requests[i].transaction.value in txs
          && requests[i].transaction.value.user == requests[i].user
          && requests[i].transaction.value.amount == requests[i].amount
          && requests[i].transaction.value.ref == RequestRef(i))
  }

  /** The slip can be reviewed: it exists and is pending. */
  predicate Reviewable(requests: seq<TopupRequest>, id: nat) {
    id < |requests| && requests[id].status == RequestPending
  }

  /** Credits the customer, then saves the request; the save can fail after the credit. */
  function ApproveCall(l: Ledger, requests: seq<TopupRequest>, id: nat, admin: UserId, fault: CreditFault, saveFails: bool)
    : (Ledger, seq<TopupRequest>, Outcome<Transaction, WalletError>)
  {
    if !Reviewable(requests, id) then (l, requests, Err(InvalidAmount))
    else
      var q := requests[id];
      var (l', paid) := CreditCall(l, q.user, TopupBank, q.amount, RequestRef(id), fault);
      if paid.Err? then (l', requests, paid)
      else if saveFails then (l', requests, Err(DatabaseError))
      else (l', requests[id := q.(status := Approved, reviewedBy := Some(admin), transaction := Some(paid.value))], paid)
  }

  /** The approval gets as far as a recorded credit. */
  predicate RecordsCredit(l: Ledger, requests: seq<TopupRequest>, id: nat, fault: CreditFault) {
    Reviewable(requests, id) && requests[id].user in l.balances && fault == NoCreditFault
  }

  lemma ApprovalCounts(l: Ledger, requests: seq<TopupRequest>, id: nat, admin: UserId, fault: CreditFault, saveFails: bool, i: nat)
    ensures
      var (l', _, r) := ApproveCall(l, requests, id, admin, fault, saveFails);
      SlipCredits(l'.txs, i) == SlipCredits(l.txs, i) + if i == id && RecordsCredit(l, requests, id, fault) then 1 else 0
  {
    if Reviewable(requests, id) && requests[id].user in l.balances {
      SlipCreditsAppend(l.txs, Entry(l, requests[id].user, Credit, TopupBank, requests[id].amount, RequestRef(id)), i);
    }
  }

  /** From slips in order, an approval leaves them in order exactly when it does not record a credit and then fail to save. */
  lemma ApprovalPaysOnceIff(l: Ledger, requests: seq<TopupRequest>, id: nat, admin: UserId, fault: CreditFault, saveFails: bool)
    requires SlipsPaidOnce(l.txs, requests)
    ensures
      var (l', requests', r) := ApproveCall(l, requests, id, admin, fault, saveFails);
      SlipsPaidOnce(l'.txs, requests') <==> !(saveFails && RecordsCredit(l, requests, id, fault))
  {
    var (l', requests', r) := ApproveCall(l, requests, id, admin, fault, saveFails);
    forall i: nat
      ensures SlipCredits(l'.txs, i) == SlipCredits(l.txs, i) + if i == id && RecordsCredit(l, requests, id, fault) then 1 else 0
    {
      ApprovalCounts(l, requests, id, admin, fault, saveFails, i);
    }
  }

  /** The approval stops after the money moved: its record or the save of the request fails. */
  predicate StopsAfterCredit(fault: CreditFault, saveFails: bool) {
    fault == CreditInsertFails || (fault == NoCreditFault && saveFails)
  }

  /** The slip such an approval leaves pending can be approved again, and the customer is paid twice. */
  lemma UnsavedApprovalPaysAgain(l: Ledger, requests: seq<TopupRequest>, id: nat, admin: UserId, again: UserId,
                                 fault: CreditFault, saveFails: bool)
    requires SlipsPaidOnce(l.txs, requests) && Reviewable(requests, id) && requests[id].user in l.balances
    requires StopsAfterCredit(fault, saveFails)
    ensures
      var (l1, requests1, r1) := ApproveCall(l, requests, id, admin, fault, saveFails);
      var (l2, requests2, r2) := ApproveCall(l1, requests1, id, again, NoCreditFault, false);
      var q := requests[id];
      && r1.Err? && r2.Ok? && requests2[id].status == Approved
      && SlipCredits(l2.txs, id) == (if fault == NoCreditFault then 2 else 1)
      && l2.balances[q.user] == l.balances[q.user] + q.amount + q.amount
  {
    ApprovalCounts(l, requests, id, admin, fault, saveFails, id);
    var (l1, requests1, _) := ApproveCall(l, requests, id, admin, fault, saveFails);
    ApprovalCounts(l1, requests1, id, again, NoCreditFault, false, id);
  }

  /** The service, with its three collections. */
  class WalletService {
    var balances: map<UserId, int>
    var txs: seq<Transaction>
    var requests: seq<TopupRequest>

    ghost function View(): Ledger
      reads this
    {
      Ledger(balances, txs)
    }

    constructor ()
      ensures View() == Ledger(map[], []) && requests == []
    {
      balances, txs, requests := map[], [], [];
    }

    /** Idempotent: an existing wallet keeps its balance. */
    method CreateWallet(user: UserId)
      modifies this`balances
      ensures balances == if user in old(balances) then old(balances) else old(balances)[user := 0]
    {
      if user !in balances {
        balances := balances[user := 0];
      }
    }

    /** One atomic `findOneAndUpdate` with `$inc`: returns the balance before, if the filter matched. */
    method IncrementBalance(user: UserId, atLeast: Option<int>, delta: int) returns (before: Option<int>)
      modifies this`balances
      ensures before.Some? <==> user in old(balances) && (atLeast.None? || old(balances)[user] >= atLeast.value)
      ensures before.Some? ==> before.value == old(balances)[user] && balances == old(balances)[user := before.value + delta]
      ensures before.None? ==> balances == old(balances)
    {
      if user in balances && (atLeast.None? || balances[user] >= atLeast.value) {
        before := Some(balances[user]);
        balances := balances[user := balances[user] + delta];
      } else {
        before := None;
      }
    }

    method Topup(user: UserId, amount: nat, category: Category, ref: Ref, fault: CreditFault)
      returns (r: Outcome<Transaction, WalletError>)
      modifies this`balances, this`txs
      ensures (View(), r) == CreditCall(old(View()), user, category, amount, ref, fault)
    {
      if fault == BeforeCredit { return Err(DatabaseError); }
      var before := IncrementBalance(user, None, amount);
      if before.None? { return Err(WalletNotFound); }
      if fault == CreditInsertFails { return Err(DatabaseError); }
      var t := Transaction(user, amount, Credit, category, ref, before.value, before.value + amount);
      txs := txs + [t];
      return Ok(t);
    }

    method AgentTopup(agent: UserId, user: UserId, amount: int, fault: CreditFault)
      returns (r: Outcome<Transaction, WalletError>)
      modifies this`balances, this`txs
      ensures !(0 < amount <= 50_000) ==> r == Err(InvalidAmount) && View() == old(View())
      ensures 0 < amount <= 50_000 ==>
                (View(), r) == CreditCall(old(View()), user, Category.AgentTopup, amount, AgentRef(agent), fault)
    {
      if amount <= 0 { return Err(InvalidAmount); }
      if amount > MAX_TOPUP { return Err(InvalidAmount); }
      r := Topup(user, amount, Category.AgentTopup, AgentRef(agent), fault);
    }

    method Deduct(user: UserId, amount: nat, ref: Ref, fault: DebitFault)
      returns (r: Outcome<Transaction, WalletError>)
      modifies this`balances, this`txs
      ensures (View(), r) == DeductCall(old(View()), user, amount, ref, fault)
    {
      if fault == BeforeDebit { return Err(DatabaseError); }
      var before := IncrementBalance(user, Some(amount), 0 - amount);
      if before.None? {
        return Err(if user in balances then InsufficientBalance else WalletNotFound);
      }
      if fault != NoDebitFault {
        if fault != DebitInsertAndRestoreFail {
          var _ := IncrementBalance(user, None, amount);
          assert balances == old(balances);
        }
        return Err(DatabaseError);
      }
      var t := Transaction(user, amount, Debit, OrderPayment, ref, before.value, before.value - amount);
      txs := txs + [t];
      return Ok(t);
    }

    method RefundPayment(user: UserId, amount: nat, ref: Ref, fault: CreditFault)
      returns (r: Outcome<Transaction, WalletError>)
      modifies this`balances, this`txs
      ensures (View(), r) == RefundCall(old(View()), user, amount, ref, fault)
    {
      if fault == BeforeCredit { return Err(DatabaseError); }
      var existing := FindRefund(txs, user, ref);
      if existing.Some? { return Ok(existing.value); }
      r := Topup(user, amount, Refund, ref, fault);
    }

    method SubmitTopupRequest(user: UserId, amount: int) returns (r: Outcome<nat, WalletError>)
      modifies this`requests
      ensures amount <= 0 ==> r == Err(InvalidAmount) && requests == old(requests)
      ensures amount > 0 ==> r == Ok(|old(requests)|)
      ensures amount > 0 ==> requests == old(requests) + [TopupRequest(user, amount, RequestPending, None, None)]
      ensures old(SlipsPaidOnce(txs, requests)) ==> SlipsPaidOnce(txs, requests)
    {
      if amount <= 0 { return Err(InvalidAmount); }
      r := Ok(|requests|);
      requests := requests + [TopupRequest(user, amount, RequestPending, None, None)];
    }

    method ApproveTopupRequest(id: nat, admin: UserId, fault: CreditFault, saveFails: bool)
      returns (r: Outcome<Transaction, WalletError>)
      modifies this
      ensures (View(), requests, r) == ApproveCall(old(View()), old(requests), id, admin, fault, saveFails)
      ensures old(SlipsPaidOnce(txs, requests)) ==> (SlipsPaidOnce(txs, requests) <==> !(saveFails && RecordsCredit(old(View()), old(requests), id, fault)))
    {
      if SlipsPaidOnce(txs, requests) {
        ApprovalPaysOnceIff(View(), requests, id, admin, fault, saveFails);
      }
      if id >= |requests| { return Err(InvalidAmount); }
      var q := requests[id];
      if q.status != RequestPending { return Err(InvalidAmount); }
      r := Topup(q.user, q.amount, TopupBank, RequestRef(id), fault);
      if r.Err? { return; }
      if saveFails { return Err(DatabaseError); }
      requests := requests[id := q.(status := Approved, reviewedBy := Some(admin), transaction := Some(r.value))];
    }

    method RejectTopupRequest(id: nat, admin: UserId) returns (ok: bool)
      modifies this`requests
      ensures ok <==> Reviewable(old(requests), id)
      ensures requests == if ok then old(requests)[id := old(requests)[id].(status := Rejected, reviewedBy := Some(admin))]
                          else old(requests)
      ensures old(SlipsPaidOnce(txs, requests)) ==> SlipsPaidOnce(txs, requests)
    {
      if id >= |requests| || requests[id].status != RequestPending { return false; }
      requests := requests[id := requests[id].(status := Rejected, reviewedBy := Some(admin))];
      return true;
    }
  }
}
