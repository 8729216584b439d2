/** Status words of old firmware, normalised before the acknowledgement handler sees them. */
module OldFirmware {
  import opened Common
  import opened Wallet
  import opened Orders

  function LowerChar(c: char): char {
    if 'A' <= c <= 'Z' then (c as int + 32) as char else c
  }

  function Lower(s: string): string { seq(|s|, i requires 0 <= i < |s| => LowerChar(s[i])) }

  predicate At(s: string, t: string, i: int) { 0 <= i <= |s| - |t| && s[i..i + |t|] == t }

  /** `s.includes(t)`. */
  predicate Includes(s: string, t: string) {
    exists i | 0 <= i <= |s| :: At(s, t, i)
  }

  /** `cmd.status`, which may be missing. */
  function Normalised(status: Option<string>): AckStatus {
    var raw := Lower(status.GetOr(""));
    if raw == "processing" then AckProcessing
    else if Includes(raw, "completed") then AckCompleted
    else if Includes(raw, "cancel") then AckCancelled
    else AckProcessing
  }

  /** One different character rules an occurrence out. */
  lemma NotAt(s: string, t: string, i: nat, k: nat)
    requires k < |t| && i + k < |s| && s[i + k] != t[k]
    ensures !At(s, t, i)
  {
    assert i + |t| <= |s| ==> s[i..i + |t|][k] == s[i + k];
  }

  lemma ProcessingIncludesNeither()
    ensures !Includes("processing", "completed") && !Includes("processing", "cancel")
  {
    var s := "processing";
    forall i | 0 <= i <= |s| ensures !At(s, "completed", i) && !At(s, "cancel", i) {
      if i <= 1 { NotAt(s, "completed", i, 0); }
      if i <= 4 { NotAt(s, "cancel", i, if i == 3 then 1 else 0); }
    }
  }

  /** Exactly what the handler is told, for any word, known or not: never half-completed. */
  lemma NormalisedIff(status: Option<string>)
    ensures
      var raw := Lower(status.GetOr(""));
      && (Normalised(status) == AckCompleted <==> Includes(raw, "completed"))
      && (Normalised(status) == AckCancelled <==> Includes(raw, "cancel") && !Includes(raw, "completed"))
      && Normalised(status) != AckHalf
  {
    ProcessingIncludesNeither();
  }

  /** The letters of `word`, each in either case. */
  ghost predicate Spells(w: string, word: string, capitals: string)
    requires |capitals| == |word|
  {
    |w| == |word| && forall i | 0 <= i < |w| :: w[i] == word[i] || w[i] == capitals[i]
  }

  lemma FoundInside(a: string, w: string, b: string, word: string)
    requires Lower(w) == word
    ensures Includes(Lower(a + w + b), word)
  {
    var raw := Lower(a + w + b);
    assert raw[|a|..|a| + |word|] == word;
    assert At(raw, word, |a|);
  }

  /** Whatever stands around them, and in either case, `completed` is read as completed and `cancel` without it as cancelled. */
  lemma WordIsRead(a: string, w: string, b: string)
    ensures Spells(w, "completed", "COMPLETED") ==> Normalised(Some(a + w + b)) == AckCompleted
    ensures Spells(w, "cancel", "CANCEL") ==> Normalised(Some(a + w + b)) in {AckCompleted, AckCancelled}
  {
    NormalisedIff(Some(a + w + b));
    if Spells(w, "completed", "COMPLETED") {
      assert Lower(w) == "completed";
      FoundInside(a, w, b, "completed");
    }
    if Spells(w, "cancel", "CANCEL") {
      assert Lower(w) == "cancel";
      FoundInside(a, w, b, "cancel");
    }
  }

  /** A half-completed order is refunded; old firmware's word for it closes the order as completed, unrefunded. */
  lemma HalfCompletedClosesAsCompleted(s: State, id: nat, ord: Option<string>)
    requires id < |s.orders|
    ensures
      var s' := HandleAck(s, id, Normalised(Some("Half-Completed")), ord, ALL_WORKS);
      && s'.orders == s.orders[id := s.orders[id].(status := Completed)] && s'.ledger == s.ledger
      && HandleAck(s, id, AckHalf, ord, ALL_WORKS).orders == s.orders[id := s.orders[id].(status := HalfCompleted)]
      && HandleAck(s, id, AckHalf, ord, ALL_WORKS).ledger == Reimburse(s, id, NoCreditFault).ledger
  {
    HalfIncludesCompleted();
    NormalisedIff(Some("Half-Completed"));
    assert Reimburse(SetStatus(s, id, HalfCompleted), id, NoCreditFault).ledger == Reimburse(s, id, NoCreditFault).ledger;
  }

  lemma HalfIncludesCompleted()
    ensures Includes(Lower("Half-Completed"), "completed")
  {
    var raw := Lower("Half-Completed");
    assert raw == "half-completed";
    assert At(raw, "completed", 5);
  }
}
