/** Validation: the producer's checks on one transaction read from an input
    file. Amounts are in cents, so the limit of 100000 is 10000000. */
module Validation {
  import opened Outcomes
  import opened TransactionModel
  import opened Text

  /** The largest accepted amount, 100000.00, in cents. */
  const MaxAmount := 10000000

  /** One check of validate, in the order the checks run. */
  datatype Rule =
    | AmountPositive
    | AccountPresent
    | PixEnabled
    | PixKeyPresent
    | EndToEndPresent
    | PixDataPresent
    | WithinLimit

  const Rules: seq<Rule> :=
    [AmountPositive, AccountPresent, PixEnabled, PixKeyPresent, EndToEndPresent, PixDataPresent, WithinLimit]

  function Rank(r: Rule): (k: nat)
    ensures k < |Rules| && Rules[k] == r
  {
    match r
    case AmountPositive => 0
    case AccountPresent => 1
    case PixEnabled => 2
    case PixKeyPresent => 3
    case EndToEndPresent => 4
    case PixDataPresent => 5
    case WithinLimit => 6
  }

  function Message(r: Rule): string
  {
    match r
    case AmountPositive => "Amount must be greater than zero"
    case AccountPresent => "Account ID cannot be blank"
    case PixEnabled => "PIX transactions are currently disabled"
    case PixKeyPresent => "PIX key cannot be blank"
    case EndToEndPresent => "End-to-end ID cannot be blank"
    case PixDataPresent => "PIX data is required for PIX transactions"
    case WithinLimit => "Amount exceeds maximum limit"
  }

  lemma MessagesDistinct(r1: Rule, r2: Rule)
    ensures Message(r1) == Message(r2) ==> r1 == r2
  {
  }

  /** When a transaction breaks a rule. The PIX rules apply to PIX
      transactions only; the key and end-to-end rules need the PIX data and
      the data rule its absence. */
  predicate Violates(r: Rule, tx: Transaction, pixEnabled: bool)
  {
    match r
    case AmountPositive => tx.amount <= 0
    case AccountPresent => IsBlank(tx.accountId)
    case PixEnabled => tx.ttype == PIX && !pixEnabled
    case PixKeyPresent => tx.ttype == PIX && tx.pixData.Some? && IsBlank(tx.pixData.value.pixKey)
    case EndToEndPresent => tx.ttype == PIX && tx.pixData.Some? && IsBlank(tx.pixData.value.endToEndId)
    case PixDataPresent => tx.ttype == PIX && tx.pixData.None?
    case WithinLimit => tx.amount > MaxAmount
  }

  /** The rules a transaction breaks, in rule order. */
  function Broken(rules: seq<Rule>, tx: Transaction, pixEnabled: bool): seq<Rule>
  {
    if rules == [] then []
    else
      var init, last := rules[..|rules| - 1], rules[|rules| - 1];
      Broken(init, tx, pixEnabled) + (if Violates(last, tx, pixEnabled) then [last] else [])
  }

  function Messages(rules: seq<Rule>): seq<string>
  {
    seq(|rules|, i requires 0 <= i < |rules| => Message(rules[i]))
  }

  /** The errors of a transaction: the message of each broken rule, in rule
      order. */
  function Errors(tx: Transaction, pixEnabled: bool): seq<string>
  {
    Messages(Broken(Rules, tx, pixEnabled))
  }

  predicate IsValid(tx: Transaction, pixEnabled: bool)
  {
    Errors(tx, pixEnabled) == []
  }

  datatype ProcessingResult = ProcessingResult(transaction: Transaction, isValid: bool, errors: seq<string>)

  /** validate: runs the checks in order, appending one message per failed
      check. pixEnabled is the feature flag's value. */
  method Validate(tx: Transaction, pixEnabled: bool) returns (r: ProcessingResult)
    ensures r.transaction == tx
    ensures r.errors == Errors(tx, pixEnabled)
    ensures r.isValid <==> r.errors == []
  {
    var errors := CheckBasics(tx, pixEnabled);
    errors := CheckPix(tx, pixEnabled, errors);
    ghost var prior := errors;
    if tx.amount > MaxAmount {
      errors := errors + [Message(WithinLimit)];
    }
    assert errors == prior + GuardedMessage(WithinLimit, tx, pixEnabled);
    ErrorsUnfolded(tx, pixEnabled);
    r := ProcessingResult(tx, errors == [], errors);
  }

  /** The amount and account checks of validate. */
  method CheckBasics(tx: Transaction, pixEnabled: bool) returns (errors: seq<string>)
    ensures errors == GuardedMessage(AmountPositive, tx, pixEnabled) + GuardedMessage(AccountPresent, tx, pixEnabled)
  {
    errors := [];
    if tx.amount <= 0 {
      errors := errors + [Message(AmountPositive)];
    }
    ghost var prior := errors;
    if IsBlank(tx.accountId) {
      errors := errors + [Message(AccountPresent)];
    }
    assert errors == prior + GuardedMessage(AccountPresent, tx, pixEnabled);
  }

  /** The PIX checks of validate: the flag, then the key and end-to-end id
      when PIX data is present, or its absence. Run for PIX only. */
  method CheckPix(tx: Transaction, pixEnabled: bool, prior: seq<string>) returns (errors: seq<string>)
    ensures errors == prior + GuardedMessage(PixEnabled, tx, pixEnabled) + GuardedMessage(PixKeyPresent, tx, pixEnabled)
                      + GuardedMessage(EndToEndPresent, tx, pixEnabled) + GuardedMessage(PixDataPresent, tx, pixEnabled)
  {
    errors := prior;
    if tx.ttype == PIX {
      if !pixEnabled {
        errors := errors + [Message(PixEnabled)];
      }
      ghost var e2 := errors;
      assert e2 == prior + GuardedMessage(PixEnabled, tx, pixEnabled);
      match tx.pixData {
        case Some(pixData) =>
          if IsBlank(pixData.pixKey) {
            errors := errors + [Message(PixKeyPresent)];
          }
          ghost var e3 := errors;
          assert e3 == e2 + GuardedMessage(PixKeyPresent, tx, pixEnabled);
          if IsBlank(pixData.endToEndId) {
            errors := errors + [Message(EndToEndPresent)];
          }
          assert errors == e3 + GuardedMessage(EndToEndPresent, tx, pixEnabled) + GuardedMessage(PixDataPresent, tx, pixEnabled);
        case None =>
          errors := errors + [Message(PixDataPresent)];
      }
    }
  }

  function Guarded(r: Rule, tx: Transaction, pixEnabled: bool): seq<Rule>
  {
    if Violates(r, tx, pixEnabled) then [r] else []
  }

  function GuardedMessage(r: Rule, tx: Transaction, pixEnabled: bool): seq<string>
  {
    if Violates(r, tx, pixEnabled) then [Message(r)] else []
  }

  /** Broken over the fixed rule list, one rule at a time. */
  lemma BrokenUnfolded(tx: Transaction, pixEnabled: bool)
    ensures Broken(Rules, tx, pixEnabled) ==
      Guarded(AmountPositive, tx, pixEnabled) + Guarded(AccountPresent, tx, pixEnabled) +
      Guarded(PixEnabled, tx, pixEnabled) + Guarded(PixKeyPresent, tx, pixEnabled) +
      Guarded(EndToEndPresent, tx, pixEnabled) + Guarded(PixDataPresent, tx, pixEnabled) +
      Guarded(WithinLimit, tx, pixEnabled)
  {
    var r1 := [AmountPositive];
    var r2 := r1 + [AccountPresent];
    var r3 := r2 + [PixEnabled];
    var r4 := r3 + [PixKeyPresent];
    var r5 := r4 + [EndToEndPresent];
    var r6 := r5 + [PixDataPresent];
    var r7 := r6 + [WithinLimit];
    assert r7 == Rules;
    assert r1[..0] == [];
    assert r7[..6] == r6 && r6[..5] == r5 && r5[..4] == r4;
    assert r4[..3] == r3 && r3[..2] == r2 && r2[..1] == r1;
    assert Broken(r1, tx, pixEnabled) == Guarded(AmountPositive, tx, pixEnabled);
    assert Broken(r2, tx, pixEnabled) == Broken(r1, tx, pixEnabled) + Guarded(AccountPresent, tx, pixEnabled);
    assert Broken(r3, tx, pixEnabled) == Broken(r2, tx, pixEnabled) + Guarded(PixEnabled, tx, pixEnabled);
    assert Broken(r4, tx, pixEnabled) == Broken(r3, tx, pixEnabled) + Guarded(PixKeyPresent, tx, pixEnabled);
    assert Broken(r5, tx, pixEnabled) == Broken(r4, tx, pixEnabled) + Guarded(EndToEndPresent, tx, pixEnabled);
    assert Broken(r6, tx, pixEnabled) == Broken(r5, tx, pixEnabled) + Guarded(PixDataPresent, tx, pixEnabled);
    assert Broken(r7, tx, pixEnabled) == Broken(r6, tx, pixEnabled) + Guarded(WithinLimit, tx, pixEnabled);
  }

  lemma MessagesGuarded(r: Rule, tx: Transaction, pixEnabled: bool)
    ensures Messages(Guarded(r, tx, pixEnabled)) == GuardedMessage(r, tx, pixEnabled)
  {
    if Violates(r, tx, pixEnabled) {
      assert Messages([r]) == [Message(r)];
    }
  }

  lemma MessagesAppend(a: seq<Rule>, c: seq<Rule>)
    ensures Messages(a + c) == Messages(a) + Messages(c)
  {
  }

  /** The errors over the fixed rule list, one check at a time. */
  lemma ErrorsUnfolded(tx: Transaction, pixEnabled: bool)
    ensures Errors(tx, pixEnabled) ==
      GuardedMessage(AmountPositive, tx, pixEnabled) + GuardedMessage(AccountPresent, tx, pixEnabled) +
      GuardedMessage(PixEnabled, tx, pixEnabled) + GuardedMessage(PixKeyPresent, tx, pixEnabled) +
      GuardedMessage(EndToEndPresent, tx, pixEnabled) + GuardedMessage(PixDataPresent, tx, pixEnabled) +
      GuardedMessage(WithinLimit, tx, pixEnabled)
  {
    BrokenUnfolded(tx, pixEnabled);
    var g0, g1, g2, g3 := Guarded(AmountPositive, tx, pixEnabled), Guarded(AccountPresent, tx, pixEnabled),
                          Guarded(PixEnabled, tx, pixEnabled), Guarded(PixKeyPresent, tx, pixEnabled);
    var g4, g5, g6 := Guarded(EndToEndPresent, tx, pixEnabled), Guarded(PixDataPresent, tx, pixEnabled),
                      Guarded(WithinLimit, tx, pixEnabled);
    forall r | r in Rules ensures Messages(Guarded(r, tx, pixEnabled)) == GuardedMessage(r, tx, pixEnabled) {
      MessagesGuarded(r, tx, pixEnabled);
    }
    MessagesAppend(g0 + g1 + g2 + g3 + g4 + g5, g6);
    MessagesAppend(g0 + g1 + g2 + g3 + g4, g5);
    MessagesAppend(g0 + g1 + g2 + g3, g4);
    MessagesAppend(g0 + g1 + g2, g3);
    MessagesAppend(g0 + g1, g2);
    MessagesAppend(g0, g1);
  }

  // ----- Properties of the checks -----

  lemma {:induction false} BrokenMembers(rules: seq<Rule>, tx: Transaction, pixEnabled: bool, r: Rule)
    ensures r in Broken(rules, tx, pixEnabled) <==> r in rules && Violates(r, tx, pixEnabled)
  {
    if rules != [] {
      var init := rules[..|rules| - 1];
      BrokenMembers(init, tx, pixEnabled, r);
      assert rules == init + [rules[|rules| - 1]];
    }
  }

  /** A rule's message is among the errors exactly when the transaction
      breaks that rule. */
  lemma ErrorsCharacterised(tx: Transaction, pixEnabled: bool, r: Rule)
    ensures Message(r) in Errors(tx, pixEnabled) <==> Violates(r, tx, pixEnabled)
  {
    var b := Broken(Rules, tx, pixEnabled);
    BrokenMembers(Rules, tx, pixEnabled, r);
    assert Rules[Rank(r)] == r;
    if Message(r) in Errors(tx, pixEnabled) {
      var i :| 0 <= i < |b| && Errors(tx, pixEnabled)[i] == Message(r);
      MessagesDistinct(b[i], r);
      assert b[i] in b;
    }
    if Violates(r, tx, pixEnabled) {
      var i :| 0 <= i < |b| && b[i] == r;
      assert Errors(tx, pixEnabled)[i] == Message(r);
    }
  }

  /** A transaction is valid exactly when it breaks no rule. */
  lemma ValidIffNoRuleBroken(tx: Transaction, pixEnabled: bool)
    ensures IsValid(tx, pixEnabled) <==> forall r: Rule :: !Violates(r, tx, pixEnabled)
  {
    if !IsValid(tx, pixEnabled) {
      var m := Errors(tx, pixEnabled)[0];
      var b := Broken(Rules, tx, pixEnabled);
      BrokenMembers(Rules, tx, pixEnabled, b[0]);
      assert b[0] in b;
    }
    forall r: Rule | Violates(r, tx, pixEnabled) ensures !IsValid(tx, pixEnabled) {
      ErrorsCharacterised(tx, pixEnabled, r);
    }
  }

  /** The two amount rules never fire together, and exactly 100000.00 is
      accepted. */
  lemma AmountRules(tx: Transaction, pixEnabled: bool)
    ensures !(Message(AmountPositive) in Errors(tx, pixEnabled) && Message(WithinLimit) in Errors(tx, pixEnabled))
    ensures 0 < tx.amount <= MaxAmount ==>
              Message(AmountPositive) !in Errors(tx, pixEnabled) && Message(WithinLimit) !in Errors(tx, pixEnabled)
    ensures tx.amount == MaxAmount + 1 ==> Message(WithinLimit) in Errors(tx, pixEnabled)
  {
    ErrorsCharacterised(tx, pixEnabled, AmountPositive);
    ErrorsCharacterised(tx, pixEnabled, WithinLimit);
  }

  predicate IsPixRule(r: Rule)
  {
    r == PixEnabled || r == PixKeyPresent || r == EndToEndPresent || r == PixDataPresent
  }

  /** A non-PIX transaction gets no PIX error, and its errors depend neither
      on the PIX flag nor on what its PIX data holds. */
  lemma NonPixIgnoresPixRules(tx: Transaction, pixEnabled: bool, other: bool, data: Option<PixData>)
    requires tx.ttype != PIX
    ensures forall r :: IsPixRule(r) ==> Message(r) !in Errors(tx, pixEnabled)
    ensures Errors(tx.(pixData := data), other) == Errors(tx, pixEnabled)
  {
    forall r | IsPixRule(r) ensures Message(r) !in Errors(tx, pixEnabled) {
      ErrorsCharacterised(tx, pixEnabled, r);
    }
    BrokenAgree(Rules, tx, pixEnabled, tx.(pixData := data), other);
  }

  /** Two inputs that break the same rules of a list get the same broken
      rules. */
  lemma {:induction false} BrokenAgree(rules: seq<Rule>, a: Transaction, p: bool, b: Transaction, q: bool)
    requires forall r :: Violates(r, a, p) == Violates(r, b, q)
    ensures Broken(rules, a, p) == Broken(rules, b, q)
  {
    if rules != [] {
      BrokenAgree(rules[..|rules| - 1], a, p, b, q);
    }
  }

  /** At most five errors: the amount rules exclude each other, and the PIX
      data rule excludes the key and end-to-end rules. */
  lemma ErrorsBounded(tx: Transaction, pixEnabled: bool)
    ensures |Errors(tx, pixEnabled)| <= 5
  {
    ErrorsUnfolded(tx, pixEnabled);
    var g0, g1, g2 := GuardedMessage(AmountPositive, tx, pixEnabled), GuardedMessage(AccountPresent, tx, pixEnabled),
                      GuardedMessage(PixEnabled, tx, pixEnabled);
    var g3, g4, g5 := GuardedMessage(PixKeyPresent, tx, pixEnabled), GuardedMessage(EndToEndPresent, tx, pixEnabled),
                      GuardedMessage(PixDataPresent, tx, pixEnabled);
    var g6 := GuardedMessage(WithinLimit, tx, pixEnabled);
    AmountErrorsExclusive(tx, pixEnabled);
    PixDataErrorsExclusive(tx, pixEnabled);
    assert |g1| <= 1 && |g2| <= 1;
    assert |g0 + g1 + g2 + g3 + g4 + g5 + g6| == |g0| + |g1| + |g2| + |g3| + |g4| + |g5| + |g6|;
  }

  lemma AmountErrorsExclusive(tx: Transaction, pixEnabled: bool)
    ensures |GuardedMessage(AmountPositive, tx, pixEnabled)| + |GuardedMessage(WithinLimit, tx, pixEnabled)| <= 1
  {
  }

  lemma PixDataErrorsExclusive(tx: Transaction, pixEnabled: bool)
    ensures |GuardedMessage(PixKeyPresent, tx, pixEnabled)| + |GuardedMessage(EndToEndPresent, tx, pixEnabled)|
            + |GuardedMessage(PixDataPresent, tx, pixEnabled)| <= 2
  {
  }

  predicate RankedStrictly(rules: seq<Rule>)
  {
    forall i, j :: 0 <= i < j < |rules| ==> Rank(rules[i]) < Rank(rules[j])
  }

  lemma RulesRanked()
    ensures RankedStrictly(Rules)
  {
    forall i | 0 <= i < |Rules| ensures Rank(Rules[i]) == i {
      if i == 0 {} else if i == 1 {} else if i == 2 {} else if i == 3 {} else if i == 4 {} else if i == 5 {} else {}
    }
  }

  lemma {:induction false} BrokenRanked(rules: seq<Rule>, tx: Transaction, pixEnabled: bool)
    requires RankedStrictly(rules)
    ensures RankedStrictly(Broken(rules, tx, pixEnabled))
  {
    if rules != [] {
      var init, last := rules[..|rules| - 1], rules[|rules| - 1];
      assert RankedStrictly(init);
      BrokenRanked(init, tx, pixEnabled);
      var b := Broken(init, tx, pixEnabled);
      forall i | 0 <= i < |b| ensures Rank(b[i]) < Rank(last) {
        BrokenMembers(init, tx, pixEnabled, b[i]);
        assert b[i] in b;
        var k :| 0 <= k < |init| && init[k] == b[i];
      }
    }
  }

  /** The errors come in check order (amount, account, PIX flag, PIX data,
      limit), each message at most once. */
  lemma ErrorsInCheckOrder(tx: Transaction, pixEnabled: bool)
    ensures var b := Broken(Rules, tx, pixEnabled);
            && |Errors(tx, pixEnabled)| == |b|
            && (forall i :: 0 <= i < |b| ==> Errors(tx, pixEnabled)[i] == Message(b[i]))
            && RankedStrictly(b)
    ensures forall i, j :: 0 <= i < j < |Errors(tx, pixEnabled)| ==> Errors(tx, pixEnabled)[i] != Errors(tx, pixEnabled)[j]
  {
    var b := Broken(Rules, tx, pixEnabled);
    RulesRanked();
    BrokenRanked(Rules, tx, pixEnabled);
    forall i, j | 0 <= i < j < |b| ensures Errors(tx, pixEnabled)[i] != Errors(tx, pixEnabled)[j] {
      MessagesDistinct(b[i], b[j]);
    }
  }

  /** A PIX transaction with a zero or negative amount, a blank account and no
      PIX data, while PIX is disabled, gets four errors: the missing PIX data
      is reported too. */
  lemma MultipleErrorsExample()
    ensures var tx := NewTransaction("TXN-011", "", -5000, PIX, "Invalid transaction with multiple errors", "");
            Errors(tx, false) ==
              [Message(AmountPositive), Message(AccountPresent), Message(PixEnabled), Message(PixDataPresent)]
  {
    var tx := NewTransaction("TXN-011", "", -5000, PIX, "Invalid transaction with multiple errors", "");
    BrokenUnfolded(tx, false);
    assert IsBlank(tx.accountId);
    var b := Broken(Rules, tx, false);
    assert b == [AmountPositive, AccountPresent, PixEnabled, PixDataPresent];
  }
}
