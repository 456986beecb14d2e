/** The text of the ledger's idempotency keys. The other modules use one constructor per
    kind of posting; here each key is spelled out as the services spell it, and no two keys
    have the same text. */
module EwaKeys {
  import opened Ewa

  /** The generated identifiers of the rows. */
  datatype Names = Names(advance: nat -> string, item: nat -> string, debit: (nat, nat) -> string, grant: nat -> string)

  /** Generated identifiers are distinct within a table and contain no colon. */
  ghost predicate Generated(names: Names) {
    && (forall i, j :: names.advance(i) == names.advance(j) ==> i == j)
    && (forall i, j :: names.item(i) == names.item(j) ==> i == j)
    && (forall i, j :: names.grant(i) == names.grant(j) ==> i == j)
    && (forall i, j, k, l :: names.debit(i, j) == names.debit(k, l) ==> i == k && j == l)
    && (forall i :: ':' !in names.advance(i))
  }

  function Label(k: Key): string {
    match k
    case AdvanceKey(_) => "ewa_advance"
    case CancelKey(_) => "ewa_cancellation"
    case WriteOffKey(_) => "ewa_write_off"
    case SettleKey(_, _) => "ewa_settlement"
    case CollectKey(_, _) => "d2c_collection"
    case DepositKey(_) => "employer_funding"
    case GrantKey(_) => "hardship_grant"
    case GrantReversalKey(_) => "hardship_grant_reversal"
    case SavingsKey(_) => "ewa_savings"
  }

  function Body(names: Names, k: Key): string {
    match k
    case AdvanceKey(i) => names.advance(i)
    case CancelKey(i) => names.advance(i)
    case WriteOffKey(i) => names.advance(i)
    case SettleKey(i, item) => names.advance(i) + ":" + names.item(item)
    case CollectKey(i, j) => names.debit(i, j)
    case DepositKey(reference) => reference
    case GrantKey(g) => names.grant(g)
    case GrantReversalKey(g) => names.grant(g)
    case SavingsKey(item) => names.item(item)
  }

  function Text(names: Names, k: Key): string {
    Label(k) + ":" + Body(names, k)
  }

  /** Two texts split at their first colon are equal only part by part. */
  lemma SplitAtColon(a: string, b: string, c: string, d: string)
    requires ':' !in a && ':' !in c && a + ":" + b == c + ":" + d
    ensures a == c && b == d
  {
    var s := a + ":" + b;
    var t := c + ":" + d;
    assert s[|a|] == ':' && t[|c|] == ':';
    assert s[..|a|] == a && t[..|c|] == c;
    assert s[|a| + 1..] == b && t[|c| + 1..] == d;
  }

  lemma LabelsDiffer(k: Key, l: Key)
    ensures ':' !in Label(k)
    ensures Label(k) == Label(l) ==>
            (k.AdvanceKey? <==> l.AdvanceKey?) && (k.CancelKey? <==> l.CancelKey?) && (k.WriteOffKey? <==> l.WriteOffKey?) &&
            (k.SettleKey? <==> l.SettleKey?) && (k.CollectKey? <==> l.CollectKey?) && (k.DepositKey? <==> l.DepositKey?) &&
            (k.GrantKey? <==> l.GrantKey?) && (k.GrantReversalKey? <==> l.GrantReversalKey?)
  {
    // Lengths tell most labels apart; a letter does where two lengths agree.
    assert |"ewa_advance"| == 11 && |"ewa_savings"| == 11 && "ewa_advance"[4] == 'a' && "ewa_savings"[4] == 's';
    assert |"ewa_cancellation"| == 16 && |"employer_funding"| == 16 && "ewa_cancellation"[1] == 'w' && "employer_funding"[1] == 'm';
    assert |"ewa_settlement"| == 14 && |"d2c_collection"| == 14 && |"hardship_grant"| == 14;
    assert "ewa_settlement"[0] == 'e' && "d2c_collection"[0] == 'd' && "hardship_grant"[0] == 'h';
    assert |"ewa_write_off"| == 13 && |"hardship_grant_reversal"| == 23;
  }

  /** Distinct keys have distinct texts, whatever reference a provider sends. */
  lemma TextsAreDistinct(names: Names, k: Key, l: Key)
    requires Generated(names) && Text(names, k) == Text(names, l)
    ensures k == l
  {
    LabelsDiffer(k, l);
    LabelsDiffer(l, k);
    SplitAtColon(Label(k), Body(names, k), Label(l), Body(names, l));
    if k.SettleKey? {
      SplitAtColon(names.advance(k.advance), names.item(k.item), names.advance(l.advance), names.item(l.item));
    }
  }
}
