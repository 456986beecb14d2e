/** The ledger agrees with the tables after every step of every run. */
module EwaBooks {
  import opened Wrappers
  import opened Money
  import opened Ledger
  import opened Savings
  import opened Ewa

  // ---------- what the tables say a balance should be ----------

  datatype Weight = Owes(e: string) | Drawn | CollectedByDebit | Lost

  function Weigh(a: Advance, w: Weight): int {
    match w
    case Owes(e) =>
      if a.employee != e then 0
      else if a.status == Approved || a.status == Disbursed then a.amount - a.recovered
      else if a.status == WrittenOff then 0 - a.recovered else 0
    case Drawn =>
      if a.status == Approved || a.status == Disbursed || a.status == Settled || a.status == WrittenOff
      then a.amount else 0
    case CollectedByDebit => CollectedOf(a.debits)
    case Lost => if a.status == WrittenOff then a.amount else 0
  }

  function CollectedOf(debits: seq<Collection>): int {
    if debits == [] then 0
    else
      var d := debits[|debits| - 1];
      CollectedOf(debits[..|debits| - 1]) + (if d.status == DebitSuccessful then d.amount else 0)
  }

  function SumOf(advances: seq<Advance>, w: Weight): int {
    if advances == [] then 0
    else SumOf(advances[..|advances| - 1], w) + Weigh(advances[|advances| - 1], w)
  }

  /** Grants that were not reversed. */
  function LiveGrants(grants: seq<Grant>): int {
    if grants == [] then 0
    else
      var g := grants[|grants| - 1];
      LiveGrants(grants[..|grants| - 1]) + (if g.status == GrantFailed then 0 else g.amount)
  }

  lemma {:induction false} SumUpdate(advances: seq<Advance>, i: nat, a: Advance, w: Weight)
    requires i < |advances|
    ensures SumOf(advances[i := a], w) == SumOf(advances, w) - Weigh(advances[i], w) + Weigh(a, w)
  {
    var n := |advances| - 1;
    if i == n {
      assert advances[i := a][..n] == advances[..n];
    } else {
      SumUpdate(advances[..n], i, a, w);
      assert advances[i := a][..n] == advances[..n][i := a];
    }
  }

  lemma SumAppend(advances: seq<Advance>, a: Advance, w: Weight)
    ensures SumOf(advances + [a], w) == SumOf(advances, w) + Weigh(a, w)
  {
    assert (advances + [a])[..|advances|] == advances;
  }

  lemma {:induction false} LiveGrantsUpdate(grants: seq<Grant>, i: nat, g: Grant)
    requires i < |grants|
    ensures LiveGrants(grants[i := g]) ==
            LiveGrants(grants) - (if grants[i].status == GrantFailed then 0 else grants[i].amount)
                               + (if g.status == GrantFailed then 0 else g.amount)
  {
    var n := |grants| - 1;
    if i == n {
      assert grants[i := g][..n] == grants[..n];
    } else {
      LiveGrantsUpdate(grants[..n], i, g);
      assert grants[i := g][..n] == grants[..n][i := g];
    }
  }

  lemma {:induction false} CollectedUpdate(debits: seq<Collection>, j: nat, d: Collection)
    requires j < |debits|
    ensures CollectedOf(debits[j := d]) ==
            CollectedOf(debits) - (if debits[j].status == DebitSuccessful then debits[j].amount else 0)
                                + (if d.status == DebitSuccessful then d.amount else 0)
  {
    var n := |debits| - 1;
    if j == n {
      assert debits[j := d][..n] == debits[..n];
    } else {
      CollectedUpdate(debits[..n], j, d);
      assert debits[j := d][..n] == debits[..n][j := d];
    }
  }

  // ---------- the invariant ----------

  ghost predicate AdvanceOk(a: Advance) {
    && a.amount > 0 && 0 <= a.recovered <= a.amount
    && (a.status == Settled ==> a.recovered == a.amount)
    && (a.status == Approved || a.status == Declined || a.status == Cancelled || a.status == Requested ==>
          a.recovered == 0 && a.debits == [])
    && forall j | 0 <= j < |a.debits| :: a.debits[j].amount > 0
  }

  ghost predicate RowsOk(o: Org) {
    && !o.currency.Unsupported?
    && (forall i | 0 <= i < |o.advances| :: AdvanceOk(o.advances[i]) && o.advances[i].period <= o.period)
    && (forall g | 0 <= g < |o.grants| :: o.grants[g].amount > 0)
  }

  /** The receivable of employee e as coded: a write-off credits the full amount, so what
      was recovered on a written-off advance stays as a negative. */
  ghost predicate ReceivableOk(o: Org, e: string) {
    LedgerNet(o.ledger, Receivable(o, e)) == SumOf(o.advances, Owes(e))
  }

  ghost predicate CashOk(o: Org) {
    0 - LedgerNet(o.ledger, Cash(o)) ==
    SumOf(o.advances, Drawn) + LiveGrants(o.grants) + LedgerNet(o.ledger, Funding(o)) - SumOf(o.advances, CollectedByDebit)
  }

  ghost predicate ExpensesOk(o: Org) {
    && LedgerNet(o.ledger, WriteOffs(o)) == SumOf(o.advances, Lost)
    && LedgerNet(o.ledger, GrantExpense(o)) == LiveGrants(o.grants)
  }

  /** Every account is in the org's own currency. */
  ghost predicate NoForeignCash(o: Org) {
    o.currency != NGN ==> LedgerNet(o.ledger, CashIn(o, NGN)) == 0
  }

  /** Every balance, as the tables have it. */
  ghost predicate Books(o: Org, e: string) {
    ReceivableOk(o, e) && CashOk(o) && ExpensesOk(o) && NoForeignCash(o)
  }

  ghost predicate KeyUsed(o: Org, k: Key) {
    HasKey(o.ledger, Posting(o.id, Some(k), []))
  }

  /** What the tables show when a key has been posted; `n` bounds the advances that the
      settlement in progress has reached. */
  ghost predicate Accounted(o: Org, k: Key, n: nat) {
    match k
    case AdvanceKey(i) => i < |o.advances|
    case CancelKey(i) => i < |o.advances| && o.advances[i].status == Cancelled
    case WriteOffKey(i) => i < |o.advances| && o.advances[i].status == WrittenOff
    case SettleKey(i, item) => item < o.nextItem || (item == o.nextItem && i < n)
    case CollectKey(i, j) =>
      i < |o.advances| && j < |o.advances[i].debits| && o.advances[i].debits[j].status == DebitSuccessful
    case DepositKey(_) => true
    case GrantKey(g) => g < |o.grants|
    case GrantReversalKey(g) => g < |o.grants| && o.grants[g].status == GrantFailed
    case SavingsKey(item) => item < o.nextItem
  }

  ghost predicate KeysOk(o: Org, n: nat) {
    forall k :: KeyUsed(o, k) ==> Accounted(o, k, n)
  }

  /** The invariant while a settlement stands before advance n. */
  ghost predicate Sound(o: Org, e: string, n: nat) {
    RowsOk(o) && Books(o, e) && KeysOk(o, n)
  }

  ghost predicate Invariant(o: Org, e: string) {
    Sound(o, e, 0)
  }

  // ---------- the effect of a posting ----------

  function Effect(dr: Account, cr: Account, amount: int, a: Account): int {
    (if a == dr then amount else 0) - (if a == cr then amount else 0)
  }

  lemma FreshKey(o: Org, k: Key, n: nat)
    requires KeysOk(o, n) && !Accounted(o, k, n)
    ensures !KeyUsed(o, k)
  {
  }

  /** The posting is valid and new, so it is appended. */
  lemma MoveAppends(o: Org, key: Key, dr: Account, cr: Account, amount: Int64)
    requires amount > 0 && !o.currency.Unsupported? && !KeyUsed(o, key)
    ensures Move(o, key, dr, cr, amount).ledger == o.ledger + [Movement(o, key, dr, cr, amount)]
  {
    var p := Movement(o, key, dr, cr, amount);
    var e0, e1 := p.entries[0], p.entries[1];
    assert p.entries[..1] == [e0] && [e0][..0] == [];
    assert SideTotal(p.entries, Debit) == SideTotal([e0], Debit) + 0 == amount;
    assert SideTotal(p.entries, Credit) == SideTotal([e0], Credit) + amount == amount;
    assert AllFit([e0], o.currency) && AllFit(p.entries, o.currency);
    Ledger.KeyDecides(o.ledger, p, Posting(o.id, Some(key), []));
  }

  lemma MoveNet(o: Org, key: Key, dr: Account, cr: Account, amount: Int64, a: Account)
    requires amount > 0 && !o.currency.Unsupported? && !KeyUsed(o, key)
    ensures LedgerNet(Move(o, key, dr, cr, amount).ledger, a) == LedgerNet(o.ledger, a) + Effect(dr, cr, amount, a)
  {
    MoveAppends(o, key, dr, cr, amount);
    var p := Movement(o, key, dr, cr, amount);
    var e0, e1 := p.entries[0], p.entries[1];
    assert (o.ledger + [p])[..|o.ledger|] == o.ledger;
    assert p.entries[..1] == [e0] && [e0][..0] == [];
    assert Net(p.entries, a) == Net([e0], a) + (if cr == a then 0 - amount else 0);
    assert Net([e0], a) == Net([], a) + (if dr == a then amount else 0);
  }

  lemma MoveKeys(o: Org, key: Key, dr: Account, cr: Account, amount: Int64, k: Key)
    requires amount > 0 && !o.currency.Unsupported? && !KeyUsed(o, key)
    ensures KeyUsed(Move(o, key, dr, cr, amount), k) <==> KeyUsed(o, k) || k == key
  {
    MoveAppends(o, key, dr, cr, amount);
    assert (o.ledger + [Movement(o, key, dr, cr, amount)])[..|o.ledger|] == o.ledger;
  }

  /** The posting, put beside a change of the tables of o to those of p, is new. */
  ghost predicate Posts(o: Org, p: Org, key: Key, dr: Account, cr: Account, amount: int) {
    && p.ledger == o.ledger && p.id == o.id && p.currency == o.currency
    && amount > 0 && !p.currency.Unsupported? && !KeyUsed(p, key)
    && dr.currency == o.currency && cr.currency == o.currency
  }

  lemma ReceivableMove(o: Org, p: Org, e: string, key: Key, dr: Account, cr: Account, amount: Int64)
    requires ReceivableOk(o, e) && Posts(o, p, key, dr, cr, amount)
    requires SumOf(p.advances, Owes(e)) == SumOf(o.advances, Owes(e)) + Effect(dr, cr, amount, Receivable(o, e))
    ensures ReceivableOk(Move(p, key, dr, cr, amount), e)
  {
    MoveNet(p, key, dr, cr, amount, Receivable(o, e));
  }

  lemma CashMove(o: Org, p: Org, key: Key, dr: Account, cr: Account, amount: Int64)
    requires CashOk(o) && Posts(o, p, key, dr, cr, amount)
    requires SumOf(p.advances, Drawn) + LiveGrants(p.grants) - SumOf(p.advances, CollectedByDebit) ==
             SumOf(o.advances, Drawn) + LiveGrants(o.grants) - SumOf(o.advances, CollectedByDebit)
             - Effect(dr, cr, amount, Cash(o)) - Effect(dr, cr, amount, Funding(o))
    ensures CashOk(Move(p, key, dr, cr, amount))
  {
    MoveNet(p, key, dr, cr, amount, Cash(o));
    MoveNet(p, key, dr, cr, amount, Funding(o));
  }

  lemma ExpensesMove(o: Org, p: Org, key: Key, dr: Account, cr: Account, amount: Int64)
    requires ExpensesOk(o) && Posts(o, p, key, dr, cr, amount)
    requires SumOf(p.advances, Lost) == SumOf(o.advances, Lost) + Effect(dr, cr, amount, WriteOffs(o))
    requires LiveGrants(p.grants) == LiveGrants(o.grants) + Effect(dr, cr, amount, GrantExpense(o))
    ensures ExpensesOk(Move(p, key, dr, cr, amount))
  {
    MoveNet(p, key, dr, cr, amount, WriteOffs(o));
    MoveNet(p, key, dr, cr, amount, GrantExpense(o));
  }

  lemma ForeignMove(o: Org, p: Org, key: Key, dr: Account, cr: Account, amount: Int64)
    requires NoForeignCash(o) && Posts(o, p, key, dr, cr, amount)
    ensures NoForeignCash(Move(p, key, dr, cr, amount))
  {
    MoveNet(p, key, dr, cr, amount, CashIn(o, NGN));
  }

  /** A posting that replaces the tables of o by those of p keeps the books when each sum
      moves by the posting's effect on its account. */
  lemma BooksMove(o: Org, p: Org, e: string, key: Key, dr: Account, cr: Account, amount: Int64)
    requires Books(o, e) && Posts(o, p, key, dr, cr, amount)
    requires SumOf(p.advances, Owes(e)) == SumOf(o.advances, Owes(e)) + Effect(dr, cr, amount, Receivable(o, e))
    requires SumOf(p.advances, Drawn) + LiveGrants(p.grants) - SumOf(p.advances, CollectedByDebit) ==
             SumOf(o.advances, Drawn) + LiveGrants(o.grants) - SumOf(o.advances, CollectedByDebit)
             - Effect(dr, cr, amount, Cash(o)) - Effect(dr, cr, amount, Funding(o))
    requires SumOf(p.advances, Lost) == SumOf(o.advances, Lost) + Effect(dr, cr, amount, WriteOffs(o))
    requires LiveGrants(p.grants) == LiveGrants(o.grants) + Effect(dr, cr, amount, GrantExpense(o))
    ensures Books(Move(p, key, dr, cr, amount), e)
  {
    var q := Move(p, key, dr, cr, amount);
    assert ReceivableOk(q, e) by { ReceivableMove(o, p, e, key, dr, cr, amount); }
    assert CashOk(q) by { CashMove(o, p, key, dr, cr, amount); }
    assert ExpensesOk(q) by { ExpensesMove(o, p, key, dr, cr, amount); }
    assert NoForeignCash(q) by { ForeignMove(o, p, key, dr, cr, amount); }
  }

  /** BooksMove for a change of one advance. */
  lemma AdvanceMove(o: Org, e: string, i: nat, a: Advance, key: Key, dr: Account, cr: Account, amount: Int64)
    requires Books(o, e) && !o.currency.Unsupported? && i < |o.advances|
    requires amount > 0 && !KeyUsed(o, key) && dr.currency == o.currency && cr.currency == o.currency
    requires Weigh(a, Owes(e)) == Weigh(o.advances[i], Owes(e)) + Effect(dr, cr, amount, Receivable(o, e))
    requires Weigh(a, Drawn) - Weigh(a, CollectedByDebit) ==
             Weigh(o.advances[i], Drawn) - Weigh(o.advances[i], CollectedByDebit)
             - Effect(dr, cr, amount, Cash(o)) - Effect(dr, cr, amount, Funding(o))
    requires Weigh(a, Lost) == Weigh(o.advances[i], Lost) + Effect(dr, cr, amount, WriteOffs(o))
    requires Effect(dr, cr, amount, GrantExpense(o)) == 0
    ensures Books(Move(WithAdvance(o, i, a), key, dr, cr, amount), e)
  {
    SumUpdate(o.advances, i, a, Owes(e));
    SumUpdate(o.advances, i, a, Drawn);
    SumUpdate(o.advances, i, a, CollectedByDebit);
    SumUpdate(o.advances, i, a, Lost);
    BooksMove(o, WithAdvance(o, i, a), e, key, dr, cr, amount);
  }

  /** Nothing that a used key stands for is undone when advance b becomes a. */
  ghost predicate KeepsRecord(b: Advance, a: Advance) {
    && (b.status == Cancelled || b.status == WrittenOff ==> a.status == b.status)
    && |b.debits| <= |a.debits|
    && forall j | 0 <= j < |b.debits| && b.debits[j].status == DebitSuccessful :: a.debits[j] == b.debits[j]
  }

  lemma RecordKept(o: Org, i: nat, a: Advance, k: Key, n: nat)
    requires i < |o.advances| && KeepsRecord(o.advances[i], a) && Accounted(o, k, n)
    ensures Accounted(WithAdvance(o, i, a), k, n)
  {
  }

  /** The tables keep accounting for every key used so far, and for the new one. */
  lemma KeysMove(o: Org, i: nat, a: Advance, n: nat, key: Key, dr: Account, cr: Account, amount: Int64, m: nat)
    requires KeysOk(o, n) && n <= m && i < |o.advances| && amount > 0 && !o.currency.Unsupported? && !KeyUsed(o, key)
    requires KeepsRecord(o.advances[i], a) && Accounted(WithAdvance(o, i, a), key, m)
    ensures KeysOk(Move(WithAdvance(o, i, a), key, dr, cr, amount), m)
  {
    var p := WithAdvance(o, i, a);
    var q := Move(p, key, dr, cr, amount);
    forall k | KeyUsed(q, k) ensures Accounted(q, k, m) {
      MoveKeys(p, key, dr, cr, amount, k);
      if k != key {
        assert KeyUsed(o, k);
        RecordKept(o, i, a, k, n);
      }
    }
  }

  // ---------- one advance at a time (x is the employee whose books are watched) ----------

  lemma RowsChange(o: Org, i: nat, a: Advance)
    requires RowsOk(o) && i < |o.advances| && AdvanceOk(a) && a.period == o.advances[i].period
    ensures RowsOk(WithAdvance(o, i, a))
  {
  }

  lemma CancelKeeps(o: Org, x: string, i: nat, n: nat)
    requires Sound(o, x, n)
    ensures Sound(CancelAdvance(o, i), x, n)
  {
    if i < |o.advances| && o.advances[i].status == Approved {
      var a := o.advances[i];
      var b := a.(status := Cancelled);
      assert AdvanceOk(a) && AdvanceOk(b);
      FreshKey(o, CancelKey(i), n);
      AdvanceMove(o, x, i, b, CancelKey(i), Cash(o), Receivable(o, a.employee), a.amount);
      KeysMove(o, i, b, n, CancelKey(i), Cash(o), Receivable(o, a.employee), a.amount, n);
      RowsChange(o, i, b);
    }
  }

  lemma WriteOffKeeps(o: Org, x: string, i: nat, n: nat)
    requires Sound(o, x, n)
    ensures Sound(WriteOffAdvance(o, i), x, n)
  {
    if i < |o.advances| && o.advances[i].status == Disbursed {
      var a := o.advances[i];
      var b := a.(status := WrittenOff);
      assert AdvanceOk(a) && AdvanceOk(b);
      FreshKey(o, WriteOffKey(i), n);
      AdvanceMove(o, x, i, b, WriteOffKey(i), WriteOffs(o), Receivable(o, a.employee), a.amount);
      KeysMove(o, i, b, n, WriteOffKey(i), WriteOffs(o), Receivable(o, a.employee), a.amount, n);
      RowsChange(o, i, b);
    }
  }

  lemma RecoverKeeps(o: Org, x: string, i: nat, portion: Int64)
    requires Sound(o, x, i) && i < |o.advances| && o.advances[i].status == Disbursed
    requires 0 < portion <= Remaining(o.advances[i])
    ensures Sound(Recover(o, i, o.nextItem, portion), x, i + 1)
  {
    var a := o.advances[i];
    var b := Recovered(a, portion);
    var key := SettleKey(i, o.nextItem);
    assert AdvanceOk(a) && AdvanceOk(b);
    FreshKey(o, key, i);
    AdvanceMove(o, x, i, b, key, Payable(o, a.employee), Receivable(o, a.employee), portion);
    KeysMove(o, i, b, i, key, Payable(o, a.employee), Receivable(o, a.employee), portion, i + 1);
    RowsChange(o, i, b);
  }

  lemma SettleRecovers(s: Settlement, x: string, i: nat, available: int, t: Settlement)
    requires Sound(s.books, x, i) && i < |s.books.advances| && s.books.advances[i].status == Disbursed
    requires Portion(s.books.advances[i], available - s.withheld) > 0
    requires t == SettleOne(s, i, s.books.nextItem, available)
    ensures Sound(t.books, x, i + 1)
  {
    var portion := Portion(s.books.advances[i], available - s.withheld);
    assert t.books == Recover(s.books, i, s.books.nextItem, portion);
    RecoverKeeps(s.books, x, i, portion);
  }

  lemma SettleOneKeeps(s: Settlement, x: string, i: nat, available: int, t: Settlement)
    requires Sound(s.books, x, i) && i < |s.books.advances| && IsOpen(s.books.advances[i])
    requires t == SettleOne(s, i, s.books.nextItem, available)
    ensures Sound(t.books, x, i + 1)
  {
    if s.books.advances[i].status == Approved {
      assert t.books == CancelAdvance(s.books, i);
      CancelWidens(s.books, x, i);
    } else if Portion(s.books.advances[i], available - s.withheld) > 0 {
      SettleRecovers(s, x, i, available, t);
    } else {
      assert t == s;
      KeysWiden(s.books, i, i + 1);
    }
  }

  lemma CancelWidens(o: Org, x: string, i: nat)
    requires Sound(o, x, i)
    ensures Sound(CancelAdvance(o, i), x, i + 1)
  {
    CancelKeeps(o, x, i, i);
    KeysWiden(CancelAdvance(o, i), i, i + 1);
  }

  lemma KeysWiden(o: Org, n: nat, m: nat)
    requires KeysOk(o, n) && n <= m
    ensures KeysOk(o, m)
  {
    forall k | KeyUsed(o, k) ensures Accounted(o, k, m) {
      assert Accounted(o, k, n);
    }
  }

  ghost predicate SameFrame(o: Org, p: Org) {
    && p.id == o.id && p.currency == o.currency && p.period == o.period && p.nextItem == o.nextItem
    && p.grants == o.grants && |p.advances| == |o.advances|
  }

  /** The loop has not touched the advances it has not reached. */
  lemma {:induction false} SettleFrame(o: Org, e: string, period: int, item: nat, available: int, n: nat)
    requires n <= |o.advances|
    ensures var p := SettleUpTo(o, e, period, item, available, n).books;
            SameFrame(o, p) && forall k | n <= k < |o.advances| :: p.advances[k] == o.advances[k]
  {
    if n > 0 { SettleFrame(o, e, period, item, available, n - 1); }
  }

  lemma TurnKeeps(s: Settlement, x: string, i: nat, e: string, period: int, available: int, t: Settlement)
    requires Sound(s.books, x, i) && i < |s.books.advances|
    requires t == SettleTurn(s, i, e, period, s.books.nextItem, available)
    ensures Sound(t.books, x, i + 1) && t.books.nextItem == s.books.nextItem
  {
    if Selected(s.books.advances[i], e, period) {
      SettleOneKeeps(s, x, i, available, t);
    } else {
      KeysWiden(s.books, i, i + 1);
    }
  }

  /** What one turn takes from i to i + 1, the loop takes from 0 to n. */
  lemma {:induction false} SettleInduction(
      o: Org, e: string, period: int, item: nat, available: int, n: nat, inv: (Settlement, nat) -> bool)
    requires n <= |o.advances| && inv(Settlement(o, 0), 0)
    requires forall s: Settlement, i: nat {:trigger SettleTurn(s, i, e, period, item, available)} ::
               i < |s.books.advances| && inv(s, i) ==> inv(SettleTurn(s, i, e, period, item, available), i + 1)
    ensures inv(SettleUpTo(o, e, period, item, available, n), n)
  {
    if n > 0 { SettleInduction(o, e, period, item, available, n - 1, inv); }
  }

  lemma SettleKeeps(o: Org, x: string, e: string, period: int, available: int, n: nat, s: Settlement)
    requires Invariant(o, x) && n <= |o.advances| && s == SettleUpTo(o, e, period, o.nextItem, available, n)
    ensures Sound(s.books, x, n)
  {
    ghost var inv := (t: Settlement, i: nat) => Sound(t.books, x, i) && t.books.nextItem == o.nextItem;
    forall t: Settlement, i: nat | i < |t.books.advances| && inv(t, i)
      ensures inv(SettleTurn(t, i, e, period, o.nextItem, available), i + 1)
    {
      TurnKeeps(t, x, i, e, period, available, SettleTurn(t, i, e, period, o.nextItem, available));
    }
    SettleInduction(o, e, period, o.nextItem, available, n, inv);
  }

  /** The keys of the item being paid are accounted for once the item is closed. */
  ghost predicate KeysOfItem(o: Org, n: nat) {
    forall k :: KeyUsed(o, k) ==> Accounted(o, k, n) || k == SavingsKey(o.nextItem)
  }

  /** Diverting savings posts between two of the worker's own accounts. */
  lemma DivertKeeps(o: Org, x: string, e: string, d: Int64, n: nat)
    requires Sound(o, x, n) && d > 0
    ensures var p := Move(o, SavingsKey(o.nextItem), Payable(o, e), SavingsOf(o, e), d);
            RowsOk(p) && Books(p, x) && KeysOfItem(p, n)
  {
    var key := SavingsKey(o.nextItem);
    FreshKey(o, key, n);
    BooksMove(o, o, x, key, Payable(o, e), SavingsOf(o, e), d);
    var p := Move(o, key, Payable(o, e), SavingsOf(o, e), d);
    forall k | KeyUsed(p, k) ensures Accounted(p, k, n) || k == key {
      MoveKeys(o, key, Payable(o, e), SavingsOf(o, e), d, k);
      assert k != key ==> Accounted(o, k, n);
    }
  }

  /** Closing the item turns its keys into keys of a past item. */
  lemma CloseItem(o: Org, x: string, n: nat)
    requires RowsOk(o) && Books(o, x) && n <= |o.advances| && KeysOfItem(o, n)
    ensures Invariant(o.(nextItem := o.nextItem + 1), x)
  {
    var r := o.(nextItem := o.nextItem + 1);
    assert Receivable(r, x) == Receivable(o, x);
    forall k | KeyUsed(r, k) ensures Accounted(r, k, 0) {
      assert KeyUsed(o, k);
    }
  }

  lemma CloseKeeps(o: Org, x: string, e: string, d: Int64, n: nat)
    requires Sound(o, x, n) && n <= |o.advances|
    ensures Invariant(Close(o, e, d), x)
  {
    if d > 0 {
      DivertKeeps(o, x, e, d, n);
      CloseItem(Move(o, SavingsKey(o.nextItem), Payable(o, e), SavingsOf(o, e), d), x, n);
    } else {
      CloseItem(o, x, n);
    }
  }

  lemma PayWithKeeps(o: Org, x: string, e: string, period: int, gross: Int64, d: Int64)
    requires Invariant(o, x)
    ensures Invariant(PayWith(o, e, period, gross, d), x)
  {
    var n := |o.advances|;
    var s := SettleUpTo(o, e, period, o.nextItem, gross, n);
    SettleKeeps(o, x, e, period, gross, n, s);
    CloseKeeps(s.books, x, e, d, n);
  }

  lemma PayKeeps(o: Org, x: string, e: string, period: int, gross: Int64, pref: Preference)
    requires Invariant(o, x)
    ensures Invariant(Perform(o, Pay(e, period, gross, pref)), x)
  {
    var r := PayItem(o, e, period, gross, pref);
    if r.Ok? { PayWithKeeps(o, x, e, period, gross, r.value.slip.diverted); }
  }

  lemma ResolveKeeps(o: Org, x: string, i: nat, e: string)
    requires Invariant(o, x) && i < |o.advances|
    ensures Invariant(Resolve(o, i, e), x)
  {
    CancelKeeps(o, x, i, 0);
    WriteOffKeeps(o, x, i, 0);
  }

  /** What resolving one advance keeps, a termination keeps. */
  lemma {:induction false} TerminateInduction(o: Org, e: string, n: nat, inv: Org -> bool)
    requires n <= |o.advances| && inv(o)
    requires forall p: Org, i: nat {:trigger Resolve(p, i, e)} :: i < |p.advances| && inv(p) ==> inv(Resolve(p, i, e))
    ensures inv(TerminateUpTo(o, e, n))
  {
    if n > 0 { TerminateInduction(o, e, n - 1, inv); }
  }

  lemma TerminateKeeps(o: Org, x: string, e: string, n: nat)
    requires Invariant(o, x) && n <= |o.advances|
    ensures Invariant(TerminateUpTo(o, e, n), x)
  {
    ghost var inv := (p: Org) => Invariant(p, x);
    forall p: Org, i: nat | i < |p.advances| && inv(p) ensures inv(Resolve(p, i, e)) {
      ResolveKeeps(p, x, i, e);
    }
    TerminateInduction(o, e, n, inv);
  }

  /** A change of one advance that moves no money keeps the invariant. */
  lemma QuietChange(o: Org, x: string, i: nat, a: Advance)
    requires Invariant(o, x) && i < |o.advances| && AdvanceOk(a) && a.period == o.advances[i].period
    requires KeepsRecord(o.advances[i], a)
    requires var b := o.advances[i];
             && Weigh(a, Owes(x)) == Weigh(b, Owes(x)) && Weigh(a, Drawn) == Weigh(b, Drawn)
             && Weigh(a, CollectedByDebit) == Weigh(b, CollectedByDebit) && Weigh(a, Lost) == Weigh(b, Lost)
    ensures Invariant(WithAdvance(o, i, a), x)
  {
    var p := WithAdvance(o, i, a);
    SumUpdate(o.advances, i, a, Owes(x));
    SumUpdate(o.advances, i, a, Drawn);
    SumUpdate(o.advances, i, a, CollectedByDebit);
    SumUpdate(o.advances, i, a, Lost);
    assert Receivable(p, x) == Receivable(o, x);
    forall k | KeyUsed(p, k) ensures Accounted(p, k, 0) {
      assert KeyUsed(o, k);
      RecordKept(o, i, a, k, 0);
    }
  }

  function WithAttempt(a: Advance, d: Collection): Advance {
    a.(debits := a.debits + [d])
  }

  lemma AttemptIsQuiet(a: Advance, d: Collection, x: string)
    requires AdvanceOk(a) && a.status == Disbursed && d.amount > 0 && d.status == DebitPending
    ensures var b := WithAttempt(a, d);
            && AdvanceOk(b) && KeepsRecord(a, b) && Weigh(b, Owes(x)) == Weigh(a, Owes(x)) && Weigh(b, Drawn) == Weigh(a, Drawn)
            && Weigh(b, CollectedByDebit) == Weigh(a, CollectedByDebit) && Weigh(b, Lost) == Weigh(a, Lost)
  {
    assert WithAttempt(a, d).debits[..|a.debits|] == a.debits;
  }

  lemma InitiateKeeps(o: Org, x: string, i: nat, authorized: bool)
    requires Invariant(o, x)
    ensures Invariant(InitiateDebit(o, i, authorized), x)
  {
    if InitiateDebit(o, i, authorized) != o {
      var a := o.advances[i];
      var d := Collection(LastNumber(a.debits) + 1, Remaining(a), DebitPending);
      assert AdvanceOk(a);
      AttemptIsQuiet(a, d, x);
      QuietChange(o, x, i, WithAttempt(a, d));
    }
  }

  lemma FailDebitQuietly(o: Org, x: string, i: nat, j: nat)
    requires Invariant(o, x) && IsPendingDebit(o, i, j)
    ensures Invariant(WithAdvance(o, i, WithDebit(o.advances[i], j, DebitFailed)), x)
  {
    var a := o.advances[i];
    assert AdvanceOk(a);
    CollectedUpdate(a.debits, j, a.debits[j].(status := DebitFailed));
    QuietChange(o, x, i, WithDebit(a, j, DebitFailed));
  }

  lemma DebitFailsKeeps(o: Org, x: string, i: nat, j: nat)
    requires Invariant(o, x)
    ensures Invariant(DebitFails(o, i, j), x)
  {
    if IsPendingDebit(o, i, j) {
      FailDebitQuietly(o, x, i, j);
      WriteOffKeeps(WithAdvance(o, i, WithDebit(o.advances[i], j, DebitFailed)), x, i, 0);
    }
  }

  lemma CollectedByWeights(a: Advance, j: nat, x: string)
    requires AdvanceOk(a) && j < |a.debits| && a.debits[j].status == DebitPending && a.recovered + a.debits[j].amount <= a.amount
    ensures var b := CollectedBy(a, j); var c := a.debits[j].amount;
            && AdvanceOk(b)
            && Weigh(b, Owes(x)) == Weigh(a, Owes(x)) - (if x == a.employee then c else 0)
            && Weigh(b, Drawn) == Weigh(a, Drawn) && Weigh(b, Lost) == Weigh(a, Lost)
            && Weigh(b, CollectedByDebit) == Weigh(a, CollectedByDebit) + c
  {
    CollectedUpdate(a.debits, j, a.debits[j].(status := DebitSuccessful));
    assert a.status == Disbursed || a.status == WrittenOff;
  }

  lemma CollectKeeps(o: Org, x: string, i: nat, j: nat)
    requires Invariant(o, x) && IsPendingDebit(o, i, j)
    requires var a := o.advances[i]; 0 <= a.recovered + a.debits[j].amount <= a.amount
    ensures var a := o.advances[i];
            Invariant(Move(WithAdvance(o, i, CollectedBy(a, j)),
                           CollectKey(i, j), Cash(o), Receivable(o, a.employee), a.debits[j].amount), x)
  {
    var a := o.advances[i];
    var b, c := CollectedBy(a, j), a.debits[j].amount;
    assert AdvanceOk(a);
    CollectedByWeights(a, j, x);
    FreshKey(o, CollectKey(i, j), 0);
    AdvanceMove(o, x, i, b, CollectKey(i, j), Cash(o), Receivable(o, a.employee), c);
    KeysMove(o, i, b, 0, CollectKey(i, j), Cash(o), Receivable(o, a.employee), c, 0);
    RowsChange(o, i, b);
  }

  lemma DebitSucceedsKeeps(o: Org, x: string, i: nat, j: nat)
    requires Invariant(o, x)
    ensures Invariant(DebitSucceeds(o, i, j), x)
  {
    if IsPendingDebit(o, i, j) {
      var a := o.advances[i];
      if 0 <= a.recovered + a.debits[j].amount <= a.amount && a.debits[j].amount > 0 { CollectKeeps(o, x, i, j); }
    }
  }

  lemma DisburseKeeps(o: Org, x: string, i: nat)
    requires Invariant(o, x)
    ensures Invariant(ConfirmDisbursed(o, i), x)
  {
    if i < |o.advances| && o.advances[i].status == Approved {
      assert AdvanceOk(o.advances[i]);
      QuietChange(o, x, i, o.advances[i].(status := Disbursed));
    }
  }

  // ---------- new rows ----------

  function WithNewAdvance(o: Org, a: Advance): Org {
    o.(advances := o.advances + [a])
  }

  lemma NewRowKeysOk(o: Org, a: Advance)
    requires KeysOk(o, 0)
    ensures KeysOk(WithNewAdvance(o, a), 0)
    ensures !KeyUsed(WithNewAdvance(o, a), AdvanceKey(|o.advances|))
  {
    var p := WithNewAdvance(o, a);
    FreshKey(o, AdvanceKey(|o.advances|), 0);
    forall k | KeyUsed(p, k) ensures Accounted(p, k, 0) {
      assert KeyUsed(o, k);
      assert Accounted(o, k, 0);
    }
  }

  lemma NewRowSums(o: Org, a: Advance, x: string)
    ensures var s := WithNewAdvance(o, a).advances;
            && SumOf(s, Owes(x)) == SumOf(o.advances, Owes(x)) + Weigh(a, Owes(x))
            && SumOf(s, Drawn) == SumOf(o.advances, Drawn) + Weigh(a, Drawn)
            && SumOf(s, CollectedByDebit) == SumOf(o.advances, CollectedByDebit) + Weigh(a, CollectedByDebit)
            && SumOf(s, Lost) == SumOf(o.advances, Lost) + Weigh(a, Lost)
  {
    SumAppend(o.advances, a, Owes(x));
    SumAppend(o.advances, a, Drawn);
    SumAppend(o.advances, a, CollectedByDebit);
    SumAppend(o.advances, a, Lost);
  }

  lemma DeclineKeeps(o: Org, x: string, e: string, amount: Int64, key: Option<string>)
    requires Invariant(o, x) && amount > 0
    ensures Invariant(WithNewAdvance(o, NewAdvance(o, e, amount, Declined, key)), x)
  {
    var a := NewAdvance(o, e, amount, Declined, key);
    NewRowSums(o, a, x);
    NewRowKeysOk(o, a);
    assert AdvanceOk(a);
    assert Receivable(WithNewAdvance(o, a), x) == Receivable(o, x);
  }

  lemma ApproveKeeps(o: Org, x: string, e: string, amount: Int64, key: Option<string>)
    requires Invariant(o, x) && amount > 0
    ensures Invariant(Move(WithNewAdvance(o, NewAdvance(o, e, amount, Approved, key)),
                           AdvanceKey(|o.advances|), Receivable(o, e), Cash(o), amount), x)
  {
    var a := NewAdvance(o, e, amount, Approved, key);
    var p := WithNewAdvance(o, a);
    var posted := AdvanceKey(|o.advances|);
    NewRowSums(o, a, x);
    NewRowKeysOk(o, a);
    BooksMove(o, p, x, posted, Receivable(o, e), Cash(o), amount);
    KeysAdd(p, 0, posted, Receivable(o, e), Cash(o), amount);
    assert AdvanceOk(a);
  }

  /** A new posting adds its own key and no other. */
  lemma KeysAdd(o: Org, n: nat, key: Key, dr: Account, cr: Account, amount: Int64)
    requires KeysOk(o, n) && amount > 0 && !o.currency.Unsupported? && !KeyUsed(o, key) && Accounted(o, key, n)
    ensures KeysOk(Move(o, key, dr, cr, amount), n)
  {
    var q := Move(o, key, dr, cr, amount);
    forall k | KeyUsed(q, k) ensures Accounted(q, k, n) {
      MoveKeys(o, key, dr, cr, amount, k);
      assert Accounted(o, k, n);
    }
  }

  lemma RequestKeeps(o: Org, x: string, e: string, amount: Int64, f: Facts, key: Option<string>, p: Org)
    requires Invariant(o, x) && p == RequestAdvance(o, e, amount, f, key)
    ensures Invariant(p, x)
  {
    if p != o {
      match Decide(o, e, amount, f)
      case DeclinedDraw => DeclineKeeps(o, x, e, amount, key);
      case ApprovedDraw => ApproveKeeps(o, x, e, amount, key);
    }
  }

  lemma DepositKeeps(o: Org, x: string, reference: string, amount: Int64)
    requires Invariant(o, x)
    ensures Invariant(RecordFunding(o, reference, amount), x)
  {
    var key := DepositKey(reference);
    if RecordFunding(o, reference, amount) != o {
      var posting := Movement(o, key, Cash(o), Funding(o), amount);
      AllFitEach(posting.entries, o.currency);
      assert EntryFits(posting.entries[0], o.currency);
      KeyDecides(o.ledger, posting, Posting(o.id, Some(key), []));
      BooksMove(o, o, x, key, Cash(o), Funding(o), amount);
      KeysAdd(o, 0, key, Cash(o), Funding(o), amount);
    }
  }

  /** The keys stay accounted for when grants are added or change status, and no reversed
      grant is revived. */
  lemma GrantRowsKeepKeys(o: Org, grants: seq<Grant>)
    requires KeysOk(o, 0) && |o.grants| <= |grants|
    requires forall g | 0 <= g < |o.grants| && o.grants[g].status == GrantFailed :: grants[g] == o.grants[g]
    ensures KeysOk(o.(grants := grants), 0)
  {
    var p := o.(grants := grants);
    forall k | KeyUsed(p, k) ensures Accounted(p, k, 0) {
      assert KeyUsed(o, k) && Accounted(o, k, 0);
    }
  }

  lemma GrantAddedKeeps(o: Org, x: string, amount: Int64)
    requires Invariant(o, x) && amount > 0
    ensures Invariant(Move(o.(grants := o.grants + [Grant(amount, GrantPending)]),
                           GrantKey(|o.grants|), GrantExpense(o), Cash(o), amount), x)
  {
    var p := o.(grants := o.grants + [Grant(amount, GrantPending)]);
    var key := GrantKey(|o.grants|);
    assert p.grants[..|o.grants|] == o.grants;
    FreshKey(o, key, 0);
    assert !KeyUsed(p, key);
    GrantRowsKeepKeys(o, p.grants);
    BooksMove(o, p, x, key, GrantExpense(o), Cash(o), amount);
    KeysAdd(p, 0, key, GrantExpense(o), Cash(o), amount);
  }

  lemma IssueKeeps(o: Org, x: string, amount: Int64, coverage: bool, eligible: bool)
    requires Invariant(o, x)
    ensures Invariant(IssueGrant(o, amount, coverage, eligible), x)
  {
    if amount > 0 { GrantAddedKeeps(o, x, amount); }
  }

  lemma GrantStatusKeeps(o: Org, x: string, g: nat, s: GrantStatus)
    requires Invariant(o, x) && GrantUnresolved(o, g) && s != GrantFailed
    ensures Invariant(o.(grants := o.grants[g := o.grants[g].(status := s)]), x)
  {
    var p := o.(grants := o.grants[g := o.grants[g].(status := s)]);
    LiveGrantsUpdate(o.grants, g, p.grants[g]);
    GrantRowsKeepKeys(o, p.grants);
    assert Receivable(p, x) == Receivable(o, x);
  }

  lemma SubmitKeeps(o: Org, x: string, g: nat)
    requires Invariant(o, x)
    ensures Invariant(SubmitGrant(o, g), x)
  {
    if SubmitGrant(o, g) != o { GrantStatusKeeps(o, x, g, GrantSubmitted); }
  }

  lemma ConfirmKeeps(o: Org, x: string, g: nat)
    requires Invariant(o, x)
    ensures Invariant(ConfirmGrant(o, g), x)
  {
    if ConfirmGrant(o, g) != o { GrantStatusKeeps(o, x, g, GrantDisbursed); }
  }

  lemma ReverseKeeps(o: Org, x: string, g: nat)
    requires Invariant(o, x)
    ensures Invariant(FailGrant(o, g), x)
  {
    if GrantUnresolved(o, g) {
      var amount := o.grants[g].amount;
      var p := o.(grants := o.grants[g := o.grants[g].(status := GrantFailed)]);
      var key := GrantReversalKey(g);
      LiveGrantsUpdate(o.grants, g, p.grants[g]);
      FreshKey(o, key, 0);
      assert !KeyUsed(p, key);
      GrantRowsKeepKeys(o, p.grants);
      BooksMove(o, p, x, key, Cash(o), GrantExpense(o), amount);
      KeysAdd(p, 0, key, Cash(o), GrantExpense(o), amount);
    }
  }

  lemma NextPeriodKeeps(o: Org, x: string)
    requires Invariant(o, x)
    ensures Invariant(Perform(o, NextPeriod), x)
  {
    var p := Perform(o, NextPeriod);
    assert Receivable(p, x) == Receivable(o, x);
    forall k | KeyUsed(p, k) ensures Accounted(p, k, 0) { assert KeyUsed(o, k) && Accounted(o, k, 0); }
  }

  lemma AdvanceStepKeeps(o: Org, x: string, step: Step, p: Org)
    requires Invariant(o, x) && p == Perform(o, step)
    requires step.Request? || step.Disburse? || step.Cancel? || step.Pay? || step.Terminate?
    ensures Invariant(p, x)
  {
    match step
    case Request(e, amount, f, key) => RequestKeeps(o, x, e, amount, f, key, p);
    case Disburse(i) => DisburseKeeps(o, x, i);
    case Cancel(i) => CancelKeeps(o, x, i, 0);
    case Pay(e, period, gross, pref) => PayKeeps(o, x, e, period, gross, pref);
    case Terminate(e) => TerminateKeeps(o, x, e, |o.advances|);
  }

  lemma DebitStepKeeps(o: Org, x: string, step: Step, p: Org)
    requires Invariant(o, x) && p == Perform(o, step) && (step.Initiate? || step.Collect? || step.CollectionFails?)
    ensures Invariant(p, x)
  {
    match step
    case Initiate(i, authorized) => InitiateKeeps(o, x, i, authorized);
    case Collect(i, j) => DebitSucceedsKeeps(o, x, i, j);
    case CollectionFails(i, j) => DebitFailsKeeps(o, x, i, j);
  }

  lemma FundStepKeeps(o: Org, x: string, step: Step, p: Org)
    requires Invariant(o, x) && p == Perform(o, step)
    requires step.Deposit? || step.Issue? || step.Submit? || step.Confirm? || step.Reverse? || step.NextPeriod?
    ensures Invariant(p, x)
  {
    match step
    case Deposit(reference, amount) => DepositKeeps(o, x, reference, amount);
    case Issue(amount, coverage, eligible) => IssueKeeps(o, x, amount, coverage, eligible);
    case Submit(g) => SubmitKeeps(o, x, g);
    case Confirm(g) => ConfirmKeeps(o, x, g);
    case Reverse(g) => ReverseKeeps(o, x, g);
    case NextPeriod => NextPeriodKeeps(o, x);
  }

  /** Every operation keeps the books of every employee. */
  lemma StepKeeps(o: Org, x: string, step: Step, p: Org)
    requires Invariant(o, x) && p == Perform(o, step)
    ensures Invariant(p, x)
  {
    if step.Request? || step.Disburse? || step.Cancel? || step.Pay? || step.Terminate? {
      AdvanceStepKeeps(o, x, step, p);
    } else if step.Initiate? || step.Collect? || step.CollectionFails? {
      DebitStepKeeps(o, x, step, p);
    } else {
      FundStepKeeps(o, x, step, p);
    }
  }

  lemma {:induction false} RunKeeps(o: Org, x: string, steps: seq<Step>)
    requires Initial(o)
    ensures Invariant(After(o, steps), x)
  {
    if steps != [] {
      var p, q := After(o, steps[..|steps| - 1]), After(o, steps);
      RunKeeps(o, x, steps[..|steps| - 1]);
      StepKeeps(p, x, steps[|steps| - 1], q);
    }
  }
}
