/** The append-only double-entry ledger (internal/models/ledger.go).

    Balances are never stored: they are sums over the entries. Keys are generic here; the
    text of the keys the services use is in EwaKeys. */
module Ledger {
  import opened Wrappers
  import opened Money

  // Currencies of pkg/money/currency.go, and any other code a caller may pass.
  datatype Currency = NGN | USD | GHS | KES | ZAR | XOF | GBP | EUR | Unsupported(code: string)

  // A side as stored: anything but "debit" and "credit" is refused.
  datatype Side = Debit | Credit | OtherSide

  datatype AccountType =
    | EmployerFunding | AdvanceReceivable | WagePayable | CashSettlement
    | FeeIncome | WriteOffExpense | EmployeeSavings | HardshipGrantExpense

  function NormalSide(t: AccountType): Side {
    match t
    case AdvanceReceivable => Debit
    case WriteOffExpense => Debit
    case HardshipGrantExpense => Debit
    case _ => Credit
  }

  /** What identifies an account; employee is None for an org-level account. */
  datatype Account = Account(org: string, employee: Option<string>, kind: AccountType, currency: Currency)

  datatype Entry = Entry(account: Account, side: Side, amount: Int64, currency: Currency)

  /** A posting request; a key of None is the empty idempotency key. */
  datatype Posting<K> = Posting(org: string, key: Option<K>, entries: seq<Entry>)

  datatype Rejection =
    | KeyRequired | TooFewEntries | UnknownCurrency | MixedCurrency
    | NonPositiveAmount | InvalidDirection | TotalOverflow | NotBalanced

  // ---------- validation ----------

  function SideTotal(entries: seq<Entry>, side: Side): int {
    if entries == [] then 0
    else
      var e := entries[|entries| - 1];
      SideTotal(entries[..|entries| - 1], side) + (if e.side == side then e.amount else 0)
  }

  predicate EntryFits(e: Entry, c: Currency) {
    e.currency == c && e.amount > 0 && e.side != OtherSide
  }

  predicate AllFit(entries: seq<Entry>, c: Currency) {
    entries == [] || (EntryFits(entries[|entries| - 1], c) && AllFit(entries[..|entries| - 1], c))
  }

  lemma {:induction false} AllFitEach(entries: seq<Entry>, c: Currency)
    ensures AllFit(entries, c) <==> forall j | 0 <= j < |entries| :: EntryFits(entries[j], c)
  {
    if entries != [] {
      var n := |entries| - 1;
      AllFitEach(entries[..n], c);
      assert forall j | 0 <= j < n :: entries[..n][j] == entries[j];
    }
  }

  /** A balanced movement of one supported currency. */
  predicate IsValidPosting<K>(p: Posting<K>) {
    && p.key.Some? && |p.entries| >= 2 && !p.entries[0].currency.Unsupported?
    && AllFit(p.entries, p.entries[0].currency)
    && SideTotal(p.entries, Debit) == SideTotal(p.entries, Credit)
    && InRange(SideTotal(p.entries, Debit))
  }

  lemma {:induction false} SideTotalPrefix(entries: seq<Entry>, side: Side, n: nat)
    requires n <= |entries| && forall j | 0 <= j < |entries| :: entries[j].amount > 0
    ensures 0 <= SideTotal(entries[..n], side) <= SideTotal(entries, side)
  {
    if entries != [] {
      var m := |entries| - 1;
      if n <= m {
        SideTotalPrefix(entries[..m], side, n);
        assert entries[..m][..n] == entries[..n];
      } else {
        SideTotalPrefix(entries[..m], side, m);
        assert entries[..m][..m] == entries[..m] && entries[..n] == entries;
      }
    }
  }

  /** A running total that leaves int64 belongs to no valid posting. */
  lemma OverflowMeansInvalid<K>(p: Posting<K>, side: Side, n: nat)
    requires n <= |p.entries| && SideTotal(p.entries[..n], side) > MAX64 && side != OtherSide
    ensures !IsValidPosting(p)
  {
    if IsValidPosting(p) {
      AllFitEach(p.entries, p.entries[0].currency);
      SideTotalPrefix(p.entries, side, n);
    }
  }

  /** ValidatePosting accepts exactly the balanced postings, although it accumulates both
      totals in wrapping int64. */
  method ValidatePosting<K>(p: Posting<K>) returns (r: Option<Rejection>)
    ensures r.None? <==> IsValidPosting(p)
    ensures r == Some(NotBalanced) ==> SideTotal(p.entries, Debit) != SideTotal(p.entries, Credit)
  {
    if p.key.None? { return Some(KeyRequired); }
    if |p.entries| < 2 { return Some(TooFewEntries); }
    var currency := p.entries[0].currency;
    if currency.Unsupported? { return Some(UnknownCurrency); }
    var debits: Int64, credits: Int64 := 0, 0;
    for i := 0 to |p.entries|
      invariant AllFit(p.entries[..i], currency)
      invariant debits == SideTotal(p.entries[..i], Debit)
      invariant credits == SideTotal(p.entries[..i], Credit)
    {
      var e := p.entries[i];
      if !EntryFits(e, currency) { AllFitEach(p.entries, currency); }
      if e.currency != currency { return Some(MixedCurrency); }
      if e.amount <= 0 { return Some(NonPositiveAmount); }
      if e.side == OtherSide { return Some(InvalidDirection); }
      assert p.entries[..i + 1][..i] == p.entries[..i];
      var total := if e.side == Debit then debits else credits;
      var sum := Add(total, e.amount);
      AddExact(total, e.amount);
      if sum.Err? {
        OverflowMeansInvalid(p, e.side, i + 1);
        return Some(TotalOverflow);
      }
      if e.side == Debit { debits := sum.value; } else { credits := sum.value; }
    }
    assert p.entries[..|p.entries|] == p.entries;
    if debits != credits { return Some(NotBalanced); }
    return None;
  }

  // ---------- posting ----------

  predicate SameKey<K(==)>(p: Posting<K>, q: Posting<K>) {
    p.org == q.org && p.key == q.key
  }

  predicate HasKey<K(==)>(ledger: seq<Posting<K>>, p: Posting<K>) {
    ledger != [] && (SameKey(ledger[|ledger| - 1], p) || HasKey(ledger[..|ledger| - 1], p))
  }

  lemma {:induction false} HasKeySomewhere<K>(ledger: seq<Posting<K>>, p: Posting<K>)
    ensures HasKey(ledger, p) <==> exists j :: 0 <= j < |ledger| && SameKey(ledger[j], p)
  {
    if ledger != [] {
      var n := |ledger| - 1;
      HasKeySomewhere(ledger[..n], p);
      if j :| 0 <= j < n && SameKey(ledger[..n][j], p) { assert SameKey(ledger[j], p); }
      if j :| 0 <= j < |ledger| && SameKey(ledger[j], p) && j < n { assert SameKey(ledger[..n][j], p); }
    }
  }

  /** Only the org and the key of a request decide whether it is a replay. */
  lemma {:induction false} KeyDecides<K>(ledger: seq<Posting<K>>, p: Posting<K>, q: Posting<K>)
    requires SameKey(p, q)
    ensures HasKey(ledger, p) == HasKey(ledger, q)
  {
    if ledger != [] { KeyDecides(ledger[..|ledger| - 1], p, q); }
  }

  /** PostTransaction: an invalid request and a replay both write nothing. */
  function Post<K(==)>(ledger: seq<Posting<K>>, p: Posting<K>): (r: seq<Posting<K>>) {
    if !IsValidPosting(p) || HasKey(ledger, p) then ledger else ledger + [p]
  }

  datatype PostResult<K> = Rejected(reason: Rejection) | Posted(transaction: Posting<K>)

  class LedgerStore<K(==)> {
    var accounts: seq<Account>
    var transactions: seq<Posting<K>>

    constructor ()
      ensures accounts == [] && transactions == []
    {
      accounts, transactions := [], [];
    }

    /** EnsureAccount: one row per identity, created on first use; a currency that is not
        supported is refused. */
    method EnsureAccount(a: Account) returns (id: Option<nat>)
      requires forall i, j | 0 <= i < j < |accounts| :: accounts[i] != accounts[j]
      modifies this`accounts
      ensures id.None? <==> a.currency.Unsupported?
      ensures id.Some? ==> id.value < |accounts| && accounts[id.value] == a
      ensures accounts == if id.None? || a in old(accounts) then old(accounts) else old(accounts) + [a]
      ensures forall i, j | 0 <= i < j < |accounts| :: accounts[i] != accounts[j]
    {
      if a.currency.Unsupported? { return None; }
      for k := 0 to |accounts|
        invariant a !in accounts[..k]
      {
        if accounts[k] == a { return Some(k); }
        assert accounts[..k + 1] == accounts[..k] + [accounts[k]];
      }
      assert accounts[..|accounts|] == accounts;
      accounts := accounts + [a];
      return Some(|accounts| - 1);
    }

    method PostTransaction(p: Posting<K>) returns (r: PostResult<K>)
      modifies this`transactions
      ensures transactions == Post(old(transactions), p)
      ensures r.Posted? <==> IsValidPosting(p)
      ensures r.Posted? ==> r.transaction in transactions && SameKey(r.transaction, p)
    {
      var invalid := ValidatePosting(p);
      if invalid.Some? { return Rejected(invalid.value); }
      HasKeySomewhere(transactions, p);
      for k := 0 to |transactions|
        invariant forall j | 0 <= j < k :: !SameKey(transactions[j], p)
      {
        if SameKey(transactions[k], p) { return Posted(transactions[k]); }
      }
      transactions := transactions + [p];
      assert transactions[|transactions| - 1] == p;
      return Posted(p);
    }
  }

  function PostAll<K(==)>(requests: seq<Posting<K>>): (r: seq<Posting<K>>) {
    if requests == [] then []
    else Post(PostAll(requests[..|requests| - 1]), requests[|requests| - 1])
  }

  /** The request at n is valid and no earlier valid request used its key. */
  ghost predicate IsFirst<K>(requests: seq<Posting<K>>, n: nat)
    requires n < |requests|
  {
    IsValidPosting(requests[n]) &&
    forall j | 0 <= j < n :: !(IsValidPosting(requests[j]) && SameKey(requests[j], requests[n]))
  }

  ghost function FirstValid<K>(requests: seq<Posting<K>>, n: nat): seq<Posting<K>>
    requires n <= |requests|
  {
    if n == 0 then [] else FirstValid(requests, n - 1) + (if IsFirst(requests, n - 1) then [requests[n - 1]] else [])
  }

  /** A key is in the ledger exactly when some valid request used it. */
  lemma {:induction false} KeysOfPostAll<K>(requests: seq<Posting<K>>, p: Posting<K>)
    ensures HasKey(PostAll(requests), p) <==>
            exists j :: 0 <= j < |requests| && IsValidPosting(requests[j]) && SameKey(requests[j], p)
  {
    if requests != [] {
      var n := |requests| - 1;
      var front, last := requests[..n], requests[n];
      KeysOfPostAll(front, p);
      var before, after := PostAll(front), PostAll(requests);
      assert (before + [last])[..|before|] == before;
      if SameKey(last, p) { KeyDecides(before, last, p); }
      if k :| 0 <= k < |front| && IsValidPosting(front[k]) && SameKey(front[k], p) { assert SameKey(requests[k], p); }
      if k :| 0 <= k < |requests| && IsValidPosting(requests[k]) && SameKey(requests[k], p) && k < n {
        assert SameKey(front[k], p);
      }
      if IsValidPosting(last) && SameKey(last, p) { assert SameKey(requests[n], p); }
    }
  }

  /** Whatever is requested and however often, the ledger is the sequence of the first
      valid request per (org, key). */
  lemma {:induction false} LedgerIsFirstValid<K>(requests: seq<Posting<K>>)
    ensures PostAll(requests) == FirstValid(requests, |requests|)
  {
    if requests != [] {
      var n := |requests| - 1;
      LedgerIsFirstValid(requests[..n]);
      FirstValidPrefix(requests, n, n);
      KeysOfPostAll(requests[..n], requests[n]);
      assert IsFirst(requests, n) <==> IsValidPosting(requests[n]) && !HasKey(PostAll(requests[..n]), requests[n]) by {
        forall j | 0 <= j < n ensures requests[..n][j] == requests[j] {}
      }
    }
  }

  lemma {:induction false} FirstValidPrefix<K>(requests: seq<Posting<K>>, m: nat, n: nat)
    requires n <= m <= |requests|
    ensures FirstValid(requests[..m], n) == FirstValid(requests, n)
  {
    if n > 0 {
      FirstValidPrefix(requests, m, n - 1);
      assert IsFirst(requests[..m], n - 1) == IsFirst(requests, n - 1);
    }
  }

  /** Posting again under a key that is taken changes nothing, whatever the entries. */
  lemma ReplayIsNoOp<K>(ledger: seq<Posting<K>>, p: Posting<K>, q: Posting<K>)
    requires SameKey(p, q) && IsValidPosting(p)
    ensures Post(Post(ledger, p), q) == Post(ledger, p)
  {
    assert (ledger + [p])[..|ledger|] == ledger;
    KeyDecides(ledger, p, q);
  }

  // ---------- balances ----------

  function Signed(e: Entry): int {
    if e.side == Debit then e.amount else if e.side == Credit then 0 - e.amount else 0
  }

  /** Debits minus credits of the entries on account a. */
  function Net(entries: seq<Entry>, a: Account): int {
    if entries == [] then 0
    else
      var e := entries[|entries| - 1];
      Net(entries[..|entries| - 1], a) + (if e.account == a then Signed(e) else 0)
  }

  function LedgerNet<K>(ledger: seq<Posting<K>>, a: Account): int {
    if ledger == [] then 0
    else LedgerNet(ledger[..|ledger| - 1], a) + Net(ledger[|ledger| - 1].entries, a)
  }

  /** AccountBalance: in the account's normal direction. */
  function AccountBalance<K>(ledger: seq<Posting<K>>, a: Account): int {
    if NormalSide(a.kind) == Debit then LedgerNet(ledger, a) else -LedgerNet(ledger, a)
  }

  /** Debits minus credits of one org in one currency. */
  function OrgNet<K>(ledger: seq<Posting<K>>, org: string, c: Currency): int {
    if ledger == [] then 0
    else
      var p := ledger[|ledger| - 1];
      OrgNet(ledger[..|ledger| - 1], org, c) + (if p.org == org then CurrencyNet(p.entries, c) else 0)
  }

  function CurrencyNet(entries: seq<Entry>, c: Currency): int {
    if entries == [] then 0
    else
      var e := entries[|entries| - 1];
      CurrencyNet(entries[..|entries| - 1], c) + (if e.currency == c then Signed(e) else 0)
  }

  lemma {:induction false} CurrencyNetOfUniform(entries: seq<Entry>, currency: Currency, c: Currency)
    requires AllFit(entries, currency)
    ensures CurrencyNet(entries, c) ==
            if c == currency then SideTotal(entries, Debit) - SideTotal(entries, Credit) else 0
  {
    if entries != [] { CurrencyNetOfUniform(entries[..|entries| - 1], currency, c); }
  }

  ghost predicate AllValid<K>(ledger: seq<Posting<K>>) {
    forall j | 0 <= j < |ledger| :: IsValidPosting(ledger[j])
  }

  lemma {:induction false} PostAllValid<K>(requests: seq<Posting<K>>)
    ensures AllValid(PostAll(requests))
  {
    if requests != [] { PostAllValid(requests[..|requests| - 1]); }
  }

  /** Debits equal credits for every org and currency. */
  lemma {:induction false} OrgBalanced<K>(ledger: seq<Posting<K>>, org: string, c: Currency)
    requires AllValid(ledger)
    ensures OrgNet(ledger, org, c) == 0
  {
    if ledger != [] {
      var p := ledger[|ledger| - 1];
      OrgBalanced(ledger[..|ledger| - 1], org, c);
      CurrencyNetOfUniform(p.entries, p.entries[0].currency, c);
    }
  }

  /** Whatever is requested, replayed or refused, the ledger it leaves is in balance. */
  lemma PostedIsBalanced<K>(requests: seq<Posting<K>>, org: string, c: Currency)
    ensures OrgNet(PostAll(requests), org, c) == 0
  {
    PostAllValid(requests);
    OrgBalanced(PostAll(requests), org, c);
  }

  // ---------- the trial balance ----------

  /** Sum of the balances of the listed accounts whose normal side is `side`. */
  function SumNormal<K>(ledger: seq<Posting<K>>, accounts: seq<Account>, side: Side): int {
    if accounts == [] then 0
    else
      var a := accounts[|accounts| - 1];
      SumNormal(ledger, accounts[..|accounts| - 1], side) +
      (if NormalSide(a.kind) == side then AccountBalance(ledger, a) else 0)
  }

  function NetOver<K>(ledger: seq<Posting<K>>, accounts: seq<Account>): int {
    if accounts == [] then 0
    else NetOver(ledger, accounts[..|accounts| - 1]) + LedgerNet(ledger, accounts[|accounts| - 1])
  }

  function EntriesNetOver(entries: seq<Entry>, accounts: seq<Account>): int {
    if accounts == [] then 0
    else EntriesNetOver(entries, accounts[..|accounts| - 1]) + Net(entries, accounts[|accounts| - 1])
  }

  lemma {:induction false} SumNormalIsNet<K>(ledger: seq<Posting<K>>, accounts: seq<Account>)
    ensures SumNormal(ledger, accounts, Debit) - SumNormal(ledger, accounts, Credit) == NetOver(ledger, accounts)
  {
    if accounts != [] { SumNormalIsNet(ledger, accounts[..|accounts| - 1]); }
  }

  ghost predicate Distinct(accounts: seq<Account>) {
    forall i, j | 0 <= i < j < |accounts| :: accounts[i] != accounts[j]
  }

  /** One more entry moves the sum by its own signed amount, if its account is listed. */
  lemma {:induction false} EntryMovesNetOver(entries: seq<Entry>, accounts: seq<Account>)
    requires entries != [] && Distinct(accounts)
    ensures var e := entries[|entries| - 1];
            EntriesNetOver(entries, accounts) ==
            EntriesNetOver(entries[..|entries| - 1], accounts) + (if e.account in accounts then Signed(e) else 0)
  {
    if accounts != [] {
      var n := |accounts| - 1;
      EntryMovesNetOver(entries, accounts[..n]);
      assert accounts == accounts[..n] + [accounts[n]];
    }
  }

  lemma {:induction false} EntriesNetOverIsTotal(entries: seq<Entry>, accounts: seq<Account>, currency: Currency)
    requires Distinct(accounts)
    requires forall j | 0 <= j < |entries| :: EntryFits(entries[j], currency) && entries[j].account in accounts
    ensures EntriesNetOver(entries, accounts) == SideTotal(entries, Debit) - SideTotal(entries, Credit)
  {
    if entries == [] {
      EmptyNetOver(accounts);
    } else {
      EntryMovesNetOver(entries, accounts);
      EntriesNetOverIsTotal(entries[..|entries| - 1], accounts, currency);
    }
  }

  lemma {:induction false} EmptyNetOver(accounts: seq<Account>)
    ensures EntriesNetOver([], accounts) == 0
  {
    if accounts != [] { EmptyNetOver(accounts[..|accounts| - 1]); }
  }

  lemma {:induction false} OutsideNetOver(entries: seq<Entry>, accounts: seq<Account>)
    requires Distinct(accounts) && forall j | 0 <= j < |entries| :: entries[j].account !in accounts
    ensures EntriesNetOver(entries, accounts) == 0
  {
    if entries == [] {
      EmptyNetOver(accounts);
    } else {
      EntryMovesNetOver(entries, accounts);
      OutsideNetOver(entries[..|entries| - 1], accounts);
    }
  }

  lemma {:induction false} NetOverAppend<K>(ledger: seq<Posting<K>>, accounts: seq<Account>)
    requires ledger != []
    ensures NetOver(ledger, accounts) ==
            NetOver(ledger[..|ledger| - 1], accounts) + EntriesNetOver(ledger[|ledger| - 1].entries, accounts)
  {
    if accounts != [] { NetOverAppend(ledger, accounts[..|accounts| - 1]); }
  }

  ghost predicate InBooks(e: Entry, accounts: seq<Account>, org: string, c: Currency) {
    e.account in accounts <==> e.account.org == org && e.account.currency == c
  }

  /** Postings as every caller builds them: on accounts EnsureAccount returned for the
      posting's own org and currency. */
  ghost predicate WellAddressed<K>(p: Posting<K>) {
    forall j | 0 <= j < |p.entries| ::
      p.entries[j].account.org == p.org && p.entries[j].account.currency == p.entries[j].currency
  }

  /** The trial balance: over all accounts of an org in a currency, debit-normal balances
      sum to the same as credit-normal balances. */
  lemma {:induction false} TrialBalance<K>(ledger: seq<Posting<K>>, accounts: seq<Account>, org: string, c: Currency)
    requires AllValid(ledger) && Distinct(accounts)
    requires forall i | 0 <= i < |ledger| :: WellAddressed(ledger[i])
    requires forall i, j | 0 <= i < |ledger| && 0 <= j < |ledger[i].entries| ::
               InBooks(ledger[i].entries[j], accounts, org, c)
    ensures SumNormal(ledger, accounts, Debit) == SumNormal(ledger, accounts, Credit)
  {
    NetOverZero(ledger, accounts, org, c);
    SumNormalIsNet(ledger, accounts);
  }

  lemma {:induction false} NetOverZero<K>(ledger: seq<Posting<K>>, accounts: seq<Account>, org: string, c: Currency)
    requires AllValid(ledger) && Distinct(accounts)
    requires forall i | 0 <= i < |ledger| :: WellAddressed(ledger[i])
    requires forall i, j | 0 <= i < |ledger| && 0 <= j < |ledger[i].entries| ::
               InBooks(ledger[i].entries[j], accounts, org, c)
    ensures NetOver(ledger, accounts) == 0
  {
    if ledger == [] {
      EmptyLedgerNet<K>(accounts);
    } else {
      var n := |ledger| - 1;
      var p := ledger[n];
      NetOverZero(ledger[..n], accounts, org, c);
      NetOverAppend(ledger, accounts);
      assert IsValidPosting(p) && WellAddressed(p);
      AllFitEach(p.entries, p.entries[0].currency);
      forall j | 0 <= j < |p.entries|
        ensures InBooks(p.entries[j], accounts, org, c) && EntryFits(p.entries[j], p.entries[0].currency)
      {
        assert InBooks(ledger[n].entries[j], accounts, org, c);
      }
      if p.org == org && p.entries[0].currency == c {
        EntriesNetOverIsTotal(p.entries, accounts, c);
      } else {
        OutsideNetOver(p.entries, accounts);
      }
    }
  }

  lemma {:induction false} EmptyLedgerNet<K>(accounts: seq<Account>)
    ensures NetOver<K>([], accounts) == 0
  {
    if accounts != [] { EmptyLedgerNet<K>(accounts[..|accounts| - 1]); }
  }
}
