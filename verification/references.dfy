/** Bank references of payroll items (internal/models/payroll_item.go).

    Attempt 1 is sent under the bare item ID, attempt N > 1 under "<id>-R<N>". */
module References {
  import opened Wrappers
  import opened Money

  datatype Parsed = Parsed(id: string, attempt: int)

  // ---------- decimal text ----------

  predicate IsDigit(c: char) { '0' <= c <= '9' }

  predicate IsAlnum(c: char) { IsDigit(c) || 'A' <= c <= 'Z' || 'a' <= c <= 'z' }

  predicate AllDigits(s: string) { forall i | 0 <= i < |s| :: IsDigit(s[i]) }

  predicate AllAlnum(s: string) { forall i | 0 <= i < |s| :: IsAlnum(s[i]) }

  function DigitChar(d: nat): (c: char)
    requires d < 10
  {
    '0' + d as char
  }

  function DigitValue(c: char): (d: nat)
    requires IsDigit(c)
  {
    (c - '0') as nat
  }

  /** fmt's %d on a non-negative number. */
  function PrintNat(n: nat): (s: string) {
    if n < 10 then [DigitChar(n)] else PrintNat(n / 10) + [DigitChar(n % 10)]
  }

  /** The number a digit string denotes. */
  function NatValue(s: string): (n: nat)
    requires AllDigits(s)
  {
    if s == "" then 0 else 10 * NatValue(s[..|s| - 1]) + DigitValue(s[|s| - 1])
  }

  lemma {:induction false} PrintNatDigits(n: nat)
    ensures |PrintNat(n)| >= 1 && AllDigits(PrintNat(n))
    ensures NatValue(PrintNat(n)) == n
    ensures n > 0 ==> PrintNat(n)[0] != '0'
  {
    if n >= 10 {
      PrintNatDigits(n / 10);
      var front := PrintNat(n / 10);
      assert PrintNat(n)[..|PrintNat(n)| - 1] == front;
      assert PrintNat(n)[0] == front[0];
    }
  }

  lemma {:induction false} NatValuePositive(s: string)
    requires s != "" && AllDigits(s) && s[0] != '0'
    ensures NatValue(s) >= 1
    ensures |s| >= 2 ==> NatValue(s) >= 10
  {
    if |s| >= 2 { NatValuePositive(s[..|s| - 1]); }
  }

  /** A digit string prints back unchanged exactly when it has no leading zero. */
  lemma {:induction false} PrintOfValue(s: string)
    requires s != "" && AllDigits(s) && s[0] != '0'
    ensures PrintNat(NatValue(s)) == s
  {
    var front, last := s[..|s| - 1], s[|s| - 1];
    assert s == front + [last];
    if |s| >= 2 {
      NatValuePositive(s);
      PrintOfValue(front);
      assert NatValue(s) / 10 == NatValue(front) && NatValue(s) % 10 == DigitValue(last);
    } else {
      assert NatValue(front) == 0;
    }
  }

  // ---------- the reference format ----------

  /** PayrollItem.ItemReference. */
  function ItemReference(id: string, attempt: int): (ref: string) {
    if attempt <= 1 then id else id + "-R" + PrintNat(attempt)
  }

  /** IDs as BeforeCreate generates them and the callback pattern accepts them. */
  predicate IsItemId(id: string) {
    |id| > 5 && id[..5] == "ITEM-" && AllAlnum(id[5..])
  }

  /** The pattern ^(ITEM-[0-9A-Za-z]+)(?:-R([0-9]+))?$ with its two groups. */
  ghost predicate MatchesPattern(ref: string, id: string, digits: Option<string>) {
    && IsItemId(id)
    && match digits
       case None => ref == id
       case Some(d) => d != "" && AllDigits(d) && ref == id + "-R" + d
  }

  /** Index of the first character at or after i that is not alphanumeric. */
  function AlnumEnd(s: string, i: nat): (e: nat)
    requires i <= |s|
    ensures i <= e <= |s|
    ensures forall k | i <= k < e :: IsAlnum(s[k])
    ensures e < |s| ==> !IsAlnum(s[e])
    decreases |s| - i
  {
    if i < |s| && IsAlnum(s[i]) then AlnumEnd(s, i + 1) else i
  }

  /** The two groups of the pattern: the item ID and the digits after -R. */
  datatype Match = Match(id: string, digits: Option<string>)

  /** FindStringSubmatch: the scan is deterministic because '-' is not alphanumeric. */
  function MatchReference(ref: string): (m: Option<Match>) {
    if |ref| < 5 || ref[..5] != "ITEM-" then None
    else
      var e := AlnumEnd(ref, 5);
      if e == 5 then None
      else if e == |ref| then Some(Match(ref, None))
      else
        var rest := ref[e..];
        if |rest| > 2 && rest[..2] == "-R" && AllDigits(rest[2..])
        then Some(Match(ref[..e], Some(rest[2..]))) else None
  }

  /** ParseItemReference: strconv.Atoi rejects numbers past int64. */
  function ParseItemReference(ref: string): (r: Option<Parsed>) {
    match MatchReference(ref)
    case None => None
    case Some(Match(id, None)) => Some(Parsed(id, 1))
    case Some(Match(id, Some(digits))) =>
      if !AllDigits(digits) then None
      else if NatValue(digits) > MAX64 || NatValue(digits) < 2 then None
      else Some(Parsed(id, NatValue(digits)))
  }

  lemma MatchFits(ref: string, id: string, digits: Option<string>)
    requires MatchReference(ref) == Some(Match(id, digits))
    ensures MatchesPattern(ref, id, digits)
  {
    var e := AlnumEnd(ref, 5);
    assert id == ref[..e] && ref == ref[..e] + ref[e..];
    assert id[..5] == "ITEM-";
    if digits.Some? { assert ref[e..] == "-R" + ref[e..][2..]; }
  }

  lemma FitMatches(ref: string, id: string, digits: Option<string>)
    requires MatchesPattern(ref, id, digits)
    ensures MatchReference(ref) == Some(Match(id, digits))
  {
    assert ref[..5] == id[..5];
    var e := AlnumEnd(ref, 5);
    assert forall k | 5 <= k < |id| :: ref[k] == id[5..][k - 5];
    if digits.Some? {
      assert ref[|id|] == '-' && !IsAlnum('-');
      assert e == |id| && ref[..e] == id && ref[e..] == "-R" + digits.value;
      assert ref[e..][2..] == digits.value && ref[e..][..2] == "-R";
    } else {
      assert e == |ref|;
    }
  }

  /** The scan finds exactly the decompositions the pattern allows, of which there is
      at most one. */
  lemma MatchIsThePattern(ref: string, id: string, digits: Option<string>)
    ensures MatchReference(ref) == Some(Match(id, digits)) <==> MatchesPattern(ref, id, digits)
  {
    if MatchReference(ref) == Some(Match(id, digits)) { MatchFits(ref, id, digits); }
    if MatchesPattern(ref, id, digits) { FitMatches(ref, id, digits); }
  }

  /** Printing then parsing returns the item and the attempt. */
  lemma PrintThenParse(id: string, attempt: int)
    requires IsItemId(id) && 1 <= attempt <= MAX64
    ensures ParseItemReference(ItemReference(id, attempt)) == Some(Parsed(id, attempt))
  {
    var ref := ItemReference(id, attempt);
    if attempt == 1 {
      MatchIsThePattern(ref, id, None);
    } else {
      PrintNatDigits(attempt);
      MatchIsThePattern(ref, id, Some(PrintNat(attempt)));
    }
  }

  /** No two (item, attempt) pairs share a bank reference. */
  lemma ReferencesInjective(id1: string, a1: int, id2: string, a2: int)
    requires IsItemId(id1) && IsItemId(id2) && 1 <= a1 <= MAX64 && 1 <= a2 <= MAX64
    requires ItemReference(id1, a1) == ItemReference(id2, a2)
    ensures id1 == id2 && a1 == a2
  {
    PrintThenParse(id1, a1);
    PrintThenParse(id2, a2);
  }

  /** Parsing then printing is the identity exactly on references without a zero-padded
      attempt: "ITEM-a-R02" is accepted as attempt 2 although it is never printed. */
  lemma ParseThenPrint(ref: string)
    requires ParseItemReference(ref).Some?
    ensures var p := ParseItemReference(ref).value;
            IsItemId(p.id) && 1 <= p.attempt <= MAX64
    ensures var p := ParseItemReference(ref).value;
            ItemReference(p.id, p.attempt) == ref <==>
            !(|ref| > |p.id| + 2 && ref[|p.id| + 2] == '0')
  {
    var p := ParseItemReference(ref).value;
    var digits := MatchReference(ref).value.digits;
    MatchIsThePattern(ref, p.id, digits);
    if digits.Some? {
      var d := digits.value;
      PrintNatDigits(p.attempt);
      assert ref[|p.id| + 2] == d[0];
      assert ref[|p.id| + 2..] == d;
      if d[0] != '0' {
        PrintOfValue(d);
      } else {
        var printed := ItemReference(p.id, p.attempt);
        assert printed[|p.id| + 2] == PrintNat(p.attempt)[0];
      }
    }
  }
}
