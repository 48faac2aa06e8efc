/**
 * The reference generator run by the operation schema's pre-save hook:
 * a per-type prefix, the trailing number of the newest same-type reference
 * plus one, left-padded with zeros to at least four digits.
 */
module Reference {
  import opened Results
  import opened StockOperation

  // ---------------------------------------------------------------------------
  // Decimal digits
  // ---------------------------------------------------------------------------

  predicate IsDigit(c: char) {
    '0' <= c <= '9'
  }

  predicate AllDigits(s: string) {
    forall i :: 0 <= i < |s| ==> IsDigit(s[i])
  }

  function DigitChar(d: nat): (c: char)
    requires d < 10
    ensures IsDigit(c) && c as int - '0' as int == d
  {
    ('0' as int + d) as char
  }

  /** The value of a digit string, leading zeros included (what `parseInt` yields). */
  function DigitsValue(s: string): nat
    requires AllDigits(s)
    decreases |s|
  {
    if |s| == 0 then 0
    else DigitsValue(s[..|s| - 1]) * 10 + (s[|s| - 1] as int - '0' as int)
  }

  /** `String(n)`: the shortest decimal spelling of `n`. */
  function Decimal(n: nat): (s: string)
    ensures |s| >= 1 && AllDigits(s)
    ensures DigitsValue(s) == n
    ensures |s| > 1 ==> s[0] != '0'
    decreases n
  {
    if n < 10 then [DigitChar(n)]
    else
      var s := Decimal(n / 10) + [DigitChar(n % 10)];
      assert s[..|s| - 1] == Decimal(n / 10);
      s
  }

  function Zeros(k: nat): (z: string)
    ensures |z| == k && forall i :: 0 <= i < k ==> z[i] == '0'
  {
    if k == 0 then "" else Zeros(k - 1) + "0"
  }

  /** `s.padStart(width, '0')`: zeros on the left up to `width`; longer strings are kept whole. */
  function PadStart(s: string, width: nat): (r: string)
    ensures |r| == if |s| >= width then |s| else width
    ensures r[|r| - |s|..] == s
    ensures forall i :: 0 <= i < |r| - |s| ==> r[i] == '0'
  {
    if |s| >= width then s else Zeros(width - |s|) + s
  }

  /** Leading zeros do not change the value of a digit string. */
  lemma {:induction false} ZerosPrefixValue(k: nat, s: string)
    requires AllDigits(s)
    ensures AllDigits(Zeros(k) + s)
    ensures DigitsValue(Zeros(k) + s) == DigitsValue(s)
    decreases k, |s|
  {
    var t := Zeros(k) + s;
    assert AllDigits(t) by {
      forall i | 0 <= i < |t| ensures IsDigit(t[i]) {
        if i < k { assert t[i] == Zeros(k)[i]; } else { assert t[i] == s[i - k]; }
      }
    }
    if |s| == 0 {
      assert t == Zeros(k);
      if k > 0 {
        assert t[..|t| - 1] == Zeros(k - 1);
        ZerosPrefixValue(k - 1, "");
        assert Zeros(k - 1) + "" == Zeros(k - 1);
      }
    } else {
      var s' := s[..|s| - 1];
      assert t[..|t| - 1] == Zeros(k) + s';
      assert t[|t| - 1] == s[|s| - 1];
      ZerosPrefixValue(k, s');
    }
  }

  /** The rendered number: `String(n).padStart(4, '0')`. */
  function Render(n: nat): (s: string)
    ensures AllDigits(s) && |s| >= 4
    ensures DigitsValue(s) == n
    ensures |s| == if |Decimal(n)| >= 4 then |Decimal(n)| else 4
  {
    var d := Decimal(n);
    if |d| >= 4 then d
    else
      ZerosPrefixValue(4 - |d|, d);
      PadStart(d, 4)
  }

  // ---------------------------------------------------------------------------
  // Prefixes
  // ---------------------------------------------------------------------------

  /** The hook's switch over the raw type string, with `WH/OP/` as its default arm. */
  function Prefix(typeName: string): string {
    if typeName == "receipt" then "WH/IN/"
    else if typeName == "delivery" then "WH/OUT/"
    else if typeName == "internal" then "WH/INT/"
    else if typeName == "adjustment" then "WH/ADJ/"
    else "WH/OP/"
  }

  /** Every prefix is `WH/`, a word without slashes or digits, and a closing slash. */
  lemma PrefixShape(typeName: string)
    ensures var p := Prefix(typeName);
      && |p| >= 4 && p[..3] == "WH/" && p[|p| - 1] == '/'
      && forall i :: 3 <= i < |p| - 1 ==> p[i] != '/' && !IsDigit(p[i])
  {
  }

  /** Each type has its own prefix, and every unknown type shares the `WH/OP/` one. */
  lemma PrefixTable(typeName: string)
    ensures Prefix(typeName) == "WH/OP/" <==> ParseType(typeName).None?
    ensures ParseType(typeName).Some? ==>
      Prefix(typeName) == match ParseType(typeName).value
        case Receipt => "WH/IN/"
        case Delivery => "WH/OUT/"
        case Internal => "WH/INT/"
        case Adjustment => "WH/ADJ/"
  {
  }

  /** Distinct types have distinct prefixes, so their references never collide. */
  lemma PrefixesDistinct(t: OpType, u: OpType)
    requires t != u
    ensures Prefix(TypeName(t)) != Prefix(TypeName(u))
  {
    var p, q := Prefix(TypeName(t)), Prefix(TypeName(u));
    PrefixShape(TypeName(t));
    PrefixShape(TypeName(u));
    assert p[3] != q[3] || |p| != |q|;
  }

  // ---------------------------------------------------------------------------
  // Parsing the trailing number: the regular expression `\/(\d+)$`
  // ---------------------------------------------------------------------------

  /** The regular expression matches with its slash at position `p`. */
  predicate MatchesAt(s: string, p: int) {
    0 <= p && p + 1 < |s| && s[p] == '/' && forall j :: p < j < |s| ==> IsDigit(s[j])
  }

  /** The start of the longest run of digits that ends the string. */
  function TrailingDigitsStart(s: string): (k: nat)
    ensures k <= |s| && forall j :: k <= j < |s| ==> IsDigit(s[j])
    ensures k > 0 ==> !IsDigit(s[k - 1])
    decreases |s|
  {
    if |s| == 0 || !IsDigit(s[|s| - 1]) then |s|
    else
      var k := TrailingDigitsStart(s[..|s| - 1]);
      assert forall j :: k <= j < |s| - 1 ==> s[..|s| - 1][j] == s[j];
      k
  }

  /** The number captured by `\/(\d+)$`, or `None` when the reference does not match. */
  function TrailingNumber(s: string): Option<nat> {
    var k := TrailingDigitsStart(s);
    if 0 < k < |s| && s[k - 1] == '/' then Some(DigitsValue(s[k..])) else None
  }

  /** `TrailingNumber` is the regular expression: it matches exactly when some slash is followed by digits to the end, and captures those digits. */
  lemma {:induction false} TrailingNumberMatches(s: string)
    ensures TrailingNumber(s).Some? <==> exists p :: MatchesAt(s, p)
    ensures forall p :: MatchesAt(s, p) ==> TrailingNumber(s) == Some(DigitsValue(s[p + 1..]))
  {
    var k := TrailingDigitsStart(s);
    assert forall p :: MatchesAt(s, p) ==> p == k - 1;
    if 0 < k < |s| && s[k - 1] == '/' {
      assert MatchesAt(s, k - 1);
    }
  }

  /** The number the hook assigns, given the reference of the newest same-type operation. */
  function NextNumber(last: Option<string>): (n: nat)
    ensures n >= 1
    ensures last.Some? && TrailingNumber(last.value).Some? ==> n == TrailingNumber(last.value).value + 1
    ensures last.None? || TrailingNumber(last.value).None? ==> n == 1
  {
    if last.Some? && last.value != "" then
      match TrailingNumber(last.value)
      case Some(v) => v + 1
      case None => 1
    else 1
  }

  /** The reference of the most recently created operation whose type is spelled `typeName`. */
  function LastReferenceOfType(log: seq<Operation>, typeName: string): (r: Option<string>)
    ensures r.None? <==> forall i :: 0 <= i < |log| ==> TypeName(log[i].opType) != typeName
    ensures r.Some? ==>
      exists i :: && 0 <= i < |log| && TypeName(log[i].opType) == typeName
                  && log[i].reference == r.value
                  && forall j :: i < j < |log| ==> TypeName(log[j].opType) != typeName
  {
    if |log| == 0 then None
    else if TypeName(log[|log| - 1].opType) == typeName then Some(log[|log| - 1].reference)
    else
      var r := LastReferenceOfType(log[..|log| - 1], typeName);
      assert forall i :: 0 <= i < |log| - 1 ==> log[..|log| - 1][i] == log[i];
      r
  }

  /** The reference the hook stamps on a new operation of type `typeName`. */
  function Generate(log: seq<Operation>, typeName: string): string {
    Prefix(typeName) + Render(NextNumber(LastReferenceOfType(log, typeName)))
  }

  /**
   * The pre-save hook: only a new document without a reference receives one,
   * and then only the reference changes: it becomes the type's prefix
   * followed by the next number, zero-padded to four digits.
   */
  function PreSave(op: Operation, isNew: bool, log: seq<Operation>): (r: Operation)
    ensures !isNew || op.reference != "" ==> r == op
    ensures r == op.(reference := r.reference)
    ensures isNew && op.reference == "" ==>
      var p := Prefix(TypeName(op.opType));
      var n := NextNumber(LastReferenceOfType(log, TypeName(op.opType)));
      && |r.reference| >= |p| + 4 && r.reference[..|p|] == p && AllDigits(r.reference[|p|..])
      && DigitsValue(r.reference[|p|..]) == n
      && |r.reference| == |p| + (if |Decimal(n)| >= 4 then |Decimal(n)| else 4)
      && TrailingNumber(r.reference) == Some(n)
  {
    if !isNew || op.reference != "" then op
    else
      GeneratedNumber(log, TypeName(op.opType));
      op.(reference := Generate(log, TypeName(op.opType)))
  }

  // ---------------------------------------------------------------------------
  // Properties of the generator
  // ---------------------------------------------------------------------------

  /** Reading back the number of a rendered reference yields the number rendered. */
  lemma {:induction false} RoundTrip(typeName: string, n: nat)
    ensures TrailingNumber(Prefix(typeName) + Render(n)) == Some(n)
  {
    PrefixShape(typeName);
    SlashThenDigits(Prefix(typeName), Render(n));
  }

  /** Digits after a string ending in a slash are exactly what the expression captures. */
  lemma {:induction false} SlashThenDigits(p: string, d: string)
    requires |p| >= 1 && p[|p| - 1] == '/'
    requires |d| >= 1 && AllDigits(d)
    ensures TrailingNumber(p + d) == Some(DigitsValue(d))
  {
    var s := p + d;
    TrailingNumberMatches(s);
    assert s[|p| - 1] == '/';
    assert s[|p|..] == d;
    assert forall j :: |p| - 1 < j < |s| ==> s[j] == d[j - |p|];
    assert MatchesAt(s, |p| - 1);
  }

  /**
   * A generated reference is the type's prefix followed by digits spelling the
   * next number, zero-padded to four and never longer than padding needs.
   */
  lemma {:induction false} GeneratedNumber(log: seq<Operation>, typeName: string)
    ensures var g, p, n := Generate(log, typeName), Prefix(typeName), NextNumber(LastReferenceOfType(log, typeName));
      && |g| >= |p| + 4 && g[..|p|] == p && AllDigits(g[|p|..]) && DigitsValue(g[|p|..]) == n
      && |g| == |p| + (if |Decimal(n)| >= 4 then |Decimal(n)| else 4)
    ensures TrailingNumber(Generate(log, typeName)) == Some(NextNumber(LastReferenceOfType(log, typeName)))
  {
    var g, p := Generate(log, typeName), Prefix(typeName);
    assert g[|p|..] == Render(NextNumber(LastReferenceOfType(log, typeName)));
    RoundTrip(typeName, NextNumber(LastReferenceOfType(log, typeName)));
  }

  /** Numbers above 9999 are rendered whole rather than cut to four digits. */
  lemma {:induction false} NoTruncation(n: nat)
    ensures |Render(n)| >= 4
    ensures TrailingNumber("/" + Render(n)) == Some(n)
  {
    SlashThenDigits("/", Render(n));
  }

  /**
   * Once an operation whose reference carries number `n` is stored, the next
   * reference of its type carries `n + 1`; chained with `GeneratedNumber`,
   * successive references of one type strictly increase.
   */
  lemma {:induction false} SuccessiveIncrease(log: seq<Operation>, op: Operation, n: nat)
    requires TrailingNumber(op.reference) == Some(n)
    ensures Generate(log + [op], TypeName(op.opType)) == Prefix(TypeName(op.opType)) + Render(n + 1)
    ensures TrailingNumber(Generate(log + [op], TypeName(op.opType))) == Some(n + 1)
  {
    var t, log' := TypeName(op.opType), log + [op];
    assert TrailingNumber("") == None;
    assert log'[|log'| - 1] == op;
    assert LastReferenceOfType(log', t) == Some(op.reference);
    assert NextNumber(LastReferenceOfType(log', t)) == n + 1;
    RoundTrip(t, n + 1);
  }

  /** After an operation numbered `n`, the next reference of its type is numbered `n + 1`. */
  lemma {:induction false} NextAfter(log: seq<Operation>, op: Operation, n: nat)
    requires op.reference == Prefix(TypeName(op.opType)) + Render(n)
    ensures Generate(log + [op], TypeName(op.opType)) == Prefix(TypeName(op.opType)) + Render(n + 1)
  {
    RoundTrip(TypeName(op.opType), n);
    SuccessiveIncrease(log, op, n);
  }

  /** Creating an operation of another type leaves a type's next reference unchanged. */
  lemma {:induction false} OtherTypesIgnored(log: seq<Operation>, op: Operation, typeName: string)
    requires TypeName(op.opType) != typeName
    ensures Generate(log + [op], typeName) == Generate(log, typeName)
  {
    assert (log + [op])[..|log + [op]| - 1] == log;
  }

  /** A type with no earlier operation, or whose newest reference does not parse, restarts at 0001. */
  lemma {:induction false} FirstReference(log: seq<Operation>, typeName: string)
    requires LastReferenceOfType(log, typeName).None?
          || TrailingNumber(LastReferenceOfType(log, typeName).value).None?
    ensures Generate(log, typeName) == Prefix(typeName) + "0001"
  {
    assert Decimal(1) == "1";
    assert Zeros(3) == "000";
  }
}
