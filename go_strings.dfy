/** The parts of Go's `strings`, `unicode` and `strconv` packages the todo server relies on:
    `strings.TrimSpace`, `strconv.Atoi` and the `%d` verb of `fmt.Sprintf`. */
module GoStrings {
  import opened Wrappers

  /** Bounds of Go's `int` on a 64-bit platform. */
  const MinInt64: int := -0x8000_0000_0000_0000
  const MaxInt64: int := 0x7FFF_FFFF_FFFF_FFFF

  predicate InInt64(n: int) {
    MinInt64 <= n <= MaxInt64
  }

  /** `unicode.IsSpace`: the Latin-1 spaces plus the other White_Space code points. */
  predicate IsSpace(c: char) {
    c == '\t' || c == '\n' || c == '\U{0B}' || c == '\U{0C}' || c == '\r' || c == ' '
    || c == '\U{85}' || c == '\U{A0}' || c == '\U{1680}'
    || ('\U{2000}' <= c <= '\U{200A}')
    || c == '\U{2028}' || c == '\U{2029}' || c == '\U{202F}' || c == '\U{205F}' || c == '\U{3000}'
  }

  predicate AllSpace(s: string) {
    forall k :: 0 <= k < |s| ==> IsSpace(s[k])
  }

  /** Drops the leading white space. */
  function TrimLeft(s: string): (r: string)
    ensures |r| <= |s| && r == s[|s| - |r|..]
    ensures AllSpace(s[..|s| - |r|])
    ensures r == [] || !IsSpace(r[0])
  {
    if |s| > 0 && IsSpace(s[0]) then
      var r := TrimLeft(s[1..]);
      SpaceBeforeSuffix(s, r);
      r
    else s
  }

  /** Drops the trailing white space. */
  function TrimRight(s: string): (r: string)
    ensures |r| <= |s| && r == s[..|r|]
    ensures AllSpace(s[|r|..])
    ensures r == [] || !IsSpace(r[|r| - 1])
  {
    if |s| > 0 && IsSpace(s[|s| - 1]) then
      var r := TrimRight(s[..|s| - 1]);
      SpaceAfterPrefix(s, r);
      r
    else s
  }

  /** A white-space character in front of a suffix with white space before it. */
  lemma SpaceBeforeSuffix(s: string, r: string)
    requires |s| > 0 && IsSpace(s[0])
    requires |r| <= |s| - 1 && r == s[1..][|s| - 1 - |r|..] && AllSpace(s[1..][..|s| - 1 - |r|])
    ensures r == s[|s| - |r|..] && AllSpace(s[..|s| - |r|])
  {
    var t := s[1..];
    var cut := s[..|s| - |r|];
    assert forall k :: 1 <= k < |cut| ==> cut[k] == t[..|t| - |r|][k - 1];
  }

  /** A white-space character after a prefix with white space after it. */
  lemma SpaceAfterPrefix(s: string, r: string)
    requires |s| > 0 && IsSpace(s[|s| - 1])
    requires |r| <= |s| - 1 && r == s[..|s| - 1][..|r|] && AllSpace(s[..|s| - 1][|r|..])
    ensures r == s[..|r|] && AllSpace(s[|r|..])
  {
    assert s[|r|..] == s[..|s| - 1][|r|..] + [s[|s| - 1]];
  }

  /** `r` sits at offset `i` of `s` with only white space before and after it. */
  predicate InfixAt(s: string, r: string, i: int) {
    0 <= i <= |s| - |r| && r == s[i..i + |r|] && AllSpace(s[..i]) && AllSpace(s[i + |r|..])
  }

  /** `strings.TrimSpace`: the infix of `s` whose ends are not white space and around
      which there is only white space. */
  function TrimSpace(s: string): (r: string)
    ensures r == [] || (!IsSpace(r[0]) && !IsSpace(r[|r| - 1]))
    ensures exists i :: InfixAt(s, r, i)
  {
    TrimBothEnds(s);
    TrimmedEnds(s);
    TrimRight(TrimLeft(s))
  }

  /** Cutting the left end, then the right, leaves an infix with only white space
      around it ... */
  lemma TrimBothEnds(s: string)
    ensures InfixAt(s, TrimRight(TrimLeft(s)), |s| - |TrimLeft(s)|)
  {
    InfixOfSuffix(s, TrimLeft(s), TrimRight(TrimLeft(s)));
  }

  /** ... whose first and last characters are not white space. */
  lemma TrimmedEnds(s: string)
    ensures var r := TrimRight(TrimLeft(s)); r == [] || (!IsSpace(r[0]) && !IsSpace(r[|r| - 1]))
  {
    var l := TrimLeft(s);
    var r := TrimRight(l);
    assert r == [] || r[0] == l[0];
  }

  /** A prefix `r` of a suffix `l` of `s`, with white space before `l` and after `r`,
      is an infix of `s` with white space around it. */
  lemma InfixOfSuffix(s: string, l: string, r: string)
    requires |l| <= |s| && l == s[|s| - |l|..] && AllSpace(s[..|s| - |l|])
    requires |r| <= |l| && r == l[..|r|] && AllSpace(l[|r|..])
    ensures InfixAt(s, r, |s| - |l|)
  {
    var i := |s| - |l|;
    assert s[i..i + |r|] == r;
    assert s[i + |r|..] == l[|r|..];
  }

  /** A leading white-space character makes no difference to `TrimSpace`. */
  lemma TrimSpaceDropsLeading(c: char, s: string)
    requires IsSpace(c)
    ensures TrimSpace([c] + s) == TrimSpace(s)
  {
    assert ([c] + s)[1..] == s;
  }

  /** A string whose ends are not white space is its own trim. */
  lemma TrimSpaceKeeps(s: string)
    requires |s| > 0 && !IsSpace(s[0]) && !IsSpace(s[|s| - 1])
    ensures TrimSpace(s) == s
  {
    assert TrimLeft(s) == s;
  }

  /** The source's test `strings.TrimSpace(x) != ""`, negated. */
  predicate IsBlank(s: string) {
    TrimSpace(s) == ""
  }

  /** A blank string is one made of white space only, in both directions. */
  lemma BlankIffAllSpace(s: string)
    ensures IsBlank(s) <==> AllSpace(s)
  {
  }

  /** Trimming twice is trimming once. */
  lemma TrimSpaceIdempotent(s: string)
    ensures TrimSpace(TrimSpace(s)) == TrimSpace(s)
  {
    var r := TrimSpace(s);
    assert TrimLeft(r) == r;
    assert TrimRight(r) == r;
  }

  predicate IsDigit(c: char) {
    '0' <= c <= '9'
  }

  /** A non-empty run of ASCII decimal digits. */
  predicate IsDecimal(ds: string) {
    |ds| > 0 && forall k :: 0 <= k < |ds| ==> IsDigit(ds[k])
  }

  function DigitValue(c: char): nat
    requires IsDigit(c)
  {
    c as int - '0' as int
  }

  function DigitChar(d: nat): (c: char)
    requires d < 10
    ensures IsDigit(c) && DigitValue(c) == d
  {
    ('0' as int + d) as char
  }

  /** The number a run of decimal digits denotes, most significant first. */
  function DigitsValue(ds: string): nat
    requires forall k :: 0 <= k < |ds| ==> IsDigit(ds[k])
  {
    if ds == [] then 0 else DigitsValue(ds[..|ds| - 1]) * 10 + DigitValue(ds[|ds| - 1])
  }

  /** `strconv.Atoi`: an optional `+` or `-`, then one or more ASCII digits, and nothing
      else; the value must fit a 64-bit `int`. Any other input is a syntax or range error. */
  function Atoi(s: string): (r: Option<int>)
    ensures r.Some? ==> InInt64(r.value)
    ensures r.Some? ==> IsDecimal(if |s| > 0 && (s[0] == '+' || s[0] == '-') then s[1..] else s)
  {
    var signed := |s| > 0 && (s[0] == '+' || s[0] == '-');
    var ds := if signed then s[1..] else s;
    if !IsDecimal(ds) then None
    else
      var n: int := if signed && s[0] == '-' then -(DigitsValue(ds) as int) else DigitsValue(ds);
      if InInt64(n) then Some(n) else None
  }

  /** Conversely, every optional sign followed by a run of digits is read, as the signed
      value of the digits, whenever that value fits a 64-bit `int`; leading zeros and a
      `+` are accepted. */
  lemma AtoiAccepts(sign: string, ds: string)
    requires sign == "" || sign == "+" || sign == "-"
    requires IsDecimal(ds)
    ensures var n: int := if sign == "-" then -(DigitsValue(ds) as int) else DigitsValue(ds);
      Atoi(sign + ds) == if InInt64(n) then Some(n) else None
  {
    var s := sign + ds;
    if sign == "" {
      assert s == ds && !(s[0] == '+' || s[0] == '-');
    } else {
      assert s[0] == sign[0] && s[1..] == ds;
    }
  }

  /** A string holding white space anywhere, in particular around the number, is refused. */
  lemma AtoiRefusesSpace(s: string, k: nat)
    requires k < |s| && IsSpace(s[k])
    ensures Atoi(s) == None
  {
  }

  /** The shortest decimal spelling of `n`, without sign. */
  function DecimalDigits(n: nat): (ds: string)
    ensures IsDecimal(ds) && DigitsValue(ds) == n
    ensures ds[0] == '0' ==> n == 0
    ensures |ds| > 1 ==> ds[0] != '0'
  {
    if n < 10 then [DigitChar(n)]
    else
      var prefix := DecimalDigits(n / 10);
      var ds := prefix + [DigitChar(n % 10)];
      assert ds[..|ds| - 1] == prefix && ds[0] == prefix[0];
      ds
  }

  /** `fmt.Sprintf("%d", n)`. */
  function Itoa(n: int): string {
    if n < 0 then "-" + DecimalDigits(-n) else DecimalDigits(n)
  }

  /** `strconv.Atoi` reads back every number `%d` writes. */
  lemma AtoiItoa(n: int)
    requires InInt64(n)
    ensures Atoi(Itoa(n)) == Some(n)
  {
    var s := Itoa(n);
    if n < 0 {
      assert s[1..] == DecimalDigits(-n);
    } else {
      assert s[0] != '+' && s[0] != '-';
    }
  }

  /** `%d` prints nothing but digits and a minus sign. */
  lemma ItoaChars(n: int)
    ensures forall k :: 0 <= k < |Itoa(n)| ==> IsDigit(Itoa(n)[k]) || Itoa(n)[k] == '-'
  {
    if n < 0 {
      assert Itoa(n)[1..] == DecimalDigits(-n);
    }
  }

  /** Hence `%d` never prints two 64-bit numbers alike. */
  lemma ItoaInjective(m: int, n: int)
    requires InInt64(m) && InInt64(n) && Itoa(m) == Itoa(n)
    ensures m == n
  {
    AtoiItoa(m);
    AtoiItoa(n);
  }

  /** `%d` output starts with a digit or a minus sign. */
  lemma ItoaShape(n: int)
    ensures |Itoa(n)| > 0 && (IsDigit(Itoa(n)[0]) || Itoa(n)[0] == '-')
  {
  }
}
