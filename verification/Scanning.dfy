/** The parts of Go's fmt that the password-hash format uses: %d printing, and Sscanf with
    literals and %d verbs.

    Sscanf is more liberal than the strings Hash writes: %d skips leading blanks (a line feed
    is an error), a signed %d takes a sign, leading zeros are fine, and whatever follows the
    last verb is ignored. */
module Scanning {
  import opened Wrappers

  predicate IsDigit(c: char) {
    '0' <= c <= '9'
  }

  /** The space characters of fmt.isSpace. */
  predicate IsSpace(c: char) {
    var u := c as int;
    || 0x09 <= u <= 0x0d || u == 0x20 || u == 0x85 || u == 0xa0 || u == 0x1680
    || 0x2000 <= u <= 0x200a || u == 0x2028 || u == 0x2029 || u == 0x202f || u == 0x205f || u == 0x3000
  }

  /** Only digits, at least one. */
  predicate IsNumeral(s: string) {
    s != "" && AllDigits(s)
  }

  predicate AllDigits(s: string) {
    forall i :: 0 <= i < |s| ==> IsDigit(s[i])
  }

  /** Spaces a %d verb skips. */
  predicate Blank(s: string) {
    forall i :: 0 <= i < |s| ==> IsSpace(s[i]) && s[i] != '\n'
  }

  predicate StartsWithDigit(s: string) {
    s != "" && IsDigit(s[0])
  }

  /** The number a digit string spells in base ten. */
  function Value(s: string): nat
    requires AllDigits(s)
    decreases |s|
  {
    if s == "" then 0 else 10 * Value(s[..|s| - 1]) + (s[|s| - 1] as int - '0' as int)
  }

  /** %d of a non-negative number. */
  function Print(n: nat): (s: string)
    ensures IsNumeral(s)
    ensures Value(s) == n
  {
    var last := ('0' as int + n % 10) as char;
    if n < 10 then [last]
    else
      var s := Print(n / 10) + [last];
      assert s[..|s| - 1] == Print(n / 10);
      s
  }

  function SkipSpace(s: string): Option<string>
    decreases |s|
  {
    if s == "" then Some("")
    else if s[0] == '\n' then None
    else if IsSpace(s[0]) then SkipSpace(s[1..])
    else Some(s)
  }

  /** Length of the longest all-digit prefix. */
  function DigitCount(s: string): (n: nat)
    ensures n <= |s| && AllDigits(s[..n])
    decreases |s|
  {
    if StartsWithDigit(s) then 1 + DigitCount(s[1..]) else 0
  }

  /** A maximal run of digits and the text after it. */
  function ScanDigits(s: string): (r: Option<(nat, string)>) {
    var n := DigitCount(s);
    if n == 0 then None else Some((Value(s[..n]), s[n..]))
  }

  /** %d into an unsigned variable holding the numbers below `bound`. */
  function ScanUint(s: string, bound: nat): Option<(nat, string)> {
    match SkipSpace(s)
    case None => None
    case Some(t) =>
      match ScanDigits(t)
      case None => None
      case Some((v, rest)) => if v < bound then Some((v, rest)) else None
  }

  const INT64_LIMIT := 0x8000_0000_0000_0000

  predicate IsSign(s: string) {
    s == "" || s == "+" || s == "-"
  }

  /** The optional sign a text starts with. */
  function SignOf(t: string): (sign: string)
    ensures IsSign(sign) && sign <= t
  {
    if t != "" && (t[0] == '+' || t[0] == '-') then t[..1] else ""
  }

  function Signed(sign: string, v: nat): int {
    if sign == "-" then 0 - (v as int) else v
  }

  /** %d into a 64-bit int. */
  function ScanInt(s: string): Option<(int, string)> {
    match SkipSpace(s)
    case None => None
    case Some(t) => ScanSigned(SignOf(t), t[|SignOf(t)|..])
  }

  function ScanSigned(sign: string, u: string): Option<(int, string)> {
    match ScanDigits(u)
    case None => None
    case Some((v, rest)) =>
      var n := Signed(sign, v);
      if -INT64_LIMIT <= n < INT64_LIMIT then Some((n, rest)) else None
  }

  function ScanLiteral(s: string, lit: string): Option<string> {
    if lit <= s then Some(s[|lit|..]) else None
  }

  // ----- What the scanners accept

  lemma {:induction false} SkipBlank(ws: string, t: string)
    requires Blank(ws)
    requires t == "" || !IsSpace(t[0])
    ensures SkipSpace(ws + t) == Some(t)
    decreases |ws|
  {
    if ws == "" {
      assert ws + t == t;
    } else {
      SkipBlank(ws[1..], t);
      assert (ws + t)[1..] == ws[1..] + t;
    }
  }

  lemma {:induction false} BlankSkipped(s: string) returns (ws: string)
    requires SkipSpace(s).Some?
    ensures Blank(ws) && s == ws + SkipSpace(s).value
    ensures SkipSpace(s).value == "" || !IsSpace(SkipSpace(s).value[0])
    decreases |s|
  {
    if s == "" || !IsSpace(s[0]) {
      ws := "";
    } else {
      var rest := BlankSkipped(s[1..]);
      ws := [s[0]] + rest;
      assert s == [s[0]] + s[1..];
    }
  }

  lemma {:induction false} CountDigits(ds: string, rest: string)
    requires AllDigits(ds) && !StartsWithDigit(rest)
    ensures DigitCount(ds + rest) == |ds|
    decreases |ds|
  {
    if ds == "" {
      assert ds + rest == rest;
    } else {
      CountDigits(ds[1..], rest);
      assert (ds + rest)[1..] == ds[1..] + rest;
    }
  }

  lemma {:induction false} DigitsAreMaximal(s: string)
    ensures !StartsWithDigit(s[DigitCount(s)..])
    decreases |s|
  {
    if StartsWithDigit(s) {
      DigitsAreMaximal(s[1..]);
      assert s[DigitCount(s)..] == s[1..][DigitCount(s[1..])..];
    }
  }

  lemma ScanDigitsAccepts(ds: string, rest: string)
    requires IsNumeral(ds) && !StartsWithDigit(rest)
    ensures ScanDigits(ds + rest) == Some((Value(ds), rest))
  {
    CountDigits(ds, rest);
    assert (ds + rest)[..|ds|] == ds && (ds + rest)[|ds|..] == rest;
  }

  lemma ScanUintAccepts(ws: string, ds: string, rest: string, bound: nat)
    requires Blank(ws) && IsNumeral(ds) && !StartsWithDigit(rest)
    requires Value(ds) < bound
    ensures ScanUint(ws + (ds + rest), bound) == Some((Value(ds), rest))
  {
    SkipBlank(ws, ds + rest);
    ScanDigitsAccepts(ds, rest);
  }

  lemma ScanUintAccepted(s: string, bound: nat) returns (ws: string, ds: string)
    requires ScanUint(s, bound).Some?
    ensures Blank(ws) && IsNumeral(ds)
    ensures var (v, rest) := ScanUint(s, bound).value;
            s == ws + (ds + rest) && !StartsWithDigit(rest) && Value(ds) == v < bound
  {
    ws := BlankSkipped(s);
    var t := SkipSpace(s).value;
    ds := t[..DigitCount(t)];
    DigitsAreMaximal(t);
    assert t == ds + t[DigitCount(t)..];
  }

  lemma SignOfSigned(sign: string, u: string)
    requires IsSign(sign) && StartsWithDigit(u)
    ensures SignOf(sign + u) == sign && (sign + u)[|sign|..] == u
    ensures !IsSpace((sign + u)[0])
  {
  }

  lemma ScanIntSkips(ws: string, t: string)
    requires Blank(ws) && (t == "" || !IsSpace(t[0]))
    ensures ScanInt(ws + t) == ScanSigned(SignOf(t), t[|SignOf(t)|..])
  {
    SkipBlank(ws, t);
  }

  lemma ScanIntAccepts(ws: string, sign: string, ds: string, rest: string)
    requires Blank(ws) && IsSign(sign) && IsNumeral(ds) && !StartsWithDigit(rest)
    requires Value(ds) < INT64_LIMIT
    ensures ScanInt(ws + (sign + (ds + rest))) == Some((Signed(sign, Value(ds)), rest))
  {
    var u := ds + rest;
    SignOfSigned(sign, u);
    ScanIntSkips(ws, sign + u);
    ScanDigitsAccepts(ds, rest);
  }

  lemma ScanSignedAccepted(sign: string, u: string) returns (ds: string)
    requires ScanSigned(sign, u).Some?
    ensures IsNumeral(ds)
    ensures var (v, rest) := ScanSigned(sign, u).value;
            u == ds + rest && !StartsWithDigit(rest) && Signed(sign, Value(ds)) == v
  {
    ds := u[..DigitCount(u)];
    DigitsAreMaximal(u);
    assert u == ds + u[DigitCount(u)..];
  }

  lemma ScanIntAccepted(s: string) returns (ws: string, sign: string, ds: string)
    requires ScanInt(s).Some?
    ensures Blank(ws) && IsSign(sign) && IsNumeral(ds)
    ensures var (v, rest) := ScanInt(s).value;
            s == ws + (sign + (ds + rest)) && !StartsWithDigit(rest) && Signed(sign, Value(ds)) == v
  {
    ws := BlankSkipped(s);
    var t := SkipSpace(s).value;
    sign := SignOf(t);
    var u := t[|sign|..];
    assert sign + u == t;
    ds := ScanSignedAccepted(sign, u);
  }
}
