/** Unpadded base64 (sections 3.2, 4 and 5 of RFC 4648) as the repository's two languages read it.

    `Decode` is Go's encoding/base64 without padding and without Strict(): line breaks are
    skipped, any other character outside the alphabet is an error, a final group of one
    character is an error, and the unused low bits of a final group are ignored.
    `PyDecode` is Python's base64.urlsafe_b64decode: text that is not ASCII is an error, every
    other character outside the alphabet is skipped, and padding must complete the last group. */
module Base64 {
  import opened Wrappers

  type byte = x: int | 0 <= x < 256
  type sextet = x: int | 0 <= x < 64
  type bytes = seq<byte>

  datatype Alphabet = Std | Url

  function CharOf(alpha: Alphabet, v: sextet): char {
    if v < 26 then ('A' as int + v) as char
    else if v < 52 then ('a' as int + (v - 26)) as char
    else if v < 62 then ('0' as int + (v - 52)) as char
    else if v == 62 then (if alpha.Std? then '+' else '-')
    else (if alpha.Std? then '/' else '_')
  }

  function SextetOf(alpha: Alphabet, c: char): Option<sextet> {
    if 'A' <= c <= 'Z' then Some(c as int - 'A' as int)
    else if 'a' <= c <= 'z' then Some(c as int - 'a' as int + 26)
    else if '0' <= c <= '9' then Some(c as int - '0' as int + 52)
    else if c == (if alpha.Std? then '+' else '-') then Some(62)
    else if c == (if alpha.Std? then '/' else '_') then Some(63)
    else None
  }

  predicate InAlphabet(alpha: Alphabet, c: char) {
    SextetOf(alpha, c).Some?
  }

  predicate IsLineBreak(c: char) {
    c == '\n' || c == '\r'
  }

  // The four sextets of three bytes, and the three bytes of four sextets.
  function Sextet0(a: byte): sextet { a / 4 }
  function Sextet1(a: byte, b: byte): sextet { a % 4 * 16 + b / 16 }
  function Sextet2(b: byte, c: byte): sextet { b % 16 * 4 + c / 64 }
  function Sextet3(c: byte): sextet { c % 64 }

  function Byte0(x0: sextet, x1: sextet): byte { x0 * 4 + x1 / 16 }
  function Byte1(x1: sextet, x2: sextet): byte { x1 % 16 * 16 + x2 / 4 }
  function Byte2(x2: sextet, x3: sextet): byte { x2 % 4 * 64 + x3 }

  /** A final group of one or two bytes is zero-filled. */
  function Unpack(d: bytes): (xs: seq<sextet>)
    decreases |d|
  {
    if |d| == 0 then []
    else if |d| == 1 then [Sextet0(d[0]), Sextet1(d[0], 0)]
    else if |d| == 2 then [Sextet0(d[0]), Sextet1(d[0], d[1]), Sextet2(d[1], 0)]
    else [Sextet0(d[0]), Sextet1(d[0], d[1]), Sextet2(d[1], d[2]), Sextet3(d[2])] + Unpack(d[3..])
  }

  function Pack(xs: seq<sextet>): (d: Option<bytes>)
    decreases |xs|
  {
    if |xs| == 0 then Some([])
    else if |xs| == 1 then None
    else if |xs| == 2 then Some([Byte0(xs[0], xs[1])])
    else if |xs| == 3 then Some([Byte0(xs[0], xs[1]), Byte1(xs[1], xs[2])])
    else
      match Pack(xs[4..])
      case None => None
      case Some(rest) => Some([Byte0(xs[0], xs[1]), Byte1(xs[1], xs[2]), Byte2(xs[2], xs[3])] + rest)
  }

  function Chars(alpha: Alphabet, xs: seq<sextet>): (s: string)
    ensures |s| == |xs|
  {
    seq(|xs|, i requires 0 <= i < |xs| => CharOf(alpha, xs[i]))
  }

  /** The sextets of a text with its line breaks skipped; None if some other character is
      outside the alphabet. */
  function Sextets(alpha: Alphabet, s: string): Option<seq<sextet>>
    decreases |s|
  {
    if s == "" then Some([])
    else if IsLineBreak(s[0]) then Sextets(alpha, s[1..])
    else
      match (SextetOf(alpha, s[0]), Sextets(alpha, s[1..]))
      case (Some(v), Some(rest)) => Some([v] + rest)
      case _ => None
  }

  function Encode(alpha: Alphabet, d: bytes): string {
    Chars(alpha, Unpack(d))
  }

  function Decode(alpha: Alphabet, s: string): Option<bytes> {
    match Sextets(alpha, s)
    case None => None
    case Some(xs) => Pack(xs)
  }

  // ----- Encoding and decoding undo each other

  lemma CharRoundTrip(alpha: Alphabet, v: sextet)
    ensures SextetOf(alpha, CharOf(alpha, v)) == Some(v)
    ensures !IsLineBreak(CharOf(alpha, v)) && CharOf(alpha, v) != '$'
  {
  }

  lemma SextetRoundTrip(alpha: Alphabet, c: char)
    requires InAlphabet(alpha, c)
    ensures CharOf(alpha, SextetOf(alpha, c).value) == c
    ensures !IsLineBreak(c) && c != '$'
  {
  }

  lemma {:induction false} SextetsOfChars(alpha: Alphabet, xs: seq<sextet>)
    ensures Sextets(alpha, Chars(alpha, xs)) == Some(xs)
    decreases |xs|
  {
    if |xs| > 0 {
      var s := Chars(alpha, xs);
      CharRoundTrip(alpha, xs[0]);
      SextetsOfChars(alpha, xs[1..]);
      assert s[1..] == Chars(alpha, xs[1..]);
      assert [xs[0]] + xs[1..] == xs;
    }
  }

  lemma GroupRoundTrip(a: byte, b: byte, c: byte)
    ensures Byte0(Sextet0(a), Sextet1(a, b)) == a
    ensures Byte1(Sextet1(a, b), Sextet2(b, c)) == b
    ensures Byte2(Sextet2(b, c), Sextet3(c)) == c
  {
  }

  lemma FirstThree<T>(s: seq<T>)
    requires |s| >= 3
    ensures s == [s[0], s[1], s[2]] + s[3..]
  {
  }

  lemma PackOfGroup(x0: sextet, x1: sextet, x2: sextet, x3: sextet, rest: seq<sextet>)
    requires Pack(rest).Some?
    ensures Pack([x0, x1, x2, x3] + rest) == Some([Byte0(x0, x1), Byte1(x1, x2), Byte2(x2, x3)] + Pack(rest).value)
  {
    hide Byte0, Byte1, Byte2;
    assert ([x0, x1, x2, x3] + rest)[4..] == rest;
  }

  lemma PackOfUnpackGroup(d: bytes)
    requires |d| >= 3 && Pack(Unpack(d[3..])) == Some(d[3..])
    ensures Pack(Unpack(d)) == Some(d)
  {
    hide Sextet0, Sextet1, Sextet2, Sextet3, Byte0, Byte1, Byte2;
    GroupRoundTrip(d[0], d[1], d[2]);
    PackOfGroup(Sextet0(d[0]), Sextet1(d[0], d[1]), Sextet2(d[1], d[2]), Sextet3(d[2]), Unpack(d[3..]));
    FirstThree(d);
  }

  lemma PackOfUnpackOne(a: byte)
    ensures Pack(Unpack([a])) == Some([a])
  {
    hide Sextet0, Sextet1, Sextet2, Sextet3, Byte0, Byte1, Byte2;
    var x0, x1 := Sextet0(a), Sextet1(a, 0);
    assert Byte0(x0, x1) == a by { GroupRoundTrip(a, 0, 0); }
    var xs := [x0, x1];
    assert Unpack([a]) == xs;
    assert Pack(xs) == Some([Byte0(x0, x1)]);
  }

  lemma PackOfUnpackTwo(a: byte, b: byte)
    ensures Pack(Unpack([a, b])) == Some([a, b])
  {
    hide Sextet0, Sextet1, Sextet2, Sextet3, Byte0, Byte1, Byte2;
    GroupRoundTrip(a, b, 0);
    assert Unpack([a, b]) == [Sextet0(a), Sextet1(a, b), Sextet2(b, 0)];
  }

  lemma {:induction false} PackOfUnpack(d: bytes)
    ensures Pack(Unpack(d)) == Some(d)
    decreases |d|
  {
    hide Sextet0, Sextet1, Sextet2, Sextet3, Byte0, Byte1, Byte2;
    if |d| == 1 {
      assert d == [d[0]];
      PackOfUnpackOne(d[0]);
    } else if |d| == 2 {
      assert d == [d[0], d[1]];
      PackOfUnpackTwo(d[0], d[1]);
    } else if |d| >= 3 {
      PackOfUnpack(d[3..]);
      PackOfUnpackGroup(d);
    }
  }

  /** Every byte string survives encoding and decoding, in either alphabet. */
  lemma DecodeOfEncode(alpha: Alphabet, d: bytes)
    ensures Decode(alpha, Encode(alpha, d)) == Some(d)
  {
    SextetsOfChars(alpha, Unpack(d));
    PackOfUnpack(d);
  }

  /** An encoding holds alphabet characters only; in particular no '$' and no line break. */
  lemma EncodeStaysInAlphabet(alpha: Alphabet, d: bytes)
    ensures forall c :: c in Encode(alpha, d) ==> InAlphabet(alpha, c) && c != '$' && !IsLineBreak(c)
  {
    var xs := Unpack(d);
    forall i | 0 <= i < |xs|
      ensures var c := Chars(alpha, xs)[i]; InAlphabet(alpha, c) && c != '$' && !IsLineBreak(c)
    {
      CharRoundTrip(alpha, xs[i]);
    }
  }

  /** The unused low bits of a final group of two or three sextets are zero. */
  predicate TrailingBitsZero(xs: seq<sextet>) {
    && (|xs| % 4 == 2 ==> xs[|xs| - 1] % 16 == 0)
    && (|xs| % 4 == 3 ==> xs[|xs| - 1] % 4 == 0)
  }

  /** A text an encoder could have written: nothing skipped and no stray low bits. */
  predicate Canonical(alpha: Alphabet, s: string) {
    && (forall c :: c in s ==> InAlphabet(alpha, c))
    && Sextets(alpha, s).Some?
    && TrailingBitsZero(Sextets(alpha, s).value)
  }

  lemma SextetGroupRoundTrip(x0: sextet, x1: sextet, x2: sextet, x3: sextet)
    ensures var a, b, c := Byte0(x0, x1), Byte1(x1, x2), Byte2(x2, x3);
            Sextet0(a) == x0 && Sextet1(a, b) == x1 && Sextet2(b, c) == x2 && Sextet3(c) == x3
    ensures Sextet1(Byte0(x0, x1), 0) == x1 <==> x1 % 16 == 0
    ensures Sextet2(Byte1(x1, x2), 0) == x2 <==> x2 % 4 == 0
  {
  }

  lemma UnpackOfPackGroup(xs: seq<sextet>)
    requires |xs| >= 4 && Pack(xs).Some?
    ensures Pack(xs[4..]).Some?
    ensures Unpack(Pack(xs).value) == xs[..4] + Unpack(Pack(xs[4..]).value)
  {
    hide Sextet0, Sextet1, Sextet2, Sextet3, Byte0, Byte1, Byte2;
    var d := Pack(xs).value;
    SextetGroupRoundTrip(xs[0], xs[1], xs[2], xs[3]);
    assert d[3..] == Pack(xs[4..]).value;
    assert xs[..4] == [xs[0], xs[1], xs[2], xs[3]];
  }

  lemma TrailingBitsOfDrop(xs: seq<sextet>)
    requires |xs| >= 4
    ensures TrailingBitsZero(xs) <==> TrailingBitsZero(xs[4..])
  {
    assert |xs[4..]| % 4 == |xs| % 4;
    if |xs| > 4 {
      assert xs[4..][|xs| - 5] == xs[|xs| - 1];
    }
  }

  lemma {:induction false} UnpackOfPack(xs: seq<sextet>)
    requires Pack(xs).Some?
    ensures |Unpack(Pack(xs).value)| == |xs|
    ensures Unpack(Pack(xs).value) == xs <==> TrailingBitsZero(xs)
    decreases |xs|
  {
    hide Sextet0, Sextet1, Sextet2, Sextet3, Byte0, Byte1, Byte2;
    if |xs| == 2 {
      SextetGroupRoundTrip(xs[0], xs[1], 0, 0);
      assert xs == [xs[0], xs[1]];
    } else if |xs| == 3 {
      SextetGroupRoundTrip(xs[0], xs[1], xs[2], 0);
      assert xs == [xs[0], xs[1], xs[2]];
    } else if |xs| >= 4 {
      UnpackOfPackGroup(xs);
      UnpackOfPack(xs[4..]);
      TrailingBitsOfDrop(xs);
      var u := Unpack(Pack(xs[4..]).value);
      assert xs == xs[..4] + xs[4..];
      assert (xs[..4] + u)[4..] == u;
    }
  }

  lemma {:induction false} CharsOfSextets(alpha: Alphabet, s: string)
    requires Sextets(alpha, s).Some?
    ensures |Sextets(alpha, s).value| <= |s|
    ensures Chars(alpha, Sextets(alpha, s).value) == s <==> forall c :: c in s ==> InAlphabet(alpha, c)
    ensures |Sextets(alpha, s).value| == |s| <==> forall c :: c in s ==> InAlphabet(alpha, c)
    decreases |s|
  {
    if s != "" {
      var xs := Sextets(alpha, s).value;
      CharsOfSextets(alpha, s[1..]);
      assert s == [s[0]] + s[1..];
      assert forall c :: c in s <==> c == s[0] || c in s[1..];
      if !IsLineBreak(s[0]) {
        SextetRoundTrip(alpha, s[0]);
        assert xs[1..] == Sextets(alpha, s[1..]).value;
        assert Chars(alpha, xs) == [s[0]] + Chars(alpha, xs[1..]);
      } else {
        assert !InAlphabet(alpha, s[0]) by {
          if InAlphabet(alpha, s[0]) { SextetRoundTrip(alpha, s[0]); }
        }
      }
    }
  }

  /** Re-encoding a decoded text gives that text back exactly when it is canonical. */
  lemma EncodeOfDecode(alpha: Alphabet, s: string)
    requires Decode(alpha, s).Some?
    ensures Encode(alpha, Decode(alpha, s).value) == s <==> Canonical(alpha, s)
  {
    var xs := Sextets(alpha, s).value;
    var d := Pack(xs).value;
    UnpackOfPack(xs);
    CharsOfSextets(alpha, s);
    if Encode(alpha, d) == s {
      SextetsOfChars(alpha, Unpack(d));
    }
  }

  // ----- The reader in the worker

  /** How a2b_base64 classifies a character of the padded text. */
  datatype Symbol = Data(v: sextet) | Pad | Skipped

  /** urlsafe_b64decode first translates '-' and '_' to '+' and '/'; the standard
      characters keep their meaning. */
  function SymbolOf(c: char): Symbol {
    if c == '=' then Pad
    else
      match SextetOf(Url, c)
      case Some(v) => Data(v)
      case None =>
        match SextetOf(Std, c)
        case Some(v) => Data(v)
        case None => Skipped
  }

  function Symbols(s: string): (r: seq<Symbol>)
    ensures |r| == |s|
  {
    seq(|s|, i requires 0 <= i < |s| => SymbolOf(s[i]))
  }

  /** a2b_base64 from a position with `have` sextets of the current group read, the low bits
      `left` of the last of them pending, and `pads` padding characters seen in a row. */
  function Scan(syms: seq<Symbol>, have: nat, left: sextet, pads: nat): Option<bytes>
    requires have < 4
    decreases |syms|
  {
    if syms == [] then
      if have == 0 then Some([]) else None
    else
      match syms[0]
      case Pad =>
        if have >= 2 && have + pads + 1 >= 4 then Some([])
        else Scan(syms[1..], have, left, if have >= 2 then pads + 1 else pads)
      case Skipped => Scan(syms[1..], have, left, pads)
      case Data(v) =>
        if have == 0 then Scan(syms[1..], 1, v, 0)
        else
          var b := if have == 1 then Byte0(left, v) else if have == 2 then Byte1(left, v) else Byte2(left, v);
          match Scan(syms[1..], (have + 1) % 4, if have == 3 then 0 else v, 0)
          case None => None
          case Some(rest) => Some([b] + rest)
  }

  predicate IsAscii(s: string) {
    forall c :: c in s ==> c < 128 as char
  }

  function PyDecode(s: string): Option<bytes> {
    if IsAscii(s) then Scan(Symbols(s), 0, 0, 0) else None
  }

  /** -n % 4 with Python's non-negative remainder. */
  function PadLength(n: nat): nat {
    (4 - n % 4) % 4
  }

  function Padding(k: nat): (p: string)
    ensures |p| == k
  {
    seq(k, _ => '=')
  }

  /** The worker's reading of a segment: pad to a multiple of four, then decode. */
  function PyDecodeUnpadded(s: string): Option<bytes> {
    PyDecode(s + Padding(PadLength(|s|)))
  }

  function DataSymbols(xs: seq<sextet>): (r: seq<Symbol>)
    ensures |r| == |xs|
  {
    seq(|xs|, i requires 0 <= i < |xs| => Data(xs[i]))
  }

  function PadSymbols(k: nat): (r: seq<Symbol>)
    ensures |r| == k
  {
    seq(k, _ => Pad)
  }

  /** Reading padding alone succeeds exactly between groups, or when it completes one. */
  lemma {:induction false} ScanPadding(k: nat, have: nat, left: sextet, pads: nat)
    requires have < 4
    requires have >= 2 ==> have + pads < 4
    ensures Scan(PadSymbols(k), have, left, pads) ==
            if have == 0 || (have >= 2 && have + pads + k >= 4) then Some([]) else None
    decreases k
  {
    if k > 0 {
      assert PadSymbols(k)[1..] == PadSymbols(k - 1);
      if have < 2 || have + pads + 1 < 4 {
        ScanPadding(k - 1, have, left, if have >= 2 then pads + 1 else pads);
      }
    }
  }

  /** Whether k padding characters complete a text of n sextets. */
  predicate Completes(n: nat, k: nat) {
    n % 4 == 0 || (n % 4 >= 2 && n % 4 + k >= 4)
  }

  lemma {:induction false} ScanDataThenPadding(xs: seq<sextet>, k: nat)
    ensures Scan(DataSymbols(xs) + PadSymbols(k), 0, 0, 0) == if Completes(|xs|, k) then Pack(xs) else None
    decreases |xs|
  {
    hide Byte0, Byte1, Byte2;
    var tail := PadSymbols(k);
    var syms := DataSymbols(xs) + tail;
    if |xs| == 0 {
      assert syms == tail;
      ScanPadding(k, 0, 0, 0);
    } else if |xs| == 1 {
      assert syms[1..] == tail;
      ScanPadding(k, 1, xs[0], 0);
    } else if |xs| == 2 {
      assert syms[1..][1..] == tail;
      ScanPadding(k, 2, xs[1], 0);
      assert syms[1..][0] == Data(xs[1]);
      assert [Byte0(xs[0], xs[1])] + [] == Pack(xs).value;
    } else if |xs| == 3 {
      assert syms[1..][1..][1..] == tail;
      ScanPadding(k, 3, xs[2], 0);
      ScanThree(xs, tail);
      assert [Byte0(xs[0], xs[1]), Byte1(xs[1], xs[2])] + [] == Pack(xs).value;
    } else {
      ScanDataThenPadding(xs[4..], k);
      ScanGroup(xs, tail);
    }
  }

  lemma ScanThree(xs: seq<sextet>, tail: seq<Symbol>)
    requires |xs| == 3
    ensures Scan(DataSymbols(xs) + tail, 0, 0, 0) ==
            match Scan(tail, 3, xs[2], 0)
            case None => None
            case Some(rest) => Some([Byte0(xs[0], xs[1]), Byte1(xs[1], xs[2])] + rest)
  {
    hide Byte0, Byte1, Byte2;
    var s0 := DataSymbols(xs) + tail;
    var s1 := s0[1..];
    var s2 := s1[1..];
    assert s0[0] == Data(xs[0]) && s1[0] == Data(xs[1]) && s2[0] == Data(xs[2]);
    assert s2[1..] == tail;
    assert Scan(s0, 0, 0, 0) == Scan(s1, 1, xs[0], 0);
    match Scan(tail, 3, xs[2], 0) {
      case None =>
        assert Scan(s2, 2, xs[1], 0) == None;
        assert Scan(s1, 1, xs[0], 0) == None;
      case Some(rest) =>
        assert Scan(s2, 2, xs[1], 0) == Some([Byte1(xs[1], xs[2])] + rest);
        assert Scan(s1, 1, xs[0], 0) == Some([Byte0(xs[0], xs[1])] + ([Byte1(xs[1], xs[2])] + rest));
        assert [Byte0(xs[0], xs[1])] + ([Byte1(xs[1], xs[2])] + rest)
            == [Byte0(xs[0], xs[1]), Byte1(xs[1], xs[2])] + rest;
    }
  }

  lemma ScanGroup(xs: seq<sextet>, tail: seq<Symbol>)
    requires |xs| >= 4
    ensures Scan(DataSymbols(xs) + tail, 0, 0, 0) ==
            match Scan(DataSymbols(xs[4..]) + tail, 0, 0, 0)
            case None => None
            case Some(rest) =>
              Some([Byte0(xs[0], xs[1]), Byte1(xs[1], xs[2]), Byte2(xs[2], xs[3])] + rest)
  {
    hide Byte0, Byte1, Byte2;
    var rest4 := DataSymbols(xs[4..]) + tail;
    var s3 := [Data(xs[3])] + rest4;
    assert DataSymbols(xs) + tail == DataSymbols(xs[..3]) + s3;
    ScanThree(xs[..3], s3);
    assert s3[1..] == rest4;
    match Scan(rest4, 0, 0, 0) {
      case None =>
      case Some(rest) =>
        assert Scan(s3, 3, xs[2], 0) == Some([Byte2(xs[2], xs[3])] + rest);
        assert [Byte0(xs[0], xs[1]), Byte1(xs[1], xs[2])] + ([Byte2(xs[2], xs[3])] + rest)
            == [Byte0(xs[0], xs[1]), Byte1(xs[1], xs[2]), Byte2(xs[2], xs[3])] + rest;
    }
  }

  function WithoutSkipped(syms: seq<Symbol>): seq<Symbol>
    decreases |syms|
  {
    if syms == [] then []
    else if syms[0].Skipped? then WithoutSkipped(syms[1..])
    else [syms[0]] + WithoutSkipped(syms[1..])
  }

  lemma {:induction false} ScanIgnoresSkipped(syms: seq<Symbol>, have: nat, left: sextet, pads: nat)
    requires have < 4
    ensures Scan(syms, have, left, pads) == Scan(WithoutSkipped(syms), have, left, pads)
    decreases |syms|
  {
    if syms != [] {
      var rest := WithoutSkipped(syms[1..]);
      match syms[0] {
        case Skipped => ScanIgnoresSkipped(syms[1..], have, left, pads);
        case Pad =>
          assert ([Pad] + rest)[1..] == rest;
          if !(have >= 2 && have + pads + 1 >= 4) {
            ScanIgnoresSkipped(syms[1..], have, left, if have >= 2 then pads + 1 else pads);
          }
        case Data(v) =>
          assert ([Data(v)] + rest)[1..] == rest;
          ScanIgnoresSkipped(syms[1..], (have + 1) % 4, if have == 3 then 0 else v, 0);
      }
    }
  }

  /** Only base64url characters and line breaks. */
  predicate UrlTextWithBreaks(s: string) {
    forall c :: c in s ==> InAlphabet(Url, c) || IsLineBreak(c)
  }

  lemma {:induction false} SymbolsOfUrlText(s: string, k: nat)
    requires UrlTextWithBreaks(s)
    ensures Sextets(Url, s).Some?
    ensures WithoutSkipped(Symbols(s + Padding(k))) == DataSymbols(Sextets(Url, s).value) + PadSymbols(k)
    decreases |s|
  {
    var t := s + Padding(k);
    if s == "" {
      assert t == Padding(k);
      PaddingSymbols(k);
      assert WithoutSkipped(Symbols(t)) == PadSymbols(k);
      assert DataSymbols([]) + PadSymbols(k) == PadSymbols(k);
    } else {
      SymbolsOfUrlText(s[1..], k);
      assert t[1..] == s[1..] + Padding(k);
      assert Symbols(t)[1..] == Symbols(t[1..]);
      assert s[0] in s;
      if IsLineBreak(s[0]) {
        assert Symbols(t)[0] == Skipped;
      } else {
        var v := SextetOf(Url, s[0]).value;
        var xs := Sextets(Url, s).value;
        assert xs[1..] == Sextets(Url, s[1..]).value;
        assert DataSymbols(xs) + PadSymbols(k) == [Data(v)] + (DataSymbols(xs[1..]) + PadSymbols(k));
      }
    }
  }

  lemma {:induction false} PaddingSymbols(k: nat)
    ensures WithoutSkipped(Symbols(Padding(k))) == PadSymbols(k)
    decreases k
  {
    if k > 0 {
      PaddingSymbols(k - 1);
      assert Symbols(Padding(k))[1..] == Symbols(Padding(k - 1));
      assert [Pad] + PadSymbols(k - 1) == PadSymbols(k);
    }
  }

  /** The worker's reading of a segment of base64url characters and line breaks, in terms of
      the control plane's. */
  lemma PyDecodeOfUrlText(s: string)
    requires UrlTextWithBreaks(s)
    ensures Sextets(Url, s).Some?
    ensures var n := |Sextets(Url, s).value|;
            PyDecodeUnpadded(s) == if Completes(n, PadLength(|s|)) then Decode(Url, s) else None
  {
    var k := PadLength(|s|);
    var t := s + Padding(k);
    assert IsAscii(t);
    SymbolsOfUrlText(s, k);
    ScanIgnoresSkipped(Symbols(t), 0, 0, 0);
    ScanDataThenPadding(Sextets(Url, s).value, k);
  }

  lemma PackDropsGroups(xs: seq<sextet>)
    requires |xs| >= 4
    ensures Pack(xs).None? <==> Pack(xs[4..]).None?
  {
    hide Byte0, Byte1, Byte2;
  }

  lemma DropKeepsRemainder(n: nat)
    requires n >= 4
    ensures (n - 4) % 4 == n % 4
  {
  }

  lemma {:induction false} PackFailsOnlyOnASingleton(xs: seq<sextet>)
    ensures Pack(xs).None? <==> |xs| % 4 == 1
    decreases |xs|
  {
    hide Byte0, Byte1, Byte2;
    if |xs| >= 4 {
      PackFailsOnlyOnASingleton(xs[4..]);
      PackDropsGroups(xs);
      DropKeepsRemainder(|xs|);
    }
  }

  /** On base64url text the two readers agree: equal bytes, and both refuse exactly the
      lengths that are 1 mod 4. */
  lemma ReadersAgreeOnUrlText(s: string)
    requires forall c :: c in s ==> InAlphabet(Url, c)
    ensures PyDecodeUnpadded(s) == Decode(Url, s)
    ensures Decode(Url, s).None? <==> |s| % 4 == 1
  {
    hide InAlphabet, IsLineBreak, SextetOf, Sextets, Chars, Pack, Scan, Symbols, IsAscii, PyDecodeUnpadded;
    PyDecodeOfUrlText(s);
    CharsOfSextets(Url, s);
    PackFailsOnlyOnASingleton(Sextets(Url, s).value);
  }

  // ----- When the two readers agree

  function DataCount(syms: seq<Symbol>): nat
    decreases |syms|
  {
    if syms == [] then 0
    else DataCount(syms[..|syms| - 1]) + if syms[|syms| - 1].Data? then 1 else 0
  }

  /** The padding characters since the last data character. */
  function PadRun(syms: seq<Symbol>): nat
    decreases |syms|
  {
    if syms == [] || syms[|syms| - 1].Data? then 0
    else PadRun(syms[..|syms| - 1]) + if syms[|syms| - 1].Pad? then 1 else 0
  }

  /** A padding character after two data characters of a group or more, that completes it. */
  predicate Closes(syms: seq<Symbol>, i: nat)
    requires i < |syms|
  {
    syms[i].Pad? && DataCount(syms[..i]) % 4 >= 2 && DataCount(syms[..i]) % 4 + PadRun(syms[..i]) + 1 >= 4
  }

  ghost predicate NoneCloses(syms: seq<Symbol>, from: nat) {
    forall i :: from <= i < |syms| ==> !Closes(syms, i)
  }

  /** How many padding characters the scan has counted at i. */
  function PadsAt(syms: seq<Symbol>, i: nat): nat
    requires i <= |syms|
  {
    if DataCount(syms[..i]) % 4 >= 2 then PadRun(syms[..i]) else 0
  }

  lemma OneSymbolMore(syms: seq<Symbol>, i: nat)
    requires i < |syms|
    ensures DataCount(syms[..i + 1]) == DataCount(syms[..i]) + if syms[i].Data? then 1 else 0
    ensures PadRun(syms[..i + 1]) == if syms[i].Data? then 0 else PadRun(syms[..i]) + if syms[i].Pad? then 1 else 0
  {
    assert syms[..i + 1][..i] == syms[..i];
  }

  /** From any position on, the scan fails exactly when the data stops within a group and no
      padding character closes one. */
  lemma {:induction false} ScanFailsExactly(syms: seq<Symbol>, i: nat, left: sextet)
    requires i <= |syms|
    ensures Scan(syms[i..], DataCount(syms[..i]) % 4, left, PadsAt(syms, i)).None? <==>
              DataCount(syms) % 4 != 0 && NoneCloses(syms, i)
    decreases |syms| - i
  {
    hide Byte0, Byte1, Byte2, DataCount, PadRun, NoneCloses;
    var have := DataCount(syms[..i]) % 4;
    if i == |syms| {
      assert syms[..i] == syms;
      NothingLeftCloses(syms);
    } else {
      assert syms[i..][0] == syms[i] && syms[i..][1..] == syms[i + 1..];
      OneSymbolMore(syms, i);
      NoneClosesNext(syms, i);
      match syms[i] {
        case Pad => if !Closes(syms, i) { ScanFailsExactly(syms, i + 1, left); }
        case Skipped => ScanFailsExactly(syms, i + 1, left);
        case Data(v) => ScanFailsExactly(syms, i + 1, if have == 3 then 0 else v);
      }
    }
  }

  lemma NothingLeftCloses(syms: seq<Symbol>)
    ensures NoneCloses(syms, |syms|)
  {
  }

  lemma NoneClosesNext(syms: seq<Symbol>, i: nat)
    requires i < |syms|
    ensures NoneCloses(syms, i) <==> !Closes(syms, i) && NoneCloses(syms, i + 1)
  {
    hide Closes;
  }

  lemma {:induction false} StrayCharacterFails(s: string)
    ensures Sextets(Url, s).Some? <==> UrlTextWithBreaks(s)
    decreases |s|
  {
    if s != "" {
      StrayCharacterFails(s[1..]);
      assert forall c :: c in s <==> c == s[0] || c in s[1..];
    }
  }

  /** The symbols of a segment as the worker pads it. */
  function PaddedSymbols(s: string): seq<Symbol> {
    Symbols(s + Padding(PadLength(|s|)))
  }

  /** For base64url characters and line breaks: the padding, computed from the length with the
      breaks, still completes the last group without them. For any other text, which the control
      plane refuses: the worker refuses it too, because it is not ASCII, or because its data stops
      within a group and no padding character closes one. */
  ghost predicate ReadAlike(s: string) {
    if UrlTextWithBreaks(s) then
      var n := DataCount(Symbols(s));
      n % 4 <= 1 || n % 4 + PadLength(|s|) >= 4
    else
      !IsAscii(s) || (DataCount(PaddedSymbols(s)) % 4 != 0 && NoneCloses(PaddedSymbols(s), 0))
  }

  lemma DataCountCons(syms: seq<Symbol>)
    requires syms != []
    ensures DataCount(syms) == DataCount(syms[1..]) + if syms[0].Data? then 1 else 0
    decreases |syms|
  {
    if |syms| > 1 {
      DataCountCons(syms[..|syms| - 1]);
      assert syms[..|syms| - 1][1..] == syms[1..][..|syms| - 2];
    }
  }

  lemma {:induction false} SextetsAreData(s: string)
    requires UrlTextWithBreaks(s)
    ensures Sextets(Url, s).Some? && |Sextets(Url, s).value| == DataCount(Symbols(s))
    decreases |s|
  {
    hide DataCount;
    if s == "" {
      assert DataCount([]) == 0 by { NoSymbols(); }
    } else {
      SextetsAreData(s[1..]);
      assert s[0] in s;
      assert Symbols(s)[1..] == Symbols(s[1..]);
      DataCountCons(Symbols(s));
    }
  }

  lemma NoSymbols()
    ensures DataCount([]) == 0
  {
  }

  lemma AsciiPadded(s: string, k: nat)
    ensures IsAscii(s + Padding(k)) <==> IsAscii(s)
  {
    forall c | c in s
      ensures c in s + Padding(k)
    {
    }
  }

  /** The two readers agree, on every text, exactly when the text is ReadAlike. */
  lemma ReadersAgreeExactly(s: string)
    ensures PyDecodeUnpadded(s) == Decode(Url, s) <==> ReadAlike(s)
  {
    hide Symbols, DataCount, NoneCloses, UrlTextWithBreaks, Scan, Sextets, IsAscii;
    StrayCharacterFails(s);
    if UrlTextWithBreaks(s) {
      SextetsAreData(s);
      PyDecodeOfUrlText(s);
      PackFailsOnlyOnASingleton(Sextets(Url, s).value);
    } else {
      AsciiPadded(s, PadLength(|s|));
      var syms := PaddedSymbols(s);
      assert syms[0..] == syms && syms[..0] == [];
      NoSymbols();
      ScanFailsExactly(syms, 0, 0);
    }
  }

  /** "QQ==", as a padding encoder writes it: an error for the control plane, one byte for the
      worker. */
  lemma ReadersDisagreeOnPadding()
    ensures Decode(Url, "QQ==") == None
    ensures PyDecodeUnpadded("QQ==") == Some([65])
  {
    var s := "QQ==";
    assert s[2] in s && !InAlphabet(Url, s[2]) && !IsLineBreak(s[2]);
    StrayCharacterFails(s);
    assert PadLength(|s|) == 0 && s + Padding(0) == s;
    assert Symbols(s) == [Data(16), Data(16), Pad, Pad];
    var s1: seq<Symbol> := [Data(16), Pad, Pad];
    var s2: seq<Symbol> := [Pad, Pad];
    assert Symbols(s)[1..] == s1 && s1[1..] == s2 && s2[1..] == [Pad];
    assert Scan([Pad], 2, 16, 1) == Some([]);
    assert Scan(s2, 2, 16, 0) == Some([]);
    assert Scan(s1, 1, 16, 0) == Some([Byte0(16, 16)] + []);
    assert Scan(Symbols(s), 0, 0, 0) == Scan(s1, 1, 16, 0);
    assert PyDecode(s) == Some([65]) by { assert Byte0(16, 16) == 65 && [65 as byte] + [] == [65]; }
    assert PyDecodeUnpadded(s) == PyDecode(s + Padding(PadLength(|s|)));
  }

  /** "QQ" followed by a line feed: one byte for the control plane, an error for the worker. */
  lemma ReadersDisagreeOnALineBreak()
    ensures Decode(Url, "QQ\n") == Some([65])
    ensures PyDecodeUnpadded("QQ\n") == None
  {
    var s := "QQ\n";
    assert s[1..] == "Q\n" && s[1..][1..] == "\n" && s[1..][1..][1..] == "";
    assert SextetOf(Url, 'Q') == Some(16);
    assert Sextets(Url, "") == Some([]);
    assert Sextets(Url, "\n") == Some([]);
    var t := s[1..];
    assert t == "Q\n" && t[0] == 'Q' && t[1..] == "\n";
    assert Sextets(Url, t[1..]) == Some([]);
    assert !IsLineBreak(t[0]);
    assert SextetOf(Url, t[0]) == Some(16);
    assert Sextets(Url, t) == Some([16] + []);
    assert [16] + [] == [16 as sextet];
    assert Sextets(Url, s[1..]) == Some([16]);
    assert Sextets(Url, s) == Some([16] + [16]);
    assert Pack([16, 16]) == Some([Byte0(16, 16)]);
    PyDecodeOfUrlText(s);
  }

  // ----- The alphabets, character by character

  /** Both alphabets are the tables of RFC 4648: A to Z, a to z, 0 to 9, and two characters more. */
  lemma AlphabetTable(alpha: Alphabet, v: sextet)
    ensures CharOf(alpha, 0) == 'A' && CharOf(alpha, 25) == 'Z' && CharOf(alpha, 26) == 'a' && CharOf(alpha, 51) == 'z'
    ensures CharOf(alpha, 52) == '0' && CharOf(alpha, 61) == '9'
    ensures 0 < v < 62 && v != 26 && v != 52 ==> CharOf(alpha, v) as int == CharOf(alpha, v - 1) as int + 1
    ensures CharOf(Std, 62) == '+' && CharOf(Std, 63) == '/'
    ensures CharOf(Url, 62) == '-' && CharOf(Url, 63) == '_'
  {
  }

  /** The worker's reader takes the characters of either alphabet, '=' for padding, and skips
      every other one. */
  lemma SymbolTable(c: char)
    ensures InAlphabet(Url, c) ==> SymbolOf(c) == Data(SextetOf(Url, c).value)
    ensures SymbolOf('+') == SymbolOf('-') == Data(62) && SymbolOf('/') == SymbolOf('_') == Data(63)
    ensures SymbolOf(c) == Pad <==> c == '='
    ensures SymbolOf(c) == Skipped <==> c != '=' && !InAlphabet(Url, c) && !InAlphabet(Std, c)
  {
  }
}
