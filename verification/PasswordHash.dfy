/** The PHC password-hash string and its use (auth/password.go).

    Argon2id (RFC 9106) and HMAC are parameters: only the length of the derived key and the
    inputs on which Argon2id is defined are assumed, in `Lawful`. */
module PasswordHash {
  import opened Wrappers
  import opened Scanning
  import Base64
  import Text

  type bytes = Base64.bytes
  type uint32 = x: int | 0 <= x < UINT32_LIMIT
  type uint8 = x: int | 0 <= x < UINT8_LIMIT

  const UINT32_LIMIT := 0x1_0000_0000
  const UINT8_LIMIT := 0x100
  const VERSION := 19

  datatype Params = Params(time: uint32, memory: uint32, threads: uint8, keyLen: uint32, saltLen: uint32)

  const DEFAULT_PARAMS := Params(3, 64 * 1024, 4, 32, 16)

  datatype DecodeError = Malformed | BadVersion | UnsupportedVersion(version: int) | BadParams | BadSalt | BadHash

  datatype Decoded = Decoded(params: Params, salt: bytes, key: bytes)

  // ----- Printing and parsing

  function Fields(p: Params, salt: bytes, key: bytes): seq<string> {
    ["", "argon2id", "v=" + Print(VERSION),
     "m=" + Print(p.memory) + ",t=" + Print(p.time) + ",p=" + Print(p.threads),
     Base64.Encode(Base64.Std, salt), Base64.Encode(Base64.Std, key)]
  }

  /** "$argon2id$v=..$m=..,t=..,p=..$salt$hash" */
  function EncodePHC(p: Params, salt: bytes, key: bytes): string {
    Text.Join(Fields(p, salt, key), '$')
  }

  /** Sscanf(f, "v=%d") */
  function ScanVersion(f: string): Option<int> {
    match ScanLiteral(f, "v=")
    case None => None
    case Some(t) =>
      match ScanInt(t)
      case None => None
      case Some((v, _)) => Some(v)
  }

  datatype Costs = Costs(memory: uint32, time: uint32, threads: uint8)

  /** A literal followed by an unsigned %d. */
  function ScanCost(f: string, lit: string, bound: nat): Option<(nat, string)> {
    match ScanLiteral(f, lit)
    case None => None
    case Some(t) => ScanUint(t, bound)
  }

  /** Sscanf(f, "m=%d,t=%d,p=%d") */
  function ScanCosts(f: string): Option<Costs> {
    match ScanCost(f, "m=", UINT32_LIMIT)
    case None => None
    case Some((m, f1)) =>
      match ScanCost(f1, ",t=", UINT32_LIMIT)
      case None => None
      case Some((t, f2)) =>
        match ScanCost(f2, ",p=", UINT8_LIMIT)
        case None => None
        case Some((p, _)) => UintBounds(f, m, f1, t, f2, p); Some(Costs(m, t, p))
  }

  lemma UintBounds(f: string, m: nat, f1: string, t: nat, f2: string, p: nat)
    requires ScanCost(f, "m=", UINT32_LIMIT) == Some((m, f1))
    requires ScanCost(f1, ",t=", UINT32_LIMIT) == Some((t, f2))
    requires ScanCost(f2, ",p=", UINT8_LIMIT).Some? && ScanCost(f2, ",p=", UINT8_LIMIT).value.0 == p
    ensures m < UINT32_LIMIT && t < UINT32_LIMIT && p < UINT8_LIMIT
  {
  }

  /** uint32(len(b)) */
  function Len32(b: bytes): uint32 {
    |b| % UINT32_LIMIT
  }

  function DecodePHC(encoded: string): Result<Decoded, DecodeError> {
    var parts := Text.Split(encoded, '$');
    if |parts| != 6 || parts[0] != "" || parts[1] != "argon2id" then Err(Malformed)
    else
      match ScanVersion(parts[2])
      case None => Err(BadVersion)
      case Some(v) =>
        if v != VERSION then Err(UnsupportedVersion(v))
        else
          match ScanCosts(parts[3])
          case None => Err(BadParams)
          case Some(c) =>
            match Base64.Decode(Base64.Std, parts[4])
            case None => Err(BadSalt)
            case Some(salt) =>
              match Base64.Decode(Base64.Std, parts[5])
              case None => Err(BadHash)
              case Some(key) =>
                Ok(Decoded(Params(c.time, c.memory, c.threads, Len32(key), Len32(salt)), salt, key))
  }

  // ----- The strings DecodePHC accepts, written as a grammar
  //
  // A spelling names every piece of text the parser tolerates around the values: blanks and
  // a '+' before a number, leading zeros in it, and anything but '$' after the last one.

  datatype Numeral = Numeral(blank: string, digits: string)

  datatype Spelling = Spelling(
    version: Numeral, plus: string, versionTail: string,
    memory: Numeral, time: Numeral, threads: Numeral, costsTail: string,
    salt: string, key: string)
  {
    function VersionField(): string {
      "v=" + (version.blank + (plus + (version.digits + versionTail)))
    }

    function CostsField(): string {
      "m=" + (memory.blank + (memory.digits +
      (",t=" + (time.blank + (time.digits +
      (",p=" + (threads.blank + (threads.digits + costsTail))))))))
    }

    function Fields(): seq<string> {
      ["", "argon2id", VersionField(), CostsField(), salt, key]
    }

    function Written(): string {
      Text.Join(Fields(), '$')
    }

    ghost predicate Spells(d: Decoded) {
      && (plus == "" || plus == "+")
      && NumeralFor(version, VERSION) && !StartsWithDigit(versionTail)
      && NumeralFor(memory, d.params.memory)
      && NumeralFor(time, d.params.time)
      && NumeralFor(threads, d.params.threads) && !StartsWithDigit(costsTail)
      && '$' !in versionTail && '$' !in costsTail && '$' !in salt && '$' !in key
      && Base64.Decode(Base64.Std, salt) == Some(d.salt) && d.params.saltLen == Len32(d.salt)
      && Base64.Decode(Base64.Std, key) == Some(d.key) && d.params.keyLen == Len32(d.key)
    }
  }

  ghost predicate NumeralFor(n: Numeral, v: nat) {
    Blank(n.blank) && IsNumeral(n.digits) && Value(n.digits) == v
  }

  lemma LiteralThen(lit: string, t: string)
    ensures ScanLiteral(lit + t, lit) == Some(t)
  {
  }

  lemma LiteralSplit(f: string, lit: string)
    requires ScanLiteral(f, lit).Some?
    ensures f == lit + ScanLiteral(f, lit).value
  {
  }

  lemma CostAccepts(lit: string, n: Numeral, v: nat, rest: string, bound: nat)
    requires NumeralFor(n, v) && v < bound && !StartsWithDigit(rest)
    ensures ScanCost(lit + (n.blank + (n.digits + rest)), lit, bound) == Some((v, rest))
  {
    LiteralThen(lit, n.blank + (n.digits + rest));
    ScanUintAccepts(n.blank, n.digits, rest, bound);
  }

  lemma CostAccepted(f: string, lit: string, bound: nat) returns (n: Numeral)
    requires ScanCost(f, lit, bound).Some?
    ensures var (v, rest) := ScanCost(f, lit, bound).value;
            NumeralFor(n, v) && v < bound && !StartsWithDigit(rest) && f == lit + (n.blank + (n.digits + rest))
  {
    LiteralSplit(f, lit);
    var ws, ds := ScanUintAccepted(ScanLiteral(f, lit).value, bound);
    n := Numeral(ws, ds);
  }

  lemma CostsAccept(x: Spelling, d: Decoded)
    requires x.Spells(d)
    ensures ScanCosts(x.CostsField()) == Some(Costs(d.params.memory, d.params.time, d.params.threads))
  {
    var f2 := ",p=" + (x.threads.blank + (x.threads.digits + x.costsTail));
    var f1 := ",t=" + (x.time.blank + (x.time.digits + f2));
    CostAccepts(",p=", x.threads, d.params.threads, x.costsTail, UINT8_LIMIT);
    CostAccepts(",t=", x.time, d.params.time, f2, UINT32_LIMIT);
    CostAccepts("m=", x.memory, d.params.memory, f1, UINT32_LIMIT);
  }

  lemma VersionAccepts(x: Spelling, d: Decoded)
    requires x.Spells(d)
    ensures ScanVersion(x.VersionField()) == Some(VERSION)
  {
    LiteralThen("v=", x.version.blank + (x.plus + (x.version.digits + x.versionTail)));
    ScanIntAccepts(x.version.blank, x.plus, x.version.digits, x.versionTail);
  }

  lemma ConcatAvoids(a: string, b: string, c: char)
    requires c !in a && c !in b
    ensures c !in a + b
  {
  }

  lemma NumeralAvoidsDollar(n: Numeral, v: nat, rest: string)
    requires NumeralFor(n, v) && '$' !in rest
    ensures '$' !in n.blank + (n.digits + rest)
  {
    assert '$' !in n.digits && '$' !in n.blank;
    ConcatAvoids(n.digits, rest, '$');
    ConcatAvoids(n.blank, n.digits + rest, '$');
  }

  lemma CostsFieldAvoidsDollar(x: Spelling, d: Decoded)
    requires x.Spells(d)
    ensures '$' !in x.CostsField()
  {
    var f2 := ",p=" + (x.threads.blank + (x.threads.digits + x.costsTail));
    var f1 := ",t=" + (x.time.blank + (x.time.digits + f2));
    NumeralAvoidsDollar(x.threads, d.params.threads, x.costsTail);
    ConcatAvoids(",p=", x.threads.blank + (x.threads.digits + x.costsTail), '$');
    NumeralAvoidsDollar(x.time, d.params.time, f2);
    ConcatAvoids(",t=", x.time.blank + (x.time.digits + f2), '$');
    NumeralAvoidsDollar(x.memory, d.params.memory, f1);
    ConcatAvoids("m=", x.memory.blank + (x.memory.digits + f1), '$');
  }

  lemma VersionFieldAvoidsDollar(x: Spelling, d: Decoded)
    requires x.Spells(d)
    ensures '$' !in x.VersionField()
  {
    var t := x.version.digits + x.versionTail;
    assert '$' !in x.version.digits && '$' !in x.version.blank && '$' !in x.plus;
    ConcatAvoids(x.version.digits, x.versionTail, '$');
    ConcatAvoids(x.plus, t, '$');
    ConcatAvoids(x.version.blank, x.plus + t, '$');
    ConcatAvoids("v=", x.version.blank + (x.plus + t), '$');
  }

  /** Every spelling of a hash is decoded to exactly the values it spells. */
  lemma DecodeAcceptsSpelling(x: Spelling, d: Decoded)
    requires x.Spells(d)
    ensures DecodePHC(x.Written()) == Ok(d)
  {
    VersionFieldAvoidsDollar(x, d);
    CostsFieldAvoidsDollar(x, d);
    assert Text.NoneContains(x.Fields(), '$');
    Text.JoinThenSplit(x.Fields(), '$');
    VersionAccepts(x, d);
    CostsAccept(x, d);
  }

  lemma CostsAccepted(f: string) returns (m: Numeral, t: Numeral, p: Numeral, tail: string)
    requires ScanCosts(f).Some?
    ensures NumeralFor(m, ScanCosts(f).value.memory)
    ensures NumeralFor(t, ScanCosts(f).value.time)
    ensures NumeralFor(p, ScanCosts(f).value.threads)
    ensures !StartsWithDigit(tail)
    ensures f == "m=" + (m.blank + (m.digits +
                 (",t=" + (t.blank + (t.digits +
                 (",p=" + (p.blank + (p.digits + tail))))))))
  {
    m := CostAccepted(f, "m=", UINT32_LIMIT);
    var f1 := ScanCost(f, "m=", UINT32_LIMIT).value.1;
    t := CostAccepted(f1, ",t=", UINT32_LIMIT);
    var f2 := ScanCost(f1, ",t=", UINT32_LIMIT).value.1;
    p := CostAccepted(f2, ",p=", UINT8_LIMIT);
    tail := ScanCost(f2, ",p=", UINT8_LIMIT).value.1;
  }

  lemma VersionAccepted(f: string) returns (v: Numeral, plus: string, tail: string)
    requires ScanVersion(f) == Some(VERSION)
    ensures NumeralFor(v, VERSION) && (plus == "" || plus == "+") && !StartsWithDigit(tail)
    ensures f == "v=" + (v.blank + (plus + (v.digits + tail)))
  {
    LiteralSplit(f, "v=");
    var vf := ScanLiteral(f, "v=").value;
    var vb, vd;
    vb, plus, vd := ScanIntAccepted(vf);
    v := Numeral(vb, vd);
    tail := ScanInt(vf).value.1;
  }

  lemma SuffixAvoids(a: string, b: string, c: char)
    requires c !in a + b
    ensures c !in b
  {
    forall i | 0 <= i < |b| ensures b[i] != c {
      assert (a + b)[|a| + i] == b[i];
    }
  }

  lemma VersionTailAvoidsDollar(x: Spelling)
    requires '$' !in x.VersionField()
    ensures '$' !in x.versionTail
  {
    var t := x.version.digits + x.versionTail;
    SuffixAvoids("v=", x.version.blank + (x.plus + t), '$');
    SuffixAvoids(x.version.blank, x.plus + t, '$');
    SuffixAvoids(x.plus, t, '$');
    SuffixAvoids(x.version.digits, x.versionTail, '$');
  }

  lemma NumeralSuffixAvoids(lit: string, n: Numeral, rest: string)
    requires '$' !in lit + (n.blank + (n.digits + rest))
    ensures '$' !in rest
  {
    SuffixAvoids(lit, n.blank + (n.digits + rest), '$');
    SuffixAvoids(n.blank, n.digits + rest, '$');
    SuffixAvoids(n.digits, rest, '$');
  }

  lemma CostsTailAvoidsDollar(x: Spelling)
    requires '$' !in x.CostsField()
    ensures '$' !in x.costsTail
  {
    var f2 := ",p=" + (x.threads.blank + (x.threads.digits + x.costsTail));
    var f1 := ",t=" + (x.time.blank + (x.time.digits + f2));
    NumeralSuffixAvoids("m=", x.memory, f1);
    NumeralSuffixAvoids(",t=", x.time, f2);
    NumeralSuffixAvoids(",p=", x.threads, x.costsTail);
  }

  /** Every accepted string is a spelling of what it decodes to: with DecodeAcceptsSpelling,
      the parser accepts exactly this grammar. */
  lemma DecodedHasSpelling(encoded: string) returns (x: Spelling)
    requires DecodePHC(encoded).Ok?
    ensures x.Spells(DecodePHC(encoded).value)
    ensures x.Written() == encoded
  {
    var parts := Text.Split(encoded, '$');
    Text.SplitPieces(encoded, '$');
    var v, plus, vt := VersionAccepted(parts[2]);
    var m, t, p, tail := CostsAccepted(parts[3]);
    x := Spelling(v, plus, vt, m, t, p, tail, parts[4], parts[5]);
    VersionTailAvoidsDollar(x);
    CostsTailAvoidsDollar(x);
    assert x.Fields() == parts;
    Text.SplitThenJoin(encoded, '$');
  }

  // ----- The round trip

  function Plain(p: Params, salt: bytes, key: bytes): Spelling {
    Spelling(Numeral("", Print(VERSION)), "", "",
             Numeral("", Print(p.memory)), Numeral("", Print(p.time)), Numeral("", Print(p.threads)), "",
             Base64.Encode(Base64.Std, salt), Base64.Encode(Base64.Std, key))
  }

  lemma PlainCosts(m: string, t: string, p: string)
    ensures "m=" + ("" + (m + (",t=" + ("" + (t + (",p=" + ("" + (p + "")))))))) == "m=" + m + ",t=" + t + ",p=" + p
  {
    assert "" + (p + "") == p;
    assert "" + (t + (",p=" + p)) == t + ",p=" + p;
    assert "" + (m + (",t=" + (t + ",p=" + p))) == m + ",t=" + t + ",p=" + p;
  }

  lemma PlainSpelling(p: Params, salt: bytes, key: bytes)
    ensures Plain(p, salt, key).Fields() == Fields(p, salt, key)
  {
    var x := Plain(p, salt, key);
    assert x.VersionField() == "v=" + Print(VERSION) by {
      assert "" + ("" + (Print(VERSION) + "")) == Print(VERSION);
    }
    PlainCosts(Print(p.memory), Print(p.time), Print(p.threads));
  }

  /** For every cost in range and all byte strings, decoding an encoded hash gives back the
      costs, salt and key, with the two lengths recovered from the bytes. */
  lemma DecodeOfEncode(p: Params, salt: bytes, key: bytes)
    ensures DecodePHC(EncodePHC(p, salt, key)) ==
            Ok(Decoded(p.(saltLen := Len32(salt), keyLen := Len32(key)), salt, key))
  {
    var x := Plain(p, salt, key);
    PlainSpelling(p, salt, key);
    Base64.DecodeOfEncode(Base64.Std, salt);
    Base64.DecodeOfEncode(Base64.Std, key);
    Base64.EncodeStaysInAlphabet(Base64.Std, salt);
    Base64.EncodeStaysInAlphabet(Base64.Std, key);
    DecodeAcceptsSpelling(x, Decoded(p.(saltLen := Len32(salt), keyLen := Len32(key)), salt, key));
  }

  lemma DecodedLengths(encoded: string)
    requires DecodePHC(encoded).Ok?
    ensures var d := DecodePHC(encoded).value;
            d.params.(saltLen := Len32(d.salt), keyLen := Len32(d.key)) == d.params
  {
  }

  /** Rewriting any accepted hash in normal form does not change what it means. */
  lemma DecodeEncodeDecode(encoded: string)
    requires DecodePHC(encoded).Ok?
    ensures var d := DecodePHC(encoded).value;
            DecodePHC(EncodePHC(d.params, d.salt, d.key)) == DecodePHC(encoded)
  {
    var d := DecodePHC(encoded).value;
    DecodedLengths(encoded);
    DecodeOfEncode(d.params, d.salt, d.key);
  }

  /** Two parameter sets, salts and keys with the same encoding are the same, up to the
      lengths, which are not stored. */
  lemma EncodeInjective(p: Params, salt: bytes, key: bytes, q: Params, salt': bytes, key': bytes)
    requires EncodePHC(p, salt, key) == EncodePHC(q, salt', key')
    ensures salt == salt' && key == key'
    ensures p.time == q.time && p.memory == q.memory && p.threads == q.threads
  {
    DecodeOfEncode(p, salt, key);
    DecodeOfEncode(q, salt', key');
  }

  // ----- Hash and Verify

  /** The cryptography the hasher calls. idKey is None where Argon2id panics. */
  datatype Primitives = Primitives(
    mac: (bytes, string) -> bytes,
    idKey: (bytes, bytes, uint32, uint32, uint8, uint32) -> Option<bytes>)

  /** Argon2id panics on zero passes or zero lanes, is otherwise defined for every key length but
      possibly zero, and by the costs alone, and returns a key of the requested length. */
  ghost predicate Lawful(pr: Primitives) {
    && (forall k, s, t, m, l, n ::
          pr.idKey(k, s, t, m, l, n).Some? ==> t >= 1 && l >= 1 && |pr.idKey(k, s, t, m, l, n).value| == n)
    && (forall k, s, t, m, l, n ::
          t >= 1 && l >= 1 && n >= 1 ==> pr.idKey(k, s, t, m, l, n).Some?)
    && (forall k, s, k', s', t, m, l, n ::
          pr.idKey(k, s, t, m, l, n).Some? ==> pr.idKey(k', s', t, m, l, n).Some?)
  }

  datatype Hasher = Hasher(pepper: bytes, params: Params)

  datatype Outcome<+T> = Returned(value: T) | Failed(error: DecodeError) | Panicked

  /** NewHasher refuses an empty pepper. */
  function NewHasher(pepper: bytes): (h: Option<Hasher>) {
    if |pepper| == 0 then None else Some(Hasher(pepper, DEFAULT_PARAMS))
  }

  function Derive(pr: Primitives, h: Hasher, password: string, salt: bytes, p: Params): Option<bytes> {
    pr.idKey(pr.mac(h.pepper, password), salt, p.time, p.memory, p.threads, p.keyLen)
  }

  /** salt is the random salt the operating system supplied. */
  function Hash(pr: Primitives, h: Hasher, password: string, salt: bytes): Outcome<string>
    requires |salt| == h.params.saltLen
  {
    match Derive(pr, h, password, salt, h.params)
    case None => Panicked
    case Some(key) => Returned(EncodePHC(h.params, salt, key))
  }

  function Verify(pr: Primitives, h: Hasher, password: string, encoded: string): Outcome<bool> {
    match DecodePHC(encoded)
    case Err(e) => Failed(e)
    case Ok(d) =>
      match Derive(pr, h, password, d.salt, d.params)
      case None => Panicked
      case Some(got) => Returned(got == d.key)
  }

  lemma LengthsRecovered(p: Params, salt: bytes, key: bytes)
    requires |salt| == p.saltLen && |key| == p.keyLen
    ensures Len32(salt) == p.saltLen && Len32(key) == p.keyLen
  {
  }

  /** The round trip for a salt and key of the lengths the parameters ask for. */
  lemma DecodeOfHash(p: Params, salt: bytes, key: bytes)
    requires |salt| == p.saltLen && |key| == p.keyLen
    ensures DecodePHC(EncodePHC(p, salt, key)) == Ok(Decoded(p, salt, key))
  {
    LengthsRecovered(p, salt, key);
    DecodeOfEncode(p, salt, key);
  }

  /** Verify on a string known to decode to d. */
  lemma VerifyOfDecoded(pr: Primitives, h: Hasher, password: string, encoded: string, d: Decoded)
    requires DecodePHC(encoded) == Ok(d)
    ensures Verify(pr, h, password, encoded) ==
            match Derive(pr, h, password, d.salt, d.params)
            case None => Panicked
            case Some(got) => Returned(got == d.key)
  {
  }

  /** Verifying any password against a stored hash, by a hasher with any pepper and any default
      costs, compares exactly the two keys derived under the costs the hash was made with. */
  lemma VerifyOfHash(pr: Primitives, h: Hasher, password: string, salt: bytes, v: Hasher, tried: string)
    requires Lawful(pr)
    requires |salt| == h.params.saltLen
    requires Hash(pr, h, password, salt).Returned?
    ensures Verify(pr, v, tried, Hash(pr, h, password, salt).value) ==
            Returned(Derive(pr, v, tried, salt, h.params) == Derive(pr, h, password, salt, h.params))
  {
    var key := Derive(pr, h, password, salt, h.params).value;
    assert Derive(pr, v, tried, salt, h.params).Some?;
    DecodeOfHash(h.params, salt, key);
    VerifyOfDecoded(pr, v, tried, EncodePHC(h.params, salt, key), Decoded(h.params, salt, key));
  }

  /** Hash then Verify accepts, whatever the verifying hasher's own default costs are. */
  lemma HashThenVerify(pr: Primitives, h: Hasher, password: string, salt: bytes, v: Hasher)
    requires Lawful(pr)
    requires |salt| == h.params.saltLen
    requires Hash(pr, h, password, salt).Returned?
    requires v.pepper == h.pepper
    ensures Verify(pr, v, password, Hash(pr, h, password, salt).value) == Returned(true)
  {
    VerifyOfHash(pr, h, password, salt, v, password);
  }

  /** Among these passwords no two derive the same key under the hasher's pepper and costs. Keys
      have a fixed length, so this can only be asked of finitely many passwords: those a run
      uses. */
  ghost predicate CollisionFree(pr: Primitives, h: Hasher, passwords: set<string>) {
    forall a, b, salt | a in passwords && b in passwords && a != b && |salt| == h.params.saltLen ::
      Derive(pr, h, a, salt, h.params).Some? ==> Derive(pr, h, a, salt, h.params) != Derive(pr, h, b, salt, h.params)
  }

  /** Without collisions a stored hash accepts exactly the password it was made from. */
  lemma VerifyAcceptsOnlyThePassword(pr: Primitives, h: Hasher, passwords: set<string>, password: string, salt: bytes, tried: string)
    requires Lawful(pr) && CollisionFree(pr, h, passwords) && password in passwords && tried in passwords
    requires |salt| == h.params.saltLen
    requires Hash(pr, h, password, salt).Returned?
    ensures Verify(pr, h, tried, Hash(pr, h, password, salt).value) == Returned(tried == password)
  {
    hide Lawful;
    VerifyOfHash(pr, h, password, salt, h, tried);
    assert Derive(pr, h, password, salt, h.params).Some?;
  }

  /** The parser checks neither the costs nor that there is a key, so an accepted string can
      still make Verify panic. With a key it does exactly when its time or threads cost is zero.
      Without one it does then, and may do otherwise, depending on what Argon2id makes of a
      request for no bytes; where it does not, every password is accepted. */
  lemma VerifyPanicsExactlyOnZeroCosts(pr: Primitives, h: Hasher, password: string, encoded: string)
    requires Lawful(pr)
    requires DecodePHC(encoded).Ok?
    ensures var d := DecodePHC(encoded).value;
            var zero := d.params.time == 0 || d.params.threads == 0;
            && (zero ==> Verify(pr, h, password, encoded).Panicked?)
            && (d.params.keyLen >= 1 ==> (Verify(pr, h, password, encoded).Panicked? <==> zero))
            && (d.params.keyLen == 0 && !Verify(pr, h, password, encoded).Panicked? ==>
                  Verify(pr, h, password, encoded) == Returned(d.key == []))
  {
    hide DecodePHC;
    var d := DecodePHC(encoded).value;
    VerifyOfDecoded(pr, h, password, encoded, d);
    var derived := Derive(pr, h, password, d.salt, d.params);
    assert derived.Some? ==> |derived.value| == d.params.keyLen;
  }

  /** There are such strings: a hash with an empty key is accepted, and unless Argon2id panics
      Verify then accepts every password. */
  lemma EmptyKeyAcceptsEveryPassword(pr: Primitives, h: Hasher, p: Params, salt: bytes, password: string)
    requires Lawful(pr)
    ensures DecodePHC(EncodePHC(p, salt, [])).Ok?
    ensures Verify(pr, h, password, EncodePHC(p, salt, [])) in {Panicked, Returned(true)}
  {
    hide DecodePHC, EncodePHC, Verify;
    DecodeOfEncode(p, salt, []);
    VerifyPanicsExactlyOnZeroCosts(pr, h, password, EncodePHC(p, salt, []));
  }

  // ----- In terms of the cryptography

  /** A stored hash records, under the hasher's costs and the salt, the key Argon2id derives from
      the HMAC of the password under the pepper; hashing panics exactly where Argon2id does. */
  lemma HashRecordsTheKey(pr: Primitives, h: Hasher, password: string, salt: bytes)
    requires Lawful(pr) && |salt| == h.params.saltLen
    ensures var key := pr.idKey(pr.mac(h.pepper, password), salt, h.params.time, h.params.memory, h.params.threads, h.params.keyLen);
            && (key.None? <==> Hash(pr, h, password, salt).Panicked?)
            && (key.Some? ==>
                  && Hash(pr, h, password, salt).Returned?
                  && DecodePHC(Hash(pr, h, password, salt).value) == Ok(Decoded(h.params, salt, key.value)))
  {
    var key := Derive(pr, h, password, salt, h.params);
    hide DecodePHC, EncodePHC;
    if key.Some? {
      DecodeOfHash(h.params, salt, key.value);
    }
  }

  /** Verify compares the key that the stored string records with the one Argon2id derives, under
      the string's own costs and salt, from the HMAC of the tried password under the pepper. */
  lemma VerifyComparesKeys(pr: Primitives, h: Hasher, password: string, encoded: string)
    ensures DecodePHC(encoded).Err? ==> Verify(pr, h, password, encoded) == Failed(DecodePHC(encoded).error)
    ensures DecodePHC(encoded).Ok? ==>
              var d := DecodePHC(encoded).value;
              var got := pr.idKey(pr.mac(h.pepper, password), d.salt, d.params.time, d.params.memory, d.params.threads, d.params.keyLen);
              && (Verify(pr, h, password, encoded) == Panicked <==> got.None?)
              && (Verify(pr, h, password, encoded) == Returned(true) <==> got == Some(d.key))
              && (Verify(pr, h, password, encoded) == Returned(false) <==> got.Some? && got.value != d.key)
  {
    hide DecodePHC;
  }

  /** What a hasher that was not refused writes. */
  lemma StoredForm(pepper: bytes, salt: bytes, key: bytes)
    ensures NewHasher(pepper) == None <==> pepper == []
    ensures pepper != [] ==>
              && NewHasher(pepper).value.pepper == pepper
              && EncodePHC(NewHasher(pepper).value.params, salt, key) ==
                 "$argon2id$v=19$m=65536,t=3,p=4$" + (Base64.Encode(Base64.Std, salt) + "$" + Base64.Encode(Base64.Std, key))
              && NewHasher(pepper).value.params.keyLen == 32 && NewHasher(pepper).value.params.saltLen == 16
  {
    hide Base64.Encode;
    DefaultCosts();
    var (a, b) := (Base64.Encode(Base64.Std, salt), Base64.Encode(Base64.Std, key));
    JoinSix("", "argon2id", "v=19", "m=65536,t=3,p=4", a, b);
    DefaultFields(a, b);
    DefaultPieces();
    hide Text.Join, Print;
    assert pepper != [] ==> Fields(NewHasher(pepper).value.params, salt, key) == ["", "argon2id", "v=19", "m=65536,t=3,p=4", a, b];
  }

  lemma DefaultCosts()
    ensures Print(VERSION) == "19" && Print(DEFAULT_PARAMS.memory) == "65536"
    ensures Print(DEFAULT_PARAMS.time) == "3" && Print(DEFAULT_PARAMS.threads) == "4"
  {
    assert Print(1) == "1" && Print(6) == "6";
    assert Print(65) == "65";
    assert Print(655) == "655";
    assert Print(6553) == "6553";
  }

  lemma JoinNext(a: string, rest: seq<string>)
    requires rest != []
    ensures Text.Join([a] + rest, '$') == a + "$" + Text.Join(rest, '$')
  {
    assert ([a] + rest)[1..] == rest;
  }

  lemma JoinSix(a: string, b: string, c: string, d: string, e: string, f: string)
    ensures Text.Join([a, b, c, d, e, f], '$') == a + "$" + (b + "$" + (c + "$" + (d + "$" + (e + "$" + f))))
  {
    JoinNext(e, [f]);
    JoinNext(d, [e, f]);
    JoinNext(c, [d, e, f]);
    JoinNext(b, [c, d, e, f]);
    JoinNext(a, [b, c, d, e, f]);
    assert [e] + [f] == [e, f] && [d] + [e, f] == [d, e, f] && [c] + [d, e, f] == [c, d, e, f];
    assert [b] + [c, d, e, f] == [b, c, d, e, f] && [a] + [b, c, d, e, f] == [a, b, c, d, e, f];
    assert Text.Join([f], '$') == f;
    hide Text.Join;
  }

  lemma Regroup(a: string, b: string, c: string, d: string, x: string)
    ensures a + "$" + (b + "$" + (c + "$" + (d + "$" + x))) == (a + "$" + b + "$" + c + "$") + (d + "$") + x
  {
  }

  lemma DefaultPrefix()
    ensures "" + "$" + "argon2id" + "$" + "v=19" + "$" == "$argon2id$v=19$"
    ensures "m=65536,t=3,p=4" + "$" == "m=65536,t=3,p=4$"
  {
  }

  lemma WholePrefix()
    ensures "$argon2id$v=19$" + "m=65536,t=3,p=4$" == "$argon2id$v=19$m=65536,t=3,p=4$"
  {
  }

  lemma DefaultFields(a: string, b: string)
    ensures "" + "$" + ("argon2id" + "$" + ("v=19" + "$" + ("m=65536,t=3,p=4" + "$" + (a + "$" + b)))) ==
            "$argon2id$v=19$m=65536,t=3,p=4$" + (a + "$" + b)
  {
    DefaultPrefix();
    WholePrefix();
    Regroup("", "argon2id", "v=19", "m=65536,t=3,p=4", a + "$" + b);
  }

  lemma DefaultPieces()
    ensures "v=" + "19" == "v=19" && "m=" + "65536" + ",t=" + "3" + ",p=" + "4" == "m=65536,t=3,p=4"
  {
  }

  /** Which complaint a string is refused with: the first field that does not read decides. */
  lemma RefusedWith(encoded: string)
    ensures var (parts, d) := (Text.Split(encoded, '$'), DecodePHC(encoded));
            && (d == Err(Malformed) <==> |parts| != 6 || parts[0] != "" || parts[1] != "argon2id")
            && (d != Err(Malformed) ==>
                  && (d == Err(BadVersion) <==> ScanVersion(parts[2]) == None)
                  && (forall v :: d == Err(UnsupportedVersion(v)) <==> ScanVersion(parts[2]) == Some(v) && v != 19)
                  && (ScanVersion(parts[2]) == Some(19) ==>
                        && (d == Err(BadParams) <==> ScanCosts(parts[3]) == None)
                        && (ScanCosts(parts[3]).Some? ==>
                              && (d == Err(BadSalt) <==> Base64.Decode(Base64.Std, parts[4]) == None)
                              && (Base64.Decode(Base64.Std, parts[4]).Some? ==>
                                    (d == Err(BadHash) <==> Base64.Decode(Base64.Std, parts[5]) == None)))))
  {
    hide Text.Split, ScanVersion, ScanCosts, Base64.Decode;
  }
}
