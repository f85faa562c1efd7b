/** Reading claims from a compact JWT (section 7.1 of RFC 7515) without checking its signature:
    the control plane reads `exp`, the worker reads `sub`. JSON is a parameter on both sides. */
module Jwt {
  import opened Wrappers
  import Base64
  import Text

  type bytes = Base64.bytes

  /** splitJWT: the dot-separated segments of a token. */
  method SplitJwt(token: string) returns (parts: seq<string>)
    ensures parts == Text.Split(token, '.')
  {
    hide Text.Split;
    parts := [];
    var start := 0;
    assert token[0..] == token;
    for i := 0 to |token|
      invariant 0 <= start <= i
      invariant '.' !in token[start..i]
      invariant Text.Split(token, '.') == parts + Text.Split(token[start..], '.')
    {
      if token[i] == '.' {
        SegmentEnds(token, start, i, parts);
        parts := parts + [token[start..i]];
        start := i + 1;
      } else {
        assert token[start..i + 1] == token[start..i] + [token[i]];
      }
    }
    assert token[start..|token|] == token[start..];
    Text.SplitWithoutSeparator(token[start..], '.');
    parts := parts + [token[start..]];
  }

  lemma SegmentEnds(token: string, start: nat, i: nat, parts: seq<string>)
    requires start <= i < |token| && token[i] == '.' && '.' !in token[start..i]
    ensures parts + Text.Split(token[start..], '.') == parts + [token[start..i]] + Text.Split(token[i + 1..], '.')
  {
    hide Text.Split;
    var head, tail := token[start..i], token[i + 1..];
    assert token[start..] == head + (['.'] + tail);
    Text.SplitPrefix(head, tail, '.');
    assert parts + ([head] + Text.Split(tail, '.')) == parts + [head] + Text.Split(tail, '.');
  }

  /** What the segments are, whoever computes them: dot-free, one more than the dots, and
      together the whole token. */
  lemma SegmentsOfToken(token: string)
    ensures Text.NoneContains(Text.Split(token, '.'), '.')
    ensures |Text.Split(token, '.')| == Text.Count(token, '.') + 1
    ensures Text.Join(Text.Split(token, '.'), '.') == token
  {
    Text.SplitPieces(token, '.');
    Text.SplitThenJoin(token, '.');
  }

  /** The payload bytes expiryFromJWT hands to the JSON decoder. */
  function GoPayload(token: string): Option<bytes> {
    var parts := Text.Split(token, '.');
    if |parts| < 2 then None else Base64.Decode(Base64.Url, parts[1])
  }

  /** The payload bytes steam_id_from_jwt hands to json.loads. */
  function PyPayload(token: string): Option<bytes> {
    var parts := Text.Split(token, '.');
    if |parts| < 2 then None else Base64.PyDecodeUnpadded(parts[1])
  }

  /** exp in Unix seconds; exp is the int64 the JSON decoder found, zero when absent. */
  function ExpiryFromJwt(exp: bytes -> Option<int>, token: string): Option<int> {
    match GoPayload(token)
    case None => None
    case Some(payload) =>
      match exp(payload)
      case None => None
      case Some(t) => if t == 0 then None else Some(t)
  }

  /** What json.loads makes of a payload: nothing, something without claims, or an object with
      its subject as str(...) writes it, "" when absent. */
  datatype Claims = NotJson | NotAnObject | Object(sub: string)

  /** steam_id_from_jwt: the subject, or "" for a token that is malformed; None where reading a
      claim of something that is not an object raises. */
  function SteamIdFromJwt(claims: bytes -> Claims, token: string): Option<string> {
    match PyPayload(token)
    case None => Some("")
    case Some(payload) =>
      match claims(payload)
      case NotJson => Some("")
      case NotAnObject => None
      case Object(sub) => Some(sub)
  }

  /** Both readers see the same bytes, or both give up, on every token whose second segment
      keeps to the base64url alphabet. */
  lemma ReadersAgree(token: string)
    requires var parts := Text.Split(token, '.');
             |parts| >= 2 ==> forall c :: c in parts[1] ==> Base64.InAlphabet(Base64.Url, c)
    ensures GoPayload(token) == PyPayload(token)
  {
    var parts := Text.Split(token, '.');
    if |parts| >= 2 {
      Base64.ReadersAgreeOnUrlText(parts[1]);
    }
  }

  /** On every token, the two readers see the same bytes, or both give up, exactly when there is
      no second segment or it is one that base64 readers read alike. */
  lemma ReadersAgreeExactly(token: string)
    ensures var parts := Text.Split(token, '.');
            GoPayload(token) == PyPayload(token) <==> |parts| < 2 || Base64.ReadAlike(parts[1])
  {
    hide Text.Split, Base64.ReadAlike, Base64.Decode, Base64.PyDecodeUnpadded;
    var parts := Text.Split(token, '.');
    if |parts| >= 2 {
      Base64.ReadersAgreeExactly(parts[1]);
    }
  }

  /** Both readers recover the payload an issuer encoded between any two other segments. */
  lemma ReadersRecoverPayload(header: string, payload: bytes, signature: string)
    requires '.' !in header && '.' !in signature
    ensures var token := Text.Join([header, Base64.Encode(Base64.Url, payload), signature], '.');
            GoPayload(token) == Some(payload) && PyPayload(token) == Some(payload)
  {
    var body := Base64.Encode(Base64.Url, payload);
    var parts := [header, body, signature];
    Base64.EncodeStaysInAlphabet(Base64.Url, payload);
    assert '.' !in body by { assert !Base64.InAlphabet(Base64.Url, '.'); }
    assert Text.NoneContains(parts, '.');
    Text.JoinThenSplit(parts, '.');
    Base64.DecodeOfEncode(Base64.Url, payload);
    ReadersAgree(Text.Join(parts, '.'));
  }

  /** A compact token as an issuer writes it. */
  function Issued(header: string, payload: bytes, signature: string): string {
    Text.Join([header, Base64.Encode(Base64.Url, payload), signature], '.')
  }

  /** The subject of an issued token is the sub claim of its payload: "" if the payload is not
      JSON, an exception if it is not an object. */
  lemma SubjectOfIssued(claims: bytes -> Claims, header: string, payload: bytes, signature: string)
    requires '.' !in header && '.' !in signature
    ensures var id := SteamIdFromJwt(claims, Issued(header, payload, signature));
            match claims(payload)
            case Object(sub) => id == Some(sub)
            case NotJson => id == Some("")
            case NotAnObject => id == None
  {
    hide Text.Join, Base64.Encode, PyPayload;
    ReadersRecoverPayload(header, payload, signature);
  }

  /** A token names an account exactly when its payload can be read and claims it; one that has
      no payload to read names none, without raising. */
  lemma SubjectExactly(claims: bytes -> Claims, token: string, sub: string)
    requires sub != ""
    ensures SteamIdFromJwt(claims, token) == Some(sub) <==>
              exists payload :: PyPayload(token) == Some(payload) && claims(payload) == Object(sub)
    ensures SteamIdFromJwt(claims, token) == None <==>
              exists payload :: PyPayload(token) == Some(payload) && claims(payload) == NotAnObject
    ensures '.' !in token ==> SteamIdFromJwt(claims, token) == Some("")
  {
    hide Base64.PyDecodeUnpadded;
    if '.' !in token {
      Text.SplitWithoutSeparator(token, '.');
    }
  }

  /** The expiry of an issued token is its exp claim, if it has one that is not zero. */
  lemma ExpiryOfIssued(exp: bytes -> Option<int>, header: string, payload: bytes, signature: string)
    requires '.' !in header && '.' !in signature
    ensures var t := ExpiryFromJwt(exp, Issued(header, payload, signature));
            if exp(payload).Some? && exp(payload).value != 0 then t == exp(payload) else t == None
  {
    hide Text.Join, Base64.Encode, GoPayload;
    ReadersRecoverPayload(header, payload, signature);
  }
}
