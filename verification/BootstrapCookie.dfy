/**
 The bootstrap cookie carries a credential id and the CWMP namespace it is used with:
 the id, a dot, and the namespace in unpadded base64url, section 5 of RFC 4648.
 */
module BootstrapCookie {
  import opened Options

  type Byte = x: int | 0 <= x < 256
  type Sextet = x: int | 0 <= x < 64

  /** The URL-safe alphabet. */
  function Letter(n: Sextet): char {
    if n < 26 then 'A' + n as char
    else if n < 52 then 'a' + (n - 26) as char
    else if n < 62 then '0' + (n - 52) as char
    else if n == 62 then '-'
    else '_'
  }

  function Value(c: char): Option<Sextet> {
    if 'A' <= c <= 'Z' then Some((c - 'A') as int)
    else if 'a' <= c <= 'z' then Some((c - 'a') as int + 26)
    else if '0' <= c <= '9' then Some((c - '0') as int + 52)
    else if c == '-' then Some(62)
    else if c == '_' then Some(63)
    else None
  }

  lemma ValueOfLetter(n: Sextet)
    ensures Value(Letter(n)) == Some(n) && Letter(n) != '.' && Letter(n) != '\n' && Letter(n) != '\r'
  {
  }

  /** Three bytes make four sextets; a last group of one or two makes two or three, padded with zero bits. */
  function Sextets(bytes: seq<Byte>): seq<Sextet> {
    if bytes == [] then []
    else if |bytes| == 1 then [bytes[0] / 4, bytes[0] % 4 * 16]
    else if |bytes| == 2 then [bytes[0] / 4, bytes[0] % 4 * 16 + bytes[1] / 16, bytes[1] % 16 * 4]
    else [bytes[0] / 4, bytes[0] % 4 * 16 + bytes[1] / 16, bytes[1] % 16 * 4 + bytes[2] / 64, bytes[2] % 64] + Sextets(bytes[3..])
  }

  function Spell(v: seq<Sextet>): string {
    seq(|v|, i requires 0 <= i < |v| => Letter(v[i]))
  }

  /** RawURLEncoding.EncodeToString */
  function Encode(bytes: seq<Byte>): string {
    Spell(Sextets(bytes))
  }

  /** Line breaks are skipped wherever they stand. */
  function Stripped(text: string): string {
    if text == [] then []
    else if text[0] == '\n' || text[0] == '\r' then Stripped(text[1..])
    else [text[0]] + Stripped(text[1..])
  }

  /** The value of every letter, or nothing when one is not in the alphabet. */
  function Values(text: string): Option<seq<Sextet>> {
    if text == [] then Some([])
    else
      var rest := Values(text[1..]);
      var first := Value(text[0]);
      if first.None? || rest.None? then None else Some([first.value] + rest.value)
  }

  function High(a: int, b: int): (r: Byte)
    requires 0 <= a < 64 && 0 <= b < 64
  {
    a * 4 + b / 16
  }

  function Middle(b: int, c: int): (r: Byte)
    requires 0 <= b < 64 && 0 <= c < 64
  {
    b % 16 * 16 + c / 4
  }

  function Low(c: int, d: int): (r: Byte)
    requires 0 <= c < 64 && 0 <= d < 64
  {
    c % 4 * 64 + d
  }

  /** Groups of four values give three bytes; a last group of two or three gives one or two, and its spare bits are ignored. */
  function Bytes(v: seq<Sextet>): Option<seq<Byte>> {
    if v == [] then Some([])
    else if |v| == 1 then None
    else if |v| == 2 then Some([High(v[0], v[1])])
    else if |v| == 3 then Some([High(v[0], v[1]), Middle(v[1], v[2])])
    else
      var rest := Bytes(v[4..]);
      if rest.None? then None else Some([High(v[0], v[1]), Middle(v[1], v[2]), Low(v[2], v[3])] + rest.value)
  }

  /** RawURLEncoding.DecodeString */
  function Decode(text: string): Option<seq<Byte>> {
    match Values(Stripped(text))
    case None => None
    case Some(v) => Bytes(v)
  }

  lemma {:induction false} SpelledClean(v: seq<Sextet>)
    ensures Stripped(Spell(v)) == Spell(v) && Values(Spell(v)) == Some(v)
    ensures '.' !in Spell(v)
  {
    if v != [] {
      ValueOfLetter(v[0]);
      assert Spell(v)[1..] == Spell(v[1..]);
      SpelledClean(v[1..]);
      assert Spell(v) == [Letter(v[0])] + Spell(v[1..]);
      assert v == [v[0]] + v[1..];
    }
  }

  lemma Regroup(a: Byte, b: Byte, c: Byte)
    ensures High(a / 4, a % 4 * 16 + b / 16) == a
    ensures Middle(a % 4 * 16 + b / 16, b % 16 * 4 + c / 64) == b
    ensures Low(b % 16 * 4 + c / 64, c % 64) == c
  {
  }

  lemma DecodeGroup(p: Sextet, q: Sextet, r: Sextet, t: Sextet, v: seq<Sextet>, rest: seq<Byte>)
    requires Bytes(v) == Some(rest)
    ensures Bytes([p, q]) == Some([High(p, q)]) && Bytes([p, q, r]) == Some([High(p, q), Middle(q, r)])
    ensures Bytes([p, q, r, t] + v) == Some([High(p, q), Middle(q, r), Low(r, t)] + rest)
  {
    assert ([p, q, r, t] + v)[4..] == v;
  }

  lemma OneByte(a: Byte)
    ensures Bytes([a / 4, a % 4 * 16]) == Some([a])
  {
    DecodeGroup(a / 4, a % 4 * 16, 0, 0, [], []);
  }

  lemma TwoBytes(a: Byte, b: Byte)
    ensures Bytes([a / 4, a % 4 * 16 + b / 16, b % 16 * 4]) == Some([a, b])
  {
    DecodeGroup(a / 4, a % 4 * 16 + b / 16, b % 16 * 4, 0, [], []);
  }

  lemma ThreeBytes(a: Byte, b: Byte, c: Byte, v: seq<Sextet>, rest: seq<Byte>)
    requires Bytes(v) == Some(rest)
    ensures Bytes([a / 4, a % 4 * 16 + b / 16, b % 16 * 4 + c / 64, c % 64] + v) == Some([a, b, c] + rest)
  {
    Regroup(a, b, c);
    DecodeGroup(a / 4, a % 4 * 16 + b / 16, b % 16 * 4 + c / 64, c % 64, v, rest);
  }

  lemma {:induction false} BytesOfSextets(bytes: seq<Byte>)
    ensures Bytes(Sextets(bytes)) == Some(bytes)
  {
    if |bytes| == 1 {
      OneByte(bytes[0]);
      assert bytes == [bytes[0]];
    } else if |bytes| == 2 {
      TwoBytes(bytes[0], bytes[1]);
      assert bytes == [bytes[0], bytes[1]];
    } else if |bytes| >= 3 {
      BytesOfSextets(bytes[3..]);
      ThreeBytes(bytes[0], bytes[1], bytes[2], Sextets(bytes[3..]), bytes[3..]);
      assert bytes == [bytes[0], bytes[1], bytes[2]] + bytes[3..];
    }
  }

  /** Decoding undoes encoding, for every byte string. */
  lemma Base64RoundTrip(bytes: seq<Byte>)
    ensures Decode(Encode(bytes)) == Some(bytes) && '.' !in Encode(bytes) && (bytes != [] ==> Encode(bytes) != [])
  {
    SpelledClean(Sextets(bytes));
    BytesOfSextets(bytes);
  }

  /** encodeBootstrapCredentialCookie */
  function EncodeCookie(id: string, ns: seq<Byte>): string {
    id + "." + Encode(ns)
  }

  /** The position of the first dot, or the length. */
  function FirstDot(text: string): (n: nat)
    ensures n <= |text| && '.' !in text[..n] && (n < |text| ==> text[n] == '.')
  {
    if text == [] then 0
    else if text[0] == '.' then 0
    else
      var n := 1 + FirstDot(text[1..]);
      assert text[..n] == [text[0]] + text[1..][..n - 1];
      n
  }

  /** decodeBootstrapCredentialCookie */
  function DecodeCookie(value: string): Option<(string, seq<Byte>)> {
    var n := FirstDot(value);
    if n == |value| || n == 0 || n + 1 == |value| then None
    else
      match Decode(value[n + 1..])
      case None => None
      case Some(ns) => if ns == [] then None else Some((value[..n], ns))
  }

  lemma {:induction false} DotAfterId(id: string, rest: string)
    requires '.' !in id
    ensures FirstDot(id + "." + rest) == |id|
  {
    if id != "" {
      assert id[0] in id && (id + "." + rest)[0] == id[0];
      assert (id + "." + rest)[1..] == id[1..] + "." + rest;
      DotAfterId(id[1..], rest);
    }
  }

  /** The cookie gives back what was put in exactly when the id is not empty and holds no dot and the namespace is not empty. */
  lemma CookieRoundTrip(id: string, ns: seq<Byte>)
    ensures DecodeCookie(EncodeCookie(id, ns)) == Some((id, ns)) <==> id != "" && '.' !in id && ns != []
  {
    Base64RoundTrip(ns);
    var value := EncodeCookie(id, ns);
    if '.' !in id {
      DotAfterId(id, Encode(ns));
      assert value[..|id|] == id && value[|id| + 1..] == Encode(ns);
    }
  }
}
