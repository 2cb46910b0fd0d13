/**
 * The session marker of security.ts:51-61 and the payload encoding of a session token.
 *
 * The source serialises a marker with `JSON.stringify` and base64 (security.ts:94) and
 * reads it back with base64 and `JSON.parse` (security.ts:125-126). What the token logic
 * relies on is that this encoding is injective, that decoding undoes it, and that the
 * encoded text never contains the '.' that separates payload from signature. This module
 * gives a concrete encoding with exactly those properties, proved below: every character
 * becomes six lower-case hex digits, every string ends with ',', an optional field is
 * tagged 'N' (absent) or 'S' (present), and a flag is 'N', 'T' or 'F'.
 */
module SessionCodec {
  import opened Wrappers
  import opened Text

  /** `SessionMarker` (security.ts:51-61); `timestamp` is the `Date.now()` of issue, in milliseconds. */
  datatype SessionMarker = SessionMarker(
    referenceId: string,
    chargeId: Option<string>,
    timestamp: nat,
    ip: string,
    productSlug: Option<string>,
    webhookSent: Option<bool>,
    capiSent: Option<bool>,
    fullName: Option<string>,
    email: Option<string>)

  /** The characters an encoded payload is made of. */
  predicate PayloadChar(c: char) {
    IsDigitIn(c, 16) || c in {',', 'N', 'S', 'T', 'F'}
  }

  predicate PayloadText(s: string) {
    forall c :: c in s ==> PayloadChar(c)
  }

  /** Unicode scalar values: the numbers a `char` can hold. */
  predicate IsScalar(v: int) {
    (0 <= v < 0xD800) || (0xE000 <= v < 0x11_0000)
  }

  function EncodeChar(c: char): string {
    FixedDigits(c as nat, 16, 6)
  }

  lemma EncodeCharShape(c: char)
    ensures |EncodeChar(c)| == 6 && AllDigitsIn(EncodeChar(c), 16)
    ensures ParseRadix(EncodeChar(c), 16) == c as int
  {
    assert Pow(16, 6) == 0x100_0000;
    FixedDigitsShape(c as nat, 16, 6);
  }

  function DecodeChar(t: string): (r: Option<char>)
    requires |t| == 6
  {
    if !AllDigitsIn(t, 16) then None
    else
      var v := ParseRadix(t, 16);
      if IsScalar(v) then Some(v as char) else None
  }

  lemma DecodeEncodeChar(c: char)
    ensures |EncodeChar(c)| == 6 && DecodeChar(EncodeChar(c)) == Some(c)
  {
    EncodeCharShape(c);
    assert IsScalar(c as int);
  }

  function EncodeChars(s: string): string {
    if s == [] then [] else EncodeChar(s[0]) + EncodeChars(s[1..])
  }

  function EncodeString(s: string): string {
    EncodeChars(s) + ","
  }

  /** Reads one encoded string off the front of `t`; returns it with the text that follows. */
  function DecodeString(t: string): Option<(string, string)>
    decreases |t|
  {
    if t == [] then None
    else if t[0] == ',' then Some(([], t[1..]))
    else if |t| < 6 then None
    else match DecodeChar(t[..6])
      case None => None
      case Some(c) =>
        match DecodeString(t[6..])
        case None => None
        case Some((s, rest)) => Some(([c] + s, rest))
  }

  lemma {:induction false} DecodeEncodeString(s: string, rest: string)
    ensures DecodeString(EncodeString(s) + rest) == Some((s, rest))
  {
    if s == [] {
      assert EncodeString(s) + rest == [','] + rest;
    } else {
      var e := EncodeChar(s[0]);
      var tail := EncodeString(s[1..]) + rest;
      assert EncodeString(s) + rest == e + tail by {
        assert (e + EncodeChars(s[1..])) + "," + rest == e + (EncodeChars(s[1..]) + "," + rest);
      }
      assert DecodeString(e + tail) == Some(([s[0]] + s[1..], rest)) by {
        DecodeEncodeChar(s[0]);
        DecodeEncodeString(s[1..], rest);
        DecodeStringCons(s[0], e, tail, s[1..], rest);
      }
      assert [s[0]] + s[1..] == s;
    }
  }

  /** Decoding an encoded character followed by an encoded string. */
  lemma DecodeStringCons(c: char, e: string, tail: string, s: string, rest: string)
    requires |e| == 6 && DecodeChar(e) == Some(c)
    requires DecodeString(tail) == Some((s, rest))
    ensures DecodeString(e + tail) == Some(([c] + s, rest))
  {
    var t := e + tail;
    assert t[..6] == e;
    assert t[6..] == tail;
    assert t[0] != ',' by {
      assert t[0] == e[0] && IsDigitIn(e[0], 16);
    }
  }

  function EncodeOption(o: Option<string>): string {
    match o
    case None => "N"
    case Some(s) => "S" + EncodeString(s)
  }

  function DecodeOption(t: string): Option<(Option<string>, string)> {
    if t == [] then None
    else if t[0] == 'N' then Some((None, t[1..]))
    else if t[0] == 'S' then
      match DecodeString(t[1..])
      case None => None
      case Some((s, rest)) => Some((Some(s), rest))
    else None
  }

  lemma DecodeEncodeOption(o: Option<string>, rest: string)
    ensures DecodeOption(EncodeOption(o) + rest) == Some((o, rest))
  {
    match o
    case None =>
      assert DecodeOption(EncodeOption(o) + rest) == Some((o, rest)) by {
        assert (EncodeOption(o) + rest)[1..] == rest;
      }
    case Some(s) =>
      assert DecodeOption(EncodeOption(o) + rest) == Some((o, rest)) by {
        var tail := EncodeString(s) + rest;
        assert EncodeOption(o) + rest == ['S'] + tail;
        DecodeEncodeString(s, rest);
        DecodeTagged(tail, s, rest);
      }
  }

  /** Reading an 'S' followed by an encoded string. */
  lemma DecodeTagged(tail: string, s: string, rest: string)
    requires DecodeString(tail) == Some((s, rest))
    ensures DecodeOption(['S'] + tail) == Some((Some(s), rest))
  {
    assert (['S'] + tail)[1..] == tail;
  }

  function EncodeFlag(f: Option<bool>): string {
    match f
    case None => "N"
    case Some(b) => if b then "T" else "F"
  }

  function DecodeFlag(t: string): Option<(Option<bool>, string)> {
    if t == [] then None
    else if t[0] == 'N' then Some((None, t[1..]))
    else if t[0] == 'T' then Some((Some(true), t[1..]))
    else if t[0] == 'F' then Some((Some(false), t[1..]))
    else None
  }

  lemma DecodeEncodeFlag(f: Option<bool>, rest: string)
    ensures DecodeFlag(EncodeFlag(f) + rest) == Some((f, rest))
  {
    assert (EncodeFlag(f) + rest)[1..] == rest;
  }

  function EncodeNat(n: nat): string {
    EncodeString(ToRadix(n, 16))
  }

  function DecodeNat(t: string): Option<(nat, string)> {
    match DecodeString(t)
    case None => None
    case Some((digits, rest)) =>
      if digits != [] && AllDigitsIn(digits, 16) then
        var v := ParseRadix(digits, 16);
        if v >= 0 then Some((v, rest)) else None
      else None
  }

  lemma DecodeEncodeNat(n: nat, rest: string)
    ensures DecodeNat(EncodeNat(n) + rest) == Some((n, rest))
  {
    DecodeEncodeString(ToRadix(n, 16), rest);
    ParseToRadix(n, 16);
  }

  /** The payload text of a marker: every field in declaration order. */
  function Encode(m: SessionMarker): string {
    EncodeString(m.referenceId) + (EncodeOption(m.chargeId) + (EncodeNat(m.timestamp) +
    (EncodeString(m.ip) + (EncodeOption(m.productSlug) + (EncodeFlag(m.webhookSent) +
    (EncodeFlag(m.capiSent) + (EncodeOption(m.fullName) + EncodeOption(m.email))))))))
  }

  /** Reads a marker back; `None` for any text that is not exactly one encoded marker. */
  function Decode(t: string): Option<SessionMarker> {
    match DecodeString(t)
    case None => None
    case Some((referenceId, t1)) =>
    match DecodeOption(t1)
    case None => None
    case Some((chargeId, t2)) =>
    match DecodeNat(t2)
    case None => None
    case Some((timestamp, t3)) =>
    match DecodeString(t3)
    case None => None
    case Some((ip, t4)) =>
    match DecodeOption(t4)
    case None => None
    case Some((productSlug, t5)) =>
    match DecodeFlag(t5)
    case None => None
    case Some((webhookSent, t6)) =>
    match DecodeFlag(t6)
    case None => None
    case Some((capiSent, t7)) =>
    match DecodeOption(t7)
    case None => None
    case Some((fullName, t8)) =>
    match DecodeOption(t8)
    case None => None
    case Some((email, t9)) =>
      if t9 == [] then
        Some(SessionMarker(referenceId, chargeId, timestamp, ip, productSlug,
                           webhookSent, capiSent, fullName, email))
      else None
  }

  /** Decoding undoes encoding, for every marker. */
  lemma DecodeEncode(m: SessionMarker)
    ensures Decode(Encode(m)) == Some(m)
  {
    var e9 := EncodeOption(m.email);
    DecodeEncodeOption(m.email, []);
    assert e9 + [] == e9;
    var e8 := EncodeOption(m.fullName) + e9;
    DecodeEncodeOption(m.fullName, e9);
    var e7 := EncodeFlag(m.capiSent) + e8;
    DecodeEncodeFlag(m.capiSent, e8);
    var e6 := EncodeFlag(m.webhookSent) + e7;
    DecodeEncodeFlag(m.webhookSent, e7);
    var e5 := EncodeOption(m.productSlug) + e6;
    DecodeEncodeOption(m.productSlug, e6);
    var e4 := EncodeString(m.ip) + e5;
    DecodeEncodeString(m.ip, e5);
    var e3 := EncodeNat(m.timestamp) + e4;
    DecodeEncodeNat(m.timestamp, e4);
    var e2 := EncodeOption(m.chargeId) + e3;
    DecodeEncodeOption(m.chargeId, e3);
    DecodeEncodeString(m.referenceId, e2);
  }

  /** Two markers with the same payload are the same marker. */
  lemma EncodeInjective(m1: SessionMarker, m2: SessionMarker)
    requires Encode(m1) == Encode(m2)
    ensures m1 == m2
  {
    DecodeEncode(m1);
    DecodeEncode(m2);
  }

  lemma {:induction false} EncodeCharsText(s: string)
    ensures PayloadText(EncodeChars(s))
  {
    if s != [] {
      EncodeCharShape(s[0]);
      EncodeCharsText(s[1..]);
    }
  }

  lemma EncodeStringText(s: string)
    ensures PayloadText(EncodeString(s))
  {
    EncodeCharsText(s);
  }

  lemma EncodeOptionText(o: Option<string>)
    ensures PayloadText(EncodeOption(o))
  {
    if o.Some? {
      EncodeStringText(o.value);
    }
  }

  lemma EncodeFlagText(f: Option<bool>)
    ensures PayloadText(EncodeFlag(f))
  {
  }

  lemma PayloadConcat(a: string, b: string)
    requires PayloadText(a) && PayloadText(b)
    ensures PayloadText(a + b)
  {
    forall c | c in a + b
      ensures PayloadChar(c)
    {
      assert c in a || c in b;
    }
  }

  /** A payload never contains the '.' that ends it inside a token. */
  lemma EncodeHasNoDot(m: SessionMarker)
    ensures PayloadText(Encode(m))
    ensures '.' !in Encode(m)
  {
    var e9 := EncodeOption(m.email);
    EncodeOptionText(m.email);
    var e8 := EncodeOption(m.fullName) + e9;
    EncodeOptionText(m.fullName);
    PayloadConcat(EncodeOption(m.fullName), e9);
    var e7 := EncodeFlag(m.capiSent) + e8;
    EncodeFlagText(m.capiSent);
    PayloadConcat(EncodeFlag(m.capiSent), e8);
    var e6 := EncodeFlag(m.webhookSent) + e7;
    EncodeFlagText(m.webhookSent);
    PayloadConcat(EncodeFlag(m.webhookSent), e7);
    var e5 := EncodeOption(m.productSlug) + e6;
    EncodeOptionText(m.productSlug);
    PayloadConcat(EncodeOption(m.productSlug), e6);
    var e4 := EncodeString(m.ip) + e5;
    EncodeStringText(m.ip);
    PayloadConcat(EncodeString(m.ip), e5);
    var e3 := EncodeNat(m.timestamp) + e4;
    EncodeStringText(ToRadix(m.timestamp, 16));
    PayloadConcat(EncodeNat(m.timestamp), e4);
    var e2 := EncodeOption(m.chargeId) + e3;
    EncodeOptionText(m.chargeId);
    PayloadConcat(EncodeOption(m.chargeId), e3);
    EncodeStringText(m.referenceId);
    PayloadConcat(EncodeString(m.referenceId), e2);
    assert !PayloadChar('.') by {
      assert DigitValue('.') == -1;
    }
  }
}
