/**
 * The 32-bit rolling hash that security.ts uses both as its session "signature"
 * (`createHmac`) and for the advertising event id (`generateEventId`).
 * Each step computes `((hash << 5) - hash) + charCode` and truncates it with
 * `hash & hash`; both `<<` and `&` convert their operands to signed 32-bit
 * integers, which is written out here as `ToInt32`.
 */
module Int32Hash {
  import opened Text

  const TWO_31: int := 0x8000_0000
  const TWO_32: int := 0x1_0000_0000

  predicate IsInt32(x: int) {
    -TWO_31 <= x < TWO_31
  }

  /** ECMAScript ToInt32: x modulo 2^32, read as a two's complement signed number. */
  function ToInt32(x: int): (r: int)
    ensures IsInt32(r)
    ensures (r - x) % TWO_32 == 0
  {
    (x + TWO_31) % TWO_32 - TWO_31
  }

  /** ToInt32 depends only on its argument modulo 2^32. */
  lemma ToInt32Congruent(x: int, y: int, k: int)
    requires x == y + k * TWO_32
    ensures ToInt32(x) == ToInt32(y)
  {
    assert x + TWO_31 == (y + TWO_31) + k * TWO_32;
  }

  /** The UTF-16 code unit `charCodeAt` reads. */
  function CodeUnit(c: char): nat {
    c as nat
  }

  /** One step of the loop at security.ts:183-187 (and 277-281), operator by operator. */
  function HashStep(hash: int, c: char): (r: int)
    requires IsInt32(hash)
    ensures IsInt32(r)
  {
    var shifted := ToInt32(hash * 32);
    ToInt32(shifted - hash + CodeUnit(c))
  }

  /** The step is the familiar `hash * 31 + c` in 32-bit two's complement arithmetic. */
  lemma HashStepIsTimes31(hash: int, c: char)
    requires IsInt32(hash)
    ensures HashStep(hash, c) == ToInt32(31 * hash + CodeUnit(c))
  {
    var shifted := ToInt32(hash * 32);
    var k := (shifted - hash * 32) / TWO_32;
    assert shifted - hash * 32 == k * TWO_32;
    ToInt32Congruent(shifted - hash + CodeUnit(c), 31 * hash + CodeUnit(c), k);
  }

  /** The value `hash` holds after the loop has consumed all of `s`, starting from 0. */
  function Hash(s: string): (r: int)
    ensures IsInt32(r)
  {
    if s == [] then 0 else HashStep(Hash(s[..|s| - 1]), s[|s| - 1])
  }

  /** `Math.abs` of a 32-bit value; note that -2^31 becomes 2^31. */
  function Abs32(h: int): (r: nat)
    requires IsInt32(h)
    ensures r <= TWO_31
    ensures r == h || r == -h
  {
    if h < 0 then -h else h
  }

  /** `createHmac(data, secret)`: the absolute hash of `secret + data`, printed in base 36. */
  function Signature(data: string, secret: string): string {
    ToRadix(Abs32(Hash(secret + data)), 36)
  }

  /** `generateEventId(referenceId)`: the absolute hash of the reference id, in hex, zero-padded to 16. */
  function EventId(referenceId: string): string {
    FixedDigits(Abs32(Hash(referenceId)), 16, 16)
  }

  /**
   * A signature is a non-empty string of base-36 digits (so it never contains '.')
   * that reads back as the absolute hash, a number no larger than 2^31.
   */
  lemma SignatureShape(data: string, secret: string)
    ensures var sig := Signature(data, secret);
      sig != [] && AllDigitsIn(sig, 36) && '.' !in sig
      && ParseRadix(sig, 36) == Abs32(Hash(secret + data)) <= TWO_31
  {
    var sig := Signature(data, secret);
    ParseToRadix(Abs32(Hash(secret + data)), 36);
    assert forall i :: 0 <= i < |sig| ==> sig[i] != '.' by {
      assert DigitValue('.') == -1;
    }
  }

  /** An event id is always exactly 16 lower-case hex digits that read back as the absolute hash. */
  lemma EventIdShape(referenceId: string)
    ensures |EventId(referenceId)| == 16
    ensures AllDigitsIn(EventId(referenceId), 16)
    ensures ParseRadix(EventId(referenceId), 16) == Abs32(Hash(referenceId))
  {
    var v := Abs32(Hash(referenceId));
    assert v < Pow(16, 16) by {
      SixteenHexDigitsSuffice();
    }
    FixedDigitsShape(v, 16, 16);
  }

  /** Sixteen hex digits hold any absolute 32-bit value. */
  lemma SixteenHexDigitsSuffice()
    ensures Pow(16, 16) > TWO_31
  {
    assert Pow(16, 8) == 0x1_0000_0000 by {
      assert Pow(16, 2) == 0x100;
      assert Pow(16, 4) == 0x1_0000 by {
        assert Pow(16, 3) == 16 * Pow(16, 2);
      }
      assert Pow(16, 6) == 0x100_0000 by {
        assert Pow(16, 5) == 16 * Pow(16, 4);
      }
      assert Pow(16, 7) == 16 * Pow(16, 6);
    }
    PowMonotone(16, 8, 16);
  }

  lemma {:induction false} PowMonotone(b: nat, j: nat, k: nat)
    requires b >= 1 && j <= k
    ensures Pow(b, j) <= Pow(b, k)
    decreases k
  {
    if j < k {
      PowMonotone(b, j, k - 1);
      MulMonotone(1, b, Pow(b, k - 1));
    }
  }

  /** The loop of `createHmac` (security.ts:173-189). */
  method CreateHmac(data: string, secret: string) returns (sig: string)
    ensures sig == Signature(data, secret)
  {
    var hash := 0;
    var combined := secret + data;
    for i := 0 to |combined|
      invariant hash == Hash(combined[..i])
    {
      var code := CodeUnit(combined[i]);
      assert combined[..i + 1][..i] == combined[..i];
      hash := ToInt32(ToInt32(hash * 32) - hash + code);
    }
    assert combined[..|combined|] == combined;
    sig := ToRadix(Abs32(hash), 36);
  }

  /** The loop of `generateEventId` (security.ts:274-283). */
  method GenerateEventId(referenceId: string) returns (id: string)
    ensures id == EventId(referenceId)
    ensures |id| == 16 && AllDigitsIn(id, 16)
  {
    var hash := 0;
    for i := 0 to |referenceId|
      invariant hash == Hash(referenceId[..i])
    {
      var code := CodeUnit(referenceId[i]);
      assert referenceId[..i + 1][..i] == referenceId[..i];
      hash := ToInt32(ToInt32(hash * 32) - hash + code);
    }
    assert referenceId[..|referenceId|] == referenceId;
    id := PadStart(ToRadix(Abs32(hash), 16), 16, '0');
    EventIdShape(referenceId);
  }
}
