/**
 * The request helpers of security.ts:194-226: the client address taken from proxy headers,
 * and the three anchored regular expressions that validate form input.
 */
module RequestInput {
  import opened Wrappers
  import opened Text

  /**
   * `getClientIp` (security.ts:194-200), given the `x-forwarded-for` and `x-real-ip` headers
   * (`None` when absent): the trimmed first entry of a non-empty forwarded list (the stretch
   * of the first entry between its leading and trailing white space), otherwise a non-empty
   * real-ip header, otherwise 'unknown'.
   */
  function GetClientIp(forwardedFor: Option<string>, realIp: Option<string>): (ip: string)
    ensures Truthy(forwardedFor) ==>
      var first := FirstField(forwardedFor.value, ',');
      var i := LeadingSpace(first);
      && ',' !in ip
      && i + |ip| <= |first| && first[i..i + |ip|] == ip
      && (forall k :: 0 <= k < |first| && (k < i || i + |ip| <= k) ==> IsJsWhitespace(first[k]))
      && (ip != [] ==> !IsJsWhitespace(ip[0]) && !IsJsWhitespace(ip[|ip| - 1]))
    ensures !Truthy(forwardedFor) && Truthy(realIp) ==> ip == realIp.value
    ensures !Truthy(forwardedFor) && !Truthy(realIp) ==> ip == "unknown"
  {
    if Truthy(forwardedFor) then
      var first := FirstField(forwardedFor.value, ',');
      TrimKeepsOut(first, ',');
      Trim(first)
    else if Truthy(realIp) then realIp.value
    else "unknown"
  }

  /** Trimming only removes characters, so one absent before is absent after. */
  lemma TrimKeepsOut(s: string, c: char)
    requires c !in s
    ensures c !in Trim(s)
  {
    var r, i := Trim(s), LeadingSpace(s);
    forall d | d in r ensures d != c {
      var j :| 0 <= j < |r| && r[j] == d;
      assert s[i + j] == d;
    }
  }

  /** The address a proxy put first in `x-forwarded-for` is what is read back, padding and later hops ignored. */
  lemma ForwardedForFirstHop(pad1: string, hop: string, pad2: string, rest: string, realIp: Option<string>)
    requires AllWhitespace(pad1) && AllWhitespace(pad2) && ',' !in pad1 && ',' !in pad2
    requires hop != [] && ',' !in hop && !IsJsWhitespace(hop[0]) && !IsJsWhitespace(hop[|hop| - 1])
    ensures GetClientIp(Some(pad1 + hop + pad2 + "," + rest), realIp) == hop
  {
    var first := pad1 + hop + pad2;
    assert ',' !in first by {
      forall c | c in first ensures c != ',' {
        assert c in pad1 || c in hop || c in pad2;
      }
    }
    assert first + "," + rest == first + [','] + rest;
    FieldBeforeSep(first, ',', rest);
    TrimPadded(pad1, hop, pad2);
  }

  /** A header with a single address, `x-forwarded-for: 1.2.3.4`, gives that address, padding ignored. */
  lemma ForwardedForSingleHop(pad1: string, hop: string, pad2: string, realIp: Option<string>)
    requires AllWhitespace(pad1) && AllWhitespace(pad2) && ',' !in pad1 && ',' !in pad2
    requires hop != [] && ',' !in hop && !IsJsWhitespace(hop[0]) && !IsJsWhitespace(hop[|hop| - 1])
    ensures GetClientIp(Some(pad1 + hop + pad2), realIp) == hop
  {
    var header := pad1 + hop + pad2;
    assert ',' !in header by {
      forall c | c in header ensures c != ',' {
        assert c in pad1 || c in hop || c in pad2;
      }
    }
    FieldOfSepFree(header, ',');
    TrimPadded(pad1, hop, pad2);
  }

  /**
   * A first entry of nothing but white space gives the empty address, without falling back
   * to `x-real-ip` or 'unknown'.
   */
  lemma ForwardedForBlankFirstHop(pad: string, tail: string, realIp: Option<string>)
    requires AllWhitespace(pad) && ',' !in pad
    requires tail == "" || tail[0] == ','
    requires pad + tail != ""
    ensures GetClientIp(Some(pad + tail), realIp) == ""
  {
    if tail == "" {
      assert pad + tail == pad;
      FieldOfSepFree(pad, ',');
    } else {
      assert pad + tail == pad + [','] + tail[1..];
      FieldBeforeSep(pad, ',', tail[1..]);
    }
  }

  /**
   * The anchored repetition `^[cls]{lo,hi}$`, matched the way a regular-expression engine
   * does it, one character at a time.
   */
  function MatchRepeat(s: string, lo: nat, hi: nat, cls: char -> bool): (r: bool)
    requires lo <= hi
    ensures r <==> lo <= |s| <= hi && forall i :: 0 <= i < |s| ==> cls(s[i])
  {
    if s == [] then lo == 0
    else hi > 0 && cls(s[0]) && MatchRepeat(s[1..], if lo > 0 then lo - 1 else 0, hi - 1, cls)
  }

  predicate IsAsciiDigit(c: char) {
    '0' <= c <= '9'
  }

  /** The class `[a-zA-Z0-9_-]`. */
  predicate IsTokenChar(c: char) {
    ('a' <= c <= 'z') || ('A' <= c <= 'Z') || IsAsciiDigit(c) || c == '_' || c == '-'
  }

  /** `isValidCvv` (security.ts:223-226): three or four ASCII digits and nothing else. */
  function IsValidCvv(cvv: string): (ok: bool)
    ensures ok <==> 3 <= |cvv| <= 4 && forall i :: 0 <= i < |cvv| ==> IsAsciiDigit(cvv[i])
  {
    cvv != "" && MatchRepeat(cvv, 3, 4, IsAsciiDigit)
  }

  /** `isValidCardToken` (security.ts:214-218): 10 to 100 letters, digits, '_' or '-', and nothing else. */
  function IsValidCardToken(token: string): (ok: bool)
    ensures ok <==> 10 <= |token| <= 100 && forall i :: 0 <= i < |token| ==> IsTokenChar(token[i])
  {
    token != "" && MatchRepeat(token, 10, 100, IsTokenChar)
  }

  /** The class `[^\s@]`. */
  predicate IsPlainChar(c: char) {
    !IsJsWhitespace(c) && c != '@'
  }

  predicate AllPlain(s: string) {
    forall i :: 0 <= i < |s| ==> IsPlainChar(s[i])
  }

  /** The local part and the domain of an address, each as the pattern wants it. */
  predicate ValidParts(local: string, domain: string) {
    && local != [] && AllPlain(local) && AllPlain(domain)
    && |domain| >= 3 && '.' in domain[1..|domain| - 1]
  }

  /**
   * `isValidEmail` (security.ts:205-209), computed the way the pattern must match: the part
   * before the first '@' is the local part, the rest is the domain, and the domain needs a '.'
   * with something on both sides; `email.length`, which counts UTF-16 code units, at most 255.
   */
  function IsValidEmail(email: string): bool {
    if email == "" || Utf16Length(email) > 255 then false
    else
      var local := FirstField(email, '@');
      if |local| == |email| then false
      else ValidParts(local, email[|local| + 1..])
  }

  /**
   * What `^[^\s@]+@[^\s@]+\.[^\s@]+$` accepts: an '@' at `i` and a '.' at `k`, each with a
   * non-empty run before and after, and no white space or other '@' anywhere. The pattern has
   * no `u` flag and so reads code units, but the two halves of a character beyond U+FFFF
   * are neither white space, '@' nor '.', so reading characters gives the same answer.
   */
  ghost predicate EmailPatternMatches(s: string) {
    exists i, k :: 0 < i && i + 1 < k < |s| - 1 && s[i] == '@' && s[k] == '.'
      && forall j :: 0 <= j < |s| && j != i ==> IsPlainChar(s[j])
  }

  /** The validator accepts exactly the strings the pattern matches that are at most 255 code units long. */
  lemma IsValidEmailMatchesPattern(email: string)
    ensures IsValidEmail(email) <==> EmailPatternMatches(email) && Utf16Length(email) <= 255
  {
    if IsValidEmail(email) {
      AcceptedEmailMatches(email);
    }
    if EmailPatternMatches(email) && Utf16Length(email) <= 255 {
      MatchingEmailAccepted(email);
    }
  }

  lemma AcceptedEmailMatches(email: string)
    requires IsValidEmail(email)
    ensures EmailPatternMatches(email) && Utf16Length(email) <= 255
  {
    var local := FirstField(email, '@');
    var domain := email[|local| + 1..];
    var i := |local|;
    var m :| 0 <= m < |domain[1..|domain| - 1]| && domain[1..|domain| - 1][m] == '.';
    var k := i + 2 + m;
    assert email[k] == '.';
    assert email[i] == '@';
    forall j | 0 <= j < |email| && j != i ensures IsPlainChar(email[j]) {
      if j < i {
        assert email[j] == local[j];
      } else {
        assert email[j] == domain[j - i - 1];
      }
    }
  }

  lemma MatchingEmailAccepted(email: string)
    requires EmailPatternMatches(email) && Utf16Length(email) <= 255
    ensures IsValidEmail(email)
  {
    var i, k :| 0 < i && i + 1 < k < |email| - 1 && email[i] == '@' && email[k] == '.'
      && forall j :: 0 <= j < |email| && j != i ==> IsPlainChar(email[j]);
    MatchAtSplits(email, i, k);
    ValidEmailFromParts(email, email[..i], email[i + 1..]);
  }

  /** The pattern matched with its '@' at `i` and a '.' at `k` splits at `i` into valid parts. */
  lemma MatchAtSplits(email: string, i: int, k: int)
    requires 0 < i && i + 1 < k < |email| - 1 && email[i] == '@' && email[k] == '.'
    requires forall j :: 0 <= j < |email| && j != i ==> IsPlainChar(email[j])
    ensures FirstField(email, '@') == email[..i] && ValidParts(email[..i], email[i + 1..])
  {
    var a := email[..i];
    var domain := email[i + 1..];
    assert ValidParts(a, domain) by {
      PlainAround(email, i, 0, i);
      PlainAround(email, i, i + 1, |email|);
      assert a == email[0..i] && domain == email[i + 1..|email|];
      assert domain[1..|domain| - 1][k - i - 2] == '.';
    }
    assert FirstField(email, '@') == a by {
      PlainAround(email, i, 0, i);
      assert a == email[0..i];
      PlainHasNoAt(a);
      assert email == a + ['@'] + domain;
      FieldBeforeSep(a, '@', domain);
    }
  }

  lemma ValidEmailFromParts(email: string, local: string, domain: string)
    requires FirstField(email, '@') == local && |local| < |email| && domain == email[|local| + 1..]
    requires ValidParts(local, domain) && Utf16Length(email) <= 255
    ensures IsValidEmail(email)
  {
  }

  /** A stretch of the address that avoids the position of its '@' is plain. */
  lemma PlainAround(email: string, i: int, lo: int, hi: int)
    requires 0 <= lo <= hi <= |email| && (i < lo || hi <= i)
    requires forall j :: 0 <= j < |email| && j != i ==> IsPlainChar(email[j])
    ensures AllPlain(email[lo..hi])
  {
    forall j | 0 <= j < hi - lo ensures IsPlainChar(email[lo..hi][j]) {
      assert email[lo..hi][j] == email[lo + j];
    }
  }

  lemma PlainHasNoAt(s: string)
    requires AllPlain(s)
    ensures '@' !in s
  {
    forall c | c in s ensures c != '@' {
      var j :| 0 <= j < |s| && s[j] == c;
      assert IsPlainChar(s[j]);
    }
  }

  /**
   * The bound is on code units, not characters: 130 emoji (each two code units) before
   * "@a.bc" are 135 characters that match the pattern, and the address is still rejected.
   */
  lemma AstralAddressRejected()
    ensures var email := Repeat('\U{1F600}', 130) + "@a.bc";
      EmailPatternMatches(email) && |email| == 135 && Utf16Length(email) == 265 && !IsValidEmail(email)
  {
    AstralAddressMatches(Repeat('\U{1F600}', 130));
    AstralAddressLength(Repeat('\U{1F600}', 130));
  }

  lemma AstralAddressMatches(emoji: string)
    requires emoji == Repeat('\U{1F600}', 130)
    ensures EmailPatternMatches(emoji + "@a.bc")
  {
    var email := emoji + "@a.bc";
    assert email[130] == '@' && email[132] == '.';
    assert IsPlainChar('\U{1F600}');
    forall j | 0 <= j < |email| && j != 130 ensures IsPlainChar(email[j]) {
      if j < 130 {
        assert email[j] == emoji[j];
      } else {
        assert email[j] == "@a.bc"[j - 130];
      }
    }
  }

  lemma AstralAddressLength(emoji: string)
    requires emoji == Repeat('\U{1F600}', 130)
    ensures Utf16Length(emoji + "@a.bc") == 265
  {
    Utf16LengthRepeat('\U{1F600}', 130);
    assert Utf16Length("@a.bc") == 5;
    Utf16LengthAppend(emoji, "@a.bc");
  }

  lemma {:induction false} Utf16LengthRepeat(c: char, n: nat)
    requires c as int >= 0x1_0000
    ensures Utf16Length(Repeat(c, n)) == 2 * n
  {
    if n > 0 {
      assert Repeat(c, n)[1..] == Repeat(c, n - 1);
      Utf16LengthRepeat(c, n - 1);
    }
  }
}
