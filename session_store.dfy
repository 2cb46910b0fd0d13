/**
 * Session tokens and the in-memory session store of security.ts:63-168 and 228-266.
 * A token is `payload + "." + signature`; verification re-signs the payload, decodes it,
 * checks the client address and the one-hour lifetime, and then consults the store,
 * which remembers the `webhookSent` / `capiSent` de-duplication flags per token.
 */
module SessionStore {
  import opened Wrappers
  import opened Text
  import opened Int32Hash
  import opened SessionCodec

  /** Used when `SESSION_SECRET` is unset or empty (security.ts:95, 114). */
  const DEFAULT_SECRET: string := "change-this-in-production"
  /** One hour in milliseconds (security.ts:142). */
  const TOKEN_TTL_MS: int := 60 * 60 * 1000
  /** The address `getClientIp` reports when no header names one. */
  const UNKNOWN_IP: string := "unknown"

  /** `env.SESSION_SECRET || 'change-this-in-production'`. */
  function EffectiveSecret(sessionSecret: Option<string>): (secret: string)
    ensures secret != ""
    ensures Truthy(sessionSecret) ==> secret == sessionSecret.value
  {
    if Truthy(sessionSecret) then sessionSecret.value else DEFAULT_SECRET
  }

  /** The marker `createSessionToken` builds: no de-duplication flags yet, stamped with `now`. */
  function IssuedMarker(referenceId: string, ip: string, chargeId: Option<string>,
                        productSlug: Option<string>, fullName: Option<string>,
                        email: Option<string>, now: nat): SessionMarker
  {
    SessionMarker(referenceId, chargeId, now, ip, productSlug, None, None, fullName, email)
  }

  /** The token for a marker: its payload, a '.', and the signature of the payload. */
  function TokenFor(m: SessionMarker, secret: string): string {
    Encode(m) + "." + Signature(Encode(m), secret)
  }

  /** The address check of security.ts:134-135: equal addresses, or either side 'unknown'. */
  predicate IpAccepted(markerIp: string, ip: string) {
    markerIp == UNKNOWN_IP || ip == UNKNOWN_IP || markerIp == ip
  }

  /**
   * The checks of `verifySessionToken` (security.ts:111-144), in the source's order, before
   * the store is consulted: the marker the token carries, or `None` when it is rejected.
   */
  function CheckToken(token: string, ip: string, now: nat, secret: string): Option<SessionMarker> {
    if token == "" || '.' !in token then None
    else
      var payload := FirstField(token, '.');
      var signature := SecondField(token, '.');
      if signature != Signature(payload, secret) then None
      else match Decode(payload)
        case None => None
        case Some(m) =>
          if !IpAccepted(m.ip, ip) then None
          else if now - m.timestamp > TOKEN_TTL_MS then None
          else Some(m)
  }

  /** A token is accepted exactly when every check passes, and then yields its decoded payload. */
  lemma CheckTokenAccepts(token: string, ip: string, now: nat, secret: string, m: SessionMarker)
    ensures CheckToken(token, ip, now, secret) == Some(m) <==>
      && token != "" && '.' in token
      && SecondField(token, '.') == Signature(FirstField(token, '.'), secret)
      && Decode(FirstField(token, '.')) == Some(m)
      && IpAccepted(m.ip, ip)
      && now - m.timestamp <= TOKEN_TTL_MS
  {
  }

  /** The token of a marker splits back into the marker's payload and signature. */
  lemma TokenSplits(m: SessionMarker, secret: string)
    ensures '.' in TokenFor(m, secret)
    ensures FirstField(TokenFor(m, secret), '.') == Encode(m)
    ensures SecondField(TokenFor(m, secret), '.') == Signature(Encode(m), secret)
  {
    EncodeHasNoDot(m);
    SignatureShape(Encode(m), secret);
    SplitJoined(Encode(m), '.', Signature(Encode(m), secret));
    assert TokenFor(m, secret) == Encode(m) + ['.'] + Signature(Encode(m), secret);
  }

  /**
   * Round trip: the token issued for a marker verifies, from any address the check accepts
   * and at any time up to and including one hour after issue, and yields the same marker.
   */
  lemma IssueThenCheck(m: SessionMarker, secret: string, ip: string, now: nat)
    requires IpAccepted(m.ip, ip)
    requires now - m.timestamp <= TOKEN_TTL_MS
    ensures CheckToken(TokenFor(m, secret), ip, now, secret) == Some(m)
  {
    TokenSplits(m, secret);
    DecodeEncode(m);
    assert TokenFor(m, secret) != "";
  }

  /** The same token, presented later than one hour after issue, is rejected. */
  lemma ExpiredTokenRejected(m: SessionMarker, secret: string, ip: string, now: nat)
    requires now - m.timestamp > TOKEN_TTL_MS
    ensures CheckToken(TokenFor(m, secret), ip, now, secret) == None
  {
    TokenSplits(m, secret);
    DecodeEncode(m);
  }

  /** The same token, presented from a different address where neither is 'unknown', is rejected. */
  lemma OtherAddressRejected(m: SessionMarker, secret: string, ip: string, now: nat)
    requires m.ip != ip && m.ip != UNKNOWN_IP && ip != UNKNOWN_IP
    ensures CheckToken(TokenFor(m, secret), ip, now, secret) == None
  {
    TokenSplits(m, secret);
    DecodeEncode(m);
  }

  /** A payload joined to anything but its own signature is rejected. */
  lemma ForgedSignatureRejected(payload: string, signature: string, secret: string, ip: string, now: nat)
    requires '.' !in payload && '.' !in signature
    requires signature != Signature(payload, secret)
    ensures CheckToken(payload + "." + signature, ip, now, secret) == None
  {
    SplitJoined(payload, '.', signature);
    assert payload + "." + signature == payload + ['.'] + signature;
  }

  /** A marker the store has seen, with the flags it remembers for the token (security.ts:146-155). */
  function Recall(checked: Option<SessionMarker>, sessions: map<string, SessionMarker>, token: string)
    : (r: (Option<SessionMarker>, map<string, SessionMarker>))
  {
    match checked
    case None => (None, sessions)
    case Some(m) =>
      if token in sessions then
        (Some(m.(webhookSent := sessions[token].webhookSent, capiSent := sessions[token].capiSent)), sessions)
      else (Some(m), sessions[token := m])
  }

  /** Only the de-duplication flags come from the store: every other field is the token's own. */
  lemma RecallKeepsPayload(checked: Option<SessionMarker>, sessions: map<string, SessionMarker>, token: string)
    ensures Recall(checked, sessions, token).0.Some? <==> checked.Some?
    ensures checked.Some? ==> var r := Recall(checked, sessions, token).0.value;
      r.(webhookSent := checked.value.webhookSent, capiSent := checked.value.capiSent) == checked.value
    ensures checked.Some? && token in sessions ==> var r := Recall(checked, sessions, token).0.value;
      r.webhookSent == sessions[token].webhookSent && r.capiSent == sessions[token].capiSent
  {
  }

  /**
   * Verifying the same token twice in a row: the second verification returns what the first
   * did and leaves the store as the first left it.
   */
  lemma RecallIdempotent(checked: Option<SessionMarker>, sessions: map<string, SessionMarker>, token: string)
    ensures var (first, after) := Recall(checked, sessions, token);
      Recall(checked, after, token) == (first, after)
  {
  }

  /** `isWebhookSent` (security.ts:255-257): the flag is exactly `true`. */
  predicate IsWebhookSent(m: SessionMarker) {
    m.webhookSent == Some(true)
  }

  /** `isCAPISent` (security.ts:264-266): the flag is exactly `true`. */
  predicate IsCapiSent(m: SessionMarker) {
    m.capiSent == Some(true)
  }

  /**
   * The life of the de-duplication flags: a freshly issued marker has neither flag set;
   * once `markWebhookSent` (or `markCAPISent`) has run for a stored token, every later
   * successful verification of it reads that flag as sent and the other flag as it was.
   */
  lemma SentFlagLifecycle(checked: Option<SessionMarker>, sessions: map<string, SessionMarker>, token: string,
                          referenceId: string, ip: string, chargeId: Option<string>, productSlug: Option<string>,
                          fullName: Option<string>, email: Option<string>, now: nat)
    ensures var issued := IssuedMarker(referenceId, ip, chargeId, productSlug, fullName, email, now);
      !IsWebhookSent(issued) && !IsCapiSent(issued)
    ensures checked.Some? && token in sessions ==>
      var webhookMarked := sessions[token := sessions[token].(webhookSent := Some(true))];
      var capiMarked := sessions[token := sessions[token].(capiSent := Some(true))];
      && IsWebhookSent(Recall(checked, webhookMarked, token).0.value)
      && (IsCapiSent(Recall(checked, webhookMarked, token).0.value) <==> IsCapiSent(sessions[token]))
      && IsCapiSent(Recall(checked, capiMarked, token).0.value)
      && (IsWebhookSent(Recall(checked, capiMarked, token).0.value) <==> IsWebhookSent(sessions[token]))
  {
  }

  /** No token whose flag reads as sent in `before` has lost it in `after`. */
  ghost predicate SentFlagsKept(before: map<string, SessionMarker>, after: map<string, SessionMarker>) {
    forall t :: t in before ==>
      t in after
      && (IsWebhookSent(before[t]) ==> IsWebhookSent(after[t]))
      && (IsCapiSent(before[t]) ==> IsCapiSent(after[t]))
  }

  /** The module-level `sessionStore` map together with the secret the module signs with. */
  class SessionStore {
    const secret: string
    var sessions: map<string, SessionMarker>

    constructor (sessionSecret: Option<string>)
      ensures secret == EffectiveSecret(sessionSecret)
      ensures sessions == map[]
    {
      secret := EffectiveSecret(sessionSecret);
      sessions := map[];
    }

    /** `createSessionToken` (security.ts:75-102): sign a fresh marker and remember it under its token. */
    method CreateSessionToken(referenceId: string, ip: string, chargeId: Option<string>,
                              productSlug: Option<string>, fullName: Option<string>,
                              email: Option<string>, now: nat) returns (token: string)
      modifies this
      ensures token == TokenFor(IssuedMarker(referenceId, ip, chargeId, productSlug, fullName, email, now), secret)
      ensures sessions == old(sessions)[token := IssuedMarker(referenceId, ip, chargeId, productSlug, fullName, email, now)]
      ensures token !in old(sessions) ==> SentFlagsKept(old(sessions), sessions)
    {
      var marker := IssuedMarker(referenceId, ip, chargeId, productSlug, fullName, email, now);
      var payload := Encode(marker);
      var signature := CreateHmac(payload, secret);
      token := payload + "." + signature;
      sessions := sessions[token := marker];
    }

    /**
     * `verifySessionToken` (security.ts:110-158): the checked marker with the stored flags,
     * and a first sighting of a valid token is remembered.
     */
    method VerifySessionToken(token: string, ip: string, now: nat) returns (r: Option<SessionMarker>)
      modifies this
      ensures (r, sessions) == Recall(CheckToken(token, ip, now, secret), old(sessions), token)
      ensures SentFlagsKept(old(sessions), sessions)
    {
      if token == "" || '.' !in token {
        return None;
      }
      var payload := FirstField(token, '.');
      var signature := SecondField(token, '.');
      var expectedSignature := CreateHmac(payload, secret);
      if signature != expectedSignature {
        return None;
      }
      var decoded := Decode(payload);
      if decoded.None? {
        return None;
      }
      var marker := decoded.value;
      var isUnknownIp := marker.ip == UNKNOWN_IP || ip == UNKNOWN_IP;
      if !isUnknownIp && marker.ip != ip {
        return None;
      }
      if now - marker.timestamp > TOKEN_TTL_MS {
        return None;
      }
      if token in sessions {
        marker := marker.(webhookSent := sessions[token].webhookSent, capiSent := sessions[token].capiSent);
      } else {
        sessions := sessions[token := marker];
      }
      r := Some(marker);
    }

    /** `updateSessionToken` (security.ts:163-168): set the charge id of a stored marker; unknown tokens are ignored. */
    method UpdateSessionToken(token: string, chargeId: string)
      modifies this
      ensures token in old(sessions) ==>
        sessions == old(sessions)[token := old(sessions)[token].(chargeId := Some(chargeId))]
      ensures token !in old(sessions) ==> sessions == old(sessions)
      ensures SentFlagsKept(old(sessions), sessions)
    {
      if token in sessions {
        sessions := sessions[token := sessions[token].(chargeId := Some(chargeId))];
      }
    }

    /** `markWebhookSent` (security.ts:232-237): set the flag of a stored marker; unknown tokens are ignored. */
    method MarkWebhookSent(token: string)
      modifies this
      ensures token in old(sessions) ==>
        sessions == old(sessions)[token := old(sessions)[token].(webhookSent := Some(true))]
      ensures token !in old(sessions) ==> sessions == old(sessions)
      ensures SentFlagsKept(old(sessions), sessions)
      ensures token in sessions ==> IsWebhookSent(sessions[token])
    {
      if token in sessions {
        sessions := sessions[token := sessions[token].(webhookSent := Some(true))];
      }
    }

    /** `markCAPISent` (security.ts:243-248): set the flag of a stored marker; unknown tokens are ignored. */
    method MarkCapiSent(token: string)
      modifies this
      ensures token in old(sessions) ==>
        sessions == old(sessions)[token := old(sessions)[token].(capiSent := Some(true))]
      ensures token !in old(sessions) ==> sessions == old(sessions)
      ensures SentFlagsKept(old(sessions), sessions)
      ensures token in sessions ==> IsCapiSent(sessions[token])
    {
      if token in sessions {
        sessions := sessions[token := sessions[token].(capiSent := Some(true))];
      }
    }
  }

  /**
   * After a successful verification the flags read from the result are the stored ones:
   * a webhook marked as sent for a token stays marked on every later verification of it,
   * and a charge id attached later with `updateSessionToken` is not what verification returns.
   */
  lemma VerifiedFlagsComeFromStore(token: string, ip: string, now: nat, secret: string,
                                   sessions: map<string, SessionMarker>)
    requires token in sessions && CheckToken(token, ip, now, secret).Some?
    ensures var r := Recall(CheckToken(token, ip, now, secret), sessions, token).0;
      r.Some?
      && (IsWebhookSent(sessions[token]) <==> IsWebhookSent(r.value))
      && (IsCapiSent(sessions[token]) <==> IsCapiSent(r.value))
      && r.value.chargeId == CheckToken(token, ip, now, secret).value.chargeId
  {
  }
}
