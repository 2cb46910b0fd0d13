/**
 * The load function of checkout/success/+page.server.ts: the page shows a confirmation only to
 * the browser that started the payment (a session token for the same reference) and only once
 * Beam reports the charge as succeeded, after polling a pending charge up to three more times.
 *
 * The request, the two cookies, the session store and the sequence of answers Beam gives are
 * inputs; sleeping, querying Beam and the two notifications are recorded as `Effect`s in the
 * order the code performs them.
 */
module CheckoutSuccess {
  import opened Wrappers
  import opened Kit
  import opened Beam
  import opened Int32Hash
  import opened SessionCodec
  import opened SessionStore
  import opened Products
  import opened RequestInput
  import opened Text

  const MAX_RETRIES: nat := 3
  const RETRY_DELAYS: seq<nat> := [2000, 3000, 4000]
  const UNAUTHORIZED_MESSAGE: string := "Unauthorized access to payment confirmation"
  const NO_SLUG_MESSAGE: string := "Unable to identify product. Please contact support."
  const NO_PRODUCT_MESSAGE: string := "Product not found. Please contact support."
  const UNVERIFIED_MESSAGE: string := "Unable to verify payment status. Please contact support."

  /**
   * What the load reads from its request: the forwarding headers, the `ref`, `chargeId` and
   * `token` query parameters, the `beam_session` and `beam_charge_id` cookies, the
   * `user-agent` header and the page URL.
   */
  datatype SuccessRequest = SuccessRequest(
    forwardedFor: Option<string>,
    realIp: Option<string>,
    ref: Option<string>,
    chargeId: Option<string>,
    token: Option<string>,
    sessionCookie: Option<string>,
    chargeIdCookie: Option<string>,
    userAgent: Option<string>,
    pageUrl: string)

  /** The argument of `triggerWebhookIfNeeded` (lines 147-153). */
  datatype WebhookEvent = WebhookEvent(chargeId: string, referenceId: string, productSlug: string,
                                       customerEmail: Option<string>, customerFullName: Option<string>)

  /** The argument of `triggerCAPIIfNeeded` (lines 156-165). */
  datatype CapiEvent = CapiEvent(chargeId: string, referenceId: string, productSlug: string,
                                 customerEmail: Option<string>, fbclid: Option<string>, clientIp: string,
                                 userAgent: Option<string>, eventSourceUrl: string)

  /** `Query(k)`: the k-th `getCharge` call (from 0); `Wait(ms)`: a sleep; then the notifications. */
  datatype Effect =
    | Query(call: nat)
    | Wait(ms: nat)
    | NotifyWebhook(webhook: WebhookEvent)
    | NotifyCapi(capi: CapiEvent)

  /** The `product` part of the page data (lines 172-184). */
  datatype ProductView = ProductView(name: string, price: int, currency: string, slug: string,
                                     logoUrl: Option<string>, successMessage: SuccessMessage)

  /** The page data (lines 167-185). */
  datatype SuccessPage = SuccessPage(referenceId: string, chargeId: string, verified: bool,
                                     eventId: string, product: ProductView)

  const DEFAULT_SUCCESS_MESSAGE: SuccessMessage := SuccessMessage(
    "Payment Successful!",
    "Thank you for your purchase. You will receive a confirmation email shortly.",
    ["Check your email for order confirmation"])

  /** The sleeps and queries of a charge that stays pending throughout. */
  const POLL_SCHEDULE: seq<Effect> :=
    [Query(0), Wait(2000), Query(1), Wait(3000), Query(2), Wait(4000), Query(3)]

  function ClientIp(req: SuccessRequest): string {
    GetClientIp(req.forwardedFor, req.realIp)
  }

  /** `token || beam_session || ''` (line 21). */
  function SessionToken(req: SuccessRequest): (token: string)
    ensures Truthy(req.token) ==> token == req.token.value
    ensures !Truthy(req.token) && Truthy(req.sessionCookie) ==> token == req.sessionCookie.value
    ensures !Truthy(req.token) && !Truthy(req.sessionCookie) ==> token == ""
  {
    OrElse(OrElse(req.token, req.sessionCookie), Some("")).value
  }

  /** What `verifySessionToken(token, clientIp)` returns against the store `sessions`. */
  function Verified(req: SuccessRequest, secret: string, sessions: map<string, SessionMarker>, now: nat)
    : Option<SessionMarker>
  {
    var token := SessionToken(req);
    Recall(CheckToken(token, ClientIp(req), now, secret), sessions, token).0
  }

  /** The store after the load: every verification of the token happens once `ref` is present. */
  function SessionsAfter(req: SuccessRequest, secret: string, sessions: map<string, SessionMarker>, now: nat)
    : map<string, SessionMarker>
  {
    if Truthy(req.ref) then
      var token := SessionToken(req);
      Recall(CheckToken(token, ClientIp(req), now, secret), sessions, token).1
    else sessions
  }

  function MarkerChargeId(marker: Option<SessionMarker>): Option<string> {
    if marker.Some? then marker.value.chargeId else None
  }

  /**
   * The charge id of lines 20-52: the query parameter, else the one the session token
   * carries, else the `beam_charge_id` cookie, each only when non-empty; `None` when all
   * three are missing or empty.
   */
  function ResolveChargeId(param: Option<string>, marker: Option<SessionMarker>, cookie: Option<string>)
    : (r: Option<string>)
    ensures r.None? <==> !Truthy(param) && !Truthy(MarkerChargeId(marker)) && !Truthy(cookie)
    ensures r.Some? ==> Truthy(r) && (r == param || r == MarkerChargeId(marker) || r == cookie)
    ensures Truthy(param) ==> r == param
    ensures !Truthy(param) && Truthy(MarkerChargeId(marker)) ==> r == MarkerChargeId(marker)
  {
    if Truthy(param) then param
    else if Truthy(MarkerChargeId(marker)) then MarkerChargeId(marker)
    else if Truthy(cookie) then cookie
    else None
  }

  predicate IsPending(q: ChargeQuery) {
    q.Answered? && q.charge.status == Pending
  }

  /**
   * The number of retries the loop of lines 105-116 makes when the k-th `getCharge` call
   * settles as `getCharge(k)`: the calls before it were all pending, and it is the first
   * that is not, unless all three retries are used up.
   */
  function Settled(getCharge: nat -> ChargeQuery): (k: nat)
    ensures k <= MAX_RETRIES
    ensures k < MAX_RETRIES ==> !IsPending(getCharge(k))
  {
    if !IsPending(getCharge(0)) then 0
    else if !IsPending(getCharge(1)) then 1
    else if !IsPending(getCharge(2)) then 2
    else 3
  }

  /** The answers before the settling one were all pending, so it is the first that is not. */
  lemma PendingBeforeSettled(getCharge: nat -> ChargeQuery)
    ensures forall j :: 0 <= j < Settled(getCharge) ==> IsPending(getCharge(j))
  {
  }

  /**
   * The polling of lines 98-116: the answer the loop ends with, and the queries and sleeps it
   * made, which follow the schedule 2 s, 3 s, 4 s for as long as the charge stays pending.
   */
  method PollCharge(getCharge: nat -> ChargeQuery) returns (charge: ChargeQuery, trace: seq<Effect>)
    ensures charge == getCharge(Settled(getCharge))
    ensures trace == POLL_SCHEDULE[..2 * Settled(getCharge) + 1]
  {
    charge := getCharge(0);
    trace := [Query(0)];
    var retryCount: nat := 0;
    while IsPending(charge) && retryCount < MAX_RETRIES
      invariant retryCount <= MAX_RETRIES
      invariant charge == getCharge(retryCount)
      invariant forall j :: 0 <= j < retryCount ==> IsPending(getCharge(j))
      invariant trace == POLL_SCHEDULE[..2 * retryCount + 1]
    {
      var delay := RETRY_DELAYS[retryCount];
      trace := trace + [Wait(delay)];
      charge := getCharge(retryCount + 1);
      trace := trace + [Query(retryCount + 1)];
      retryCount := retryCount + 1;
    }
  }

  /** `/checkout/failed?reason=...&chargeId=...` for a charge that is answered but not succeeded (line 136-137). */
  function FailedLocation(status: ChargeStatus, chargeId: string): string {
    "/checkout/failed?reason=" + (if status == Pending then "pending" else "failed") + "&chargeId=" + chargeId
  }

  /** The product data of lines 172-184, with the default success message when the product has none. */
  function View(p: Product): ProductView {
    ProductView(p.name, p.price, p.currency, p.slug, p.logoUrl, p.successMessage.GetOr(DEFAULT_SUCCESS_MESSAGE))
  }

  /**
   * Lines 75-185, once the buyer is authorised for reference `ref` and charge `chargeId` with
   * the session marker `m`: find the product, poll Beam, and either leave for the failed page
   * or notify and render. `extractSlug` is `extractSlugFromRef`, and `getCharge(k)` is how the
   * k-th `getCharge(chargeId)` call settles.
   */
  function Fulfilment(req: SuccessRequest, ref: string, chargeId: string, m: SessionMarker, catalog: seq<Product>,
                      extractSlug: string -> Option<string>, getCharge: nat -> ChargeQuery)
    : (Outcome<SuccessPage>, seq<Effect>)
  {
    var slug := OrElse(m.productSlug, extractSlug(ref));
    if !Truthy(slug) then (HttpError(500, NO_SLUG_MESSAGE), [])
    else match GetProductBySlug(catalog, slug.value)
      case None => (HttpError(500, NO_PRODUCT_MESSAGE), [])
      case Some(product) =>
        var k := Settled(getCharge);
        var polls := POLL_SCHEDULE[..2 * k + 1];
        match getCharge(k)
        case Rejected => (HttpError(500, UNVERIFIED_MESSAGE), polls)
        case Answered(charge) =>
          if charge.status != Succeeded then (Redirect(303, FailedLocation(charge.status, chargeId)), polls)
          else
            var (page, notifications) := Confirmation(req, ref, chargeId, m, slug.value, product, charge);
            (Render(page), polls + notifications)
  }

  /**
   * Lines 141-185, for a charge that has succeeded: the webhook, then the Conversions API
   * event, and the page data.
   */
  function Confirmation(req: SuccessRequest, ref: string, chargeId: string, m: SessionMarker, slug: string,
                        product: Product, charge: Charge): (SuccessPage, seq<Effect>)
  {
    var email := OrElse(charge.customerEmail, m.email);
    var webhook := WebhookEvent(chargeId, ref, slug, email, m.fullName);
    var capi := CapiEvent(chargeId, ref, slug, email, None, ClientIp(req), req.userAgent, req.pageUrl);
    (SuccessPage(ref, chargeId, true, EventId(ref), View(product)), [NotifyWebhook(webhook), NotifyCapi(capi)])
  }

  /**
   * The load of lines 16-186, given the marker `verifySessionToken` returns: the outcome and
   * the effects, in order.
   */
  function SuccessLoad(req: SuccessRequest, marker: Option<SessionMarker>, catalog: seq<Product>,
                       extractSlug: string -> Option<string>, getCharge: nat -> ChargeQuery)
    : (Outcome<SuccessPage>, seq<Effect>)
  {
    if !Truthy(req.ref) then (Redirect(303, "/"), [])
    else
      var chargeId := ResolveChargeId(req.chargeId, marker, req.chargeIdCookie);
      if chargeId.None? then (Redirect(303, "/"), [])
      else if marker.None? || marker.value.referenceId != req.ref.value then (HttpError(403, UNAUTHORIZED_MESSAGE), [])
      else Fulfilment(req, req.ref.value, chargeId.value, marker.value, catalog, extractSlug, getCharge)
  }

  /** Lines 75-185 as the code runs them. */
  method Fulfil(req: SuccessRequest, ref: string, chargeId: string, marker: SessionMarker, catalog: seq<Product>,
                extractSlug: string -> Option<string>, getCharge: nat -> ChargeQuery)
    returns (outcome: Outcome<SuccessPage>, effects: seq<Effect>)
    ensures (outcome, effects) == Fulfilment(req, ref, chargeId, marker, catalog, extractSlug, getCharge)
  {
    var productSlug := OrElse(marker.productSlug, extractSlug(ref));
    if !Truthy(productSlug) {
      return HttpError(500, NO_SLUG_MESSAGE), [];
    }
    var product := GetProductBySlug(catalog, productSlug.value);
    if product.None? {
      return HttpError(500, NO_PRODUCT_MESSAGE), [];
    }

    var charge;
    charge, effects := PollCharge(getCharge);
    if charge.Rejected? {
      return HttpError(500, UNVERIFIED_MESSAGE), effects;
    }
    if charge.charge.status != Succeeded {
      return Redirect(303, FailedLocation(charge.charge.status, chargeId)), effects;
    }

    var page, notifications := Confirm(req, ref, chargeId, marker, productSlug.value, product.value, charge.charge);
    outcome := Render(page);
    effects := effects + notifications;
  }

  /** Lines 141-185 as the code runs them. */
  method Confirm(req: SuccessRequest, ref: string, chargeId: string, marker: SessionMarker, slug: string,
                 product: Product, charge: Charge)
    returns (page: SuccessPage, notifications: seq<Effect>)
    ensures (page, notifications) == Confirmation(req, ref, chargeId, marker, slug, product, charge)
  {
    var eventId := GenerateEventId(ref);
    var email := OrElse(charge.customerEmail, marker.email);
    var clientIp := GetClientIp(req.forwardedFor, req.realIp);
    var webhook := WebhookEvent(chargeId, ref, slug, email, marker.fullName);
    var capi := CapiEvent(chargeId, ref, slug, email, None, clientIp, req.userAgent, req.pageUrl);
    notifications := [NotifyWebhook(webhook), NotifyCapi(capi)];
    page := SuccessPage(ref, chargeId, true, eventId, View(product));
  }

  /** The buyer gets past lines 26-73: a reference, a charge id, and a session for that reference. */
  predicate Authorised(req: SuccessRequest, marker: Option<SessionMarker>) {
    && Truthy(req.ref)
    && ResolveChargeId(req.chargeId, marker, req.chargeIdCookie).Some?
    && marker.Some? && marker.value.referenceId == req.ref.value
  }

  /** The slug of line 75: the session's, else the one read from the reference. */
  function ProductSlug(req: SuccessRequest, marker: SessionMarker, extractSlug: string -> Option<string>)
    : Option<string>
    requires Truthy(req.ref)
  {
    OrElse(marker.productSlug, extractSlug(req.ref.value))
  }

  /** The product the page is for, when the checks of lines 75-88 find one. */
  function ProductFor(req: SuccessRequest, marker: SessionMarker, catalog: seq<Product>,
                      extractSlug: string -> Option<string>): Option<Product>
    requires Truthy(req.ref)
  {
    var slug := ProductSlug(req, marker, extractSlug);
    if Truthy(slug) then GetProductBySlug(catalog, slug.value) else None
  }

  /**
   * Beam is never asked about a charge, and nothing is sent, unless the request is
   * authorised and names a known product; an unauthorised request is sent home or refused
   * with 403.
   */
  lemma NoEffectsBeforeAuthorisation(req: SuccessRequest, marker: Option<SessionMarker>, catalog: seq<Product>,
                                     extractSlug: string -> Option<string>, getCharge: nat -> ChargeQuery)
    ensures var (outcome, effects) := SuccessLoad(req, marker, catalog, extractSlug, getCharge);
      && (effects != [] ==>
            Authorised(req, marker) && ProductFor(req, marker.value, catalog, extractSlug).Some?)
      && (!Authorised(req, marker) ==>
            effects == [] && (outcome == Redirect(303, "/") || outcome == HttpError(403, UNAUTHORIZED_MESSAGE)))
  {
  }

  /**
   * Every way the load ends without a page: no `ref` or no charge id sends the buyer home,
   * in that order and before the session is checked; a session for another reference (or
   * none) gets 403; a missing slug or an unknown product gets 500 before Beam is asked; a
   * rejected `getCharge` gets 500 after the queries and sleeps made until then.
   */
  lemma LoadExits(req: SuccessRequest, marker: Option<SessionMarker>, catalog: seq<Product>,
                  extractSlug: string -> Option<string>, getCharge: nat -> ChargeQuery)
    ensures var r := SuccessLoad(req, marker, catalog, extractSlug, getCharge);
      var chargeId := ResolveChargeId(req.chargeId, marker, req.chargeIdCookie);
      && (!Truthy(req.ref) ==> r == (Redirect(303, "/"), []))
      && (Truthy(req.ref) && chargeId.None? ==> r == (Redirect(303, "/"), []))
      && (Truthy(req.ref) && chargeId.Some? && (marker.None? || marker.value.referenceId != req.ref.value) ==>
            r == (HttpError(403, UNAUTHORIZED_MESSAGE), []))
      && (Authorised(req, marker) && !Truthy(ProductSlug(req, marker.value, extractSlug)) ==>
            r == (HttpError(500, NO_SLUG_MESSAGE), []))
      && (Authorised(req, marker) && Truthy(ProductSlug(req, marker.value, extractSlug))
          && ProductFor(req, marker.value, catalog, extractSlug).None? ==>
            r == (HttpError(500, NO_PRODUCT_MESSAGE), []))
      && (Authorised(req, marker) && ProductFor(req, marker.value, catalog, extractSlug).Some?
          && getCharge(Settled(getCharge)).Rejected? ==>
            r == (HttpError(500, UNVERIFIED_MESSAGE), POLL_SCHEDULE[..2 * Settled(getCharge) + 1]))
  {
  }

  /** Each entry of the schedule is the query or the sleep its position calls for. */
  lemma ScheduleByPosition()
    ensures forall i :: 0 <= i < |POLL_SCHEDULE| ==>
      if i % 2 == 0 then POLL_SCHEDULE[i] == Query(i / 2) else POLL_SCHEDULE[i] == Wait(RETRY_DELAYS[i / 2])
  {
  }

  /** The effects of the fulfilment are a prefix of the schedule, followed by notifications only. */
  lemma FulfilmentEffects(req: SuccessRequest, ref: string, chargeId: string, m: SessionMarker, catalog: seq<Product>,
                          extractSlug: string -> Option<string>, getCharge: nat -> ChargeQuery)
    ensures var effects := Fulfilment(req, ref, chargeId, m, catalog, extractSlug, getCharge).1;
      && |effects| <= |POLL_SCHEDULE| + 2
      && forall i :: 0 <= i < |effects| ==>
        (i < |POLL_SCHEDULE| && effects[i] == POLL_SCHEDULE[i]) || effects[i].NotifyWebhook? || effects[i].NotifyCapi?
  {
    var slug := OrElse(m.productSlug, extractSlug(ref));
    if Truthy(slug) && GetProductBySlug(catalog, slug.value).Some? {
      var effects := Fulfilment(req, ref, chargeId, m, catalog, extractSlug, getCharge).1;
      var polls := POLL_SCHEDULE[..2 * Settled(getCharge) + 1];
      assert effects == polls || (|effects| == |polls| + 2 && effects[..|polls|] == polls
        && effects[|polls|].NotifyWebhook? && effects[|polls| + 1].NotifyCapi?);
      ScheduleThenNotes(effects, |polls|);
    }
  }

  lemma ScheduleThenNotes(effects: seq<Effect>, n: nat)
    requires n <= |POLL_SCHEDULE| && n <= |effects| <= n + 2 && effects[..n] == POLL_SCHEDULE[..n]
    requires n < |effects| ==> effects[n].NotifyWebhook?
    requires n + 1 < |effects| ==> effects[n + 1].NotifyCapi?
    ensures forall i :: 0 <= i < |effects| ==>
      (i < |POLL_SCHEDULE| && effects[i] == POLL_SCHEDULE[i]) || effects[i].NotifyWebhook? || effects[i].NotifyCapi?
  {
    forall i | 0 <= i < n
      ensures effects[i] == POLL_SCHEDULE[i]
    {
      assert effects[i] == effects[..n][i];
    }
  }

  /**
   * The polling stays within its bounds: at most four queries, numbered 0 to 3, each retry
   * preceded by a sleep of 2, 3 or 4 seconds, and at most two notifications after them.
   */
  lemma PollingBounds(req: SuccessRequest, marker: Option<SessionMarker>, catalog: seq<Product>,
                      extractSlug: string -> Option<string>, getCharge: nat -> ChargeQuery)
    ensures var effects := SuccessLoad(req, marker, catalog, extractSlug, getCharge).1;
      && |effects| <= 2 * MAX_RETRIES + 3
      && (forall i :: 0 <= i < |effects| && effects[i].Query? ==>
            effects[i].call <= MAX_RETRIES && effects[i] == Query(i / 2))
      && (forall i :: 0 <= i < |effects| && effects[i].Wait? ==>
            effects[i] == Wait(RETRY_DELAYS[i / 2]))
  {
    if Authorised(req, marker) {
      var chargeId := ResolveChargeId(req.chargeId, marker, req.chargeIdCookie).value;
      assert SuccessLoad(req, marker, catalog, extractSlug, getCharge)
        == Fulfilment(req, req.ref.value, chargeId, marker.value, catalog, extractSlug, getCharge);
      FulfilmentEffects(req, req.ref.value, chargeId, marker.value, catalog, extractSlug, getCharge);
      ScheduleByPosition();
    }
  }

  /**
   * Notifications happen exactly when the page renders, which is exactly when the request is
   * authorised, the product is known and the charge Beam finally reports has succeeded; the
   * webhook goes before the Conversions API event, both for the same charge and reference,
   * and the latter never carries a click id.
   */
  lemma NotifiesOnlyOnSuccess(req: SuccessRequest, marker: Option<SessionMarker>, catalog: seq<Product>,
                              extractSlug: string -> Option<string>, getCharge: nat -> ChargeQuery)
    ensures var (outcome, effects) := SuccessLoad(req, marker, catalog, extractSlug, getCharge);
      && (outcome.Render? <==>
            && Authorised(req, marker)
            && ProductFor(req, marker.value, catalog, extractSlug).Some?
            && getCharge(Settled(getCharge)).Answered?
            && getCharge(Settled(getCharge)).charge.status == Succeeded)
      && (outcome.Render? ==>
            && |effects| >= 2
            && effects[|effects| - 2].NotifyWebhook? && effects[|effects| - 1].NotifyCapi?
            && effects[|effects| - 2].webhook.chargeId == outcome.data.chargeId
            && effects[|effects| - 1].capi.chargeId == outcome.data.chargeId
            && effects[|effects| - 2].webhook.referenceId == outcome.data.referenceId
            && effects[|effects| - 1].capi.referenceId == outcome.data.referenceId
            && effects[|effects| - 1].capi.fbclid.None?)
      && (!outcome.Render? ==> forall i :: 0 <= i < |effects| ==> effects[i].Query? || effects[i].Wait?)
  {
  }

  /** A rendered fulfilment shows the reference and charge it was given and the product of the slug. */
  lemma FulfilmentPage(req: SuccessRequest, ref: string, chargeId: string, m: SessionMarker, catalog: seq<Product>,
                       extractSlug: string -> Option<string>, getCharge: nat -> ChargeQuery)
    requires Fulfilment(req, ref, chargeId, m, catalog, extractSlug, getCharge).0.Render?
    ensures var page := Fulfilment(req, ref, chargeId, m, catalog, extractSlug, getCharge).0.data;
      && page.verified && page.referenceId == ref && page.chargeId == chargeId && page.eventId == EventId(ref)
      && Some(page.product.slug) == OrElse(m.productSlug, extractSlug(ref))
  {
  }

  /**
   * The confirmation shows the reference of the session that started the payment, the charge
   * checked with Beam, `verified: true` and the 16-hex-digit event id of the reference.
   */
  lemma RenderedPageIsVerified(req: SuccessRequest, marker: Option<SessionMarker>, catalog: seq<Product>,
                               extractSlug: string -> Option<string>, getCharge: nat -> ChargeQuery)
    requires SuccessLoad(req, marker, catalog, extractSlug, getCharge).0.Render?
    ensures var page := SuccessLoad(req, marker, catalog, extractSlug, getCharge).0.data;
      && page.verified
      && page.referenceId == req.ref.value == marker.value.referenceId
      && Some(page.chargeId) == ResolveChargeId(req.chargeId, marker, req.chargeIdCookie)
      && page.eventId == EventId(page.referenceId)
      && |page.eventId| == 16 && AllDigitsIn(page.eventId, 16)
      && Some(page.product.slug) == ProductSlug(req, marker.value, extractSlug)
  {
    assert Authorised(req, marker);
    var chargeId := ResolveChargeId(req.chargeId, marker, req.chargeIdCookie).value;
    assert SuccessLoad(req, marker, catalog, extractSlug, getCharge)
      == Fulfilment(req, req.ref.value, chargeId, marker.value, catalog, extractSlug, getCharge);
    FulfilmentPage(req, req.ref.value, chargeId, marker.value, catalog, extractSlug, getCharge);
    EventIdShape(req.ref.value);
  }

  /**
   * A charge still pending after the last retry, or one that failed, sends the buyer to the
   * failed page with reason "pending" or "failed" respectively; "pending" means all four
   * answers were pending.
   */
  lemma UnsucceededGoesToFailedPage(req: SuccessRequest, marker: Option<SessionMarker>, catalog: seq<Product>,
                                    extractSlug: string -> Option<string>, getCharge: nat -> ChargeQuery)
    requires Authorised(req, marker) && ProductFor(req, marker.value, catalog, extractSlug).Some?
    requires getCharge(Settled(getCharge)).Answered? && getCharge(Settled(getCharge)).charge.status != Succeeded
    ensures var chargeId := ResolveChargeId(req.chargeId, marker, req.chargeIdCookie).value;
      var status := getCharge(Settled(getCharge)).charge.status;
      && SuccessLoad(req, marker, catalog, extractSlug, getCharge).0 == Redirect(303, FailedLocation(status, chargeId))
      && (status == Pending ==> forall k :: 0 <= k <= MAX_RETRIES ==> IsPending(getCharge(k)))
      && (status == Pending ==> SuccessLoad(req, marker, catalog, extractSlug, getCharge).1 == POLL_SCHEDULE)
  {
    PendingBeforeSettled(getCharge);
  }

  /**
   * The buyer who holds the token `createSessionToken` issued for the reference, from an
   * accepted address and within the hour, is let through the checks of lines 26-73 as long as
   * a charge id is known, and the marker is the issued one with the store's flags.
   */
  lemma IssuedTokenAuthorises(req: SuccessRequest, m: SessionMarker, secret: string,
                              sessions: map<string, SessionMarker>, now: nat)
    requires req.token == Some(TokenFor(m, secret))
    requires IpAccepted(m.ip, ClientIp(req)) && now - m.timestamp <= TOKEN_TTL_MS
    requires req.ref == Some(m.referenceId) && m.referenceId != ""
    requires Truthy(req.chargeId) || Truthy(m.chargeId)
    ensures Authorised(req, Verified(req, secret, sessions, now))
    ensures Verified(req, secret, sessions, now).value.(webhookSent := m.webhookSent, capiSent := m.capiSent) == m
  {
    var token := TokenFor(m, secret);
    IssueThenCheck(m, secret, ClientIp(req), now);
    assert SessionToken(req) == token;
    RecallKeepsPayload(Some(m), sessions, token);
    var verified := Verified(req, secret, sessions, now);
    assert verified == Recall(Some(m), sessions, token).0;
    AuthorisedByMarker(req, verified, m);
  }

  /** A marker for the request's reference authorises it once a charge id is known. */
  lemma AuthorisedByMarker(req: SuccessRequest, marker: Option<SessionMarker>, m: SessionMarker)
    requires marker.Some? && marker.value.(webhookSent := m.webhookSent, capiSent := m.capiSent) == m
    requires req.ref == Some(m.referenceId) && m.referenceId != ""
    requires Truthy(req.chargeId) || Truthy(m.chargeId)
    ensures Authorised(req, marker)
  {
    assert marker.value.referenceId == m.referenceId && marker.value.chargeId == m.chargeId;
  }

  /**
   * The load against the session store: the result is `SuccessLoad` for the marker the store
   * yields, and the store is left as verifying the token once leaves it.
   */
  method Load(store: SessionStore, req: SuccessRequest, now: nat, catalog: seq<Product>,
              extractSlug: string -> Option<string>, getCharge: nat -> ChargeQuery)
    returns (outcome: Outcome<SuccessPage>, effects: seq<Effect>)
    modifies store
    ensures (outcome, effects) ==
      SuccessLoad(req, Verified(req, store.secret, old(store.sessions), now), catalog, extractSlug, getCharge)
    ensures store.sessions == SessionsAfter(req, store.secret, old(store.sessions), now)
  {
    var clientIp := GetClientIp(req.forwardedFor, req.realIp);
    var referenceId := req.ref;
    var chargeId := req.chargeId;
    var token := SessionToken(req);
    ghost var checked := CheckToken(token, clientIp, now, store.secret);
    ghost var sessions0 := store.sessions;
    RecallIdempotent(checked, sessions0, token);

    if !Truthy(referenceId) {
      return Redirect(303, "/"), [];
    }

    if !Truthy(chargeId) {
      if token != "" {
        var sessionMarker := store.VerifySessionToken(token, clientIp, now);
        if sessionMarker.Some? && Truthy(sessionMarker.value.chargeId) {
          chargeId := sessionMarker.value.chargeId;
        }
      }
      if !Truthy(chargeId) && Truthy(req.chargeIdCookie) {
        chargeId := req.chargeIdCookie;
      }
    }
    assert store.sessions == sessions0 || store.sessions == Recall(checked, sessions0, token).1;
    assert Truthy(chargeId) <==> ResolveChargeId(req.chargeId, Recall(checked, sessions0, token).0, req.chargeIdCookie).Some?;

    if !Truthy(chargeId) {
      return Redirect(303, "/"), [];
    }

    var sessionMarker := store.VerifySessionToken(token, clientIp, now);
    if sessionMarker.None? || sessionMarker.value.referenceId != referenceId.value {
      return HttpError(403, UNAUTHORIZED_MESSAGE), [];
    }
    outcome, effects := Fulfil(req, referenceId.value, chargeId.value, sessionMarker.value, catalog, extractSlug, getCharge);
  }
}
