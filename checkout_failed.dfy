/**
 * The load function of checkout/failed/+page.server.ts: for a payment reported as pending,
 * ask Beam once more, and when the charge has succeeded meanwhile send the buyer back to the
 * success page. `reply` is how that one `getCharge` call settles.
 *
 * The recovery redirect at line 30 is a throwing `redirect()` inside the `try` whose `catch`
 * at line 33 accepts anything thrown; `LoadAsWritten` is the function as the code stands and
 * `Load` is the intended one, in which the redirect leaves the function.
 */
module CheckoutFailed {
  import opened Wrappers
  import opened Kit
  import opened Beam

  /** The data the page renders (failed/+page.server.ts:39-42). */
  datatype FailedPage = FailedPage(reason: Option<string>, chargeId: Option<string>)

  /** The load's result and whether it called `getCharge`. */
  datatype FailedLoad = FailedLoad(outcome: Outcome<FailedPage>, queried: bool)

  /** What leaves the `try` of lines 16-32 by throwing. */
  datatype Thrown = ThrownRedirect(location: string) | QueryError

  /** The condition of line 15. */
  predicate ShouldRecheck(reason: Option<string>, chargeId: Option<string>) {
    reason == Some("pending") && Truthy(chargeId)
  }

  /** The success-page URL of line 30; the session token is appended only when the cookie is set. */
  function RecoveryLocation(ref: string, chargeId: string, sessionCookie: Option<string>): string {
    "/checkout/success?ref=" + ref + "&chargeId=" + chargeId
      + (if Truthy(sessionCookie) then "&token=" + sessionCookie.value else "")
  }

  /** What the `try` block throws, if anything: the query's rejection, or the recovery redirect. */
  function RecoveryTry(chargeId: string, sessionCookie: Option<string>, reply: ChargeQuery): Option<Thrown> {
    match reply
    case Rejected => Some(QueryError)
    case Answered(charge) =>
      if charge.status == Succeeded && Truthy(charge.referenceId) then
        Some(ThrownRedirect(RecoveryLocation(charge.referenceId.value, chargeId, sessionCookie)))
      else None
  }

  /**
   * Which thrown values the `catch (err)` of line 33 takes: as written it takes every one;
   * as intended a redirect passes through it, as the product page's `catch` lets it do.
   */
  datatype CatchPolicy = CatchEverything | RethrowRedirect

  /**
   * How the load ends once the `try` of lines 16-32 is over: a redirect that the `catch` lets
   * through leaves the load; anything it takes, like a `try` that threw nothing, goes on to
   * render the page of lines 39-42.
   */
  function AfterTry(policy: CatchPolicy, thrown: Option<Thrown>, page: FailedPage): Outcome<FailedPage> {
    match thrown
    case Some(ThrownRedirect(location)) =>
      if policy == RethrowRedirect then Redirect(303, location) else Render(page)
    case _ => Render(page)
  }

  /** The load of lines 7-43 with the `catch` of line 33 following `policy`. */
  function LoadWith(policy: CatchPolicy, reason: Option<string>, chargeId: Option<string>,
                    sessionCookie: Option<string>, reply: ChargeQuery): FailedLoad
  {
    var page := FailedPage(reason, chargeId);
    if ShouldRecheck(reason, chargeId) then
      FailedLoad(AfterTry(policy, RecoveryTry(chargeId.value, sessionCookie, reply), page), true)
    else FailedLoad(Render(page), false)
  }

  /**
   * The load as written: the `catch` of line 33 takes whatever the `try` threw, the redirect
   * included, so the page always renders the reason and charge id it was given.
   */
  function LoadAsWritten(reason: Option<string>, chargeId: Option<string>, sessionCookie: Option<string>,
                         reply: ChargeQuery): (r: FailedLoad)
    ensures r.queried <==> ShouldRecheck(reason, chargeId)
    ensures r.outcome == Render(FailedPage(reason, chargeId))
  {
    LoadWith(CatchEverything, reason, chargeId, sessionCookie, reply)
  }

  /** The load as intended: a recovery redirect leaves the function; a rejected query is still swallowed. */
  function Load(reason: Option<string>, chargeId: Option<string>, sessionCookie: Option<string>,
                reply: ChargeQuery): FailedLoad
  {
    LoadWith(RethrowRedirect, reason, chargeId, sessionCookie, reply)
  }

  /** The two loads part exactly where the `try` throws the recovery redirect. */
  lemma CatchIsTheOnlyDifference(reason: Option<string>, chargeId: Option<string>, sessionCookie: Option<string>,
                                 reply: ChargeQuery)
    ensures Load(reason, chargeId, sessionCookie, reply).queried == LoadAsWritten(reason, chargeId, sessionCookie, reply).queried
    ensures Load(reason, chargeId, sessionCookie, reply) != LoadAsWritten(reason, chargeId, sessionCookie, reply) <==>
      ShouldRecheck(reason, chargeId) && RecoveryTry(chargeId.value, sessionCookie, reply).Some?
      && RecoveryTry(chargeId.value, sessionCookie, reply).value.ThrownRedirect?
  {
  }

  /**
   * The intended recovery: Beam is asked only for a pending payment with a charge id; the page
   * redirects exactly when that charge has since succeeded and carries a reference, to the
   * success page for that reference and charge; otherwise it renders what it was given.
   */
  lemma LoadRecovers(reason: Option<string>, chargeId: Option<string>, sessionCookie: Option<string>,
                     reply: ChargeQuery)
    ensures Load(reason, chargeId, sessionCookie, reply).queried <==> ShouldRecheck(reason, chargeId)
    ensures var recovered := ShouldRecheck(reason, chargeId) && reply.Answered?
        && reply.charge.status == Succeeded && Truthy(reply.charge.referenceId);
      && (recovered ==>
            Load(reason, chargeId, sessionCookie, reply).outcome ==
            Redirect(303, RecoveryLocation(reply.charge.referenceId.value, chargeId.value, sessionCookie)))
      && (!recovered ==> Load(reason, chargeId, sessionCookie, reply).outcome == Render(FailedPage(reason, chargeId)))
  {
  }

  /** The token travels in the URL exactly when the session cookie is set. */
  lemma RecoveryLocationCarriesToken(ref: string, chargeId: string, token: string)
    requires token != ""
    ensures RecoveryLocation(ref, chargeId, Some(token)) == RecoveryLocation(ref, chargeId, None) + "&token=" + token
    ensures RecoveryLocation(ref, chargeId, None) == "/checkout/success?ref=" + ref + "&chargeId=" + chargeId
  {
  }

  /**
   * The discrepancy: a charge that has succeeded since the buyer landed here produces the
   * recovery redirect inside the `try`, and the page as written still renders the failure.
   */
  lemma SwallowedRedirect()
    ensures var reply := Answered(Charge(Succeeded, Some("REF-1"), None));
      && RecoveryTry("ch_1", None, reply) == Some(ThrownRedirect("/checkout/success?ref=REF-1&chargeId=ch_1"))
      && LoadAsWritten(Some("pending"), Some("ch_1"), None, reply).outcome == Render(FailedPage(Some("pending"), Some("ch_1")))
      && Load(Some("pending"), Some("ch_1"), None, reply).outcome == Redirect(303, "/checkout/success?ref=REF-1&chargeId=ch_1")
  {
    var location := RecoveryLocation("REF-1", "ch_1", None);
    var expected := "/checkout/success?ref=REF-1&chargeId=ch_1";
    assert |location| == |expected|;
    forall i | 0 <= i < |expected| ensures location[i] == expected[i] {
    }
    assert location == expected;
    assert Truthy(Some("REF-1"));
  }
}
