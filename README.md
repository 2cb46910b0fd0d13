# beam-svelte checkout: a Dafny model

This project models the server side of a SvelteKit storefront that takes card payments through
the Beam payment API. It covers:

- the in-memory security store of `src/lib/server/security.ts`:
  - the fixed-window rate limiter and its sweep;
  - signed session tokens and the session store that keeps the `webhookSent` / `capiSent` flags;
  - the 32-bit rolling hash behind `createHmac` and `generateEventId`;
  - `getClientIp` and the three input validators;
- the success page, which resolves the charge id, authorises the buyer by token, polls a pending
  charge and only then sends the notifications (`src/routes/checkout/success/+page.server.ts`);
- the failed page's recovery re-check (`src/routes/checkout/failed/+page.server.ts`);
- Beam requests with their one-shot fallback to the playground host (`src/lib/server/beam.ts`);
- the n8n webhook retry policy (`src/lib/server/n8n-webhook.ts`);
- the admin login throttle and the `/admin` guard;
- the product lookup.

Time is the `now` argument, in milliseconds. The network is an oracle function:
- `fetch` maps a request to its reply;
- a webhook attempt number maps to its outcome;
- the k-th `getCharge` call of a page maps to how it settles.

Sleeps, charge queries and notifications are recorded as values in the order the code performs
them. State that the source keeps in module-level maps is modelled as a class with a `map` field:
`SessionStore.SessionStore`, `RateLimit.RateLimiter` and `AdminLogin.LoginThrottle`. Every
method of these classes is proved equal to a pure step function, and the properties are lemmas
about that function.

JavaScript semantics are written out where they matter:
- the int32 wrap of `hash & hash`;
- `Math.abs(-2^31) = 2^31`;
- `toString(36)`, `toString(16)` and `padStart`;
- `split`, `trim` with the JavaScript white-space set, and `includes`;
- `||` on strings, where the empty string is falsy.

Files, one module each:

| file | module | models |
|---|---|---|
| wrappers.dfy | Wrappers | `Option`, JavaScript truthiness and `||` |
| text.dfy | Text | radix printing/parsing, `padStart`, `trim`, `split('.')`, `startsWith`, `includes` |
| int32_hash.dfy | Int32Hash | `createHmac`, `generateEventId` |
| session_codec.dfy | SessionCodec | an injective text encoding of `SessionMarker` |
| session_store.dfy | SessionStore | session tokens and the session store |
| rate_limit.dfy | RateLimit | `isRateLimited`, `cleanupRateLimits` |
| request_input.dfy | RequestInput | `getClientIp`, `isValidEmail`, `isValidCardToken`, `isValidCvv` |
| base64.dfy | Base64 | base64 and UTF-8 for the `Authorization` header |
| beam.dfy | Beam | base URL, auth header, `beamRequest`, `getCharge`, `createCharge` |
| n8n_webhook.dfy | N8nWebhook | `sendN8NWebhook` |
| kit.dfy | Kit | how a load, action or hook ends: redirect, error, fail or data |
| checkout_success.dfy | CheckoutSuccess | the success page's `load` |
| checkout_failed.dfy | CheckoutFailed | the failed page's `load` |
| admin_login.dfy | AdminLogin | the admin login action and its throttle |
| hooks.dfy | Hooks | `handle` |
| products.dfy | Products | `getAllProducts`, `getProductBySlug` |

## Model

| member | source | states |
|---|---|---|
| RateLimit.RateLimiter.IsRateLimited | src/lib/server/security.ts:18-33 | the call's verdict and the new store are those of `Step`; counts stay within `max(1, maxRequests)` |
| RateLimit.StepOpensWindow | src/lib/server/security.ts:20-25 | an absent or expired key gets `{count: 1, resetAt: now + windowMs}` and the call is allowed |
| RateLimit.StepWithinWindow | src/lib/server/security.ts:27-32 | inside a window the call is refused exactly when `count >= maxRequests`; a refused call changes nothing; an allowed one adds 1 to `count` and keeps `resetAt` |
| RateLimit.StepKeepsCountsBounded | src/lib/server/security.ts:18-33 | no call pushes a stored count outside `1..max(1, maxRequests)` |
| RateLimit.RunWithinWindow | src/lib/server/security.ts:27-32 | calls inside one window are allowed until `maxRequests` are counted and refused afterwards; `resetAt` is kept |
| RateLimit.WindowAllowsMaxRequests | src/lib/server/security.ts:18-33 | a window holding all the calls allows exactly `min(calls, maxRequests)` of them |
| RateLimit.FiveThenBlocked | src/lib/server/security.ts:18-33 | an example of `RunWithinWindow`: five calls in one second with a limit of 5 pass and the sixth is refused |
| RateLimit.RateLimiter.CleanupRateLimits | src/lib/server/security.ts:38-45 | a loop over the keys deletes exactly the entries with `now > resetAt` and leaves the rest as they were |
| RateLimit.SweepIsUnobservable | src/lib/server/security.ts:38-48 | sweeping expired entries first never changes a later call's verdict or the entry it leaves |
| RateLimit.RateLimiter.constructor | src/lib/server/security.ts:9 | the store starts empty |
| Int32Hash.ToInt32 | src/lib/server/security.ts:186 | `x & x` gives the int32 value congruent to `x` mod 2^32 |
| Int32Hash.HashStepIsTimes31 | src/lib/server/security.ts:185-186 | `((h << 5) - h) + c` wrapped to int32 is `int32(31*h + c)` |
| Int32Hash.Abs32 | src/lib/server/security.ts:188 | `Math.abs` of an int32 is at most 2^31 and is `h` or `-h` |
| Int32Hash.SignatureShape | src/lib/server/security.ts:173-189 | the signature is non-empty base-36 digits that parse back to the absolute hash of `secret + data` |
| Int32Hash.CreateHmac | src/lib/server/security.ts:173-189 | the loop computes `Signature(data, secret)` |
| Int32Hash.EventIdShape | src/lib/server/security.ts:274-283 | the event id is exactly 16 lower-case hex digits that parse back to the absolute hash of the reference |
| Int32Hash.GenerateEventId | src/lib/server/security.ts:274-283 | the loop computes `EventId(referenceId)`: 16 hex digits |
| Text.ParseToRadix | src/lib/server/security.ts:188 | `toString(radix)` of a number parses back to the number |
| Text.FixedDigitsShape | src/lib/server/security.ts:282 | `toString(16).padStart(16, '0')` is 16 digits that parse back to the number when it has at most 16 digits |
| SessionCodec.DecodeEncode | src/lib/server/security.ts:94 | decoding the payload of a marker gives the marker back |
| SessionCodec.EncodeInjective | src/lib/server/security.ts:94 | different markers have different payloads |
| SessionCodec.EncodeHasNoDot | src/lib/server/security.ts:94-98 | a payload never contains '.', so the token splits at its signature |
| SessionStore.EffectiveSecret | src/lib/server/security.ts:95 | the secret is `SESSION_SECRET` when non-empty, else the built-in default; never empty |
| SessionStore.SessionStore.constructor | src/lib/server/security.ts:63 | the store starts empty and signs with the effective secret |
| SessionStore.SessionStore.CreateSessionToken | src/lib/server/security.ts:75-102 | the token is the payload of the new marker, '.', and its signature; the marker is stored under it |
| SessionStore.CheckTokenAccepts | src/lib/server/security.ts:111-144 | a token passes the checks exactly when it is non-empty, has a '.', carries the right signature, decodes, comes from an accepted address and is at most an hour old |
| SessionStore.TokenSplits | src/lib/server/security.ts:113 | `split('.')` of an issued token gives back its payload and signature |
| SessionStore.IssueThenCheck | src/lib/server/security.ts:75-144 | an issued token, checked from an accepted address within the hour, yields the issued marker |
| SessionStore.ExpiredTokenRejected | src/lib/server/security.ts:142-144 | an issued token presented more than one hour after issue is rejected |
| SessionStore.OtherAddressRejected | src/lib/server/security.ts:134-137 | an issued token presented from another address is rejected unless one side is 'unknown' |
| SessionStore.ForgedSignatureRejected | src/lib/server/security.ts:116-120 | a token whose signature is not that of its payload is rejected |
| SessionStore.SessionStore.VerifySessionToken | src/lib/server/security.ts:110-158 | the result and the new store are `Recall` of the checks; no flag read as sent is lost |
| SessionStore.RecallKeepsPayload | src/lib/server/security.ts:146-155 | verification takes only `webhookSent` / `capiSent` from the store; every other field is the token's |
| SessionStore.RecallIdempotent | src/lib/server/security.ts:146-155 | verifying the same token twice returns the same marker and leaves the store as the first verification did |
| SessionStore.VerifiedFlagsComeFromStore | src/lib/server/security.ts:146-168 | a stored token's flags are the ones verification returns; a charge id set later by `updateSessionToken` is not |
| SessionStore.SessionStore.UpdateSessionToken | src/lib/server/security.ts:163-168 | only a stored token's charge id changes; unknown tokens are ignored |
| SessionStore.SentFlagLifecycle | src/lib/server/security.ts:228-266 | a freshly issued marker has neither flag sent; after a mark, the marked flag reads as sent and the other flag reads as before |
| SessionStore.SessionStore.MarkWebhookSent | src/lib/server/security.ts:232-237 | only a stored token's `webhookSent` becomes true; nothing else changes |
| SessionStore.SessionStore.MarkCapiSent | src/lib/server/security.ts:243-248 | only a stored token's `capiSent` becomes true; nothing else changes |
| RequestInput.GetClientIp | src/lib/server/security.ts:194-200 | with `x-forwarded-for` set, the address is the first comma-separated entry without the white space at its two ends (so it holds no ',' and starts and ends with no white space); otherwise `x-real-ip` when set, else 'unknown' |
| RequestInput.TrimKeepsOut | src/lib/server/security.ts:197 | `trim` only removes characters: one absent from the entry is absent from the address |
| RequestInput.ForwardedForFirstHop | src/lib/server/security.ts:197 | with several hops, the address is the first hop with its padding removed; later hops are ignored |
| RequestInput.ForwardedForSingleHop | src/lib/server/security.ts:197 | with a single hop and no ',', the address is that hop with its padding removed |
| RequestInput.ForwardedForBlankFirstHop | src/lib/server/security.ts:196-197 | a non-empty header whose first entry is only white space gives the empty address, not `x-real-ip` or 'unknown' |
| Text.TrimPadded | src/lib/server/security.ts:197 | `trim` strips white space from both ends and keeps the rest |
| RequestInput.IsValidCvv | src/lib/server/security.ts:223-226 | accepted exactly when 3 or 4 ASCII digits |
| RequestInput.IsValidCardToken | src/lib/server/security.ts:214-218 | accepted exactly when 10 to 100 characters from `[A-Za-z0-9_-]` |
| RequestInput.MatchRepeat | src/lib/server/security.ts:217 | `^[class]{lo,hi}$` matches exactly the strings of `lo..hi` characters of the class |
| RequestInput.IsValidEmailMatchesPattern | src/lib/server/security.ts:205-209 | accepted exactly when it is `local@domain.tld` with non-empty parts free of '@' and white space, and at most 255 UTF-16 code units long (JavaScript `length`) |
| RequestInput.AcceptedEmailMatches | src/lib/server/security.ts:207-208 | every accepted address matches the pattern and is at most 255 UTF-16 code units long |
| RequestInput.MatchingEmailAccepted | src/lib/server/security.ts:207-208 | every address that matches the pattern and is at most 255 UTF-16 code units long is accepted |
| RequestInput.AstralAddressRejected | src/lib/server/security.ts:208 | 130 astral characters (emoji) and "@a.bc" match the pattern and are 135 characters, but 265 code units, so the address is refused |
| Text.Utf16Length | src/lib/server/security.ts:208 | JavaScript `length` counts between one and two code units per character |
| Text.Utf16LengthOfBmp | src/lib/server/security.ts:208 | `length` equals the number of characters exactly when every character is in the Basic Multilingual Plane |
| Text.Utf16LengthAppend | src/lib/server/security.ts:208 | the `length` of a concatenation is the sum of the lengths |
| Beam.EnvironmentSelection | src/lib/server/beam.ts:7-9 | the playground host is chosen exactly when the environment, lower-cased, is "playground"; unset or empty means production |
| Beam.CaseInsensitiveEnvironment | src/lib/server/beam.ts:7 | two environment values that differ only in the case of their letters select the same host |
| Beam.AsciiLower | src/lib/server/beam.ts:7 | `toLowerCase` keeps the length and changes only the letters A-Z, each to its lower-case letter |
| Beam.AuthHeaderDecodes | src/lib/server/beam.ts:129-133 | the header is "Basic " and a base64 text that decodes to the UTF-8 of `merchantId:apiKey` |
| Base64.DecodeEncode | src/lib/server/beam.ts:131 | base64 decoding gives back the encoded bytes |
| Base64.Encode | src/lib/server/beam.ts:131 | base64 text is four characters per started group of three bytes |
| Base64.Utf8OfAscii | src/lib/server/beam.ts:130-131 | the UTF-8 of an ASCII string is its code points |
| Beam.ErrorMessage | src/lib/server/beam.ts:167-169 | `error.errorMessage` when non-empty, else `message`, else the default text; never empty |
| Beam.AttemptOutcome | src/lib/server/beam.ts:167-200 | ok responses are returned as parsed; a non-ok response throws "Beam API Error (status): message"; an error mentioning 'fetch failed' becomes the connect message; any other error is rethrown unchanged |
| Beam.DoRequest | src/lib/server/beam.ts:142-202 | one or two requests; a second exactly when the fallback condition holds, sent to the playground host; the result is that of the last request |
| Beam.BeamRequest | src/lib/server/beam.ts:138-205 | starts at the configured base; a fallback only from production, for invalid credentials, when the environment is neither playground nor production |
| Beam.GetCharge | src/lib/server/beam.ts:226-230 | GET of `/charges/{id}` on the configured host, then at most once on playground |
| Beam.CreateCharge | src/lib/server/beam.ts:212-219 | POST of the request body to `/charges`, with the same fallback |
| N8nWebhook.FirstDelivered | src/lib/server/n8n-webhook.ts:37-59 | the first attempt of the three that got an ok response, with all earlier ones failed |
| N8nWebhook.SendN8nWebhook | src/lib/server/n8n-webhook.ts:32-88 | returns true exactly when one of three attempts is delivered; attempts stop at the first delivery; pauses of 1000 and 3000 ms fall only between attempts |
| N8nWebhook.ScheduleBounds | src/lib/server/n8n-webhook.ts:33-35 | for the constant schedule of three attempts: at most three POSTs, no pause longer than 3000 ms, the 9000 ms delay never taken, and every run ends with a POST |
| CheckoutSuccess.SessionToken | src/routes/checkout/success/+page.server.ts:21 | the `token` parameter when non-empty, else the `beam_session` cookie when non-empty, else "" |
| CheckoutSuccess.ResolveChargeId | src/routes/checkout/success/+page.server.ts:20-58 | the URL's charge id, else the token's, else the cookie's, each only when non-empty; none exactly when all three are missing |
| CheckoutSuccess.Settled | src/routes/checkout/success/+page.server.ts:104-116 | the retries made are at most three, and the answer the loop stops at is not pending unless all three retries were used |
| CheckoutSuccess.PendingBeforeSettled | src/routes/checkout/success/+page.server.ts:105 | every answer before the one the loop stops at was pending |
| CheckoutSuccess.PollCharge | src/routes/checkout/success/+page.server.ts:98-116 | the loop ends on the first non-pending answer or after three retries, having queried and slept 2 s, 3 s, 4 s in schedule order |
| CheckoutSuccess.Fulfil | src/routes/checkout/success/+page.server.ts:75-185 | slug and product checks, polling, routing to the failed page, notifications and page data as `Fulfilment` states |
| CheckoutSuccess.Load | src/routes/checkout/success/+page.server.ts:16-186 | the outcome and effects are `SuccessLoad` for the marker the store yields; the store ends as after one verification of the token |
| CheckoutSuccess.LoadExits | src/routes/checkout/success/+page.server.ts:26-126 | each early exit with its outcome and effects: no `ref` or no charge id redirects home; a missing or foreign session is 403; no slug or unknown product is 500; a Beam error is 500 after the queries made so far; none of them sends a notification |
| CheckoutSuccess.NoEffectsBeforeAuthorisation | src/routes/checkout/success/+page.server.ts:26-88 | Beam is not queried and nothing is sent unless the page has a `ref`, a charge id, a token for that `ref` and a known product; otherwise the page redirects home or refuses with 403 |
| CheckoutSuccess.ScheduleByPosition | src/routes/checkout/success/+page.server.ts:95-116 | a fact about the constant poll schedule: it alternates queries and waits, query k and then the `RETRY_DELAYS[k]` pause |
| CheckoutSuccess.FulfilmentEffects | src/routes/checkout/success/+page.server.ts:95-165 | at most the whole poll schedule and two notifications; each effect is the schedule entry at its position or a notification |
| CheckoutSuccess.PollingBounds | src/routes/checkout/success/+page.server.ts:95-116 | at most four queries numbered 0 to 3; the sleep before retry k is `RETRY_DELAYS[k]` |
| CheckoutSuccess.NotifiesOnlyOnSuccess | src/routes/checkout/success/+page.server.ts:121-165 | the page renders exactly when authorised, the product is known and the last answer is SUCCEEDED; only then are the webhook and then the Conversions API event sent, for the page's charge and reference, with no click id |
| CheckoutSuccess.Confirm | src/routes/checkout/success/+page.server.ts:140-185 | the page data and the two notifications are those of `Confirmation` |
| CheckoutSuccess.FulfilmentPage | src/routes/checkout/success/+page.server.ts:167-185 | a rendered page is verified and carries the reference, the charge id, `generateEventId(ref)` and the product of the session's or the reference's slug |
| CheckoutSuccess.RenderedPageIsVerified | src/routes/checkout/success/+page.server.ts:143-185 | the page shows the session's reference, the resolved charge, `verified: true`, and `generateEventId(ref)` as 16 hex digits |
| CheckoutSuccess.UnsucceededGoesToFailedPage | src/routes/checkout/success/+page.server.ts:129-138 | a final status other than SUCCEEDED redirects to the failed page; `reason=pending` only after four pending answers, else `reason=failed` |
| CheckoutSuccess.IssuedTokenAuthorises | src/routes/checkout/success/+page.server.ts:62-73 | an issued token presented for its own reference, from an accepted address within the hour, passes the 403 check and yields its marker |
| CheckoutFailed.LoadAsWritten | src/routes/checkout/failed/+page.server.ts:7-43 | the load as written, whose `catch` takes every throw: Beam is queried exactly for a pending payment with a charge id, and the page always renders `{reason, chargeId}` |
| CheckoutFailed.CatchIsTheOnlyDifference | src/routes/checkout/failed/+page.server.ts:22-36 | the load as written and as intended query Beam alike and differ exactly when the `try` throws a redirect |
| CheckoutFailed.LoadRecovers | src/routes/checkout/failed/+page.server.ts:15-42 | intended behaviour: query only for a pending payment with a charge id; redirect to the success page exactly when the charge has SUCCEEDED and has a reference; otherwise render `{reason, chargeId}` |
| CheckoutFailed.RecoveryLocationCarriesToken | src/routes/checkout/failed/+page.server.ts:26-30 | the success URL carries `ref` and `chargeId`, and `&token=` only when the session cookie is set |
| CheckoutFailed.SwallowedRedirect | src/routes/checkout/failed/+page.server.ts:22-36 | for a charge that has since succeeded, the redirect is thrown inside the `try`, yet the page as written renders the failure |
| AdminLogin.LoginThrottle.IsRateLimited | src/routes/admin/login/+page.server.ts:10-22 | absent key: not limited; an entry older than 15 minutes is deleted and the key is not limited; otherwise limited exactly when `count >= 5` |
| AdminLogin.LoginThrottle.RecordAttempt | src/routes/admin/login/+page.server.ts:24-32 | an absent or expired key starts at `{1, now}`; otherwise `count` goes up by one and `firstAttempt` is kept |
| AdminLogin.LoginThrottle.Login | src/routes/admin/login/+page.server.ts:36-73 | the result and new map are those of `LoginStep` |
| AdminLogin.LoginThrottle.constructor | src/routes/admin/login/+page.server.ts:6-8 | no attempts recorded yet |
| AdminLogin.LoginStepOutcomes | src/routes/admin/login/+page.server.ts:36-73 | the throttle comes first: 429 records nothing; correct credentials redirect to /admin, set the session and clear the address; anything else is 401 and records exactly one failure; other addresses are untouched |
| AdminLogin.FailuresWithinWindow | src/routes/admin/login/+page.server.ts:10-32 | wrong credentials inside one window get 401 until five failures are counted, then 429 |
| AdminLogin.FiveFailuresThenThrottled | src/routes/admin/login/+page.server.ts:10-32 | from a clean slate, five wrong tries within 15 minutes get 401 and every later one gets 429 |
| Hooks.Handle | src/hooks.server.ts:5-26 | a request is redirected to /admin/login exactly when its path starts with "/admin", is not the login page, and the cookie `admin_session` is not "1"; otherwise it passes |
| Hooks.PrefixGuardExamples | src/hooks.server.ts:9 | two examples of the plain prefix test: "/administrator" is guarded and "/" is not |
| Hooks.RedirectTargetIsOpen | src/hooks.server.ts:11-13 | the login page the guard redirects to is always let through |
| Products.GetProductBySlug | src/lib/server/products.ts:38-40 | nothing exactly when no product has the slug; a product found has the slug and is in the list |
| Products.GetProductBySlugIsFirst | src/lib/server/products.ts:39 | the first product in list order with the slug is returned, whether active or not |
| Products.LookupAgreesWithList | src/lib/server/products.ts:29-40 | a slug is found exactly when some product of `getAllProducts` has it |

## Left out

- I/O is not modelled: `fetch`, the abort timer of the webhook POST, `setTimeout` sleeps, cookies being written, and `console` logging. Replies are oracle arguments and sleeps are recorded values.
- The `setInterval` that runs `cleanupRateLimits` every five minutes (security.ts:48) is not modelled; the sweep is a method the caller invokes with `now`.
- CheckoutSuccess.Load: reads the clock once, and both `verifySessionToken` calls (success/+page.server.ts:37 and :62) use that `now`. In the source each call reads `Date.now()` itself. So a token that expires between the two checks, and then passes the first and fails the second, is not modelled.
- Concurrent requests interleaving on the shared maps are not modelled; calls are sequential.
- SessionCodec.Encode stands in for `base64(JSON.stringify(marker))`. It is an injective text encoding without '.', and its decoder accepts only its own encodings. Real JSON payloads with extra or reordered fields are not modelled. They could only reach the decoder with a valid signature.
- Int32Hash.Hash reads each `char` as one code unit. Characters outside the Basic Multilingual Plane, which JavaScript hashes as two UTF-16 units, are not modelled.
- Beam.AsciiLower lowers only A-Z, whereas JavaScript's `toLowerCase` also lowers non-ASCII letters.
- The decoding of the `Authorization` header back to text (UTF-8 decoding) is not modelled; the round trip stops at the bytes.
- Only the `Authorization` header, the method and the body of a Beam request are modelled; `Content-Type` and caller-supplied headers are not. The `createCharge` body is the already-serialised JSON text.
- An unparsable JSON body of a Beam response is modelled as an absent body (`None`).
- `extractSlugFromRef`, `triggerWebhookIfNeeded` and `triggerCAPIIfNeeded` are not defined in any modelled file. The first is a function argument of the success page; the two triggers are recorded as effects with their arguments, and are assumed to return normally. `sessionMarker.fbclid` is not a field of the marker, so the Conversions API event always gets none.
- The charge's `referenceId` and `customer.email` are modelled as optional fields of `Beam.Charge`; nothing else of the charge response is modelled.
- Product prices are whole numbers; floating-point prices are not modelled.
- `src/lib/server/facebook-capi.ts`, `src/lib/facebook-pixel.ts` and the API routes that only forward to `getCharge` or echo configuration are not part of this model.
- The redirect of the failed page's recovery branch is modelled twice: as written (swallowed by the `catch`) and as intended (it leaves the load); see Findings.

## Findings

| source | as written | input that shows it | evidently intended | confidence | as-written member | corrected member |
|---|---|---|---|---|---|---|
| src/routes/checkout/failed/+page.server.ts:22-36 | `redirect(303, …)` throws in SvelteKit 2, and it is called inside the `try` whose `catch (err)` at line 33 catches everything and carries on. The page therefore renders the failure even when the charge has meanwhile succeeded. The product page's catch (src/routes/[slug]/+page.server.ts:111-120) explicitly rethrows 3xx redirects; this one does not. | `reason=pending`, `chargeId=ch_1`, and `getCharge` answers SUCCEEDED with reference `REF-1` | redirect to `/checkout/success?ref=REF-1&chargeId=ch_1` | high (not executed) | CheckoutFailed.LoadAsWritten, CheckoutFailed.SwallowedRedirect | CheckoutFailed.Load, CheckoutFailed.LoadRecovers |
