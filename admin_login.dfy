/**
 * The admin login form action of admin/login/+page.server.ts: a per-address throttle of
 * failed logins (five per fifteen minutes, counted from the first failure) in front of a
 * comparison with the configured user name and password.
 */
module AdminLogin {
  import opened Wrappers
  import opened Kit

  const MAX_ATTEMPTS: int := 5
  const WINDOW_MS: int := 15 * 60 * 1000
  const TOO_MANY_MESSAGE: string := "Too many attempts. Please wait a few minutes before trying again."
  const INVALID_MESSAGE: string := "Invalid username or password"

  /** An entry of the `attempts` map (admin/login/+page.server.ts:6). */
  datatype Attempts = Attempts(count: int, firstAttempt: int)

  /** What the action leaves behind besides its outcome: whether it set `admin_session=1`. */
  datatype LoginResult = LoginResult(outcome: Outcome<()>, sessionCookieSet: bool)

  /** `login:${ip}` (admin/login/+page.server.ts:38). */
  function RateKey(clientIp: string): string {
    "login:" + clientIp
  }

  predicate Expired(entry: Attempts, now: int) {
    now - entry.firstAttempt > WINDOW_MS
  }

  /**
   * `isRateLimited` (admin/login/+page.server.ts:10-22): whether the key is throttled, and
   * the map afterwards (an expired entry is deleted on the way).
   */
  function Limited(attempts: map<string, Attempts>, key: string, now: int): (bool, map<string, Attempts>) {
    if key !in attempts then (false, attempts)
    else if Expired(attempts[key], now) then (false, attempts - {key})
    else (attempts[key].count >= MAX_ATTEMPTS, attempts)
  }

  /** `recordAttempt` (admin/login/+page.server.ts:24-32): start a window, or count one more failure in it. */
  function Recorded(attempts: map<string, Attempts>, key: string, now: int): map<string, Attempts> {
    if key !in attempts || Expired(attempts[key], now) then attempts[key := Attempts(1, now)]
    else attempts[key := Attempts(attempts[key].count + 1, attempts[key].firstAttempt)]
  }

  /**
   * The form action (admin/login/+page.server.ts:36-73) as a function of the map before it.
   * `username` and `password` are the form fields (`None` when missing), read only after the
   * throttle check.
   */
  function LoginStep(attempts: map<string, Attempts>, clientIp: string, username: Option<string>,
                     password: Option<string>, adminUsername: string, adminPassword: string, now: int)
    : (LoginResult, map<string, Attempts>)
  {
    var key := RateKey(clientIp);
    var (limited, checked) := Limited(attempts, key, now);
    if limited then (LoginResult(Fail(429, TOO_MANY_MESSAGE), false), checked)
    else
      var user := username.GetOr("");
      var pass := password.GetOr("");
      if user == adminUsername && pass == adminPassword then
        (LoginResult(Redirect(303, "/admin"), true), checked - {key})
      else (LoginResult(Fail(401, INVALID_MESSAGE), false), Recorded(checked, key, now))
  }

  /**
   * The order of the checks: a throttled address gets 429 whatever it sent and nothing is
   * recorded; the right credentials log in and clear the address's failures; anything else
   * gets 401 and exactly one more failure is recorded.
   */
  lemma LoginStepOutcomes(attempts: map<string, Attempts>, clientIp: string, username: Option<string>,
                          password: Option<string>, adminUsername: string, adminPassword: string, now: int)
    ensures var key := RateKey(clientIp);
      var (result, after) := LoginStep(attempts, clientIp, username, password, adminUsername, adminPassword, now);
      var throttled := key in attempts && !Expired(attempts[key], now) && attempts[key].count >= MAX_ATTEMPTS;
      var correct := username.GetOr("") == adminUsername && password.GetOr("") == adminPassword;
      && (throttled ==> result == LoginResult(Fail(429, TOO_MANY_MESSAGE), false) && after == attempts)
      && (!throttled && correct ==> result == LoginResult(Redirect(303, "/admin"), true) && key !in after)
      && (!throttled && !correct ==>
            && result == LoginResult(Fail(401, INVALID_MESSAGE), false)
            && key in after
            && after[key].count == (if key in attempts && !Expired(attempts[key], now) then attempts[key].count + 1 else 1))
      && (forall k :: k != key ==> (k in after <==> k in attempts) && (k in after ==> after[k] == attempts[k]))
  {
  }

  /** A run of logins from one address at the times `nows`, all with the same form values. */
  function LoginRun(attempts: map<string, Attempts>, clientIp: string, username: Option<string>,
                    password: Option<string>, adminUsername: string, adminPassword: string, nows: seq<int>)
    : seq<Outcome<()>>
    decreases |nows|
  {
    if nows == [] then []
    else
      var (result, next) := LoginStep(attempts, clientIp, username, password, adminUsername, adminPassword, nows[0]);
      [result.outcome] + LoginRun(next, clientIp, username, password, adminUsername, adminPassword, nows[1..])
  }

  /**
   * Wrong credentials inside one window: with `count` failures already recorded, the i-th
   * further try gets 401 while `count + i < 5` and 429 from then on.
   */
  lemma {:induction false} FailuresWithinWindow(attempts: map<string, Attempts>, clientIp: string,
                                                username: Option<string>, password: Option<string>,
                                                adminUsername: string, adminPassword: string, nows: seq<int>)
    requires RateKey(clientIp) in attempts
    requires username.GetOr("") != adminUsername || password.GetOr("") != adminPassword
    requires forall i :: 0 <= i < |nows| ==> !Expired(attempts[RateKey(clientIp)], nows[i])
    ensures var run := LoginRun(attempts, clientIp, username, password, adminUsername, adminPassword, nows);
      |run| == |nows|
      && forall i :: 0 <= i < |run| ==>
        run[i] == if attempts[RateKey(clientIp)].count + i < MAX_ATTEMPTS then Fail(401, INVALID_MESSAGE)
                  else Fail(429, TOO_MANY_MESSAGE)
    decreases |nows|
  {
    if nows != [] {
      var key := RateKey(clientIp);
      var entry := attempts[key];
      var (result, next) := LoginStep(attempts, clientIp, username, password, adminUsername, adminPassword, nows[0]);
      assert key in next && next[key].firstAttempt == entry.firstAttempt;
      assert next[key].count == if entry.count >= MAX_ATTEMPTS then entry.count else entry.count + 1;
      assert forall i :: 0 <= i < |nows[1..]| ==> !Expired(next[key], nows[1..][i]) by {
        forall i | 0 <= i < |nows[1..]| ensures !Expired(next[key], nows[1..][i]) {
          assert nows[1..][i] == nows[i + 1];
        }
      }
      FailuresWithinWindow(next, clientIp, username, password, adminUsername, adminPassword, nows[1..]);
    }
  }

  /**
   * From a clean slate, wrong credentials within fifteen minutes of the first try get 401
   * five times and 429 from the sixth try on.
   */
  lemma FiveFailuresThenThrottled(attempts: map<string, Attempts>, clientIp: string,
                                  username: Option<string>, password: Option<string>,
                                  adminUsername: string, adminPassword: string, nows: seq<int>)
    requires RateKey(clientIp) !in attempts
    requires username.GetOr("") != adminUsername || password.GetOr("") != adminPassword
    requires nows != [] && forall i :: 0 <= i < |nows| ==> nows[i] - nows[0] <= WINDOW_MS
    ensures var run := LoginRun(attempts, clientIp, username, password, adminUsername, adminPassword, nows);
      |run| == |nows|
      && forall i :: 0 <= i < |run| ==> run[i] == if i < MAX_ATTEMPTS then Fail(401, INVALID_MESSAGE) else Fail(429, TOO_MANY_MESSAGE)
  {
    var key := RateKey(clientIp);
    var next := LoginStep(attempts, clientIp, username, password, adminUsername, adminPassword, nows[0]).1;
    assert next[key] == Attempts(1, nows[0]);
    assert forall i :: 0 <= i < |nows[1..]| ==> !Expired(next[key], nows[1..][i]) by {
      forall i | 0 <= i < |nows[1..]| ensures !Expired(next[key], nows[1..][i]) {
        assert nows[1..][i] == nows[i + 1];
      }
    }
    FailuresWithinWindow(next, clientIp, username, password, adminUsername, adminPassword, nows[1..]);
  }

  /** The module-level `attempts` map and the configured credentials. */
  class LoginThrottle {
    const adminUsername: string
    const adminPassword: string
    var attempts: map<string, Attempts>

    constructor (username: string, password: string)
      ensures adminUsername == username && adminPassword == password && attempts == map[]
    {
      adminUsername := username;
      adminPassword := password;
      attempts := map[];
    }

    method IsRateLimited(key: string, now: int) returns (limited: bool)
      modifies this
      ensures (limited, attempts) == Limited(old(attempts), key, now)
    {
      if key !in attempts {
        return false;
      }
      var entry := attempts[key];
      if now - entry.firstAttempt > WINDOW_MS {
        attempts := attempts - {key};
        return false;
      }
      limited := entry.count >= MAX_ATTEMPTS;
    }

    method RecordAttempt(key: string, now: int)
      modifies this
      ensures attempts == Recorded(old(attempts), key, now)
    {
      if key !in attempts || now - attempts[key].firstAttempt > WINDOW_MS {
        attempts := attempts[key := Attempts(1, now)];
      } else {
        var entry := attempts[key];
        attempts := attempts[key := Attempts(entry.count + 1, entry.firstAttempt)];
      }
    }

    /** The `default` form action. */
    method Login(clientIp: string, username: Option<string>, password: Option<string>, now: int)
      returns (result: LoginResult)
      modifies this
      ensures (result, attempts) == LoginStep(old(attempts), clientIp, username, password, adminUsername, adminPassword, now)
    {
      var rateKey := RateKey(clientIp);
      var limited := IsRateLimited(rateKey, now);
      if limited {
        return LoginResult(Fail(429, TOO_MANY_MESSAGE), false);
      }
      var user := username.GetOr("");
      var pass := password.GetOr("");
      if user == adminUsername && pass == adminPassword {
        attempts := attempts - {rateKey};
        return LoginResult(Redirect(303, "/admin"), true);
      }
      RecordAttempt(rateKey, now);
      result := LoginResult(Fail(401, INVALID_MESSAGE), false);
    }
  }
}
