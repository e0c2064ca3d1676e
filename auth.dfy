/** The sign-in configuration: the environment check made when the module
    loads, the magic-link sender (validate, then rate-limit, then send) and the
    `signIn`, `session` and `redirect` callbacks. The environment, the clock,
    the link's host and the transport's outcome are parameters. */
module Auth {
  import opened Common
  import opened Strings
  import opened EmailSecurity

  // ---------------------------------------------------------------------------
  // The environment check.

  const REQUIRED_ENV_VARS: seq<string> :=
    ["EMAIL_SERVER_HOST", "EMAIL_SERVER_USER", "EMAIL_SERVER_PASSWORD", "EMAIL_FROM", "AUTH_SECRET"]

  /** `!process.env[name]`: unset, or set to the empty string. */
  predicate EnvMissing(env: map<string, string>, name: string) {
    name !in env || env[name] == ""
  }

  function MissingEnvMessage(name: string): string {
    "Missing required environment variable: " + name
  }

  /** The position of the first missing variable, or the length when none is. */
  function FirstMissing(names: seq<string>, env: map<string, string>): (k: nat)
    ensures k <= |names|
    ensures forall j :: 0 <= j < k ==> !EnvMissing(env, names[j])
    ensures k < |names| ==> EnvMissing(env, names[k])
    decreases |names|
  {
    if names == [] then 0
    else if EnvMissing(env, names[0]) then 0
    else 1 + FirstMissing(names[1..], env)
  }

  /** The `forEach` that throws on the first missing variable, in the listed
      order; `None` when the module loads. */
  method CheckEnv(env: map<string, string>) returns (error: Option<string>)
    ensures error.None? <==> forall j :: 0 <= j < |REQUIRED_ENV_VARS| ==> !EnvMissing(env, REQUIRED_ENV_VARS[j])
    ensures error.Some? ==>
              var k := FirstMissing(REQUIRED_ENV_VARS, env);
              k < |REQUIRED_ENV_VARS| && error == Some(MissingEnvMessage(REQUIRED_ENV_VARS[k]))
  {
    var names := REQUIRED_ENV_VARS;
    for i := 0 to |names|
      invariant forall j :: 0 <= j < i ==> !EnvMissing(env, names[j])
    {
      if names[i] !in env || env[names[i]] == "" {
        return Some("Missing required environment variable: " + names[i]);
      }
    }
    return None;
  }

  // ---------------------------------------------------------------------------
  // `sendVerificationRequest`.

  const EMAIL_INVALID := "Email tidak valid"
  const RATE_LIMITED := "Terlalu banyak permintaan email. Silakan coba lagi dalam 1 jam."
  const VERIFICATION_FAILED := "Gagal mengirim email verifikasi. Silakan coba lagi."

  /** Why a request failed; only the console sees it. */
  datatype Failure =
    | InvalidEmail(error: string)
    | RateLimited(error: string)
    | BadUrl
    | TransportFailed(error: string)

  datatype VerificationMail = VerificationMail(to: string, from: string, subject: string, url: string)

  /** What the caller sees: the mail that went out, or the one generic error
      thrown from the `catch`. */
  datatype VerificationResult =
    | Sent(mail: VerificationMail)
    | Failed(cause: Failure, message: string)

  function VerificationSubject(host: string): string {
    "Verifikasi Email - " + host
  }

  /** The outcome of a request and the send log after it. `host` is `None` when
      `new URL(url)` throws; `transportError` is `Some` when `sendMail`
      rejects. */
  function Verification(log: map<string, seq<int>>, identifier: string, url: string, host: Option<string>,
                        from: string, now: int, transportError: Option<string>)
    : (r: (VerificationResult, map<string, seq<int>>))
    ensures r.0.Failed? ==> r.0.message == VERIFICATION_FAILED
    ensures !ValidateEmailForAuth(identifier).isValid ==> r.0.Failed? && r.0.cause.InvalidEmail? && r.1 == log
    ensures ValidateEmailForAuth(identifier).isValid ==> r.1 == AfterSend(log, identifier, now, DEFAULT_MAX_PER_HOUR)
    ensures r.0.Sent? <==>
              && ValidateEmailForAuth(identifier).isValid
              && SendAllowed(log, identifier, now, DEFAULT_MAX_PER_HOUR)
              && host.Some? && transportError.None?
    ensures r.0.Sent? ==> r.0.mail == VerificationMail(identifier, from, VerificationSubject(host.value), url)
  {
    var check := ValidateEmailForAuth(identifier);
    if !check.isValid then
      var error := if check.error.Some? && check.error.value != "" then check.error.value else EMAIL_INVALID;
      (Failed(InvalidEmail(error), VERIFICATION_FAILED), log)
    else if !SendAllowed(log, identifier, now, DEFAULT_MAX_PER_HOUR) then
      (Failed(RateLimited(RATE_LIMITED), VERIFICATION_FAILED), log)
    else
      var next := AfterSend(log, identifier, now, DEFAULT_MAX_PER_HOUR);
      if host.None? then (Failed(BadUrl, VERIFICATION_FAILED), next)
      else if transportError.Some? then (Failed(TransportFailed(transportError.value), VERIFICATION_FAILED), next)
      else (Sent(VerificationMail(identifier, from, VerificationSubject(host.value), url)), next)
  }

  /** The sender over the shared send log. */
  method SendVerificationRequest(limiter: EmailSendLog, identifier: string, url: string, host: Option<string>,
                                 from: string, now: int, transportError: Option<string>)
    returns (r: VerificationResult)
    modifies limiter
    ensures (r, limiter.log) == Verification(old(limiter.log), identifier, url, host, from, now, transportError)
  {
    var check := ValidateEmailForAuth(identifier);
    if !check.isValid {
      var error := if check.error.Some? && check.error.value != "" then check.error.value else EMAIL_INVALID;
      return Failed(InvalidEmail(error), VERIFICATION_FAILED);
    }
    var allowed := limiter.CanSendEmail(identifier, now, DEFAULT_MAX_PER_HOUR);
    if !allowed {
      return Failed(RateLimited(RATE_LIMITED), VERIFICATION_FAILED);
    }
    if host.None? {
      return Failed(BadUrl, VERIFICATION_FAILED);
    }
    if transportError.Some? {
      return Failed(TransportFailed(transportError.value), VERIFICATION_FAILED);
    }
    r := Sent(VerificationMail(identifier, from, "Verifikasi Email - " + host.value, url));
  }

  /** A rejected address is reported with the validator's message, leaves the
      log as it was and sends nothing. */
  lemma InvalidEmailLeavesNoTrace(log: map<string, seq<int>>, identifier: string, url: string, host: Option<string>,
                                  from: string, now: int, transportError: Option<string>)
    requires !ValidateEmailForAuth(identifier).isValid
    ensures var r := Verification(log, identifier, url, host, from, now, transportError);
            && r.1 == log
            && r.0 == Failed(InvalidEmail(ValidateEmailForAuth(identifier).error.value), VERIFICATION_FAILED)
  {
  }

  /** The limiter is keyed by the identifier as given, while validation looks at
      its normalised form: two spellings of one address pass or fail validation
      together, yet a request for one leaves the other's quota untouched. */
  lemma SpellingsHaveSeparateQuotas(log: map<string, seq<int>>, a: string, b: string, url: string,
                                    host: Option<string>, from: string, now: int, transportError: Option<string>)
    requires NormalizeEmail(a) == NormalizeEmail(b) && a != b
    ensures ValidateEmailForAuth(a) == ValidateEmailForAuth(b)
    ensures History(Verification(log, a, url, host, from, now, transportError).1, b) == History(log, b)
  {
    ValidateIgnoresNormalization(a);
    ValidateIgnoresNormalization(b);
    var next := Verification(log, a, url, host, from, now, transportError).1;
    if ValidateEmailForAuth(a).isValid {
      var sent := AfterSend(log, a, now, DEFAULT_MAX_PER_HOUR);
      assert next == sent;
      assert (b in sent <==> b in log) && (b in sent ==> sent[b] == log[b]);
    } else {
      assert next == log;
    }
  }

  // ---------------------------------------------------------------------------
  // The callbacks.

  /** `signIn` lets every sign-in through; it only logs the attempt. */
  function SignIn(email: Option<string>): (allowed: bool)
    ensures allowed
  {
    true
  }

  datatype SessionUser = SessionUser(id: Option<string>, name: Option<string>, email: Option<string>)
  datatype Session = Session(user: Option<SessionUser>, expires: string)
  datatype User = User(id: string, email: Option<string>)

  /** `session`: the user's id copied onto the session's user when both exist. */
  function SessionCallback(session: Session, user: Option<User>): (r: Session)
    ensures r.expires == session.expires
    ensures r.user.Some? <==> session.user.Some?
    ensures session.user.Some? && user.Some? ==>
              r.user.value == session.user.value.(id := Some(user.value.id))
    ensures session.user.None? || user.None? ==> r == session
  {
    if session.user.Some? && user.Some? then session.(user := Some(session.user.value.(id := Some(user.value.id))))
    else session
  }

  /** Running the callback again changes nothing. */
  lemma SessionCallbackIdempotent(session: Session, user: Option<User>)
    ensures SessionCallback(SessionCallback(session, user), user) == SessionCallback(session, user)
  {
  }

  /** `redirect`: a URL under the base URL is kept, anything else goes to the
      dashboard. */
  function Redirect(url: string, baseUrl: string): (r: string)
    ensures StartsWith(r, baseUrl)
    ensures StartsWith(url, baseUrl) ==> r == url
    ensures !StartsWith(url, baseUrl) ==> r == baseUrl + "/dashboard"
  {
    if StartsWith(url, baseUrl) then url else baseUrl + "/dashboard"
  }

  /** A redirect target is redirected to itself. */
  lemma RedirectIdempotent(url: string, baseUrl: string)
    ensures Redirect(Redirect(url, baseUrl), baseUrl) == Redirect(url, baseUrl)
  {
  }
}
