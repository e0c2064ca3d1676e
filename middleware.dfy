/** The request middleware in front of the sign-in endpoints: a fixed-window
    rate limiter keyed by address or client IP, its expiry sweep, and the
    decision to pass a request on or answer 429. The clock reading and the
    10% draw that triggers a sweep are parameters. */
module Middleware {
  import opened Common
  import opened Strings

  const RATE_LIMIT_WINDOW := 15 * 60 * 1000
  const MAX_REQUESTS := 5

  /** The window of one key: requests counted so far and the instant (in
      milliseconds) after which the window is over. */
  datatype RateRecord = RateRecord(count: int, resetTime: int)

  /** `getRateLimitKey`: by address when one is given and non-empty, otherwise
      by IP. */
  function GetRateLimitKey(ip: string, email: Option<string>): (key: string)
    ensures email.Some? && email.value != [] ==> key == "email:" + email.value
    ensures !(email.Some? && email.value != []) ==> key == "ip:" + ip
  {
    match email
    case Some(e) => if e != [] then "email:" + e else "ip:" + ip
    case None => "ip:" + ip
  }

  /** Different clients never share a window: an address key never equals an IP
      key, and each key determines its address or IP. */
  lemma RateLimitKeysSeparate(ip1: string, email1: Option<string>, ip2: string, email2: Option<string>)
    requires GetRateLimitKey(ip1, email1) == GetRateLimitKey(ip2, email2)
    ensures (email1.Some? && email1.value != []) <==> (email2.Some? && email2.value != [])
    ensures email1.Some? && email1.value != [] ==> email1.value == email2.value
    ensures !(email1.Some? && email1.value != []) ==> ip1 == ip2
  {
    var key := GetRateLimitKey(ip1, email1);
    if email1.Some? && email1.value != [] {
      assert key[0] == 'e';
      if email2.Some? && email2.value != [] {
        assert email1.value == key[6..] == email2.value;
      }
    } else {
      assert key[0] == 'i';
      assert ip1 == key[3..];
    }
  }

  /** The limiter's promise: every stored window has counted between one and
      five requests. */
  predicate CountsInRange(records: map<string, RateRecord>) {
    forall k :: k in records ==> 1 <= records[k].count <= MAX_REQUESTS
  }

  /** `isRateLimited` answers true: the key's window is still open and full. */
  predicate Limited(records: map<string, RateRecord>, key: string, now: int) {
    key in records && now <= records[key].resetTime && records[key].count >= MAX_REQUESTS
  }

  /** The records after `isRateLimited(key)` at `now`: a new or expired window
      starts over at one request, a full window is left alone, and otherwise
      the request is counted. */
  function AfterCheck(records: map<string, RateRecord>, key: string, now: int): (r: map<string, RateRecord>)
    ensures r.Keys == records.Keys + {key}
    ensures forall k :: k in records && k != key ==> r[k] == records[k]
    ensures key !in records ==> r[key] == RateRecord(1, now + RATE_LIMIT_WINDOW)
    ensures key in records && now > records[key].resetTime ==> r[key] == RateRecord(1, now + RATE_LIMIT_WINDOW)
    ensures Limited(records, key, now) ==> r == records
    ensures key in records && now <= records[key].resetTime && !Limited(records, key, now) ==>
              r[key] == records[key].(count := records[key].count + 1)
  {
    if key !in records || now > records[key].resetTime then
      records[key := RateRecord(1, now + RATE_LIMIT_WINDOW)]
    else if records[key].count >= MAX_REQUESTS then
      records
    else
      records[key := records[key].(count := records[key].count + 1)]
  }

  lemma AfterCheckKeepsCounts(records: map<string, RateRecord>, key: string, now: int)
    requires CountsInRange(records)
    ensures CountsInRange(AfterCheck(records, key, now))
  {
  }

  /** The records after `cleanupExpiredEntries` at `now`: exactly the windows
      that are over are gone. */
  function Unexpired(records: map<string, RateRecord>, now: int): (r: map<string, RateRecord>)
    ensures forall k :: k in r <==> k in records && now <= records[k].resetTime
    ensures forall k :: k in r ==> r[k] == records[k]
  {
    map k | k in records && now <= records[k].resetTime :: records[k]
  }

  /** A sweep at `sweptAt` changes no later decision, nor the window a later
      check leaves for its key. */
  lemma SweepKeepsDecisions(records: map<string, RateRecord>, sweptAt: int, key: string, now: int)
    requires sweptAt <= now
    ensures Limited(Unexpired(records, sweptAt), key, now) == Limited(records, key, now)
    ensures AfterCheck(Unexpired(records, sweptAt), key, now)[key] == AfterCheck(records, key, now)[key]
  {
  }

  /** How many of a run of checks of one key, at the given instants in turn,
      are let through. */
  function PassedChecks(records: map<string, RateRecord>, key: string, times: seq<int>): nat
    decreases |times|
  {
    if times == [] then 0
    else
      (if Limited(records, key, times[0]) then 0 else 1)
      + PassedChecks(AfterCheck(records, key, times[0]), key, times[1..])
  }

  /** Within an open window, only the requests still missing from five pass. */
  lemma {:induction false} OpenWindowBound(records: map<string, RateRecord>, key: string, times: seq<int>)
    requires key in records && records[key].count <= MAX_REQUESTS
    requires forall i :: 0 <= i < |times| ==> times[i] <= records[key].resetTime
    ensures PassedChecks(records, key, times) <= MAX_REQUESTS - records[key].count
    decreases |times|
  {
    if times != [] {
      var next := AfterCheck(records, key, times[0]);
      assert next[key].resetTime == records[key].resetTime;
      OpenWindowBound(next, key, times[1..]);
    }
  }

  /** A window holds at most five requests that pass: a first request opens it,
      and of the requests that follow it within the window at most four more
      pass. */
  lemma WindowBound(records: map<string, RateRecord>, key: string, times: seq<int>)
    requires times != []
    requires key !in records || times[0] > records[key].resetTime
    requires forall i :: 0 <= i < |times| ==> times[i] <= times[0] + RATE_LIMIT_WINDOW
    ensures PassedChecks(records, key, times) <= MAX_REQUESTS
  {
    var next := AfterCheck(records, key, times[0]);
    OpenWindowBound(next, key, times[1..]);
  }

  // ---------------------------------------------------------------------------
  // The request decision.

  const SIGNIN_PREFIX := "/api/auth/signin"
  const CALLBACK_PREFIX := "/api/auth/callback"

  predicate IsAuthPath(pathname: string) {
    StartsWith(pathname, SIGNIN_PREFIX) || StartsWith(pathname, CALLBACK_PREFIX)
  }

  /** A header or query value as JavaScript's `||` sees it: missing and empty
      are both false. */
  predicate Present(value: Option<string>) {
    value.Some? && value.value != []
  }

  /** The client IP: `x-forwarded-for`, else `x-real-ip`, else "unknown". */
  function ClientIp(forwardedFor: Option<string>, realIp: Option<string>): (ip: string)
    ensures ip != []
    ensures Present(forwardedFor) ==> ip == forwardedFor.value
    ensures !Present(forwardedFor) && Present(realIp) ==> ip == realIp.value
    ensures !Present(forwardedFor) && !Present(realIp) ==> ip == "unknown"
  {
    if Present(forwardedFor) then forwardedFor.value
    else if Present(realIp) then realIp.value
    else "unknown"
  }

  datatype Request = Request(
    pathname: string,
    forwardedFor: Option<string>,
    realIp: Option<string>,
    email: Option<string>)

  function RequestKey(request: Request): string {
    GetRateLimitKey(ClientIp(request.forwardedFor, request.realIp), request.email)
  }

  const TOO_MANY_REQUESTS_STATUS := 429

  datatype Response =
    | Next
    | TooManyRequests(status: int, retryAfterSeconds: int, error: string, message: string)

  const RATE_LIMITED := TooManyRequests(429, 900, "Too many requests",
    "Terlalu banyak percobaan login. Silakan coba lagi dalam 15 menit.")

  /** The 429 answer tells the client to retry after exactly one window. */
  lemma RetryAfterIsOneWindow()
    ensures RATE_LIMITED.status == TOO_MANY_REQUESTS_STATUS
    ensures RATE_LIMITED.retryAfterSeconds * 1000 == RATE_LIMIT_WINDOW
  {
  }

  /** The table of windows, shared by every request the process serves. */
  class RateLimiter {
    var records: map<string, RateRecord>

    constructor ()
      ensures records == map[]
    {
      records := map[];
    }

    /** `isRateLimited`. */
    method IsRateLimited(key: string, now: int) returns (limited: bool)
      modifies this
      ensures limited == Limited(old(records), key, now)
      ensures records == AfterCheck(old(records), key, now)
      ensures CountsInRange(old(records)) ==> CountsInRange(records)
    {
      if key !in records {
        records := records[key := RateRecord(1, now + RATE_LIMIT_WINDOW)];
        return false;
      }
      var record := records[key];
      if now > record.resetTime {
        records := records[key := RateRecord(1, now + RATE_LIMIT_WINDOW)];
        return false;
      }
      if record.count >= MAX_REQUESTS {
        return true;
      }
      records := records[key := record.(count := record.count + 1)];
      limited := false;
    }

    /** `cleanupExpiredEntries`: visits every key once and deletes the windows
        that are over. */
    method CleanupExpiredEntries(now: int)
      modifies this
      ensures records == Unexpired(old(records), now)
    {
      ghost var start := records;
      var pending := records.Keys;
      while pending != {}
        invariant pending <= start.Keys
        invariant forall k :: k in records <==> k in pending || (k in start && now <= start[k].resetTime)
        invariant forall k :: k in records ==> records[k] == start[k]
        decreases pending
      {
        var key :| key in pending;
        if now > records[key].resetTime {
          records := records - {key};
        }
        pending := pending - {key};
      }
    }

    /** `middleware`: an occasional sweep (when `sweep`, the 10% draw, holds),
        then, on the sign-in and callback paths only, a check of the request's
        key that answers 429 when the window is full. */
    method HandleRequest(request: Request, now: int, sweep: bool) returns (response: Response)
      modifies this
      ensures var swept := if sweep then Unexpired(old(records), now) else old(records);
              && (!IsAuthPath(request.pathname) ==> response == Next && records == swept)
              && (IsAuthPath(request.pathname) ==>
                    && (response == RATE_LIMITED <==> Limited(swept, RequestKey(request), now))
                    && (response != RATE_LIMITED ==> response == Next)
                    && records == AfterCheck(swept, RequestKey(request), now))
      ensures CountsInRange(old(records)) ==> CountsInRange(records)
    {
      if sweep {
        CleanupExpiredEntries(now);
      }
      response := Next;
      if StartsWith(request.pathname, SIGNIN_PREFIX) || StartsWith(request.pathname, CALLBACK_PREFIX) {
        var ip := ClientIp(request.forwardedFor, request.realIp);
        var key := GetRateLimitKey(ip, request.email);
        var limited := IsRateLimited(key, now);
        if limited {
          response := RATE_LIMITED;
        }
      }
    }
  }
}
