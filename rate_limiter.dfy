/**
 * The fixed-window rate limiter (middlewares/rateLimiter.js): one process-wide
 * table from client identity to `{ count, windowStart }`, shared by every
 * limiter the factory returns, and a housekeeping sweep over that table.
 * `Date.now()` is the parameter `now`; the 15-minute timer is an explicit call.
 */
module RateLimiting {
  import opened Wrappers
  import opened JsValues

  datatype Entry = Entry(count: int, windowStart: int)

  datatype Options = Options(windowMs: int, max: int)

  /** What the middleware does with one request: call `next()` or answer 429 with Retry-After. */
  datatype Decision = Admit | Deny(retryAfter: int)

  /** Entries whose window started more than two hours ago are reclaimed by the sweep. */
  const StaleMs: int := 2 * 60 * 60 * 1000
  /** The sweep runs every fifteen minutes. */
  const SweepIntervalMs: int := 15 * 60 * 1000

  const TooManyRequestsMessage: string := "Too many requests. Please try again later."

  /** `rateLimiter({ windowMs = 60_000, max = 5 } = {})` */
  function MakeOptions(windowMs: Option<int>, max: Option<int>): (o: Options)
    ensures windowMs.None? ==> o.windowMs == 60000
    ensures max.None? ==> o.max == 5
    ensures windowMs.Some? ==> o.windowMs == windowMs.value
    ensures max.Some? ==> o.max == max.value
  {
    Options(if windowMs.Some? then windowMs.value else 60000, if max.Some? then max.value else 5)
  }

  /** The text before the first comma (`s.split(",")[0]`). */
  function FirstField(s: string): (r: string)
    ensures |r| <= |s| && r == s[..|r|] && ',' !in r
    ensures |r| == |s| || s[|r|] == ','
  {
    if s == [] || s[0] == ',' then [] else [s[0]] + FirstField(s[1..])
  }

  /**
   * The identity a request is counted under: the first entry of X-Forwarded-For,
   * trimmed, when that is non-empty, and the socket's address otherwise.
   */
  function ClientIdentity(forwardedFor: Option<string>, remoteAddress: string): (ip: string)
    ensures forwardedFor.None? ==> ip == remoteAddress
    ensures forwardedFor.Some? && Trim(FirstField(forwardedFor.value)) != "" ==> ip == Trim(FirstField(forwardedFor.value))
    ensures forwardedFor.Some? && Trim(FirstField(forwardedFor.value)) == "" ==> ip == remoteAddress
  {
    var first := if forwardedFor.Some? then Trim(FirstField(forwardedFor.value)) else "";
    if first != "" then first else remoteAddress
  }

  /** The middleware is bypassed when NODE_ENV is exactly "development". */
  predicate DevelopmentMode(nodeEnv: Option<string>) {
    nodeEnv == Some("development")
  }

  /** Every entry has counted at least one and at most `max` requests in its window. */
  ghost predicate CountsWithin(table: map<string, Entry>, max: int) {
    forall k :: k in table ==> 1 <= table[k].count <= max
  }

  /**
   * One request from `ip` at time `now`, on the table as a value: a new identity
   * gets a fresh entry, an expired window is restarted, a full window denies
   * (leaving the table as it was), and otherwise the count goes up by one.
   */
  function Step(table: map<string, Entry>, ip: string, now: int, opts: Options): (r: (Decision, map<string, Entry>))
    ensures ip !in table ==> r == (Admit, table[ip := Entry(1, now)])
    ensures ip in table && now - table[ip].windowStart >= opts.windowMs ==> r == (Admit, table[ip := Entry(1, now)])
    ensures ip in table && now - table[ip].windowStart < opts.windowMs && table[ip].count >= opts.max ==>
              r.0.Deny? && r.1 == table
    ensures ip in table && now - table[ip].windowStart < opts.windowMs && table[ip].count < opts.max ==>
              r == (Admit, table[ip := Entry(table[ip].count + 1, table[ip].windowStart)])
    ensures r.0.Deny? ==> r.0.retryAfter >= 1
    ensures r.0.Deny? ==> r.0.retryAfter == CeilDiv(table[ip].windowStart + opts.windowMs - now, 1000)
    ensures ip in r.1 && r.1.Keys == table.Keys + {ip}
    ensures forall k :: k in table && k != ip ==> r.1[k] == table[k]
    ensures opts.max >= 1 && CountsWithin(table, opts.max) ==> CountsWithin(r.1, opts.max)
  {
    if ip !in table then (Admit, table[ip := Entry(1, now)])
    else
      var e := table[ip];
      if now - e.windowStart >= opts.windowMs then (Admit, table[ip := Entry(1, now)])
      else if e.count >= opts.max then (Deny(CeilDiv(e.windowStart + opts.windowMs - now, 1000)), table)
      else (Admit, table[ip := Entry(e.count + 1, e.windowStart)])
  }

  predicate Stale(e: Entry, now: int) {
    now - e.windowStart > StaleMs
  }

  /** The table after a sweep at `now`: exactly the entries that are not stale, unchanged. */
  function Swept(table: map<string, Entry>, now: int): (r: map<string, Entry>)
    ensures forall k :: k in r <==> k in table && !Stale(table[k], now)
    ensures forall k :: k in r ==> r[k] == table[k]
  {
    map k | k in table && !Stale(table[k], now) :: table[k]
  }

  /** Admissions of `ip` over a run of requests at the given times, and the table afterwards. */
  function Replay(table: map<string, Entry>, ip: string, times: seq<int>, opts: Options): (nat, map<string, Entry>)
    decreases times
  {
    if times == [] then (0, table)
    else
      var (d, next) := Step(table, ip, times[0], opts);
      var (n, last) := Replay(next, ip, times[1..], opts);
      (n + (if d.Admit? then 1 else 0), last)
  }

  /**
   * Inside one window (every request earlier than `windowStart + windowMs`), an
   * entry that has counted `c <= max` admits exactly the next `max - c` requests
   * and denies the rest; the window does not move.
   */
  lemma {:induction false} AdmissionsWithinWindow(table: map<string, Entry>, ip: string, times: seq<int>, opts: Options)
    requires ip in table && table[ip].count <= opts.max
    requires forall i :: 0 <= i < |times| ==> times[i] - table[ip].windowStart < opts.windowMs
    ensures Replay(table, ip, times, opts).0 == Min(|times|, opts.max - table[ip].count)
    ensures ip in Replay(table, ip, times, opts).1
    ensures Replay(table, ip, times, opts).1[ip].windowStart == table[ip].windowStart
    ensures Replay(table, ip, times, opts).1[ip].count == table[ip].count + Min(|times|, opts.max - table[ip].count)
  {
    if times != [] {
      var next := Step(table, ip, times[0], opts).1;
      assert forall i :: 0 <= i < |times[1..]| ==> times[1..][i] == times[i + 1];
      AdmissionsWithinWindow(next, ip, times[1..], opts);
    }
  }

  /**
   * At most `max` admissions per window: after a request from an identity that has
   * no live window (unknown, or its window expired), at most `max` requests within
   * `windowMs` of it are admitted, the first one included, and every one past the
   * `max`-th is denied.
   */
  lemma AtMostMaxPerWindow(table: map<string, Entry>, ip: string, t0: int, times: seq<int>, opts: Options)
    requires opts.max >= 1
    requires ip !in table || t0 - table[ip].windowStart >= opts.windowMs
    requires forall i :: 0 <= i < |times| ==> times[i] - t0 < opts.windowMs
    ensures Replay(table, ip, [t0] + times, opts).0 == Min(|times| + 1, opts.max)
  {
    var next := Step(table, ip, t0, opts).1;
    assert ([t0] + times)[1..] == times;
    AdmissionsWithinWindow(next, ip, times, opts);
  }

  /**
   * The sweep never changes what the limiter decides: with a window no longer than
   * the staleness horizon, a request after the sweep is admitted or denied exactly as
   * it would have been without it, and leaves the same entry for its identity.
   */
  lemma SweepUnobservable(table: map<string, Entry>, sweptAt: int, ip: string, now: int, opts: Options)
    requires opts.windowMs <= StaleMs && sweptAt <= now
    ensures Step(Swept(table, sweptAt), ip, now, opts).0 == Step(table, ip, now, opts).0
    ensures ip in Step(table, ip, now, opts).1
    ensures Step(Swept(table, sweptAt), ip, now, opts).1[ip] == Step(table, ip, now, opts).1[ip]
  {
  }

  /** The process-wide table of rate-limit entries. */
  class RateLimitTable {
    var entries: map<string, Entry>

    constructor ()
      ensures entries == map[]
    {
      entries := map[];
    }

    /**
     * The middleware for one request. In development mode nothing is counted;
     * otherwise the entry of the request's identity is created, restarted,
     * incremented or left alone as `Step` says.
     */
    method Handle(opts: Options, nodeEnv: Option<string>, forwardedFor: Option<string>, remoteAddress: string, now: int)
      returns (d: Decision)
      modifies this
      ensures DevelopmentMode(nodeEnv) ==> d == Admit && entries == old(entries)
      ensures !DevelopmentMode(nodeEnv) ==>
                (d, entries) == Step(old(entries), ClientIdentity(forwardedFor, remoteAddress), now, opts)
    {
      if DevelopmentMode(nodeEnv) {
        return Admit;
      }
      var ip := ClientIdentity(forwardedFor, remoteAddress);
      if ip !in entries {
        entries := entries[ip := Entry(1, now)];
        return Admit;
      }
      var entry := entries[ip];
      if now - entry.windowStart >= opts.windowMs {
        entries := entries[ip := entry.(count := 1, windowStart := now)];
        return Admit;
      }
      if entry.count >= opts.max {
        var retryAfter := CeilDiv(entry.windowStart + opts.windowMs - now, 1000);
        return Deny(retryAfter);
      }
      entries := entries[ip := entry.(count := entry.count + 1)];
      d := Admit;
    }

    /** The housekeeping timer: delete every stale entry, one key at a time. */
    method Sweep(now: int)
      modifies this
      ensures entries == Swept(old(entries), now)
    {
      var pending := entries.Keys;
      while pending != {}
        invariant pending <= entries.Keys <= old(entries).Keys
        invariant forall k :: k in entries ==> entries[k] == old(entries)[k]
        invariant forall k :: k in old(entries) && k !in pending ==> (k in entries <==> !Stale(old(entries)[k], now))
        decreases pending
      {
        var k :| k in pending;
        if now - entries[k].windowStart > StaleMs {
          entries := entries - {k};
        }
        pending := pending - {k};
      }
    }
  }
}
