/** The fixed-window request limiter of internal/middleware/ratelimit.go.

    Time is an integer number of nanoseconds. A request reads the clock once to
    test for expiry (`checked`) and once more to stamp a new window (`stamped`). */
module RateLimit {
  datatype Visitor = Visitor(count: nat, resetAt: int)

  type Visitors = map<string, Visitor>

  datatype Config = Config(rate: int, window: int) {
    /** The number of requests one window admits: the opening request is never rejected. */
    function Capacity(): int {
      if rate < 1 then 1 else rate
    }
  }

  datatype Event =
    | Request(ip: string, checked: int, stamped: int)
    | Cleanup(now: int)
  {
    function Start(): int {
      if Request? then checked else now
    }

    function End(): int {
      if Request? then stamped else now
    }
  }

  // ---- One request, one sweep ----

  predicate Opens(visitors: Visitors, ip: string, t: int) {
    ip !in visitors || t > visitors[ip].resetAt
  }

  predicate Admits(c: Config, visitors: Visitors, ip: string, t: int) {
    Opens(visitors, ip, t) || visitors[ip].count + 1 <= c.rate
  }

  function Sweep(visitors: Visitors, now: int): Visitors {
    map ip | ip in visitors && now <= visitors[ip].resetAt :: visitors[ip]
  }

  function After(c: Config, visitors: Visitors, e: Event): Visitors {
    match e
    case Request(ip, checked, stamped) =>
      if Opens(visitors, ip, checked) then
        visitors[ip := Visitor(1, stamped + c.window)]
      else
        visitors[ip := visitors[ip].(count := visitors[ip].count + 1)]
    case Cleanup(now) => Sweep(visitors, now)
  }

  class RateLimiter {
    const config: Config
    var visitors: Visitors

    constructor (rate: int, window: int)
      ensures config == Config(rate, window) && visitors == map[]
    {
      config := Config(rate, window);
      visitors := map[];
    }

    method Handle(ip: string, checked: int, stamped: int) returns (admitted: bool)
      modifies this`visitors
      ensures admitted == Admits(config, old(visitors), ip, checked)
      ensures visitors == After(config, old(visitors), Request(ip, checked, stamped))
    {
      if ip !in visitors || checked > visitors[ip].resetAt {
        visitors := visitors[ip := Visitor(1, stamped + config.window)];
        return true;
      }
      var v := visitors[ip];
      v := v.(count := v.count + 1);
      visitors := visitors[ip := v];
      if v.count > config.rate {
        return false;
      }
      return true;
    }

    method CleanUp(now: int)
      modifies this`visitors
      ensures visitors == After(config, old(visitors), Cleanup(now))
    {
      var todo := visitors.Keys;
      while todo != {}
        invariant todo <= visitors.Keys <= old(visitors).Keys
        invariant forall ip :: ip in visitors ==> visitors[ip] == old(visitors)[ip]
        invariant forall ip :: ip in old(visitors) && ip !in todo ==>
                    (ip in visitors <==> now <= old(visitors)[ip].resetAt)
        decreases |todo|
      {
        var ip :| ip in todo;
        todo := todo - {ip};
        if now > visitors[ip].resetAt {
          visitors := visitors - {ip};
        }
      }
    }
  }

  // ---- Traces ----

  /** The clock never runs backwards along the trace. */
  predicate Ordered(now: int, events: seq<Event>)
    decreases events
  {
    events == [] ||
    (now <= events[0].Start() <= events[0].End() && Ordered(events[0].End(), events[1..]))
  }

  /** Every record has been first by one counted request. */
  predicate Counted(visitors: Visitors) {
    forall ip :: ip in visitors ==> visitors[ip].count >= 1
  }

  /** How many requests of `ip` checked at a time in [lo, hi] the limiter lets through. */
  function Admitted(c: Config, visitors: Visitors, events: seq<Event>, ip: string, lo: int, hi: int): nat
    decreases events
  {
    if events == [] then 0 else
      var e := events[0];
      (if e.Request? && e.ip == ip && lo <= e.checked <= hi && Admits(c, visitors, ip, e.checked) then 1 else 0)
      + Admitted(c, After(c, visitors, e), events[1..], ip, lo, hi)
  }

  function Requests(events: seq<Event>, ip: string): nat {
    if events == [] then 0 else
      (if events[0].Request? && events[0].ip == ip then 1 else 0) + Requests(events[1..], ip)
  }

  /** What the open record of `ip` can still admit. */
  function Remaining(c: Config, visitors: Visitors, ip: string): nat {
    if ip !in visitors || visitors[ip].count >= c.Capacity() then 0
    else c.Capacity() - visitors[ip].count
  }

  // ---- A window admits min(requests, capacity), exactly ----

  /** Moving the left end of the interval up to the present loses nothing. */
  lemma {:induction false} AdmittedFrom(c: Config, visitors: Visitors, events: seq<Event>, ip: string,
                                        lo: int, now: int, hi: int)
    requires lo <= now && Ordered(now, events)
    ensures Admitted(c, visitors, events, ip, lo, hi) == Admitted(c, visitors, events, ip, now, hi)
    decreases events
  {
    if events != [] {
      var next := After(c, visitors, events[0]);
      AdmittedFrom(c, next, events[1..], ip, lo, events[0].End(), hi);
      AdmittedFrom(c, next, events[1..], ip, now, events[0].End(), hi);
    }
  }

  lemma {:induction false} OpenWindowExact(c: Config, visitors: Visitors, events: seq<Event>, ip: string, now: int)
    requires ip in visitors && Counted(visitors)
    requires Ordered(now, events)
    requires forall e :: e in events ==> e.Start() <= visitors[ip].resetAt
    ensures Admitted(c, visitors, events, ip, now, visitors[ip].resetAt)
            == if Requests(events, ip) <= Remaining(c, visitors, ip) then Requests(events, ip)
               else Remaining(c, visitors, ip)
    decreases events
  {
    if events != [] {
      var next := After(c, visitors, events[0]);
      OpenWindowExact(c, next, events[1..], ip, events[0].End());
      AdmittedFrom(c, next, events[1..], ip, now, events[0].End(), visitors[ip].resetAt);
    }
  }

  lemma SingleWindow(c: Config, visitors: Visitors, opening: Event, rest: seq<Event>)
    requires Counted(visitors)
    requires opening.Request? && Opens(visitors, opening.ip, opening.checked)
    requires Ordered(opening.checked, [opening] + rest)
    requires forall e :: e in rest ==> e.Start() <= opening.stamped + c.window
    ensures var n := 1 + Requests(rest, opening.ip);
            1 + Admitted(c, After(c, visitors, opening), rest, opening.ip, opening.stamped, opening.stamped + c.window)
            == if n <= c.Capacity() then n else c.Capacity()
  {
    assert ([opening] + rest)[1..] == rest;
    OpenWindowExact(c, After(c, visitors, opening), rest, opening.ip, opening.stamped);
  }

  // ---- Any closed interval as long as the window admits at most 2 * capacity - 1 ----

  /** An upper bound, in terms of the present state, on what is still to be admitted in [lo, lo + window]. */
  function Budget(c: Config, visitors: Visitors, ip: string, lo: int, now: int): int {
    if now < lo then 2 * c.Capacity() - 1
    else if now > lo + c.window then 0
    else if ip !in visitors then c.Capacity()
    else if visitors[ip].resetAt >= lo + c.window then Remaining(c, visitors, ip)
    else Remaining(c, visitors, ip) + c.Capacity()
  }

  lemma {:induction false} WithinBudget(c: Config, visitors: Visitors, events: seq<Event>, ip: string, lo: int, now: int)
    requires Counted(visitors) && Ordered(now, events)
    ensures Admitted(c, visitors, events, ip, lo, lo + c.window) <= Budget(c, visitors, ip, lo, now)
    decreases events
  {
    if events != [] {
      var e := events[0];
      var next := After(c, visitors, e);
      WithinBudget(c, next, events[1..], ip, lo, e.End());
      if e.Request? && e.ip == ip && Opens(visitors, ip, e.checked) {
        assert next[ip] == Visitor(1, e.stamped + c.window);
      }
    }
  }

  lemma OrderedEarlier(now: int, earlier: int, events: seq<Event>)
    requires earlier <= now && Ordered(now, events)
    ensures Ordered(earlier, events)
  {}

  lemma IntervalBound(c: Config, events: seq<Event>, ip: string, start: int, lo: int)
    requires Ordered(start, events)
    ensures Admitted(c, map[], events, ip, lo, lo + c.window) <= 2 * c.Capacity() - 1
  {
    WithinBudget(c, map[], events, ip, lo, if start < lo then start else lo - 1) by {
      OrderedEarlier(start, if start < lo then start else lo - 1, events);
    }
  }

  // ---- ... and the bound is reached for every rate and every positive window ----

  function Repeat(ip: string, t: int, n: nat): seq<Event> {
    if n == 0 then [] else [Request(ip, t, t)] + Repeat(ip, t, n - 1)
  }

  /** One request opens a window, the rest of its capacity is spent at its very end,
      and the next window is spent at once. */
  function Burst(c: Config, ip: string): seq<Event> {
    [Request(ip, 0, 0)] + (Repeat(ip, c.window, c.Capacity() - 1) + Repeat(ip, c.window + 1, c.Capacity()))
  }

  lemma {:induction false} RepeatOrdered(ip: string, t: int, n: nat, now: int, rest: seq<Event>)
    requires now <= t && Ordered(t, rest)
    ensures Ordered(now, Repeat(ip, t, n) + rest)
  {
    if n == 0 {
      OrderedEarlier(t, now, rest);
      assert Repeat(ip, t, n) + rest == rest;
    } else {
      RepeatOrdered(ip, t, n - 1, t, rest);
      var all := Repeat(ip, t, n) + rest;
      assert all[1..] == Repeat(ip, t, n - 1) + rest && all[0] == Request(ip, t, t);
    }
  }

  /** `n` requests at one moment, all within an open window with room for them. */
  lemma {:induction false} RepeatAdmitted(c: Config, visitors: Visitors, ip: string, t: int, n: nat, rest: seq<Event>,
                                          lo: int, hi: int)
    requires ip in visitors && visitors[ip].count >= 1 && t <= visitors[ip].resetAt
    requires lo <= t <= hi && n <= Remaining(c, visitors, ip)
    ensures Admitted(c, visitors, Repeat(ip, t, n) + rest, ip, lo, hi)
            == n + Admitted(c, visitors[ip := visitors[ip].(count := visitors[ip].count + n)], rest, ip, lo, hi)
  {
    var all := Repeat(ip, t, n) + rest;
    if n == 0 {
      assert all == rest && visitors[ip := visitors[ip].(count := visitors[ip].count + n)] == visitors;
    } else {
      assert all[0] == Request(ip, t, t) && all[1..] == Repeat(ip, t, n - 1) + rest;
      var next := After(c, visitors, all[0]);
      RepeatAdmitted(c, next, ip, t, n - 1, rest, lo, hi);
      assert next[ip := next[ip].(count := next[ip].count + (n - 1))]
             == visitors[ip := visitors[ip].(count := visitors[ip].count + n)];
    }
  }

  lemma BurstOrdered(c: Config, ip: string)
    requires c.window >= 1
    ensures Ordered(0, Burst(c, ip))
  {
    var k := c.Capacity();
    var late := Repeat(ip, c.window + 1, k);
    assert late + [] == late;
    RepeatOrdered(ip, c.window + 1, k, c.window, []);
    RepeatOrdered(ip, c.window, k - 1, 0, late);
    assert Burst(c, ip)[1..] == Repeat(ip, c.window, k - 1) + late;
  }

  /** The second half of the burst: the old window has expired, so all of it is let through. */
  lemma FreshWindowAdmitted(c: Config, visitors: Visitors, ip: string, hi: int)
    requires c.window >= 1 && hi == c.window + 1
    requires ip in visitors && visitors[ip].resetAt == c.window
    ensures Admitted(c, visitors, Repeat(ip, hi, c.Capacity()), ip, 1, hi) == c.Capacity()
  {
    var late := Repeat(ip, hi, c.Capacity());
    assert late[0] == Request(ip, hi, hi);
    assert late[1..] == Repeat(ip, hi, c.Capacity() - 1) + [];
    RepeatAdmitted(c, After(c, visitors, late[0]), ip, hi, c.Capacity() - 1, [], 1, hi);
  }

  lemma BoundIsReached(c: Config, ip: string)
    requires c.window >= 1
    ensures Ordered(0, Burst(c, ip))
    ensures Admitted(c, map[], Burst(c, ip), ip, 1, 1 + c.window) == 2 * c.Capacity() - 1
  {
    BurstOrdered(c, ip);
    var k, hi := c.Capacity(), c.window + 1;
    var burst, late := Burst(c, ip), Repeat(ip, hi, k);
    assert burst[0] == Request(ip, 0, 0) && burst[1..] == Repeat(ip, c.window, k - 1) + late;
    var start := map[ip := Visitor(1, c.window)];
    assert After(c, map[], burst[0]) == start;
    RepeatAdmitted(c, start, ip, c.window, k - 1, late, 1, hi);
    FreshWindowAdmitted(c, start[ip := Visitor(k, c.window)], ip, hi);
  }

  // ---- The sweep and the other addresses are invisible ----

  function Decisions(c: Config, visitors: Visitors, events: seq<Event>): seq<bool>
    decreases events
  {
    if events == [] then [] else
      (if events[0].Request? then [Admits(c, visitors, events[0].ip, events[0].checked)] else [])
      + Decisions(c, After(c, visitors, events[0]), events[1..])
  }

  function RequestsOnly(events: seq<Event>): seq<Event> {
    if events == [] then [] else
      (if events[0].Request? then [events[0]] else []) + RequestsOnly(events[1..])
  }

  function DecisionsFor(c: Config, visitors: Visitors, events: seq<Event>, ip: string): seq<bool>
    decreases events
  {
    if events == [] then [] else
      (if events[0].Request? && events[0].ip == ip then [Admits(c, visitors, ip, events[0].checked)] else [])
      + DecisionsFor(c, After(c, visitors, events[0]), events[1..], ip)
  }

  function OwnRequests(events: seq<Event>, ip: string): seq<Event> {
    if events == [] then [] else
      (if events[0].Request? && events[0].ip == ip then [events[0]] else []) + OwnRequests(events[1..], ip)
  }

  /** The two tables answer alike about `ip` from `now` on: a record only one of them holds has expired. */
  predicate Agree(swept: Visitors, kept: Visitors, ip: string, now: int) {
    if ip in swept then ip in kept && kept[ip] == swept[ip]
    else ip in kept ==> kept[ip].resetAt < now
  }

  lemma {:induction false} SweptAndKeptDecideAlike(c: Config, swept: Visitors, kept: Visitors, events: seq<Event>,
                                                  now: int)
    requires Ordered(now, events)
    requires forall ip :: Agree(swept, kept, ip, now)
    ensures Decisions(c, swept, events) == Decisions(c, kept, RequestsOnly(events))
    decreases events
  {
    if events != [] {
      var e := events[0];
      var swept', rest := After(c, swept, e), RequestsOnly(events[1..]);
      if e.Request? {
        var kept' := After(c, kept, e);
        assert Agree(swept, kept, e.ip, now);
        forall ip ensures Agree(swept', kept', ip, e.stamped) {
          assert Agree(swept, kept, ip, now);
        }
        SweptAndKeptDecideAlike(c, swept', kept', events[1..], e.stamped);
        assert RequestsOnly(events)[1..] == rest && RequestsOnly(events)[0] == e;
      } else {
        forall ip ensures Agree(swept', kept, ip, e.now) {
          assert Agree(swept, kept, ip, now);
        }
        SweptAndKeptDecideAlike(c, swept', kept, events[1..], e.now);
        assert RequestsOnly(events) == rest;
      }
    }
  }

  lemma {:induction false} OthersDoNotMatter(c: Config, all: Visitors, own: Visitors, events: seq<Event>,
                                             ip: string, now: int)
    requires Ordered(now, events) && Agree(all, own, ip, now)
    ensures DecisionsFor(c, all, events, ip) == Decisions(c, own, OwnRequests(events, ip))
    decreases events
  {
    if events != [] {
      var e := events[0];
      var all', rest := After(c, all, e), OwnRequests(events[1..], ip);
      if e.Request? && e.ip == ip {
        OthersDoNotMatter(c, all', After(c, own, e), events[1..], ip, e.stamped);
        assert OwnRequests(events, ip)[1..] == rest && OwnRequests(events, ip)[0] == e;
      } else {
        OthersDoNotMatter(c, all', own, events[1..], ip, e.End());
        assert OwnRequests(events, ip) == rest;
      }
    }
  }

  // ---- The limiter as started: an empty table ----

  lemma CleanupIsTransparent(c: Config, events: seq<Event>, start: int)
    requires Ordered(start, events)
    ensures Decisions(c, map[], events) == Decisions(c, map[], RequestsOnly(events))
  {
    SweptAndKeptDecideAlike(c, map[], map[], events, start);
  }

  lemma AddressesAreIsolated(c: Config, events: seq<Event>, start: int, ip: string)
    requires Ordered(start, events)
    ensures DecisionsFor(c, map[], events, ip) == Decisions(c, map[], OwnRequests(events, ip))
  {
    OthersDoNotMatter(c, map[], map[], events, ip, start);
  }
}
