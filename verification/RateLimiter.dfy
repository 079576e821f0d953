/** The sliding-window request limiter. Times are milliseconds of a non-decreasing clock. */
module LimiterSteps {
  const GENERAL_LIMIT := 60
  const VOICE_LIMIT := 5
  const WINDOW := 60_000

  const VOICE_PATHS := ["/api/v1/scripts/generate-audio", "/api/v1/voice/"]

  datatype Bucket = General | Voice

  /** One budget: a bucket and a client. */
  type Key = (Bucket, string)

  function BucketOf(path: string): Bucket {
    if VOICE_PATHS[0] <= path || VOICE_PATHS[1] <= path then Voice else General
  }

  /** The paths that generate voice: one of two texts, followed by anything. */
  ghost predicate IsVoicePath(path: string) {
    || (exists rest :: path == "/api/v1/scripts/generate-audio" + rest)
    || (exists rest :: path == "/api/v1/voice/" + rest)
  }

  lemma StartsWith(path: string, part: string)
    ensures part <= path <==> exists rest :: path == part + rest
  {
    if part <= path { assert path == part + path[|part|..]; }
  }

  lemma BucketOfPath(path: string)
    ensures BucketOf(path) == Voice <==> IsVoicePath(path)
  {
    StartsWith(path, "/api/v1/scripts/generate-audio");
    StartsWith(path, "/api/v1/voice/");
  }

  function LimitOf(key: Key): nat {
    if key.0.Voice? then VOICE_LIMIT else GENERAL_LIMIT
  }

  /** The stamps still inside the window at `now`. */
  function Recent(stamps: seq<int>, now: int): seq<int> {
    if stamps == [] then []
    else (if now - stamps[0] < WINDOW then [stamps[0]] else []) + Recent(stamps[1..], now)
  }

  /** Exactly the stamps younger than a minute stay. */
  lemma {:induction false} RecentKeepsTheYoung(stamps: seq<int>, now: int)
    ensures forall t :: multiset(Recent(stamps, now))[t] == if now - t < 60_000 then multiset(stamps)[t] else 0
  {
    if stamps != [] {
      RecentKeepsTheYoung(stamps[1..], now);
      assert stamps == [stamps[0]] + stamps[1..];
    }
  }

  function HitsOf(hits: map<Key, seq<int>>, key: Key): seq<int> {
    if key in hits then hits[key] else []
  }

  /** `count` prunes the list it reads (and a missing list comes into being). */
  function Pruned(hits: map<Key, seq<int>>, key: Key, now: int): map<Key, seq<int>> {
    hits[key := Recent(HitsOf(hits, key), now)]
  }

  function Appended(hits: map<Key, seq<int>>, key: Key, now: int): map<Key, seq<int>> {
    hits[key := HitsOf(hits, key) + [now]]
  }

  predicate Admits(hits: map<Key, seq<int>>, key: Key, now: int) {
    |Recent(HitsOf(hits, key), now)| < LimitOf(key)
  }

  /** The window together with what an observer sees: every admitted stamp, never pruned, and how
      many requests passed the check but are not recorded yet. */
  datatype System = System(
    hits: map<Key, seq<int>>,
    clock: int,
    admitted: map<Key, seq<int>>,
    between: map<Key, nat>)

  datatype Event = Check(key: Key, now: int) | Record(key: Key, now: int)

  function Between(s: System, key: Key): nat {
    if key in s.between then s.between[key] else 0
  }

  /** The clock never goes back, and only a request that passed its check is recorded. */
  predicate Enabled(s: System, e: Event) {
    s.clock <= e.now && (e.Record? ==> Between(s, e.key) > 0)
  }

  function Step(s: System, e: Event): System
    requires Enabled(s, e)
  {
    match e
    case Check(key, now) =>
      System(Pruned(s.hits, key, now), now, s.admitted,
             if Admits(s.hits, key, now) then s.between[key := Between(s, key) + 1] else s.between)
    case Record(key, now) =>
      System(Appended(s.hits, key, now), now, Appended(s.admitted, key, now),
             s.between[key := Between(s, key) - 1])
  }

  function Start(clock: int): System { System(map[], clock, map[], map[]) }

  /** One request dispatched without interruption; the clock is read once by each half. */
  function Dispatch(s: System, key: Key, checked: int, recorded: int): System
    requires s.clock <= checked <= recorded
  {
    var c := Step(s, Check(key, checked));
    if Admits(s.hits, key, checked) then Step(c, Record(key, recorded)) else c
  }
}

/** The two objects of the middleware. */
module RateLimiters {
  import opened LimiterSteps

  class SlidingWindow {
    var hits: map<Key, seq<int>>

    constructor ()
      ensures hits == map[]
    {
      hits := map[];
    }

    method Count(key: Key, now: int) returns (n: nat)
      modifies this
      ensures hits == Pruned(old(hits), key, now)
      ensures n == |Recent(HitsOf(old(hits), key), now)|
      ensures key in hits && n == |hits[key]|
      ensures forall t :: multiset(hits[key])[t] == if now - t < 60_000 then multiset(HitsOf(old(hits), key))[t] else 0
    {
      var stamps := if key in hits then hits[key] else [];
      hits := hits[key := Recent(stamps, now)];
      RecentKeepsTheYoung(stamps, now);
      return |hits[key]|;
    }

    method Hit(key: Key, now: int)
      modifies this
      ensures hits == Appended(old(hits), key, now)
    {
      var stamps := if key in hits then hits[key] else [];
      hits := hits[key := stamps + [now]];
    }
  }

  datatype Response = Forwarded | TooManyRequests(bucket: Bucket, limit: nat, retryAfterSeconds: nat)

  class RateLimiterMiddleware {
    const window: SlidingWindow

    constructor (window: SlidingWindow)
      ensures this.window == window
    {
      this.window := window;
    }

    method Dispatch(client: string, path: string, checked: int, recorded: int) returns (r: Response)
      modifies window
      ensures forall s: System {:trigger s.hits} :: s.hits == old(window.hits) && s.clock <= checked <= recorded ==>
        window.hits == LimiterSteps.Dispatch(s, (BucketOf(path), client), checked, recorded).hits
      ensures var key := (BucketOf(path), client);
        && (r.Forwarded? <==> Admits(old(window.hits), key, checked))
        && (r.TooManyRequests? ==>
              && (r.bucket == Voice <==> IsVoicePath(path))
              && r.limit == (if IsVoicePath(path) then 5 else 60) && r.retryAfterSeconds == 60)
        && window.hits == (if r.Forwarded?
                           then Appended(Pruned(old(window.hits), key, checked), key, recorded)
                           else Pruned(old(window.hits), key, checked))
    {
      var bucket := BucketOf(path);
      BucketOfPath(path);
      var limit := if bucket == Voice then VOICE_LIMIT else GENERAL_LIMIT;
      var n := window.Count((bucket, client), checked);
      if n >= limit {
        return TooManyRequests(bucket, limit, WINDOW / 1000);
      }
      window.Hit((bucket, client), recorded);
      return Forwarded;
    }
  }
}

module LimiterProofs {
  import opened Common
  import opened LimiterSteps

  /** The stamps in the minute that ends at `t`, that is in (t - 60 s, t]. */
  function InWindow(stamps: seq<int>, t: int): seq<int> {
    if stamps == [] then []
    else (if t - 60_000 < stamps[0] <= t then [stamps[0]] else []) + InWindow(stamps[1..], t)
  }

  // ---- filters ----

  lemma {:induction false} RecentOfRecent(stamps: seq<int>, t: int, u: int)
    requires t <= u
    ensures Recent(Recent(stamps, t), u) == Recent(stamps, u)
  {
    if stamps != [] {
      RecentOfRecent(stamps[1..], t, u);
      var rest := Recent(stamps[1..], t);
      if t - stamps[0] < WINDOW {
        assert ([stamps[0]] + rest)[1..] == rest;
      } else {
        assert Recent(stamps, t) == rest;
      }
    }
  }

  lemma {:induction false} RecentAppend(stamps: seq<int>, x: int, t: int)
    ensures Recent(stamps + [x], t) == Recent(stamps, t) + if t - x < WINDOW then [x] else []
  {
    if stamps == [] {
      assert stamps + [x] == [x];
      assert [x][1..] == [];
    } else {
      RecentAppend(stamps[1..], x, t);
      assert (stamps + [x])[1..] == stamps[1..] + [x];
      Associative(if t - stamps[0] < WINDOW then [stamps[0]] else [], Recent(stamps[1..], t),
                  if t - x < WINDOW then [x] else []);
    }
  }

  lemma {:induction false} InWindowAppend(stamps: seq<int>, x: int, t: int)
    ensures InWindow(stamps + [x], t) == InWindow(stamps, t) + if t - WINDOW < x <= t then [x] else []
  {
    if stamps == [] {
      assert stamps + [x] == [x];
      assert [x][1..] == [];
    } else {
      InWindowAppend(stamps[1..], x, t);
      assert (stamps + [x])[1..] == stamps[1..] + [x];
      Associative(if t - WINDOW < stamps[0] <= t then [stamps[0]] else [], InWindow(stamps[1..], t),
                  if t - WINDOW < x <= t then [x] else []);
    }
  }

  lemma {:induction false} RecentShrinks(stamps: seq<int>, t: int, u: int)
    requires t <= u
    ensures |Recent(stamps, u)| <= |Recent(stamps, t)|
    ensures |InWindow(stamps, u)| <= |Recent(stamps, t)|
  {
    if stamps != [] {
      RecentShrinks(stamps[1..], t, u);
    }
  }

  lemma {:induction false} NothingRecent(stamps: seq<int>, t: int)
    requires forall i :: 0 <= i < |stamps| ==> stamps[i] <= t - WINDOW
    ensures Recent(stamps, t) == []
  {
    if stamps != [] {
      NothingRecent(stamps[1..], t);
    }
  }

  // ---- what every step keeps, for one budget ----

  /** With at most `k` requests between check and record: the pruned list counts like the full
      log, and no window holds more than `LimitOf(key) + k - 1` admitted requests. */
  ghost predicate Kept(s: System, key: Key, k: nat) {
    var log := HitsOf(s.admitted, key);
    && Recent(HitsOf(s.hits, key), s.clock) == Recent(log, s.clock)
    && (forall i :: 0 <= i < |log| ==> log[i] <= s.clock)
    && |Recent(log, s.clock)| + Between(s, key) <= LimitOf(key) + k - 1
    && (forall t :: |InWindow(log, t)| <= LimitOf(key) + k - 1)
  }

  lemma CountsLikeTheLog(s: System, key: Key, k: nat, now: int)
    requires Kept(s, key, k) && s.clock <= now
    ensures Recent(HitsOf(s.hits, key), now) == Recent(HitsOf(s.admitted, key), now)
  {
    RecentOfRecent(HitsOf(s.hits, key), s.clock, now);
    RecentOfRecent(HitsOf(s.admitted, key), s.clock, now);
  }

  lemma CheckKeeps(s: System, key: Key, k: nat, now: int)
    requires Kept(s, key, k) && s.clock <= now && Between(Step(s, Check(key, now)), key) <= k
    ensures Kept(Step(s, Check(key, now)), key, k)
  {
    CountsLikeTheLog(s, key, k, now);
    RecentShrinks(HitsOf(s.admitted, key), s.clock, now);
    RecentOfRecent(HitsOf(s.hits, key), now, now);
  }

  lemma WindowsStayBounded(log: seq<int>, now: int, bound: int)
    requires |Recent(log + [now], now)| <= bound
    requires forall t :: |InWindow(log, t)| <= bound
    ensures forall t :: |InWindow(log + [now], t)| <= bound
  {
    forall t ensures |InWindow(log + [now], t)| <= bound {
      InWindowAppend(log, now, t);
      if now <= t { RecentShrinks(log + [now], now, t); }
    }
  }

  lemma RecordKeeps(s: System, key: Key, k: nat, now: int)
    requires Kept(s, key, k) && s.clock <= now && Between(s, key) > 0
    ensures Kept(Step(s, Record(key, now)), key, k)
  {
    var log := HitsOf(s.admitted, key);
    CountsLikeTheLog(s, key, k, now);
    RecentShrinks(log, s.clock, now);
    RecentAppend(HitsOf(s.hits, key), now, now);
    RecentAppend(log, now, now);
    WindowsStayBounded(log, now, LimitOf(key) + k - 1);
  }

  lemma StepKeeps(s: System, e: Event, key: Key, k: nat)
    requires Kept(s, key, k) && Enabled(s, e) && Between(Step(s, e), key) <= k
    ensures Kept(Step(s, e), key, k)
  {
    if e.key != key {
      CountsLikeTheLog(s, key, k, e.now);
      RecentShrinks(HitsOf(s.admitted, key), s.clock, e.now);
    } else if e.Check? {
      CheckKeeps(s, key, k, e.now);
    } else {
      RecordKeeps(s, key, k, e.now);
    }
  }

  // ---- whole runs ----

  /** Events happen when enabled, and never more than `k` requests of `key` are in between. */
  ghost predicate IsRun(s: System, run: seq<Event>, key: Key, k: nat)
    decreases |run|
  {
    run == [] || (Enabled(s, run[0]) && Between(Step(s, run[0]), key) <= k && IsRun(Step(s, run[0]), run[1..], key, k))
  }

  ghost function After(s: System, run: seq<Event>, key: Key, k: nat): System
    requires IsRun(s, run, key, k)
    decreases |run|
  {
    if run == [] then s else After(Step(s, run[0]), run[1..], key, k)
  }

  lemma {:induction false} RunKeeps(s: System, run: seq<Event>, key: Key, k: nat)
    requires Kept(s, key, k) && IsRun(s, run, key, k)
    ensures Kept(After(s, run, key, k), key, k)
    decreases |run|
  {
    if run != [] {
      StepKeeps(s, run[0], key, k);
      RunKeeps(Step(s, run[0]), run[1..], key, k);
    }
  }

  /** Interleaved requests: every window of every run admits at most `limit + k - 1` of them, and
      the next count is what the unpruned log would give. */
  lemma {:induction false} InterleavedWindowBound(clock: int, run: seq<Event>, key: Key, k: nat, t: int, now: int)
    requires k >= 1 && IsRun(Start(clock), run, key, k) && After(Start(clock), run, key, k).clock <= now
    ensures var s := After(Start(clock), run, key, k); var log := HitsOf(s.admitted, key);
      && |InWindow(log, t)| <= LimitOf(key) + k - 1
      && Recent(HitsOf(s.hits, key), now) == Recent(log, now)
      && ((forall i :: 0 <= i < |log| ==> log[i] <= now - WINDOW) ==> Admits(s.hits, key, now))
  {
    RunKeeps(Start(clock), run, key, k);
    var s := After(Start(clock), run, key, k);
    CountsLikeTheLog(s, key, k, now);
    if forall i :: 0 <= i < |HitsOf(s.admitted, key)| ==> HitsOf(s.admitted, key)[i] <= now - WINDOW {
      NothingRecent(HitsOf(s.admitted, key), now);
    }
  }

  /** A request handled without interruption. */
  datatype Request = Request(key: Key, checked: int, recorded: int)

  ghost predicate IsSequential(s: System, run: seq<Request>)
    decreases |run|
  {
    run == [] || (
      && s.clock <= run[0].checked <= run[0].recorded
      && IsSequential(Dispatch(s, run[0].key, run[0].checked, run[0].recorded), run[1..]))
  }

  ghost function Served(s: System, run: seq<Request>): System
    requires IsSequential(s, run)
    decreases |run|
  {
    if run == [] then s
    else Served(Dispatch(s, run[0].key, run[0].checked, run[0].recorded), run[1..])
  }

  lemma {:induction false} ServedKeeps(s: System, run: seq<Request>, key: Key)
    requires IsSequential(s, run) && Kept(s, key, 1) && Between(s, key) == 0
    ensures Kept(Served(s, run), key, 1) && Between(Served(s, run), key) == 0
    decreases |run|
  {
    if run != [] {
      var check, record := Check(run[0].key, run[0].checked), Record(run[0].key, run[0].recorded);
      StepKeeps(s, check, key, 1);
      if Admits(s.hits, run[0].key, run[0].checked) {
        StepKeeps(Step(s, check), record, key, 1);
      }
      ServedKeeps(Dispatch(s, run[0].key, run[0].checked, run[0].recorded), run[1..], key);
    }
  }

  /** Sequential requests, of all clients mixed: every window of every budget admits at most its
      limit, although lists are pruned in place and rejected requests leave no hit. */
  lemma {:induction false} SequentialWindowBound(clock: int, run: seq<Request>, key: Key, t: int)
    requires IsSequential(Start(clock), run)
    ensures |InWindow(HitsOf(Served(Start(clock), run).admitted, key), t)| <= LimitOf(key)
  {
    ServedKeeps(Start(clock), run, key);
  }

  // ---- by client and path ----

  /** A request as it arrives: who, for what, and when its two halves read the clock. */
  datatype Visit = Visit(client: string, path: string, checked: int, recorded: int)

  function KeyOf(v: Visit): Key { (BucketOf(v.path), v.client) }

  function RequestOf(v: Visit): Request { Request(KeyOf(v), v.checked, v.recorded) }

  function RequestsOf(visits: seq<Visit>): seq<Request> {
    if visits == [] then [] else [RequestOf(visits[0])] + RequestsOf(visits[1..])
  }

  /** When the visits of one client to voice paths, or to all others, were let through. */
  ghost function Forwarded(s: System, visits: seq<Visit>, client: string, voice: bool): seq<int>
    requires IsSequential(s, RequestsOf(visits))
    decreases |visits|
  {
    if visits == [] then []
    else
      var v := visits[0];
      (if v.client == client && (IsVoicePath(v.path) <==> voice) && Admits(s.hits, KeyOf(v), v.checked)
       then [v.recorded] else [])
      + Forwarded(Dispatch(s, KeyOf(v), v.checked, v.recorded), visits[1..], client, voice)
  }

  lemma {:induction false} ForwardedIsAdmitted(s: System, visits: seq<Visit>, client: string, voice: bool)
    requires IsSequential(s, RequestsOf(visits))
    ensures var key := (if voice then Voice else General, client);
      HitsOf(Served(s, RequestsOf(visits)).admitted, key)
      == HitsOf(s.admitted, key) + Forwarded(s, visits, client, voice)
    decreases |visits|
  {
    var key := (if voice then Voice else General, client);
    if visits != [] {
      var v := visits[0];
      var next := Dispatch(s, KeyOf(v), v.checked, v.recorded);
      var one := if KeyOf(v) == key && Admits(s.hits, KeyOf(v), v.checked) then [v.recorded] else [];
      BucketOfPath(v.path);
      ForwardedIsAdmitted(next, visits[1..], client, voice);
      assert HitsOf(next.admitted, key) == HitsOf(s.admitted, key) + one;
      Associative(HitsOf(s.admitted, key), one, Forwarded(next, visits[1..], client, voice));
    }
  }

  /** Whatever clients do, in every minute each of them gets through at most 5 requests for voice paths
      and at most 60 for all others. */
  lemma {:induction false} EveryMinuteIsLimited(clock: int, visits: seq<Visit>, client: string, voice: bool, t: int)
    requires IsSequential(Start(clock), RequestsOf(visits))
    ensures |InWindow(Forwarded(Start(clock), visits, client, voice), t)| <= if voice then 5 else 60
  {
    var key := (if voice then Voice else General, client);
    ForwardedIsAdmitted(Start(clock), visits, client, voice);
    assert [] + Forwarded(Start(clock), visits, client, voice) == Forwarded(Start(clock), visits, client, voice);
    SequentialWindowBound(clock, RequestsOf(visits), key, t);
  }

  lemma {:induction false} RecentIsInWindow(stamps: seq<int>, now: int)
    requires forall i :: 0 <= i < |stamps| ==> stamps[i] <= now
    ensures Recent(stamps, now) == InWindow(stamps, now)
  {
    if stamps != [] { RecentIsInWindow(stamps[1..], now); }
  }

  /** And no less: a request is let through exactly when its client got fewer than that through in the
      minute before it, whatever was rejected or asked by others. */
  lemma {:induction false} LetThroughIffBelowLimit(clock: int, visits: seq<Visit>, v: Visit)
    requires IsSequential(Start(clock), RequestsOf(visits))
    requires Served(Start(clock), RequestsOf(visits)).clock <= v.checked
    ensures Admits(Served(Start(clock), RequestsOf(visits)).hits, (BucketOf(v.path), v.client), v.checked) <==>
      |InWindow(Forwarded(Start(clock), visits, v.client, IsVoicePath(v.path)), v.checked)|
      < if IsVoicePath(v.path) then 5 else 60
  {
    var s := Served(Start(clock), RequestsOf(visits));
    BucketOfPath(v.path);
    var log := Forwarded(Start(clock), visits, v.client, IsVoicePath(v.path));
    ForwardedIsAdmitted(Start(clock), visits, v.client, IsVoicePath(v.path));
    assert [] + log == log && HitsOf(s.admitted, KeyOf(v)) == log;
    ServedKeeps(Start(clock), RequestsOf(visits), KeyOf(v));
    CountsLikeTheLog(s, KeyOf(v), 1, v.checked);
    RecentIsInWindow(log, v.checked);
  }

  // ---- the interleaved bound is reached ----

  /** `n` requests, then `k` checks before any of the `k` records, all at one instant. */
  function Burst(key: Key, n: nat, k: nat): seq<Event> {
    if n > 0 then [Check(key, 0), Record(key, 0)] + Burst(key, n - 1, k)
    else Repeat(Check(key, 0), k) + Repeat(Record(key, 0), k)
  }

  /** `n` admitted requests at time 0, none of them expired, and `b` in between. */
  ghost predicate AtZero(s: System, key: Key, n: nat, b: nat) {
    && s.clock == 0
    && HitsOf(s.hits, key) == HitsOf(s.admitted, key) == seq(n, _ => 0)
    && Between(s, key) == b
  }

  lemma {:induction false} AllZeroRecent(n: nat)
    ensures Recent(seq(n, _ => 0), 0) == seq(n, _ => 0) == InWindow(seq(n, _ => 0), 0)
  {
    if n > 0 {
      AllZeroRecent(n - 1);
      assert seq(n, _ => 0)[1..] == seq(n - 1, _ => 0);
      assert seq(n, _ => 0) == [0] + seq(n - 1, _ => 0);
    }
  }

  lemma {:induction false} RecordAll(s: System, key: Key, n: nat, b: nat, k: nat)
    requires AtZero(s, key, n, b) && b <= k
    ensures IsRun(s, Repeat(Record(key, 0), b), key, k)
    ensures AtZero(After(s, Repeat(Record(key, 0), b), key, k), key, n + b, 0)
    decreases b
  {
    if b > 0 {
      var r := Step(s, Record(key, 0));
      assert seq(n, _ => 0) + [0] == seq(n + 1, _ => 0);
      assert Repeat(Record(key, 0), b)[1..] == Repeat(Record(key, 0), b - 1);
      RecordAll(r, key, n + 1, b - 1, k);
    }
  }

  lemma {:induction false} CheckAll(s: System, key: Key, n: nat, b: nat, k: nat)
    requires AtZero(s, key, n, b) && b <= k && n < LimitOf(key)
    ensures var run := Repeat(Check(key, 0), k - b) + Repeat(Record(key, 0), k);
      IsRun(s, run, key, k) && AtZero(After(s, run, key, k), key, n + k, 0)
    decreases k - b
  {
    AllZeroRecent(n);
    var run := Repeat(Check(key, 0), k - b) + Repeat(Record(key, 0), k);
    if b == k {
      assert run == Repeat(Record(key, 0), k);
      RecordAll(s, key, n, k, k);
    } else {
      assert run[1..] == Repeat(Check(key, 0), k - b - 1) + Repeat(Record(key, 0), k);
      CheckAll(Step(s, Check(key, 0)), key, n, b + 1, k);
    }
  }

  lemma {:induction false} BurstRuns(s: System, key: Key, n: nat, m: nat, k: nat)
    requires AtZero(s, key, m, 0) && m + n < LimitOf(key) && k >= 1
    ensures IsRun(s, Burst(key, n, k), key, k)
    ensures AtZero(After(s, Burst(key, n, k), key, k), key, m + n + k, 0)
    decreases n
  {
    if n == 0 {
      CheckAll(s, key, m, 0, k);
    } else {
      AdmitOne(s, key, m, k);
      var rest := Burst(key, n - 1, k);
      BurstRuns(Step(Step(s, Check(key, 0)), Record(key, 0)), key, n - 1, m + 1, k);
      TwoSteps(s, Check(key, 0), Record(key, 0), rest, key, k);
    }
  }

  lemma AdmitOne(s: System, key: Key, m: nat, k: nat)
    requires AtZero(s, key, m, 0) && m < LimitOf(key) && k >= 1
    ensures var c := Step(s, Check(key, 0));
      && Between(c, key) == 1 && Enabled(c, Record(key, 0))
      && AtZero(Step(c, Record(key, 0)), key, m + 1, 0)
  {
    AllZeroRecent(m);
    assert seq(m, _ => 0) + [0] == seq(m + 1, _ => 0);
  }

  lemma {:induction false} TwoSteps(s: System, e1: Event, e2: Event, rest: seq<Event>, key: Key, k: nat)
    requires Enabled(s, e1) && Enabled(Step(s, e1), e2)
    requires Between(Step(s, e1), key) <= k && Between(Step(Step(s, e1), e2), key) <= k
    requires IsRun(Step(Step(s, e1), e2), rest, key, k)
    ensures IsRun(s, [e1, e2] + rest, key, k)
    ensures After(s, [e1, e2] + rest, key, k) == After(Step(Step(s, e1), e2), rest, key, k)
  {
    var run := [e1, e2] + rest;
    assert run[1..] == [e2] + rest && run[1..][1..] == rest;
  }

  /** With `k` requests in between, one window can admit exactly `limit + k - 1`. */
  lemma {:induction false} InterleavedBoundIsReached(key: Key, k: nat)
    requires k >= 1
    ensures var run := Burst(key, LimitOf(key) - 1, k);
      && IsRun(Start(0), run, key, k)
      && |InWindow(HitsOf(After(Start(0), run, key, k).admitted, key), 0)| == LimitOf(key) + k - 1
  {
    BurstRuns(Start(0), key, LimitOf(key) - 1, 0, k);
    AllZeroRecent(LimitOf(key) + k - 1);
  }
}
