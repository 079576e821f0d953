/** The circuit breaker as a value. Times are ticks of a non-decreasing clock. */
module BreakerSteps {
  import opened Common

  datatype State = Closed | Open | HalfOpen

  datatype Breaker = Breaker(
    threshold: int,
    recovery: int,
    failures: int,
    openedAt: Option<int>,
    state: State)

  function New(threshold: int, recovery: int): Breaker {
    Breaker(threshold, recovery, 0, None, Closed)
  }

  function Elapsed(b: Breaker, now: int): int {
    if b.openedAt.Some? then now - b.openedAt.value else 0
  }

  /** Reading the state may itself move an open breaker to half open. */
  function Read(b: Breaker, now: int): Breaker {
    if b.state == Open && Elapsed(b, now) >= b.recovery then b.(state := HalfOpen) else b
  }

  predicate Allows(b: Breaker, now: int) { Read(b, now).state != Open }

  function Reset(b: Breaker): Breaker { b.(failures := 0, openedAt := None, state := Closed) }

  function Fail(b: Breaker, now: int): Breaker {
    var counted := b.(failures := b.failures + 1);
    if b.state == HalfOpen || counted.failures >= b.threshold
    then counted.(state := Open, openedAt := Some(now))
    else counted
  }

  /** Everything a caller or a monitor can do: reads come from `state`, `allow_request` and
      `snapshot`; failures and successes may be reported late, in any state. */
  datatype Event = StateRead(now: int) | Failed(now: int) | Succeeded(now: int) | WasReset(now: int)

  function Step(b: Breaker, e: Event): Breaker {
    match e
    case StateRead(now) => Read(b, now)
    case Failed(now) => Fail(b, now)
    case Succeeded(_) => Reset(b)
    case WasReset(_) => Reset(b)
  }

  function Run(b: Breaker, events: seq<Event>): Breaker {
    if events == [] then b else Step(Run(b, events[..|events| - 1]), events[|events| - 1])
  }
}

/** The object, and `run_with_breaker`. */
module CircuitBreakers {
  import opened Common
  import opened BreakerSteps

  /** How a guarded call ended. Only ordinary exceptions count as failures; a cancellation passes
      through unrecorded. */
  datatype Outcome = Returned | Raised | Cancelled

  datatype CallResult = Rejected(reported: State) | Ended(outcome: Outcome)

  class CircuitBreaker {
    const threshold: int
    const recovery: int
    var failures: int
    var openedAt: Option<int>
    var current: State

    ghost function Model(): Breaker
      reads this
    {
      Breaker(threshold, recovery, failures, openedAt, current)
    }

    constructor (threshold: int, recovery: int)
      ensures Model() == New(threshold, recovery)
    {
      this.threshold, this.recovery := threshold, recovery;
      failures, openedAt, current := 0, None, Closed;
    }

    method GetState(now: int) returns (s: State)
      modifies this
      ensures Model() == Read(old(Model()), now) && s == current
    {
      if current == Open {
        var elapsed := if openedAt.Some? then now - openedAt.value else 0;
        if elapsed >= recovery { current := HalfOpen; }
      }
      return current;
    }

    method AllowRequest(now: int) returns (allowed: bool)
      modifies this
      ensures Model() == Read(old(Model()), now)
      ensures allowed == Allows(old(Model()), now)
    {
      var s := GetState(now);
      return s == Closed || s == HalfOpen;
    }

    method RecordSuccess()
      modifies this
      ensures Model() == Reset(old(Model()))
    {
      failures, openedAt, current := 0, None, Closed;
    }

    method RecordFailure(now: int)
      modifies this
      ensures Model() == Fail(old(Model()), now)
    {
      failures := failures + 1;
      if current == HalfOpen {
        OpenCircuit(now);
      } else if failures >= threshold {
        OpenCircuit(now);
      }
    }

    method OpenCircuit(now: int)
      modifies this
      ensures Model() == old(Model()).(state := Open, openedAt := Some(now))
    {
      current := Open;
      openedAt := Some(now);
    }

    /** One guarded call that starts at `start`; the provider answers at `end`. A rejected call
        reads the state a second time, for its error text. */
    method RunWithBreaker(start: int, outcome: Outcome, end: int) returns (r: CallResult)
      modifies this
      ensures r.Ended? <==> Allows(old(Model()), start)
      ensures r.Ended? ==> r.outcome == outcome
      ensures r.Rejected? ==> r.reported == current == Read(Read(old(Model()), start), end).state
      ensures Model() == (
        if !Allows(old(Model()), start) then Read(Read(old(Model()), start), end)
        else match outcome
          case Returned => Reset(Read(old(Model()), start))
          case Raised => Fail(Read(old(Model()), start), end)
          case Cancelled => Read(old(Model()), start))
    {
      var allowed := AllowRequest(start);
      if !allowed {
        var s := GetState(end);
        return Rejected(s);
      }
      if outcome == Returned {
        RecordSuccess();
      } else if outcome == Raised {
        RecordFailure(end);
      }
      return Ended(outcome);
    }
  }
}

module BreakerProofs {
  import opened Common
  import opened BreakerSteps

  // ---- the closed form ----

  /** Failures since the last success or reset. */
  function FailureRun(events: seq<Event>): nat {
    if events == [] then 0
    else
      var before := FailureRun(events[..|events| - 1]);
      match events[|events| - 1]
      case StateRead(_) => before
      case Failed(_) => before + 1
      case _ => 0
  }

  /** When the last failure was reported. */
  function LastFailure(events: seq<Event>): Option<int> {
    if events == [] then None
    else if events[|events| - 1].Failed? then Some(events[|events| - 1].now)
    else LastFailure(events[..|events| - 1])
  }

  ghost predicate NonDecreasing(events: seq<Event>) {
    forall i, j :: 0 <= i <= j < |events| ==> events[i].now <= events[j].now
  }

  /** A threshold below one acts like one: the first failure opens. */
  function Needed(threshold: int): int { Max(1, threshold) }

  /** The closed form: refused exactly while the run of failures is long enough and the last
      failure is less than the recovery time ago. */
  predicate Refuses(events: seq<Event>, threshold: int, recovery: int, now: int) {
    && FailureRun(events) >= Needed(threshold)
    && LastFailure(events).Some?
    && now - LastFailure(events).value < recovery
  }

  ghost predicate Agrees(b: Breaker, events: seq<Event>, threshold: int, recovery: int) {
    && b.threshold == threshold && b.recovery == recovery
    && b.failures == FailureRun(events)
    && (b.state == Closed <==> FailureRun(events) < Needed(threshold))
    && (b.state != Closed ==> LastFailure(events).Some? && b.openedAt == LastFailure(events))
    && (b.state != Closed ==> events != [] && b.openedAt.value <= events[|events| - 1].now)
    && (b.state == HalfOpen ==> events[|events| - 1].now - b.openedAt.value >= recovery)
  }

  lemma {:induction false} RunAgrees(threshold: int, recovery: int, events: seq<Event>)
    requires NonDecreasing(events)
    ensures Agrees(Run(New(threshold, recovery), events), events, threshold, recovery)
  {
    if events != [] {
      var before := events[..|events| - 1];
      RunAgrees(threshold, recovery, before);
      if before != [] {
        assert before[|before| - 1] == events[|events| - 2];
      }
    }
  }

  /** Whatever reads, late failures, successes and resets came before, `allow_request` refuses
      exactly as the closed form says. */
  lemma {:induction false} AllowsIsTheClosedForm(threshold: int, recovery: int, events: seq<Event>, now: int)
    requires NonDecreasing(events)
    requires events != [] ==> events[|events| - 1].now <= now
    ensures Allows(Run(New(threshold, recovery), events), now) <==> !Refuses(events, threshold, recovery, now)
  {
    RunAgrees(threshold, recovery, events);
  }

  lemma {:induction false} AskAgain(b: Breaker, events: seq<Event>, n: nat, now: int)
    requires Read(Run(b, events), now).state == HalfOpen
    ensures Run(b, events + Repeat(StateRead(now), n)) ==
            if n == 0 then Run(b, events) else Read(Run(b, events), now)
  {
    var asks := Repeat(StateRead(now), n);
    if n == 0 {
      assert events + asks == events;
    } else {
      AskAgain(b, events, n - 1, now);
      RepeatMore(StateRead(now), n - 1);
      var before := Repeat(StateRead(now), n - 1);
      assert events + asks == (events + before) + [StateRead(now)];
      assert (events + asks)[..|events + asks| - 1] == events + before;
    }
  }

  /** Half open admits every caller, not one probe. After any history that opened the breaker, once
      the recovery time has passed, `n` requests in a row leave it half open and the next one passes
      too, for every `n`, until one of them reports back. */
  lemma {:induction false} HalfOpenAdmitsEveryone(threshold: int, recovery: int, events: seq<Event>, n: nat, now: int)
    requires NonDecreasing(events) && FailureRun(events) >= Needed(threshold)
    requires events[|events| - 1].now <= now && LastFailure(events).GetOr(now) + recovery <= now
    ensures var b := Run(New(threshold, recovery), events + Repeat(StateRead(now), n));
      Allows(b, now) && Read(b, now).state == HalfOpen
  {
    RunAgrees(threshold, recovery, events);
    AskAgain(New(threshold, recovery), events, n, now);
  }

  // ---- sequential callers of a provider that always fails ----

  /** A guarded call: asked at `start`; if admitted, its failure is recorded at `end`. */
  datatype Call = Call(start: int, end: int)

  function Guarded(b: Breaker, c: Call): Breaker {
    if Allows(b, c.start) then Fail(Read(b, c.start), c.end) else Read(Read(b, c.start), c.end)
  }

  /** One call after another. */
  ghost predicate Sequential(now: int, calls: seq<Call>)
    decreases |calls|
  {
    calls == [] || (now <= calls[0].start <= calls[0].end && Sequential(calls[0].end, calls[1..]))
  }

  /** The start times of the calls that reach the provider. */
  function Reached(b: Breaker, calls: seq<Call>): seq<int>
    decreases |calls|
  {
    if calls == [] then []
    else (if Allows(b, calls[0].start) then [calls[0].start] else []) + Reached(Guarded(b, calls[0]), calls[1..])
  }

  ghost predicate SpacedFrom(from: int, starts: seq<int>, gap: int) {
    forall i {:trigger starts[i]} :: 0 <= i < |starts| ==> starts[i] >= (if i == 0 then from else starts[i - 1]) + gap
  }

  ghost predicate HasOpened(b: Breaker, now: int) {
    && b.state != Closed && b.openedAt.Some? && b.openedAt.value <= now
    && (b.state == HalfOpen ==> now - b.openedAt.value >= b.recovery)
  }

  /** Once open, the calls that reach a failing provider start at least the recovery time after
      the previous failure, hence after each other. */
  lemma {:induction false} ProbesAreSpaced(b: Breaker, now: int, calls: seq<Call>)
    requires HasOpened(b, now) && Sequential(now, calls)
    ensures SpacedFrom(b.openedAt.value, Reached(b, calls), b.recovery)
    decreases |calls|
  {
    if calls != [] {
      var next := Guarded(b, calls[0]);
      ProbesAreSpaced(next, calls[0].end, calls[1..]);
      var rest := Reached(next, calls[1..]);
      if Allows(b, calls[0].start) {
        SpacedCons(b.openedAt.value, calls[0].start, next.openedAt.value, rest, b.recovery);
        assert Reached(b, calls) == [calls[0].start] + rest;
      } else {
        assert Reached(b, calls) == rest;
      }
    }
  }

  lemma SpacedCons(from: int, first: int, next: int, rest: seq<int>, gap: int)
    requires from + gap <= first <= next && SpacedFrom(next, rest, gap)
    ensures SpacedFrom(from, [first] + rest, gap)
  {
    var starts := [first] + rest;
    forall i | 0 <= i < |starts|
      ensures starts[i] >= (if i == 0 then from else starts[i - 1]) + gap
    {
      if i > 0 {
        var k := i - 1;
        assert rest[k] >= (if k == 0 then next else rest[k - 1]) + gap;
        assert starts[i] == rest[k];
      }
    }
  }

  lemma {:induction false} SpacedApart(from: int, starts: seq<int>, gap: int, i: nat, j: nat)
    requires SpacedFrom(from, starts, gap) && gap >= 0 && i <= j < |starts|
    ensures starts[j] - starts[i] >= (j - i) * gap
    decreases j
  {
    if i < j {
      SpacedApart(from, starts, gap, i, j - 1);
      assert starts[j] >= starts[j - 1] + gap;
      OneMore(j - i, gap);
    }
  }

  /** Once any history has opened the breaker, sequential calls to a provider that then always
      fails reach it at most `span / recovery + 1` times in an interval of length `span`. */
  lemma {:induction false} ProbesPerInterval(threshold: int, recovery: int, events: seq<Event>, now: int,
                                             calls: seq<Call>, i: nat, j: nat, span: nat)
    requires NonDecreasing(events) && FailureRun(events) >= Needed(threshold) && recovery > 0
    requires events != [] ==> events[|events| - 1].now <= now
    requires Sequential(now, calls)
    requires var starts := Reached(Run(New(threshold, recovery), events), calls);
      i <= j < |starts| && starts[j] - starts[i] <= span
    ensures j - i + 1 <= span / recovery + 1
  {
    var b := Run(New(threshold, recovery), events);
    RunAgrees(threshold, recovery, events);
    ProbesAreSpaced(b, now, calls);
    AtMostPerSpan(b.openedAt.value, Reached(b, calls), recovery, i, j, span);
  }

  lemma AtMostPerSpan(from: int, starts: seq<int>, gap: int, i: nat, j: nat, span: nat)
    requires SpacedFrom(from, starts, gap) && gap > 0 && i <= j < |starts| && starts[j] - starts[i] <= span
    ensures j - i <= span / gap
  {
    SpacedApart(from, starts, gap, i, j);
    AtMostQuotient(j - i, gap, span);
  }

  lemma AtMostQuotient(n: nat, gap: int, span: nat)
    requires gap > 0 && n * gap <= span
    ensures n <= span / gap
  {
    var q := span / gap;
    assert span < (q + 1) * gap;
    if n >= q + 1 {
      Monotone(q + 1, n, gap);
    }
  }
}
