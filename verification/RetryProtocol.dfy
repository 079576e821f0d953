/** Transport retries: one attempt counter per tag, shared by all requests with that tag. */
module RetrySteps {
  import opened Common

  function Pow(x: real, n: nat): real {
    if n == 0 then 1.0 else x * Pow(x, n - 1)
  }

  datatype Policy = Policy(maxRetries: int, base: real, factor: real) {
    /** The wait before the retry that follows failure number `attempt`. */
    function Delay(attempt: int): real
      requires attempt >= 1
    {
      base * Pow(factor, attempt - 1)
    }
  }

  function AttemptsOf(attempts: map<string, nat>, tag: string): nat {
    if tag in attempts then attempts[tag] else 0
  }

  /** An empty tag resets every counter. */
  function Reset(attempts: map<string, nat>, tag: string): map<string, nat> {
    if tag == "" then map[] else attempts - {tag}
  }

  datatype Outcome = Answered | GaveUp

  datatype Status = InFlight | Waiting(delay: real) | Done(outcome: Outcome)

  datatype Request = Request(tag: string, status: Status)

  /** The counters, every request ever issued, how often each tag was sent, and the terminal
      outcomes in the order they reached the caller. */
  datatype Net = Net(
    policy: Policy,
    attempts: map<string, nat>,
    requests: map<int, Request>,
    sent: map<string, nat>,
    outcomes: seq<int>)

  datatype Event =
    | Issue(id: int, tag: string)  // a caller makes a request
    | Fail(id: int)  // it could not start, or its transport failed
    | Succeed(id: int)  // the transport delivered an answer
    | Resend(id: int)  // its backoff timer went off

  predicate Enabled(n: Net, e: Event) {
    match e
    case Issue(id, _) => id !in n.requests
    case Fail(id) => id in n.requests && n.requests[id].status.InFlight?
    case Succeed(id) => id in n.requests && n.requests[id].status.InFlight?
    case Resend(id) => id in n.requests && n.requests[id].status.Waiting?
  }

  function Send(n: Net, id: int, tag: string): Net {
    n.(requests := n.requests[id := Request(tag, InFlight)],
       sent := n.sent[tag := AttemptsOf(n.sent, tag) + 1])
  }

  function End(n: Net, id: int, tag: string, outcome: Outcome): Net {
    n.(attempts := Reset(n.attempts, tag),
       requests := n.requests[id := Request(tag, Done(outcome))],
       outcomes := n.outcomes + [id])
  }

  function Step(n: Net, e: Event): Net
    requires Enabled(n, e)
  {
    match e
    case Issue(id, tag) => Send(n, id, tag)
    case Resend(id) => Send(n, id, n.requests[id].tag)
    case Succeed(id) => End(n, id, n.requests[id].tag, Answered)
    case Fail(id) =>
      var tag := n.requests[id].tag;
      var attempt := AttemptsOf(n.attempts, tag) + 1;
      if attempt > n.policy.maxRetries then End(n, id, tag, GaveUp)
      else n.(attempts := n.attempts[tag := attempt],
              requests := n.requests[id := Request(tag, Waiting(n.policy.Delay(attempt)))])
  }

  function Idle(policy: Policy): Net { Net(policy, map[], map[], map[], []) }
}

module RetryHandlers {
  import opened RetrySteps

  class RetryHandler {
    var policy: Policy
    var attempts: map<string, nat>
    var scheduled: seq<(string, int, real)>  // the `retry_scheduled` signals so far

    constructor (policy: Policy)
      ensures this.policy == policy && attempts == map[] && scheduled == []
    {
      this.policy, attempts, scheduled := policy, map[], [];
    }

    method RegisterFailure(tag: string) returns (retry: bool)
      modifies `attempts, `scheduled
      ensures var attempt := AttemptsOf(old(attempts), tag) + 1;
        && attempts == old(attempts)[tag := attempt]
        && (retry <==> attempt <= policy.maxRetries)
        && scheduled == if retry then old(scheduled) + [(tag, attempt, policy.Delay(attempt))] else old(scheduled)
    {
      var attempt := (if tag in attempts then attempts[tag] else 0) + 1;
      attempts := attempts[tag := attempt];
      if attempt > policy.maxRetries { return false; }
      var delay := policy.base * Pow(policy.factor, attempt - 1);
      assert delay == policy.Delay(attempt);
      scheduled := scheduled + [(tag, attempt, delay)];
      return true;
    }

    method DelayFor(tag: string) returns (delay: real)
      requires tag in attempts ==> attempts[tag] >= 1
      ensures delay == policy.Delay(if tag in attempts then attempts[tag] else 1)
    {
      var attempt := if tag in attempts then attempts[tag] else 1;
      return policy.base * Pow(policy.factor, attempt - 1);
    }

    method ResetTag(tag: string)
      modifies `attempts
      ensures attempts == Reset(old(attempts), tag)
    {
      if tag == "" {
        attempts := map[];
      } else {
        attempts := attempts - {tag};
      }
    }
  }

  /** The request callbacks of NetworkManager. */
  class NetworkManager {
    const retry: RetryHandler
    var requests: map<int, Request>
    var sent: map<string, nat>
    var outcomes: seq<int>

    ghost function Model(): Net
      reads this, retry
    {
      Net(retry.policy, retry.attempts, requests, sent, outcomes)
    }

    /** Registered counters are positive. */
    ghost predicate Valid()
      reads this, retry
    {
      forall tag :: tag in retry.attempts ==> retry.attempts[tag] >= 1
    }

    constructor (retry: RetryHandler)
      requires retry.attempts == map[]
      ensures Valid() && Model() == Idle(retry.policy)
    {
      this.retry := retry;
      requests, sent, outcomes := map[], map[], [];
    }

    method SendRequest(id: int, tag: string)
      requires Valid()
      modifies this
      ensures Valid() && Model() == Send(old(Model()), id, tag)
    {
      requests := requests[id := Request(tag, InFlight)];
      sent := sent[tag := (if tag in sent then sent[tag] else 0) + 1];
    }

    method OnTransportFailure(id: int)
      requires Valid() && Enabled(Model(), Fail(id))
      modifies this, retry
      ensures Valid() && Model() == Step(old(Model()), Fail(id))
    {
      var tag := requests[id].tag;
      var again := retry.RegisterFailure(tag);
      if again {
        var delay := retry.DelayFor(tag);
        requests := requests[id := Request(tag, Waiting(delay))];
        return;
      }
      retry.ResetTag(tag);
      assert retry.attempts == Reset(old(retry.attempts), tag);
      requests := requests[id := Request(tag, Done(GaveUp))];
      outcomes := outcomes + [id];
    }

    method OnAnswer(id: int)
      requires Valid() && Enabled(Model(), Succeed(id))
      modifies this, retry
      ensures Valid() && Model() == Step(old(Model()), Succeed(id))
    {
      var tag := requests[id].tag;
      retry.ResetTag(tag);
      requests := requests[id := Request(tag, Done(Answered))];
      outcomes := outcomes + [id];
    }

    method OnRetryTimer(id: int)
      requires Valid() && Enabled(Model(), Resend(id))
      modifies this
      ensures Valid() && Model() == Step(old(Model()), Resend(id))
    {
      SendRequest(id, requests[id].tag);
    }
  }
}

module RetryProofs {
  import opened Common
  import opened RetrySteps

  /** The retries a failing request really gets. */
  function Retries(p: Policy): nat { Max(0, p.maxRetries) }

  ghost function Issued(n: Net, tag: string): set<int> {
    set id | id in n.requests && n.requests[id].tag == tag
  }

  ghost function Outstanding(n: Net, tag: string): set<int> {
    set id | id in n.requests && n.requests[id].tag == tag && !n.requests[id].status.Done?
  }

  ghost function Flying(n: Net, tag: string): set<int> {
    set id | id in n.requests && n.requests[id].tag == tag && n.requests[id].status.InFlight?
  }

  /** What is left to spend on a tag: each outstanding request brings `max_retries + 1` sends, and
      the shared counter says how many of the current round are used. */
  ghost function Budget(n: Net, tag: string): int {
    |Outstanding(n, tag)| * (Retries(n.policy) + 1) - AttemptsOf(n.attempts, tag)
  }

  /** What the sends so far fall short of `max_retries + 1` per request issued. */
  ghost function Slack(n: Net, tag: string): int {
    |Issued(n, tag)| * (Retries(n.policy) + 1) - AttemptsOf(n.sent, tag) - Budget(n, tag) + |Flying(n, tag)|
  }

  ghost predicate Amortised(n: Net, tag: string) {
    && AttemptsOf(n.attempts, tag) <= Retries(n.policy)
    && (|Outstanding(n, tag)| == 0 ==> AttemptsOf(n.attempts, tag) == 0)
    && Slack(n, tag) >= 0
  }

  /** An empty tag would reset the counters of all others. */
  ghost predicate Separate(n: Net, tag: string) {
    tag == "" || forall id :: id in n.requests ==> n.requests[id].tag != ""
  }

  lemma CountDiffersAt(s: set<int>, r: set<int>, x: int)
    requires forall y :: y != x ==> (y in s <==> y in r)
    ensures |r| == |s| + (if x in r then 1 else 0) - (if x in s then 1 else 0)
    ensures x in r ==> |r| > 0
  {
    forall y: int ensures y in s - {x} <==> y in r - {x} {
    }
    assert s - {x} == r - {x};
    assert x in s ==> s == (s - {x}) + {x};
    assert x in r ==> r == (r - {x}) + {x};
    assert x !in s ==> s == s - {x};
    assert x !in r ==> r == r - {x};
  }

  /** The three counts change by at most the request the event is about. */
  lemma CountsAfter(n: Net, e: Event, tag: string)
    requires Enabled(n, e)
    ensures var r := Step(n, e); var mine := r.requests[e.id].tag == tag;
      && |Issued(r, tag)| == |Issued(n, tag)| + (if mine && e.Issue? then 1 else 0)
      && |Outstanding(r, tag)| == |Outstanding(n, tag)|
         + (if !mine then 0 else if e.Issue? then 1 else if r.requests[e.id].status.Done? then -1 else 0)
      && |Flying(r, tag)| == |Flying(n, tag)|
         + (if !mine then 0 else if r.requests[e.id].status.InFlight? then 1 else -1)
      && (mine ==> |Outstanding(r, tag)| > 0 || r.requests[e.id].status.Done?)
  {
    var r := Step(n, e);
    CountDiffersAt(Issued(n, tag), Issued(r, tag), e.id);
    CountDiffersAt(Outstanding(n, tag), Outstanding(r, tag), e.id);
    CountDiffersAt(Flying(n, tag), Flying(r, tag), e.id);
  }

  /** The counters an event leaves behind. */
  lemma AttemptsAfter(n: Net, e: Event, tag: string)
    requires Enabled(n, e) && Separate(Step(n, e), tag)
    ensures var r := Step(n, e); var mine := r.requests[e.id].tag == tag; var status := r.requests[e.id].status;
      && r.policy == n.policy
      && AttemptsOf(r.attempts, tag) ==
         (if mine && status.Done? then 0
          else AttemptsOf(n.attempts, tag) + if mine && status.Waiting? then 1 else 0)
      && AttemptsOf(r.sent, tag) == AttemptsOf(n.sent, tag) + (if mine && status.InFlight? then 1 else 0)
      && (mine && e.Fail? ==> (status.Done? <==> AttemptsOf(n.attempts, tag) + 1 > n.policy.maxRetries))
  {
  }

  lemma StepStaysAmortised(n: Net, e: Event, tag: string)
    requires Enabled(n, e) && Amortised(n, tag) && Separate(Step(n, e), tag)
    ensures Amortised(Step(n, e), tag)
  {
    CountsAfter(n, e, tag);
    AttemptsAfter(n, e, tag);
    OneMore(|Outstanding(n, tag)|, Retries(n.policy) + 1);
    OneMore(|Issued(n, tag)|, Retries(n.policy) + 1);
  }

  // ---- whole runs ----

  ghost predicate IsRun(n: Net, run: seq<Event>)
    decreases |run|
  {
    run == [] || (Enabled(n, run[0]) && IsRun(Step(n, run[0]), run[1..]))
  }

  ghost function After(n: Net, run: seq<Event>): Net
    requires IsRun(n, run)
    decreases |run|
  {
    if run == [] then n else After(Step(n, run[0]), run[1..])
  }

  lemma {:induction false} RequestsRemain(n: Net, run: seq<Event>, id: int)
    requires IsRun(n, run) && id in n.requests
    ensures id in After(n, run).requests && After(n, run).requests[id].tag == n.requests[id].tag
    decreases |run|
  {
    if run != [] {
      RequestsRemain(Step(n, run[0]), run[1..], id);
    }
  }

  lemma {:induction false} RunStaysAmortised(n: Net, run: seq<Event>, tag: string)
    requires IsRun(n, run) && Amortised(n, tag) && Separate(After(n, run), tag)
    ensures Amortised(After(n, run), tag)
    ensures After(n, run).policy == n.policy
    decreases |run|
  {
    if run != [] {
      var next := Step(n, run[0]);
      forall id | id in next.requests && tag != ""
        ensures next.requests[id].tag != ""
      {
        RequestsRemain(next, run[1..], id);
      }
      StepStaysAmortised(n, run[0], tag);
      RunStaysAmortised(next, run[1..], tag);
    }
  }

  lemma FewerThanOutstanding(n: Net, tag: string)
    ensures |Flying(n, tag)| <= |Outstanding(n, tag)| <= |Issued(n, tag)|
  {
    SubsetCount(Flying(n, tag), Outstanding(n, tag));
    SubsetCount(Outstanding(n, tag), Issued(n, tag));
  }

  lemma SubsetCount(a: set<int>, b: set<int>)
    requires a <= b
    ensures |a| <= |b|
  {
    assert b == a + (b - a);
  }

  /** However successes and failures of requests that share a tag interleave, the tag is sent at
      most `max_retries + 1` times per request issued. */
  lemma {:induction false} SendsAreBounded(policy: Policy, run: seq<Event>, tag: string)
    requires IsRun(Idle(policy), run) && Separate(After(Idle(policy), run), tag)
    ensures var n := After(Idle(policy), run);
      AttemptsOf(n.sent, tag) <= |Issued(n, tag)| * (Retries(policy) + 1)
  {
    var idle := Idle(policy);
    assert Issued(idle, tag) == Outstanding(idle, tag) == Flying(idle, tag) == {};
    RunStaysAmortised(idle, run, tag);
    var n := After(idle, run);
    FewerThanOutstanding(n, tag);
    if |Outstanding(n, tag)| > 0 {
      AtLeastOnce(|Outstanding(n, tag)|, Retries(policy));
    }
  }

  lemma AtLeastOnce(x: int, r: int)
    requires x >= 1 && r >= 0
    ensures x * (r + 1) >= r + x
  {
    assert x * (r + 1) == x * r + x;
    assert x * r >= r;
  }

  /** Every completion spends at least one send of the budget. */
  lemma CompletionsSpendBudget(n: Net, e: Event)
    requires Enabled(n, e) && (e.Fail? || e.Succeed?)
    requires Amortised(n, n.requests[e.id].tag)
    ensures Budget(Step(n, e), n.requests[e.id].tag) < Budget(n, n.requests[e.id].tag)
  {
    var tag := n.requests[e.id].tag;
    CountsAfter(n, e, tag);
    OneMore(|Outstanding(n, tag)|, Retries(n.policy) + 1);
  }

  // ---- how long a run can be ----

  function TagOf(n: Net, e: Event): string
    requires Enabled(n, e)
  {
    if e.Issue? then e.tag else n.requests[e.id].tag
  }

  /** The events of `run` about requests of `tag` that end a send: failures and answers. */
  ghost function Completions(n: Net, run: seq<Event>, tag: string): nat
    requires IsRun(n, run)
    decreases |run|
  {
    if run == [] then 0
    else Completions(Step(n, run[0]), run[1..], tag)
         + if TagOf(n, run[0]) == tag && (run[0].Fail? || run[0].Succeed?) then 1 else 0
  }

  ghost function Resends(n: Net, run: seq<Event>, tag: string): nat
    requires IsRun(n, run)
    decreases |run|
  {
    if run == [] then 0
    else Resends(Step(n, run[0]), run[1..], tag) + if TagOf(n, run[0]) == tag && run[0].Resend? then 1 else 0
  }

  ghost function EventsOf(n: Net, run: seq<Event>, tag: string): nat
    requires IsRun(n, run)
    decreases |run|
  {
    if run == [] then 0
    else EventsOf(Step(n, run[0]), run[1..], tag) + if TagOf(n, run[0]) == tag then 1 else 0
  }

  /** How much of the budget all requests of a tag have brought is used up. */
  ghost function Spent(n: Net, tag: string): int {
    |Issued(n, tag)| * (Retries(n.policy) + 1) - Budget(n, tag)
  }

  lemma StepSpendsBudget(n: Net, e: Event, tag: string)
    requires Enabled(n, e) && Amortised(n, tag) && Separate(Step(n, e), tag)
    ensures Spent(Step(n, e), tag) >= Spent(n, tag) + if TagOf(n, e) == tag && (e.Fail? || e.Succeed?) then 1 else 0
  {
    CountsAfter(n, e, tag);
    AttemptsAfter(n, e, tag);
    OneMore(|Outstanding(n, tag)|, Retries(n.policy) + 1);
    OneMore(|Issued(n, tag)|, Retries(n.policy) + 1);
  }

  lemma StepCounts(n: Net, e: Event, tag: string)
    requires Enabled(n, e) && Separate(Step(n, e), tag)
    ensures |Issued(Step(n, e), tag)| == |Issued(n, tag)| + if TagOf(n, e) == tag && e.Issue? then 1 else 0
    ensures AttemptsOf(Step(n, e).sent, tag)
            == AttemptsOf(n.sent, tag) + if TagOf(n, e) == tag && (e.Issue? || e.Resend?) then 1 else 0
  {
    CountsAfter(n, e, tag);
    AttemptsAfter(n, e, tag);
  }

  lemma {:induction false} StaysSeparate(n: Net, run: seq<Event>, tag: string)
    requires run != [] && IsRun(n, run) && Separate(After(n, run), tag)
    ensures Separate(Step(n, run[0]), tag)
  {
    var next := Step(n, run[0]);
    forall id | id in next.requests && tag != ""
      ensures next.requests[id].tag != ""
    {
      RequestsRemain(next, run[1..], id);
    }
  }

  lemma {:induction false} RunCounts(n: Net, run: seq<Event>, tag: string)
    requires IsRun(n, run) && Separate(After(n, run), tag)
    ensures var r := After(n, run); var issued := |Issued(r, tag)| - |Issued(n, tag)|;
      && Resends(n, run, tag) + issued == AttemptsOf(r.sent, tag) - AttemptsOf(n.sent, tag)
      && EventsOf(n, run, tag) == Completions(n, run, tag) + Resends(n, run, tag) + issued
    decreases |run|
  {
    if run != [] {
      StaysSeparate(n, run, tag);
      StepCounts(n, run[0], tag);
      RunCounts(Step(n, run[0]), run[1..], tag);
    }
  }

  lemma {:induction false} RunSpendsBudget(n: Net, run: seq<Event>, tag: string)
    requires IsRun(n, run) && Amortised(n, tag) && Separate(After(n, run), tag)
    ensures Completions(n, run, tag) <= Spent(After(n, run), tag) - Spent(n, tag)
    decreases |run|
  {
    if run != [] {
      StaysSeparate(n, run, tag);
      StepSpendsBudget(n, run[0], tag);
      StepStaysAmortised(n, run[0], tag);
      RunSpendsBudget(Step(n, run[0]), run[1..], tag);
    }
  }

  lemma IdleIsAmortised(policy: Policy, tag: string)
    ensures Amortised(Idle(policy), tag) && Budget(Idle(policy), tag) == 0 && |Issued(Idle(policy), tag)| == 0
  {
    var idle := Idle(policy);
    assert Issued(idle, tag) == Outstanding(idle, tag) == Flying(idle, tag) == {};
  }

  lemma BudgetIsNotNegative(n: Net, tag: string)
    requires Amortised(n, tag)
    ensures Budget(n, tag) >= 0
  {
    if |Outstanding(n, tag)| > 0 {
      AtLeastOnce(|Outstanding(n, tag)|, Retries(n.policy));
    }
  }

  /** Over a whole run the failures and answers of a tag number at most `max_retries + 1` per request,
      and its resends at most `max_retries` per request: no endless retrying. */
  lemma {:induction false} CompletionsAreBounded(policy: Policy, run: seq<Event>, tag: string)
    requires IsRun(Idle(policy), run) && Separate(After(Idle(policy), run), tag)
    ensures var m := |Issued(After(Idle(policy), run), tag)|;
      && Completions(Idle(policy), run, tag) <= m * (Retries(policy) + 1)
      && Resends(Idle(policy), run, tag) <= m * Retries(policy)
      && EventsOf(Idle(policy), run, tag) <= 2 * (m * (Retries(policy) + 1))
  {
    IdleIsAmortised(policy, tag);
    RunStaysAmortised(Idle(policy), run, tag);
    RunCounts(Idle(policy), run, tag);
    RunSpendsBudget(Idle(policy), run, tag);
    BudgetIsNotNegative(After(Idle(policy), run), tag);
    SendsAreBounded(policy, run, tag);
    OneMore(Retries(policy), |Issued(After(Idle(policy), run), tag)|);
  }

  // ---- all tags together ----

  ghost function SumEvents(n: Net, run: seq<Event>, tags: seq<string>): nat
    requires IsRun(n, run)
  {
    if tags == [] then 0 else EventsOf(n, run, tags[0]) + SumEvents(n, run, tags[1..])
  }

  ghost function SumIssued(n: Net, tags: seq<string>): nat {
    if tags == [] then 0 else |Issued(n, tags[0])| + SumIssued(n, tags[1..])
  }

  ghost predicate Covers(tags: seq<string>, n: Net) {
    forall id :: id in n.requests ==> n.requests[id].tag in tags
  }

  lemma {:induction false} OneTagEach(n: Net, run: seq<Event>, tags: seq<string>)
    requires run != [] && IsRun(n, run) && Distinct(tags)
    ensures SumEvents(n, run, tags) ==
            SumEvents(Step(n, run[0]), run[1..], tags) + if TagOf(n, run[0]) in tags then 1 else 0
    decreases |tags|
  {
    if tags != [] {
      OneTagEach(n, run, tags[1..]);
      assert tags == [tags[0]] + tags[1..];
    }
  }

  lemma {:induction false} EveryEventHasATag(n: Net, run: seq<Event>, tags: seq<string>)
    requires IsRun(n, run) && Distinct(tags) && Covers(tags, After(n, run))
    ensures SumEvents(n, run, tags) == |run|
    decreases |run|
  {
    if run == [] {
      NoEvents(n, tags);
    } else {
      var next := Step(n, run[0]);
      RequestsRemain(next, run[1..], run[0].id);
      EveryEventHasATag(next, run[1..], tags);
      OneTagEach(n, run, tags);
    }
  }

  lemma {:induction false} NoEvents(n: Net, tags: seq<string>)
    ensures SumEvents(n, [], tags) == 0
    decreases |tags|
  {
    if tags != [] { NoEvents(n, tags[1..]); }
  }

  ghost function WithTagIn(n: Net, tags: seq<string>): set<int> {
    set id | id in n.requests && n.requests[id].tag in tags
  }

  lemma {:induction false} IssuedAddUp(n: Net, tags: seq<string>)
    requires Distinct(tags)
    ensures SumIssued(n, tags) == |WithTagIn(n, tags)|
    decreases |tags|
  {
    if tags == [] {
      assert WithTagIn(n, tags) == {};
    } else {
      IssuedAddUp(n, tags[1..]);
      SplitByTag(n, tags[0], tags[1..]);
      assert tags == [tags[0]] + tags[1..];
    }
  }

  lemma SplitByTag(n: Net, tag: string, rest: seq<string>)
    requires tag !in rest
    ensures |WithTagIn(n, [tag] + rest)| == |Issued(n, tag)| + |WithTagIn(n, rest)|
  {
    assert WithTagIn(n, [tag] + rest) == Issued(n, tag) + WithTagIn(n, rest);
    assert Issued(n, tag) !! WithTagIn(n, rest);
  }

  lemma {:induction false} ListTags(tags: set<string>) returns (list: seq<string>)
    ensures Distinct(list) && forall t :: t in list <==> t in tags
    decreases |tags|
  {
    if t :| t in tags {
      var rest := ListTags(tags - {t});
      list := [t] + rest;
    } else {
      list := [];
    }
  }

  /** Every request carries a tag, as every caller in the client does. */
  ghost predicate Tagged(n: Net) {
    forall id :: id in n.requests ==> n.requests[id].tag != ""
  }

  lemma {:induction false} SumsAreBounded(policy: Policy, run: seq<Event>, tags: seq<string>)
    requires IsRun(Idle(policy), run) && Tagged(After(Idle(policy), run))
    ensures SumEvents(Idle(policy), run, tags)
            <= 2 * (SumIssued(After(Idle(policy), run), tags) * (Retries(policy) + 1))
    decreases |tags|
  {
    if tags != [] {
      CompletionsAreBounded(policy, run, tags[0]);
      SumsAreBounded(policy, run, tags[1..]);
      Distribute(|Issued(After(Idle(policy), run), tags[0])|, SumIssued(After(Idle(policy), run), tags[1..]),
                 Retries(policy) + 1);
    }
  }

  /** The most events `m` requests can cause. */
  function MostEvents(policy: Policy, m: nat): nat { 2 * (m * (Retries(policy) + 1)) }

  /** However requests of all tags interleave, `m` of them cause at most `2 m (max_retries + 1)`
      events in all: sends, failures and answers together. */
  lemma {:induction false} RunsAreShort(policy: Policy, run: seq<Event>)
    requires IsRun(Idle(policy), run) && Tagged(After(Idle(policy), run))
    ensures |run| <= MostEvents(policy, |After(Idle(policy), run).requests|)
  {
    var n := After(Idle(policy), run);
    var tags := TagsIn(n);
    EveryEventHasATag(Idle(policy), run, tags);
    SumsAreBounded(policy, run, tags);
    CoveredAddUp(n, tags);
  }

  lemma TagsIn(n: Net) returns (tags: seq<string>)
    ensures Distinct(tags) && Covers(tags, n)
  {
    tags := ListTags(set id | id in n.requests :: n.requests[id].tag);
  }

  lemma CoveredAddUp(n: Net, tags: seq<string>)
    requires Distinct(tags) && Covers(tags, n)
    ensures SumIssued(n, tags) == |n.requests|
  {
    IssuedAddUp(n, tags);
    forall id: int ensures id in WithTagIn(n, tags) <==> id in n.requests.Keys {
    }
    assert WithTagIn(n, tags) == n.requests.Keys;
  }

  // ---- delays ----

  /** The first retry waits the base delay, and each further one `factor` times as long. */
  lemma DelaysGrowByTheFactor(policy: Policy, attempt: int)
    requires attempt >= 1
    ensures policy.Delay(1) == policy.base
    ensures policy.Delay(attempt + 1) == policy.Delay(attempt) * policy.factor
  {
    var p := Pow(policy.factor, attempt - 1);
    assert Pow(policy.factor, attempt) == policy.factor * p;
    assert policy.base * (policy.factor * p) == (policy.base * p) * policy.factor;
    assert Pow(policy.factor, 0) == 1.0;
  }

  /** A failure that is retried waits the delay of its attempt, counted from the tag's last answer. */
  lemma FailureWaits(n: Net, id: int)
    requires Enabled(n, Fail(id))
    ensures var tag := n.requests[id].tag; var attempt := AttemptsOf(n.attempts, tag) + 1;
      Step(n, Fail(id)).requests[id].status ==
      if attempt <= n.policy.maxRetries then Waiting(n.policy.Delay(attempt)) else Done(GaveUp)
  {
  }

  // ---- terminal outcomes ----

  /** A request counts as answered exactly when an answer was delivered for it. */
  lemma {:induction false} AnsweredIffDelivered(n: Net, run: seq<Event>, id: int)
    requires IsRun(n, run)
    ensures id in After(n, run).requests && After(n, run).requests[id].status == Done(Answered) <==>
      Succeed(id) in run || (id in n.requests && n.requests[id].status == Done(Answered))
    decreases |run|
  {
    if run != [] {
      AnsweredIffDelivered(Step(n, run[0]), run[1..], id);
      assert run == [run[0]] + run[1..];
    }
  }

  /** A request is in the outcome log exactly when it is done, and then once. */
  ghost predicate OneOutcomeEach(n: Net) {
    && (forall i, j :: 0 <= i < j < |n.outcomes| ==> n.outcomes[i] != n.outcomes[j])
    && (forall id :: id in n.outcomes <==> id in n.requests && n.requests[id].status.Done?)
  }

  lemma {:induction false} RunHasOneOutcomeEach(n: Net, run: seq<Event>)
    requires IsRun(n, run) && OneOutcomeEach(n)
    ensures OneOutcomeEach(After(n, run))
    decreases |run|
  {
    if run != [] {
      RunHasOneOutcomeEach(Step(n, run[0]), run[1..]);
    }
  }

  lemma {:induction false} RunOneMore(n: Net, run: seq<Event>, e: Event)
    requires IsRun(n, run) && Enabled(After(n, run), e)
    ensures IsRun(n, run + [e]) && After(n, run + [e]) == Step(After(n, run), e)
    decreases |run|
  {
    if run == [] {
      assert run + [e] == [e] && [e][1..] == [];
    } else {
      assert (run + [e])[1..] == run[1..] + [e];
      RunOneMore(Step(n, run[0]), run[1..], e);
    }
  }

  /** Whatever has happened, the requests already made come to rest by themselves: some
      continuation without new requests brings every one of them to its caller, exactly once; and
      since no continuation is longer than the bound, every one that goes on long enough does. */
  lemma {:induction false} EveryRequestEnds(policy: Policy, run: seq<Event>) returns (more: seq<Event>)
    requires IsRun(Idle(policy), run) && Tagged(After(Idle(policy), run))
    ensures IsRun(Idle(policy), run + more)
    ensures forall i :: 0 <= i < |more| ==> !more[i].Issue?
    ensures var before := After(Idle(policy), run); var n := After(Idle(policy), run + more);
      && n.requests.Keys == before.requests.Keys
      && OneOutcomeEach(n)
      && (forall id :: id in n.requests ==> id in n.outcomes)
      && |run| + |more| <= MostEvents(policy, |before.requests|)
    decreases MostEvents(policy, |After(Idle(policy), run).requests|) - |run|
  {
    var n := After(Idle(policy), run);
    RunsAreShort(policy, run);
    if id :| id in n.requests && !n.requests[id].status.Done? {
      var e := if n.requests[id].status.InFlight? then Succeed(id) else Resend(id);
      RunOneMore(Idle(policy), run, e);
      var next := After(Idle(policy), run + [e]);
      assert next.requests.Keys == n.requests.Keys;
      RunsAreShort(policy, run + [e]);
      var rest := EveryRequestEnds(policy, run + [e]);
      more := [e] + rest;
      Associative(run, [e], rest);
    } else {
      more := [];
      assert run + more == run;
      IdleHasNoOutcomes(policy);
      RunHasOneOutcomeEach(Idle(policy), run);
    }
  }

  lemma IdleHasNoOutcomes(policy: Policy)
    ensures OneOutcomeEach(Idle(policy))
  {
  }

  /** A run to which only new requests could be added has answered every request exactly once. */
  lemma {:induction false} RestMeansAllAnswered(policy: Policy, run: seq<Event>)
    requires IsRun(Idle(policy), run)
    requires forall e: Event :: !e.Issue? ==> !Enabled(After(Idle(policy), run), e)
    ensures var n := After(Idle(policy), run);
      OneOutcomeEach(n) && forall id :: id in n.requests ==> id in n.outcomes
  {
    IdleHasNoOutcomes(policy);
    RunHasOneOutcomeEach(Idle(policy), run);
    var n := After(Idle(policy), run);
    forall id | id in n.requests ensures id in n.outcomes {
      assert !Enabled(n, Fail(id)) && !Enabled(n, Resend(id));
    }
  }

  // ---- what one request can get from the shared counter ----

  function IsSendOf(e: Event, id: int): nat {
    if e.id == id && (e.Issue? || e.Resend?) then 1 else 0
  }

  /** How often one request is sent. */
  ghost function SendsOf(run: seq<Event>, id: int): nat
    decreases |run|
  {
    if run == [] then 0
    else SendsOf(run[1..], id) + IsSendOf(run[0], id)
  }

  lemma {:induction false} OneRequestsSends(n: Net, run: seq<Event>, id: int, tag: string)
    requires IsRun(n, run) && id in After(n, run).requests && After(n, run).requests[id].tag == tag
    ensures SendsOf(run, id) <= Resends(n, run, tag) + if id in n.requests then 0 else 1
    decreases |run|
  {
    if run != [] {
      var next := Step(n, run[0]);
      RequestsRemain(next, run[1..], run[0].id);
      OneRequestsSends(next, run[1..], id, tag);
    }
  }

  // ---- rounds: what others contribute ----

  /** Whether `e` ends another request of the tag while `id` is outstanding: it hands `id` a new round. */
  ghost predicate Renews(n: Net, e: Event, id: int, tag: string)
    requires Enabled(n, e)
  {
    id in Outstanding(n, tag) && e.id != id && TagOf(n, e) == tag && Step(n, e).requests[e.id].status.Done?
  }

  ghost function Renewals(n: Net, run: seq<Event>, id: int, tag: string): nat
    requires IsRun(n, run)
    decreases |run|
  {
    if run == [] then 0
    else Renewals(Step(n, run[0]), run[1..], id, tag) + if Renews(n, run[0], id, tag) then 1 else 0
  }

  /** Request `id`, sent `sends` times so far, used at most `before` in earlier rounds. */
  ghost predicate WithinRounds(n: Net, id: int, tag: string, sends: nat, before: int) {
    if id !in n.requests then sends == 0 && before >= 0
    else
      && n.requests[id].tag == tag && before >= 0
      && match n.requests[id].status
         case InFlight => sends <= before + AttemptsOf(n.attempts, tag) + 1
         case Waiting(_) => sends <= before + AttemptsOf(n.attempts, tag)
         case Done(_) => sends <= before + Retries(n.policy) + 1
  }

  lemma StepWithinRounds(n: Net, e: Event, id: int, tag: string, sends: nat, before: int)
    requires Enabled(n, e) && Amortised(n, tag) && Separate(Step(n, e), tag)
    requires WithinRounds(n, id, tag, sends, before) && (e.Issue? && e.id == id ==> e.tag == tag)
    ensures WithinRounds(Step(n, e), id, tag, sends + IsSendOf(e, id),
                         before + if Renews(n, e, id, tag) then Retries(n.policy) else 0)
  {
    AttemptsAfter(n, e, tag);
  }

  lemma {:induction false} RunWithinRounds(n: Net, run: seq<Event>, id: int, tag: string, sends: nat, before: int)
    requires IsRun(n, run) && Amortised(n, tag) && Separate(After(n, run), tag)
    requires id in After(n, run).requests ==> After(n, run).requests[id].tag == tag
    requires WithinRounds(n, id, tag, sends, before)
    ensures WithinRounds(After(n, run), id, tag, sends + SendsOf(run, id),
                         before + Renewals(n, run, id, tag) * Retries(n.policy))
    decreases |run|
  {
    if run != [] {
      var e, next := run[0], Step(n, run[0]);
      StaysSeparate(n, run, tag);
      RequestsRemain(next, run[1..], e.id);
      StepStaysAmortised(n, e, tag);
      AttemptsAfter(n, e, tag);
      StepWithinRounds(n, e, id, tag, sends, before);
      RunWithinRounds(next, run[1..], id, tag, sends + IsSendOf(e, id),
                      before + if Renews(n, e, id, tag) then Retries(n.policy) else 0);
      OneMore(Renewals(next, run[1..], id, tag), Retries(n.policy));
    }
  }

  /** A request is sent at most once plus `max_retries` times for each round it gets: its own, and one
      for every other request of its tag that ends while it is outstanding. So among `m` requests of
      the tag it is sent at most `m * max_retries + 1` times. */
  lemma {:induction false} OneRequestIsBounded(policy: Policy, run: seq<Event>, id: int, tag: string)
    requires IsRun(Idle(policy), run) && Separate(After(Idle(policy), run), tag)
    requires id in Issued(After(Idle(policy), run), tag)
    ensures SendsOf(run, id) <= (Renewals(Idle(policy), run, id, tag) + 1) * Retries(policy) + 1
    ensures SendsOf(run, id) <= |Issued(After(Idle(policy), run), tag)| * Retries(policy) + 1
  {
    IdleIsAmortised(policy, tag);
    RunStaysAmortised(Idle(policy), run, tag);
    RunWithinRounds(Idle(policy), run, id, tag, 0, 0);
    OneMore(Renewals(Idle(policy), run, id, tag), Retries(policy));
    OneRequestsSends(Idle(policy), run, id, tag);
    CompletionsAreBounded(policy, run, tag);
  }

  // ---- the limit of one request ----

  /** `max_retries` as a caller reads it: no more sends than that and the first, and giving up only
      after all of them. */
  ghost predicate KeepsLimit(n: Net, run: seq<Event>, id: int) {
    && SendsOf(run, id) <= Retries(n.policy) + 1
    && (id in n.requests && n.requests[id].status == Done(GaveUp) ==> SendsOf(run, id) == Retries(n.policy) + 1)
  }

  /** While `id` is outstanding, no other request of its tag is. */
  ghost predicate Alone(n: Net, id: int, tag: string) {
    id in Outstanding(n, tag) ==> Outstanding(n, tag) == {id}
  }

  ghost predicate AloneThroughout(n: Net, run: seq<Event>, id: int, tag: string)
    requires IsRun(n, run)
    decreases |run|
  {
    Alone(n, id, tag) && (run == [] || AloneThroughout(Step(n, run[0]), run[1..], id, tag))
  }

  /** The counter is all the request's own. */
  ghost predicate OwnRound(n: Net, id: int, tag: string, sends: nat) {
    if id !in n.requests then sends == 0
    else
      && n.requests[id].tag == tag
      && match n.requests[id].status
         case InFlight => sends == AttemptsOf(n.attempts, tag) + 1
         case Waiting(_) => sends == AttemptsOf(n.attempts, tag)
         case Done(Answered) => sends <= Retries(n.policy) + 1
         case Done(GaveUp) => sends == Retries(n.policy) + 1
  }

  lemma FirstOfItsTag(n: Net, e: Event, tag: string)
    requires Enabled(n, e) && Amortised(n, tag) && e.Issue? && e.tag == tag && Alone(Step(n, e), e.id, tag)
    ensures AttemptsOf(n.attempts, tag) == 0
  {
    var r := Step(n, e);
    assert e.id in Outstanding(r, tag);
    forall id: int ensures id !in Outstanding(n, tag) {
      assert id in Outstanding(n, tag) ==> id != e.id && id in Outstanding(r, tag);
    }
    assert Outstanding(n, tag) == {};
  }

  lemma OwnStep(n: Net, e: Event, tag: string, sends: nat)
    requires Enabled(n, e) && Amortised(n, tag) && Separate(Step(n, e), tag)
    requires Alone(Step(n, e), e.id, tag) && (e.Issue? ==> e.tag == tag)
    requires OwnRound(n, e.id, tag, sends)
    ensures OwnRound(Step(n, e), e.id, tag, sends + IsSendOf(e, e.id))
  {
    if e.Issue? { FirstOfItsTag(n, e, tag); }
    AttemptsAfter(n, e, tag);
  }

  lemma OtherStep(n: Net, e: Event, id: int, tag: string, sends: nat)
    requires Enabled(n, e) && Separate(Step(n, e), tag) && e.id != id
    requires Alone(n, id, tag) && Alone(Step(n, e), id, tag) && OwnRound(n, id, tag, sends)
    ensures OwnRound(Step(n, e), id, tag, sends)
  {
    if id in Outstanding(n, tag) {
      assert id in Outstanding(Step(n, e), tag);
      assert e.id !in Outstanding(n, tag) && e.id !in Outstanding(Step(n, e), tag);
      AttemptsAfter(n, e, tag);
    }
  }

  lemma {:induction false} RunKeepsOwnRound(n: Net, run: seq<Event>, id: int, tag: string, sends: nat)
    requires IsRun(n, run) && Amortised(n, tag) && Separate(After(n, run), tag)
    requires id in After(n, run).requests ==> After(n, run).requests[id].tag == tag
    requires AloneThroughout(n, run, id, tag) && OwnRound(n, id, tag, sends)
    ensures OwnRound(After(n, run), id, tag, sends + SendsOf(run, id))
    decreases |run|
  {
    if run != [] {
      var e, next := run[0], Step(n, run[0]);
      StaysSeparate(n, run, tag);
      RequestsRemain(next, run[1..], e.id);
      StepStaysAmortised(n, e, tag);
      if e.id == id { OwnStep(n, e, tag, sends); } else { OtherStep(n, e, id, tag, sends); }
      RunKeepsOwnRound(next, run[1..], id, tag, sends + IsSendOf(e, id));
    }
  }

  /** A request that shares no moment with another of its tag gets exactly its retries, whatever came
      before it or comes after. */
  lemma {:induction false} AloneKeepsTheLimit(policy: Policy, run: seq<Event>, id: int, tag: string)
    requires IsRun(Idle(policy), run) && Separate(After(Idle(policy), run), tag)
    requires id in Issued(After(Idle(policy), run), tag) && AloneThroughout(Idle(policy), run, id, tag)
    ensures KeepsLimit(After(Idle(policy), run), run, id)
  {
    IdleIsAmortised(policy, tag);
    RunStaysAmortised(Idle(policy), run, tag);
    RunKeepsOwnRound(Idle(policy), run, id, tag, 0);
  }

  /** Without retries every request is sent exactly once, overlap or not. */
  lemma {:induction false} NoRetriesNoResends(n: Net, run: seq<Event>, id: int)
    requires IsRun(n, run) && n.policy.maxRetries <= 0
    requires id in n.requests ==> !n.requests[id].status.Waiting?
    ensures After(n, run).policy == n.policy
    ensures id in After(n, run).requests ==> SendsOf(run, id) + (if id in n.requests then 1 else 0) == 1
    decreases |run|
  {
    if run != [] {
      RequestsRemain(Step(n, run[0]), run[1..], run[0].id);
      NoRetriesNoResends(Step(n, run[0]), run[1..], id);
    }
  }

  /** At no point of the run are more than `j` requests of the tag outstanding. */
  ghost predicate AtMost(n: Net, run: seq<Event>, tag: string, j: nat)
    requires IsRun(n, run)
    decreases |run|
  {
    |Outstanding(n, tag)| <= j && (run == [] || AtMost(Step(n, run[0]), run[1..], tag, j))
  }

  lemma {:induction false} AtMostOneIsAlone(n: Net, run: seq<Event>, tag: string, j: nat, id: int)
    requires IsRun(n, run) && AtMost(n, run, tag, j) && j <= 1
    ensures AloneThroughout(n, run, id, tag)
    decreases |run|
  {
    if id in Outstanding(n, tag) {
      OnlyElement(Outstanding(n, tag), id);
    }
    if run != [] {
      AtMostOneIsAlone(Step(n, run[0]), run[1..], tag, j, id);
    }
  }

  lemma OnlyElement(s: set<int>, x: int)
    requires x in s && |s| <= 1
    ensures s == {x}
  {
    assert s == (s - {x}) + {x};
    assert |s - {x}| == 0;
  }

  /** Request 0 fails and is sent again, `i` times over. */
  function Retrying(i: nat): seq<Event> {
    if i == 0 then [] else [Fail(0), Resend(0)] + Retrying(i - 1)
  }

  /** Request 0 uses up the counter, another request is answered and resets it, `k` times; then it
      uses up the counter once more. */
  function Helped(k: nat, retries: nat, tag: string): seq<Event> {
    if k == 0 then Retrying(retries)
    else Retrying(retries) + ([Issue(k, tag), Succeed(k)] + Helped(k - 1, retries, tag))
  }

  /** Request 0 is on the wire, `used` retries are spent, and the ids `1..k` are free. */
  ghost predicate Persists(n: Net, tag: string, used: nat, k: nat) {
    && 0 in n.requests && n.requests[0] == Request(tag, InFlight)
    && AttemptsOf(n.attempts, tag) == used
    && forall id :: id in n.requests ==> id == 0 || id > k || id < 0
  }

  lemma {:induction false} RunAppend(n: Net, a: seq<Event>, b: seq<Event>)
    requires IsRun(n, a) && IsRun(After(n, a), b)
    ensures IsRun(n, a + b) && After(n, a + b) == After(After(n, a), b)
    ensures forall id :: SendsOf(a + b, id) == SendsOf(a, id) + SendsOf(b, id)
    decreases |a|
  {
    if a == [] {
      assert a + b == b;
    } else {
      assert (a + b)[1..] == a[1..] + b;
      RunAppend(Step(n, a[0]), a[1..], b);
    }
  }

  lemma {:induction false} OneStep(n: Net, e: Event)
    requires Enabled(n, e)
    ensures IsRun(n, [e]) && After(n, [e]) == Step(n, e)
    ensures forall id :: SendsOf([e], id) == IsSendOf(e, id)
  {
    assert [e][1..] == [];
  }

  lemma {:induction false} TwoSteps(n: Net, e1: Event, e2: Event)
    requires Enabled(n, e1) && Enabled(Step(n, e1), e2)
    ensures IsRun(n, [e1, e2]) && After(n, [e1, e2]) == Step(Step(n, e1), e2)
    ensures forall id :: SendsOf([e1, e2], id) == IsSendOf(e1, id) + IsSendOf(e2, id)
  {
    OneStep(n, e1);
    OneStep(Step(n, e1), e2);
    RunAppend(n, [e1], [e2]);
    assert [e1] + [e2] == [e1, e2];
  }

  lemma RetryOnce(n: Net, tag: string, used: nat, k: nat)
    requires Persists(n, tag, used, k) && used < n.policy.maxRetries
    ensures Enabled(n, Fail(0)) && Enabled(Step(n, Fail(0)), Resend(0))
    ensures var next := Step(Step(n, Fail(0)), Resend(0));
      next.requests == n.requests && next.policy == n.policy && Persists(next, tag, used + 1, k)
  {
  }

  lemma {:induction false} RetryingRuns(n: Net, tag: string, used: nat, k: nat, i: nat)
    requires Persists(n, tag, used, k) && used + i <= n.policy.maxRetries
    ensures IsRun(n, Retrying(i))
    ensures var r := After(n, Retrying(i));
      && Persists(r, tag, used + i, k) && r.policy == n.policy
      && r.requests == n.requests && Issued(r, tag) == Issued(n, tag)
    ensures SendsOf(Retrying(i), 0) == i
    ensures forall id :: id != 0 ==> SendsOf(Retrying(i), id) == 0
    decreases i
  {
    if i > 0 {
      var next := Step(Step(n, Fail(0)), Resend(0));
      TwoSteps(n, Fail(0), Resend(0));
      RetryOnce(n, tag, used, k);
      RetryingRuns(next, tag, used + 1, k, i - 1);
      RunAppend(n, [Fail(0), Resend(0)], Retrying(i - 1));
    }
  }

  lemma {:induction false} HelpedRuns(n: Net, tag: string, k: nat)
    requires Persists(n, tag, 0, k) && n.policy.maxRetries >= 0
    ensures IsRun(n, Helped(k, n.policy.maxRetries, tag))
    ensures SendsOf(Helped(k, n.policy.maxRetries, tag), 0) == (k + 1) * n.policy.maxRetries
    ensures |Issued(After(n, Helped(k, n.policy.maxRetries, tag)), tag)| == |Issued(n, tag)| + k
    decreases k
  {
    var r := n.policy.maxRetries;
    RetryingRuns(n, tag, 0, k, r);
    if k > 0 {
      var spent := After(n, Retrying(r));
      var issued := Step(spent, Issue(k, tag));
      var reset := Step(issued, Succeed(k));
      TwoSteps(spent, Issue(k, tag), Succeed(k));
      CountsAfter(spent, Issue(k, tag), tag);
      CountsAfter(issued, Succeed(k), tag);
      HelpedRuns(reset, tag, k - 1);
      RunAppend(spent, [Issue(k, tag), Succeed(k)], Helped(k - 1, r, tag));
      RunAppend(n, Retrying(r), [Issue(k, tag), Succeed(k)] + Helped(k - 1, r, tag));
      OneMore(k, r);
    }
  }

  lemma FirstIssue(policy: Policy, tag: string, k: nat)
    ensures var n := Step(Idle(policy), Issue(0, tag));
      Persists(n, tag, 0, k) && Issued(n, tag) == {0} && n.policy == policy
  {
  }

  /** The bound for one request is reached: with `m` requests of one tag, for every `m`, one of them
      can be sent `m * max_retries + 1` times. */
  lemma {:induction false} OneRequestCanTakeEveryRound(policy: Policy, tag: string, m: nat)
    requires m >= 1 && policy.maxRetries >= 0
    ensures var run := [Issue(0, tag)] + Helped(m - 1, policy.maxRetries, tag);
      && IsRun(Idle(policy), run)
      && |Issued(After(Idle(policy), run), tag)| == m
      && SendsOf(run, 0) == m * policy.maxRetries + 1
  {
    FirstIssue(policy, tag, m - 1);
    var n := Step(Idle(policy), Issue(0, tag));
    var rest := Helped(m - 1, policy.maxRetries, tag);
    HelpedRuns(n, tag, m - 1);
    assert ([Issue(0, tag)] + rest)[1..] == rest;
  }

  /** The other way round: a request that fails for the first time is given up at once when another
      request of its tag has used up the retries. */
  lemma {:induction false} OneRequestCanGetNoRetry(policy: Policy, tag: string)
    requires policy.maxRetries >= 1
    ensures var run := [Issue(0, tag), Issue(1, tag)] + (Retrying(policy.maxRetries) + [Fail(1)]);
      && IsRun(Idle(policy), run)
      && SendsOf(run, 1) == 1
      && 1 in After(Idle(policy), run).requests
      && After(Idle(policy), run).requests[1].status == Done(GaveUp)
  {
    var r := policy.maxRetries;
    var one := Step(Idle(policy), Issue(0, tag));
    var two := Step(one, Issue(1, tag));
    TwoSteps(Idle(policy), Issue(0, tag), Issue(1, tag));
    RetryingRuns(two, tag, 0, 0, r);
    RunOneMore(two, Retrying(r), Fail(1));
    var spent := After(two, Retrying(r));
    OneStep(spent, Fail(1));
    RunAppend(two, Retrying(r), [Fail(1)]);
    RunAppend(Idle(policy), [Issue(0, tag), Issue(1, tag)], Retrying(r) + [Fail(1)]);
  }

  // ---- when the limit holds ----

  lemma {:induction false} FewIdsFewOutstanding(n: Net, run: seq<Event>, tag: string)
    requires IsRun(n, run) && (forall id :: id in n.requests ==> id == 0 || id == 1)
    requires forall i :: 0 <= i < |run| ==> run[i].id == 0 || run[i].id == 1
    ensures AtMost(n, run, tag, 2)
    decreases |run|
  {
    var both: set<int> := {0, 1};
    forall id: int ensures id in Outstanding(n, tag) ==> id in both {
    }
    assert |both| == 2;
    SubsetCount(Outstanding(n, tag), both);
    if run != [] {
      FewIdsFewOutstanding(Step(n, run[0]), run[1..], tag);
    }
  }

  lemma {:induction false} RetryingIsOfZero(i: nat)
    ensures forall k :: 0 <= k < |Retrying(i)| ==> Retrying(i)[k].id == 0 && !Retrying(i)[k].Issue?
  {
    if i > 0 { RetryingIsOfZero(i - 1); }
  }

  lemma TwoAtOnceEvents(policy: Policy, tag: string)
    ensures var run := TwoAtOnce(policy, tag);
      forall k :: 0 <= k < |run| ==> (run[k].id == 0 || run[k].id == 1) && (run[k].Issue? ==> run[k].tag == tag)
  {
    var again := Retrying(Retries(policy));
    var run := TwoAtOnce(policy, tag);
    RetryingIsOfZero(Retries(policy));
    assert run == [Issue(0, tag)] + (again + ([Issue(1, tag), Succeed(1)] + Helped(0, Retries(policy), tag)));
    assert run == [Issue(0, tag)] + again + [Issue(1, tag), Succeed(1)] + again;
  }

  /** Two requests of the tag, the second answered while the first is retrying. */
  function TwoAtOnce(policy: Policy, tag: string): seq<Event> {
    [Issue(0, tag)] + Helped(1, Retries(policy), tag)
  }

  lemma {:induction false} TwoAtOnceBreaksTheLimit(policy: Policy, tag: string, j: nat)
    requires policy.maxRetries >= 1 && j >= 2
    ensures var run := TwoAtOnce(policy, tag);
      && Admits(policy, run, tag, j)
      && 0 in Issued(After(Idle(policy), run), tag)
      && !KeepsLimit(After(Idle(policy), run), run, 0)
  {
    var run := TwoAtOnce(policy, tag);
    OneRequestCanTakeEveryRound(policy, tag, 2);
    TwoAtOnceEvents(policy, tag);
    FewIdsFewOutstanding(Idle(policy), run, tag);
    AtMostMore(Idle(policy), run, tag, 2, j);
    RequestsRemain(Step(Idle(policy), run[0]), run[1..], 0);
    OneTagOnly(Idle(policy), run, tag);
    IdleIsAmortised(policy, tag);
    RunStaysAmortised(Idle(policy), run, tag);
  }

  lemma {:induction false} AtMostMore(n: Net, run: seq<Event>, tag: string, i: nat, j: nat)
    requires IsRun(n, run) && AtMost(n, run, tag, i) && i <= j
    ensures AtMost(n, run, tag, j)
    decreases |run|
  {
    if run != [] { AtMostMore(Step(n, run[0]), run[1..], tag, i, j); }
  }

  lemma {:induction false} OneTagOnly(n: Net, run: seq<Event>, tag: string)
    requires IsRun(n, run) && (forall id :: id in n.requests ==> n.requests[id].tag == tag)
    requires forall i :: 0 <= i < |run| && run[i].Issue? ==> run[i].tag == tag
    ensures Separate(After(n, run), tag)
    decreases |run|
  {
    if run != [] { OneTagOnly(Step(n, run[0]), run[1..], tag); }
  }

  /** A run of the client in which at most `j` requests of the tag are ever outstanding at once. */
  ghost predicate Admits(policy: Policy, run: seq<Event>, tag: string, j: nat) {
    && IsRun(Idle(policy), run)
    && Separate(After(Idle(policy), run), tag)
    && AtMost(Idle(policy), run, tag, j)
  }

  ghost predicate LimitAlwaysHolds(policy: Policy, tag: string, j: nat) {
    forall run, id :: Admits(policy, run, tag, j) && id in Issued(After(Idle(policy), run), tag) ==>
      KeepsLimit(After(Idle(policy), run), run, id)
  }

  /** `max_retries` is a limit per request exactly when a tag never has two requests outstanding at
      once, or there are no retries at all. */
  lemma {:induction false} LimitHoldsIffNoOverlap(policy: Policy, tag: string, j: nat)
    ensures LimitAlwaysHolds(policy, tag, j) <==> j <= 1 || Retries(policy) == 0
  {
    if j <= 1 || Retries(policy) == 0 {
      forall run, id | Admits(policy, run, tag, j) && id in Issued(After(Idle(policy), run), tag)
        ensures KeepsLimit(After(Idle(policy), run), run, id)
      {
        if j <= 1 {
          AtMostOneIsAlone(Idle(policy), run, tag, j, id);
          AloneKeepsTheLimit(policy, run, id, tag);
        } else {
          NoRetriesNoResends(Idle(policy), run, id);
        }
      }
    } else {
      TwoAtOnceBreaksTheLimit(policy, tag, j);
    }
  }
}
