/** The monthly character budget of the premium voice provider. */
module BudgetSteps {
  import opened Common

  /** Characters the USD cap buys, at 100 USD per million. */
  function CharBudget(usd: real): int { (usd * 1_000_000.0 / 100.0).Floor }

  datatype Meter = Meter(used: int, month: int, inFlight: seq<nat>)

  /** Synthesis requests suspend between the budget check and the count. */
  datatype Event =
    | Begin(length: nat, month: int)  // check, and call the provider if allowed
    | Complete(i: nat)  // the provider answered; its characters are counted
    | Abandon(i: nat)  // the provider failed; nothing is counted

  function RollOver(m: Meter, month: int): Meter {
    if month != m.month then m.(used := 0, month := month) else m
  }

  predicate Allowed(m: Meter, usd: real) {
    !(usd > 0.0 && m.used >= CharBudget(usd))
  }

  predicate Enabled(m: Meter, e: Event) {
    !e.Begin? ==> e.i < |m.inFlight|
  }

  function Step(m: Meter, usd: real, e: Event): Meter
    requires Enabled(m, e)
  {
    match e
    case Begin(length, month) =>
      var r := RollOver(m, month);
      if Allowed(r, usd) then r.(inFlight := r.inFlight + [length]) else r
    case Complete(i) => m.(used := m.used + m.inFlight[i], inFlight := Remove(m.inFlight, i))
    case Abandon(i) => m.(inFlight := Remove(m.inFlight, i))
  }
}

module VoiceBudgets {
  import opened Common
  import opened BudgetSteps

  datatype Begun = Calling | MissingKey | QuotaExhausted

  /** The provider module's globals. */
  class ElevenLabsProvider {
    const hasKey: bool
    const monthlyUsd: real
    var used: int
    var month: int
    var inFlight: seq<nat>  // texts whose provider call has not returned

    ghost function Model(): Meter
      reads this
    {
      Meter(used, month, inFlight)
    }

    constructor (hasKey: bool, monthlyUsd: real)
      ensures this.hasKey == hasKey && this.monthlyUsd == monthlyUsd && Model() == Meter(0, 0, [])
    {
      this.hasKey, this.monthlyUsd := hasKey, monthlyUsd;
      used, month, inFlight := 0, 0, [];
    }

    /** `synthesize` up to the await. */
    method BeginSynthesis(text: string, today: int) returns (r: Begun)
      modifies this
      ensures r == (if !hasKey then MissingKey
                    else if Allowed(RollOver(old(Model()), today), monthlyUsd) then Calling
                    else QuotaExhausted)
      ensures Model() == if hasKey then Step(old(Model()), monthlyUsd, Begin(|text|, today))
                         else RollOver(old(Model()), today)
    {
      if today != month {
        used := 0;
        month := today;
      }
      if !hasKey { return MissingKey; }
      if monthlyUsd > 0.0 && used >= CharBudget(monthlyUsd) { return QuotaExhausted; }
      inFlight := inFlight + [|text|];
      return Calling;
    }

    /** `synthesize` after the await; the file write that follows does not change the count. */
    method EndSynthesis(i: nat, answered: bool)
      requires i < |inFlight|
      modifies this
      ensures Model() == Step(old(Model()), monthlyUsd, if answered then Complete(i) else Abandon(i))
    {
      if answered { used := used + inFlight[i]; }
      inFlight := Remove(inFlight, i);
    }
  }
}

module BudgetProofs {
  import opened Common
  import opened BudgetSteps

  function Sum(s: seq<nat>): nat {
    if s == [] then 0 else s[0] + Sum(s[1..])
  }

  lemma {:induction false} SumRemove(s: seq<nat>, i: nat)
    requires i < |s|
    ensures Sum(s) == Sum(Remove(s, i)) + s[i]
    decreases i
  {
    var rest := Remove(s, i);
    if i == 0 {
      assert rest == s[1..];
    } else {
      assert rest[0] == s[0] && rest[1..] == Remove(s[1..], i - 1);
      SumRemove(s[1..], i - 1);
    }
  }

  lemma {:induction false} SumAtMost(s: seq<nat>, longest: nat)
    requires forall i :: 0 <= i < |s| ==> s[i] <= longest
    ensures Sum(s) <= |s| * longest
  {
    if s != [] {
      SumAtMost(s[1..], longest);
      assert |s| * longest == |s[1..]| * longest + longest;
    }
  }

  lemma InFlightAtMost(s: seq<nat>, k: nat, longest: nat)
    requires |s| <= k && forall i :: 0 <= i < |s| ==> s[i] <= longest
    ensures Sum(s) <= k * longest
  {
    SumAtMost(s, longest);
    Monotone(|s|, k, longest);
  }

  ghost predicate CappedBy(m: Meter, budget: int, k: nat, longest: nat, most: nat) {
    && |m.inFlight| <= k
    && (forall i :: 0 <= i < |m.inFlight| ==> m.inFlight[i] <= longest)
    && m.used + Sum(m.inFlight) <= budget - 1 + most
  }

  /** At most `k` texts of at most `longest` characters in flight; what is used and what is about to
      be counted together overshoot by less than those `k` texts. */
  ghost predicate Capped(m: Meter, budget: int, k: nat, longest: nat) {
    CappedBy(m, budget, k, longest, k * longest)
  }

  lemma StepStaysCappedBy(m: Meter, usd: real, e: Event, k: nat, longest: nat, most: nat)
    requires usd > 0.0 && CharBudget(usd) >= 1 && Enabled(m, e)
    requires CappedBy(m, CharBudget(usd), k, longest, most)
    requires |Step(m, usd, e).inFlight| <= k && (e.Begin? ==> e.length <= longest)
    requires Sum(m.inFlight) <= most && Sum(Step(m, usd, e).inFlight) <= most
    ensures CappedBy(Step(m, usd, e), CharBudget(usd), k, longest, most)
  {
    if !e.Begin? {
      SumRemove(m.inFlight, e.i);
    }
  }

  lemma StepKeepsTextsShort(m: Meter, usd: real, e: Event, longest: nat)
    requires Enabled(m, e) && (e.Begin? ==> e.length <= longest)
    requires forall i :: 0 <= i < |m.inFlight| ==> m.inFlight[i] <= longest
    ensures forall i :: 0 <= i < |Step(m, usd, e).inFlight| ==> Step(m, usd, e).inFlight[i] <= longest
  {
  }

  lemma StepStaysCapped(m: Meter, usd: real, e: Event, k: nat, longest: nat)
    requires usd > 0.0 && CharBudget(usd) >= 1 && Enabled(m, e)
    requires Capped(m, CharBudget(usd), k, longest)
    requires |Step(m, usd, e).inFlight| <= k && (e.Begin? ==> e.length <= longest)
    ensures Capped(Step(m, usd, e), CharBudget(usd), k, longest)
  {
    StepKeepsTextsShort(m, usd, e, longest);
    InFlightAtMost(m.inFlight, k, longest);
    InFlightAtMost(Step(m, usd, e).inFlight, k, longest);
    StepStaysCappedBy(m, usd, e, k, longest, k * longest);
  }

  ghost predicate IsRun(m: Meter, usd: real, run: seq<Event>, k: nat, longest: nat)
    decreases |run|
  {
    run == [] || (
      && Enabled(m, run[0])
      && (run[0].Begin? ==> run[0].length <= longest)
      && |Step(m, usd, run[0]).inFlight| <= k
      && IsRun(Step(m, usd, run[0]), usd, run[1..], k, longest))
  }

  ghost function After(m: Meter, usd: real, run: seq<Event>, k: nat, longest: nat): Meter
    requires IsRun(m, usd, run, k, longest)
    decreases |run|
  {
    if run == [] then m else After(Step(m, usd, run[0]), usd, run[1..], k, longest)
  }

  lemma {:induction false} RunStaysCapped(m: Meter, usd: real, run: seq<Event>, k: nat, longest: nat)
    requires usd > 0.0 && CharBudget(usd) >= 1 && IsRun(m, usd, run, k, longest)
    requires Capped(m, CharBudget(usd), k, longest)
    ensures Capped(After(m, usd, run, k, longest), CharBudget(usd), k, longest)
    decreases |run|
  {
    if run != [] {
      StepStaysCapped(m, usd, run[0], k, longest);
      RunStaysCapped(Step(m, usd, run[0]), usd, run[1..], k, longest);
    }
  }

  /** The counter never exceeds `budget - 1 + k * longest`, over any interleaving of checks,
      completions, failures and month changes. */
  lemma {:induction false} OvershootIsBounded(usd: real, run: seq<Event>, k: nat, longest: nat)
    requires usd > 0.0 && CharBudget(usd) >= 1 && IsRun(Meter(0, 0, []), usd, run, k, longest)
    ensures After(Meter(0, 0, []), usd, run, k, longest).used <= CharBudget(usd) - 1 + k * longest
  {
    RunStaysCapped(Meter(0, 0, []), usd, run, k, longest);
  }

  // ---- the budget itself ----

  /** A text of `n` characters costs `n / 10_000` USD; the budget is the most characters the cap pays for. */
  lemma BudgetIsWhatTheCapBuys(usd: real, n: int)
    ensures n <= CharBudget(usd) <==> n as real <= usd * 10_000.0
  {
    assert usd * 1_000_000.0 / 100.0 == usd * 10_000.0;
  }

  /** After any run: a call in another month than the last finds an empty counter and is admitted if the cap
      buys anything; in the same month it finds the counter as it was, and is admitted exactly while that
      is below the budget. Without a cap every call is admitted. */
  lemma {:induction false} NewMonthFreesTheBudget(usd: real, run: seq<Event>, k: nat, longest: nat,
                                                  length: nat, month: int)
    requires IsRun(Meter(0, 0, []), usd, run, k, longest)
    ensures var m := After(Meter(0, 0, []), usd, run, k, longest); var r := Step(m, usd, Begin(length, month));
      && r.month == month
      && r.used == (if month == m.month then m.used else 0)
      && r.inFlight == m.inFlight + (if usd <= 0.0 || r.used < CharBudget(usd) then [length] else [])
  {
  }

  // ---- the bound is reached ----

  lemma FirstCompletes(m: Meter, usd: real, longest: nat)
    requires m.inFlight == Repeat(longest, |m.inFlight|) && m.inFlight != []
    ensures var next := Step(m, usd, Complete(0));
      && next.inFlight == Repeat(longest, |m.inFlight| - 1) && |next.inFlight| == |m.inFlight| - 1
      && next.used == m.used + longest
  {
    assert Remove(m.inFlight, 0) == m.inFlight[1..];
  }

  lemma {:induction false} CompleteAll(m: Meter, usd: real, k: nat, longest: nat)
    requires m.inFlight == Repeat(longest, |m.inFlight|) && |m.inFlight| <= k
    ensures var run := Repeat(Complete(0), |m.inFlight|);
      IsRun(m, usd, run, k, longest) && After(m, usd, run, k, longest).used == m.used + |m.inFlight| * longest
    decreases |m.inFlight|
  {
    var n := |m.inFlight|;
    if n > 0 {
      var next := Step(m, usd, Complete(0));
      FirstCompletes(m, usd, longest);
      CompleteAll(next, usd, k, longest);
      assert Repeat(Complete(0), n)[1..] == Repeat(Complete(0), n - 1);
      OneMore(n, longest);
    }
  }

  lemma {:induction false} BeginThenComplete(m: Meter, usd: real, k: nat, longest: nat)
    requires usd > 0.0 && m.used < CharBudget(usd)
    requires m.inFlight == Repeat(longest, |m.inFlight|) && |m.inFlight| <= k
    ensures var run := Repeat(Begin(longest, m.month), k - |m.inFlight|) + Repeat(Complete(0), k);
      IsRun(m, usd, run, k, longest) && After(m, usd, run, k, longest).used == m.used + k * longest
    decreases k - |m.inFlight|
  {
    var b := |m.inFlight|;
    var run := Repeat(Begin(longest, m.month), k - b) + Repeat(Complete(0), k);
    if b == k {
      assert run == Repeat(Complete(0), k);
      CompleteAll(m, usd, k, longest);
    } else {
      RepeatMore(longest, b);
      assert run[1..] == Repeat(Begin(longest, m.month), k - b - 1) + Repeat(Complete(0), k);
      BeginThenComplete(Step(m, usd, Begin(longest, m.month)), usd, k, longest);
    }
  }

  /** `n` characters used one at a time. */
  function OneByOne(n: nat, month: int): seq<Event> {
    if n == 0 then [] else [Begin(1, month), Complete(0)] + OneByOne(n - 1, month)
  }

  lemma {:induction false} TwoStepsThen(m: Meter, usd: real, e1: Event, e2: Event, rest: seq<Event>,
                                        k: nat, longest: nat)
    requires e1.Begin? && e1.length <= longest && !e2.Begin? && |Step(m, usd, e1).inFlight| <= k
    requires Enabled(Step(m, usd, e1), e2) && |Step(Step(m, usd, e1), usd, e2).inFlight| <= k
    requires IsRun(Step(Step(m, usd, e1), usd, e2), usd, rest, k, longest)
    ensures IsRun(m, usd, [e1, e2] + rest, k, longest)
    ensures After(m, usd, [e1, e2] + rest, k, longest) ==
            After(Step(Step(m, usd, e1), usd, e2), usd, rest, k, longest)
  {
    var run := [e1, e2] + rest;
    assert run[1..] == [e2] + rest && ([e2] + rest)[1..] == rest;
  }

  lemma {:induction false} OneByOneThen(m: Meter, usd: real, n: nat, rest: seq<Event>, k: nat, longest: nat)
    requires usd > 0.0 && m.used + n <= CharBudget(usd) && m.inFlight == [] && k >= 1 && longest >= 1
    requires IsRun(m.(used := m.used + n), usd, rest, k, longest)
    ensures IsRun(m, usd, OneByOne(n, m.month) + rest, k, longest)
    ensures After(m, usd, OneByOne(n, m.month) + rest, k, longest) ==
            After(m.(used := m.used + n), usd, rest, k, longest)
    decreases n
  {
    if n == 0 {
      assert OneByOne(n, m.month) + rest == rest;
    } else {
      var next := m.(used := m.used + 1);
      var e := Begin(1, m.month);
      OneByOneThen(next, usd, n - 1, rest, k, longest);
      assert Remove([1], 0) == [];
      assert Step(Step(m, usd, e), usd, Complete(0)) == next;
      TwoStepsThen(m, usd, e, Complete(0), OneByOne(n - 1, m.month) + rest, k, longest);
      Associative([e, Complete(0)], OneByOne(n - 1, m.month), rest);
    }
  }

  /** One failed call, then all but one character of the budget, then `k` calls at once. */
  function Burst(budget: nat, month: int, k: nat, longest: nat): seq<Event>
    requires budget >= 1
  {
    [Begin(1, month), Abandon(0)]
    + (OneByOne(budget - 1, month) + (Repeat(Begin(longest, month), k) + Repeat(Complete(0), k)))
  }

  /** The bound is reached from a new provider, for every budget and every `k` and `longest`: with
      one character left, `k` concurrent requests all pass the check. */
  lemma {:induction false} OvershootIsReached(usd: real, k: nat, longest: nat, month: int)
    requires usd > 0.0 && CharBudget(usd) >= 1 && k >= 1 && longest >= 1
    ensures var run := Burst(CharBudget(usd), month, k, longest);
      && IsRun(Meter(0, 0, []), usd, run, k, longest)
      && After(Meter(0, 0, []), usd, run, k, longest).used == CharBudget(usd) - 1 + k * longest
  {
    var start, budget := Meter(0, month, []), CharBudget(usd);
    var burst := Repeat(Begin(longest, month), k) + Repeat(Complete(0), k);
    BeginThenComplete(start.(used := budget - 1), usd, k, longest);
    OneByOneThen(start, usd, budget - 1, burst, k, longest);
    assert Remove([1], 0) == [];
    assert Step(Step(Meter(0, 0, []), usd, Begin(1, month)), usd, Abandon(0)) == start;
    TwoStepsThen(Meter(0, 0, []), usd, Begin(1, month), Abandon(0), OneByOne(budget - 1, month) + burst, k, longest);
  }
}
