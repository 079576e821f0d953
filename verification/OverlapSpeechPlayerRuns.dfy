/** How a play ends, and when it keeps a single timer. */
module PlayerRunProofs {
  import opened Common
  import opened PlayerSteps
  import opened PlayerProofs

  ghost predicate NoPlay(run: seq<Timed>) {
    forall k :: 0 <= k < |run| ==> !run[k].event.DoPlay?
  }

  lemma {:induction false} RunAppend(p: Player, a: seq<Timed>, b: seq<Timed>)
    requires IsRun(p, a) && IsRun(After(p, a), b)
    ensures IsRun(p, a + b) && After(p, a + b) == After(After(p, a), b)
    decreases |a|
  {
    if a == [] {
      assert a + b == b;
    } else {
      assert (a + b)[1..] == a[1..] + b;
      RunAppend(Step(p, a[0].event, a[0].now), a[1..], b);
    }
  }

  lemma {:induction false} RunOfOne(p: Player, e: Event, now: int)
    requires Enabled(p, e, now)
    ensures IsRun(p, [At(e, now)]) && After(p, [At(e, now)]) == Step(p, e, now)
  {
    assert [At(e, now)][1..] == [];
  }

  // ---- every play ends ----

  /** The lines still to be announced, the current one included. */
  function Rank(p: Player): nat {
    if p.playing then Max(1, |p.lines|) - p.index else 0
  }

  /** An event that leaves the current line: its timer, its early end, a skip, a stop. */
  predicate MovesOn(p: Player, e: Event, now: int)
    requires Enabled(p, e, now)
  {
    p.playing &&
    match e
    case TimerFires(i) => p.timers[i].armed == p.generation
    case ClipEnds(slot) => EndsLine(Quiet(p, slot), slot)
    case _ => true
  }

  ghost function Moves(p: Player, run: seq<Timed>): nat
    requires IsRun(p, run)
    decreases |run|
  {
    if run == [] then 0
    else Moves(Step(p, run[0].event, run[0].now), run[1..])
         + if MovesOn(p, run[0].event, run[0].now) then 1 else 0
  }

  lemma SkipMovesOn(p: Player, now: int)
    requires p.playing && InOrder(p) && NoneFromTheFuture(p)
    ensures Skip(p, now).playing ==> Skip(p, now).index > p.index
  {
    var q := p.(generation := p.generation + 1, slots := Silent(p.slots));
    if p.index + 1 < |p.lines| {
      NoneLive(q.timers, q.generation);
      StartLineIsSound(q, p.index + 1, now, 0);
    }
  }

  lemma StepRanks(p: Player, early: nat, e: Event, now: int)
    requires Sound(p, early) && Enabled(p, e, now) && !e.DoPlay?
    ensures Step(p, e, now).lines == p.lines && Step(p, e, now).audio == p.audio
    ensures Rank(Step(p, e, now)) + (if MovesOn(p, e, now) then 1 else 0) <= Rank(p)
  {
    StepKeepsAudio(p, e, now);
    match e
    case DoSkip => if p.playing { SkipMovesOn(p, now); }
    case DoStop =>
    case TimerFires(i) =>
      if MovesOn(p, e, now) {
        LiveRemove(p.timers, i, p.generation);
        NextLineIsSound(p.(timers := Remove(p.timers, i)), now, early);
      }
    case ClipEnds(slot) =>
      if MovesOn(p, e, now) {
        NextLineIsSound(Quiet(p, slot), now, 1 + early);
      }
  }

  /** Until the next play, at most as many events act as there are lines: live timers, early clip
      ends, skips and stops together. Every other timer or clip end changes no line. */
  lemma {:induction false} MovesAreBounded(p: Player, early: nat, run: seq<Timed>)
    requires Sound(p, early) && IsRun(p, run) && NoPlay(run)
    ensures Moves(p, run) + Rank(After(p, run)) <= Rank(p) <= Max(1, |p.lines|)
    decreases |run|
  {
    if run != [] {
      var e, now := run[0].event, run[0].now;
      StepRanks(p, early, e, now);
      StepIsSound(p, early, e, now);
      MovesAreBounded(Step(p, e, now), EarlyAfter(p, early, e, now), run[1..]);
    }
  }

  ghost predicate OnlyTimers(run: seq<Timed>, from: int) {
    && (forall k :: 0 <= k < |run| ==> run[k].event.TimerFires? && run[k].now >= from)
    && (forall k :: 1 <= k < |run| ==> run[k - 1].now <= run[k].now)
  }

  /** The timers alone bring a playing player to its end: whenever it is left to itself, timers going
      off in time order announce the end after at most one firing for each line left. */
  lemma {:induction false} TimersFinishThePlay(p: Player, early: nat, from: int) returns (run: seq<Timed>)
    requires Sound(p, early) && p.playing
    ensures IsRun(p, run) && OnlyTimers(run, from) && |run| <= Rank(p)
    ensures var q := After(p, run);
      !q.playing && p.signals < q.signals && q.signals[|q.signals| - 1].SequenceFinished?
    decreases Rank(p)
  {
    var i :| 0 <= i < |p.timers| && p.timers[i].armed == p.generation && p.timers[i].line == p.index;
    var now := Max(from, p.timers[i].due);
    var q := Fire(p, i, now);
    RunOfOne(p, TimerFires(i), now);
    StepIsSound(p, early, TimerFires(i), now);
    StepRanks(p, early, TimerFires(i), now);
    LiveTimerAdvances(p, early, i, now);
    NextLineAnnounces(p.(timers := Remove(p.timers, i)), now);
    if q.playing {
      var rest := TimersFinishThePlay(q, EarlyAfter(p, early, TimerFires(i), now), now);
      run := [At(TimerFires(i), now)] + rest;
      RunAppend(p, [At(TimerFires(i), now)], rest);
    } else {
      run := [At(TimerFires(i), now)];
    }
  }

  // ---- one timer ----

  /** A clip short enough to end its line is followed by another line with a clip. */
  ghost predicate ShortClipIsFollowed(lines: seq<bool>, audio: map<int, int>) {
    exists i, j :: 0 <= i < j < |lines| && i in audio && j in audio && audio[i] < 200
  }

  /** The same, when no timer may fire late: a line that overlaps the short clip's line cuts in before
      that clip has been heard. */
  ghost predicate TwoTimersArise(lines: seq<bool>, audio: map<int, int>, late: bool) {
    exists i, j :: 0 <= i < j < |lines| && i in audio && j in audio && audio[i] < 200
                   && (late || !lines[i + 1] || audio[i] <= 0)
  }

  // ---- real time ----

  /** A clip that ends has been heard in full. */
  ghost predicate HeardInFull(p: Player, slot: int, now: int)
    requires 0 <= slot < 2
  {
    forall k :: 0 <= k < |p.signals| && p.signals[k].Started? && p.signals[k].line in p.audio
                && p.slots[slot].clip == Some(p.signals[k].line) ==>
      p.signals[k].at + p.audio[p.signals[k].line] <= now
  }

  ghost predicate NothingOverdue(p: Player, now: int) {
    forall k :: 0 <= k < |p.timers| && p.timers[k].armed == p.generation ==> now <= p.timers[k].due
  }

  /** Time does not run back, clips end when heard in full, and timers are on time unless `late`. */
  ghost predicate InTime(p: Player, run: seq<Timed>, from: int, late: bool)
    requires IsRun(p, run)
    decreases |run|
  {
    run == [] || (
      && from <= run[0].now
      && (run[0].event.ClipEnds? ==> HeardInFull(p, run[0].event.slot, run[0].now))
      && (late || NothingOverdue(p, run[0].now))
      && InTime(Step(p, run[0].event, run[0].now), run[1..], run[0].now, late))
  }

  lemma {:induction false} InTimeAppend(p: Player, a: seq<Timed>, b: seq<Timed>, from: int, to: int, late: bool)
    requires IsRun(p, a) && InTime(p, a, from, late) && IsRun(After(p, a), b) && InTime(After(p, a), b, to, late)
    requires from <= to && forall k :: 0 <= k < |a| ==> a[k].now <= to
    ensures IsRun(p, a + b) && InTime(p, a + b, from, late)
    decreases |a|
  {
    RunAppend(p, a, b);
    if a == [] {
      assert a + b == b;
    } else {
      assert (a + b)[1..] == a[1..] + b;
      InTimeAppend(Step(p, a[0].event, a[0].now), a[1..], b, a[0].now, to, late);
    }
  }

  /** Whatever happens in time before the next play, the player has one live timer while it plays. */
  ghost predicate AlwaysOneTimer(p: Player, from: int, late: bool) {
    forall run :: IsRun(p, run) && NoPlay(run) && InTime(p, run, from, late) && After(p, run).playing ==>
      Live(After(p, run).timers, After(p, run).generation) == 1
  }

  /** The same over every run at all, in time or not. */
  ghost predicate OneTimerAnyhow(p: Player) {
    forall run :: IsRun(p, run) && NoPlay(run) && After(p, run).playing ==>
      Live(After(p, run).timers, After(p, run).generation) == 1
  }

  /** The current line's timer is due when its clip, less the lead, is over. */
  ghost predicate PromptlyTimed(p: Player) {
    p.playing ==>
      && p.index in p.audio && p.signals != [] && p.signals[|p.signals| - 1].Started?
      && exists k :: 0 <= k < |p.timers| && p.timers[k] == OwnTimer(p)
  }

  function OwnTimer(p: Player): Timer
    requires p.index in p.audio && p.signals != []
  {
    Timer(p.generation, p.index, p.signals[|p.signals| - 1].at + Delay(p.lines, p.audio[p.index], p.index))
  }

  lemma {:induction false} StartLineIsPrompt(p: Player, i: int, now: int)
    requires p.playing && (i == 0 || 0 <= i < |p.lines|)
    ensures PromptlyTimed(StartLine(p, i, now))
    decreases |p.lines| - i
  {
    var q: Player := p.(index := i, signals := p.signals + [Started(i, now)]);
    var r := StartLine(p, i, now);
    if i in p.audio {
      assert r.timers == p.timers + [OwnTimer(q)];
      assert r.timers[|p.timers|] == OwnTimer(r);
    } else if i + 1 < |p.lines| {
      StartLineIsPrompt(q, i + 1, now);
    }
  }

  lemma StaleLeavesPrompt(p: Player, i: nat)
    requires PromptlyTimed(p) && i < |p.timers| && (p.playing ==> p.timers[i].armed != p.generation)
    ensures PromptlyTimed(p.(timers := Remove(p.timers, i)))
  {
    if p.playing {
      var k :| 0 <= k < |p.timers| && p.timers[k] == OwnTimer(p);
      var rest := Remove(p.timers, i);
      assert rest[if k < i then k else k - 1] == p.timers[k];
    }
  }

  lemma NextLineIsPrompt(p: Player, now: int)
    requires p.playing
    ensures PromptlyTimed(NextLine(p, now))
  {
    if p.index + 1 < |p.lines| { StartLineIsPrompt(p, p.index + 1, now); }
  }

  lemma StepStaysPrompt(p: Player, e: Event, now: int)
    requires PromptlyTimed(p) && Enabled(p, e, now) && !e.DoPlay?
    ensures PromptlyTimed(Step(p, e, now))
  {
    match e
    case DoSkip =>
      if p.playing && p.index + 1 < |p.lines| {
        StartLineIsPrompt(p.(generation := p.generation + 1, slots := Silent(p.slots)), p.index + 1, now);
      }
    case DoStop =>
    case TimerFires(i) =>
      if p.playing && p.timers[i].armed == p.generation {
        NextLineIsPrompt(p.(timers := Remove(p.timers, i)), now);
      } else {
        StaleLeavesPrompt(p, i);
      }
    case ClipEnds(slot) =>
      if EndsLine(Quiet(p, slot), slot) { NextLineIsPrompt(Quiet(p, slot), now); } else { SameTimers(p, slot); }
  }

  lemma SameTimers(p: Player, slot: int)
    requires PromptlyTimed(p) && 0 <= slot < 2
    ensures PromptlyTimed(Quiet(p, slot))
  {
    if p.playing {
      var k :| 0 <= k < |p.timers| && p.timers[k] == OwnTimer(p);
      assert Quiet(p, slot).timers[k] == OwnTimer(Quiet(p, slot));
    }
  }

  lemma {:induction false} NothingLeftToVoice(p: Player, i: int, now: int)
    requires p.playing && (i == 0 || 0 <= i < |p.lines|)
    requires forall j :: i <= j < |p.lines| || j == i ==> j !in p.audio
    ensures !StartLine(p, i, now).playing && StartLine(p, i, now).generation == p.generation + 1
    decreases |p.lines| - i
  {
    if i + 1 < |p.lines| {
      NothingLeftToVoice(p.(index := i, signals := p.signals + [Started(i, now)]), i + 1, now);
    }
  }

  /** A clip heard in full, with no timer late, ended before its own timer only if nothing overlaps it. */
  lemma EndsOnTime(p: Player, slot: int, now: int)
    requires Sound(p, 0) && PromptlyTimed(p) && Enabled(p, ClipEnds(slot), now) && EndsLine(Quiet(p, slot), slot)
    requires HeardInFull(p, slot, now) && NothingOverdue(p, now)
    ensures !Overlaps(p.lines, p.index + 1) || p.audio[p.index] <= 0
  {
    var last := |p.signals| - 1;
    var k :| 0 <= k < |p.timers| && p.timers[k] == OwnTimer(p);
    assert p.signals[last].line == p.index && p.slots[slot].clip == Some(p.signals[last].line);
    assert p.signals[last].at + p.audio[p.index] <= now <= p.timers[k].due;
  }

  lemma StepKeepsOneTimer(p: Player, e: Event, now: int, late: bool)
    requires Sound(p, 0) && PromptlyTimed(p) && Enabled(p, e, now) && !e.DoPlay?
    requires late || (NothingOverdue(p, now) && (e.ClipEnds? ==> HeardInFull(p, e.slot, now)))
    requires !TwoTimersArise(p.lines, p.audio, late)
    ensures EarlyAfter(p, 0, e, now) == 0
  {
    if e.ClipEnds? && EndsLine(Quiet(p, e.slot), e.slot) && p.index + 1 < |p.lines| {
      if !late { EndsOnTime(p, e.slot, now); }
      assert forall j :: p.index + 1 <= j < |p.lines| ==> j !in p.audio;
      NothingLeftToVoice(Quiet(p, e.slot), p.index + 1, now);
    }
  }

  lemma {:induction false} RunKeepsOneTimer(p: Player, run: seq<Timed>, from: int, late: bool)
    requires Sound(p, 0) && PromptlyTimed(p) && !TwoTimersArise(p.lines, p.audio, late)
    requires IsRun(p, run) && NoPlay(run) && (late || InTime(p, run, from, late))
    ensures Sound(After(p, run), 0)
    decreases |run|
  {
    if run != [] {
      var e, now := run[0].event, run[0].now;
      StepKeepsOneTimer(p, e, now, late);
      StepIsSound(p, 0, e, now);
      StepKeepsAudio(p, e, now);
      StepStaysPrompt(p, e, now);
      RunKeepsOneTimer(Step(p, e, now), run[1..], now, late);
    }
  }

  /** Only the active player is heard. */
  ghost predicate Alone(p: Player) {
    p.slots[p.active].sounding && !p.slots[(p.active + 1) % 2].sounding
  }

  /** Starting a line with nothing sounding lands on the first line with a clip. */
  lemma {:induction false} LandsBy(p: Player, i: int, goal: int, now: int)
    requires p.playing && 0 <= i <= goal < |p.lines| && goal in p.audio
    ensures var r := StartLine(p, i, now);
      && r.playing && i <= r.index <= goal && r.generation == p.generation
      && (p.slots == Silent(p.slots) ==> Alone(r))
    decreases goal - i
  {
    var q: Player := p.(index := i, signals := p.signals + [Started(i, now)]);
    if i !in p.audio {
      assert NextLine(q, now) == StartLine(q, i + 1, now);
      LandsBy(q, i + 1, goal, now);
    }
  }

  /** The current line has just started, alone, and its timer is the only live one. */
  ghost predicate JustStarted(p: Player, now: int) {
    && Sound(p, 0) && p.playing && Alone(p)
    && p.signals[|p.signals| - 1].at == now
    && forall k :: 0 <= k < |p.timers| && p.timers[k].armed == p.generation ==> p.timers[k] == OwnTimer(p)
  }

  lemma {:induction false} LandsNow(p: Player, i: int, goal: int, now: int)
    requires p.playing && 0 <= i <= goal < |p.lines| && goal in p.audio
    requires forall k :: 0 <= k < |p.timers| ==> p.timers[k].armed < p.generation
    ensures var r := StartLine(p, i, now);
      && r.index in r.audio && r.signals != [] && r.signals[|r.signals| - 1].at == now
      && forall k :: 0 <= k < |r.timers| && r.timers[k].armed == r.generation ==> r.timers[k] == OwnTimer(r)
    decreases goal - i
  {
    var q: Player := p.(index := i, signals := p.signals + [Started(i, now)]);
    if i !in p.audio {
      assert NextLine(q, now) == StartLine(q, i + 1, now);
      LandsNow(q, i + 1, goal, now);
    } else {
      assert StartLine(p, i, now).timers == p.timers + [OwnTimer(q)];
    }
  }

  lemma SkipNearer(p: Player, goal: int, now: int)
    requires Sound(p, 0) && p.playing && p.index < goal < |p.lines| && goal in p.audio
    ensures var q := Skip(p, now);
      JustStarted(q, now) && p.index < q.index <= goal && q.lines == p.lines && q.audio == p.audio
  {
    SkipIsSound(p, 0, now);
    StepKeepsAudio(p, DoSkip, now);
    var q: Player := p.(generation := p.generation + 1, slots := Silent(p.slots));
    assert Skip(p, now) == StartLine(q, p.index + 1, now);
    LandsBy(q, p.index + 1, goal, now);
    LandsNow(q, p.index + 1, goal, now);
  }

  /** Skipping reaches any line with a clip that lies ahead, at once and heard alone. */
  lemma {:induction false} SkipsReach(p: Player, goal: int, now: int, late: bool) returns (run: seq<Timed>)
    requires JustStarted(p, now) && p.index <= goal < |p.lines| && goal in p.audio
    ensures IsRun(p, run) && NoPlay(run) && InTime(p, run, now, late)
    ensures forall k :: 0 <= k < |run| ==> run[k].now == now
    ensures var q := After(p, run);
      JustStarted(q, now) && q.index == goal && q.lines == p.lines && q.audio == p.audio
    decreases goal - p.index
  {
    if p.index == goal {
      run := [];
    } else {
      var q, skip := Skip(p, now), [At(DoSkip, now)];
      RunOfOne(p, DoSkip, now);
      assert skip[1..] == [] && NothingOverdue(p, now);
      assert InTime(p, skip, now, late);
      SkipNearer(p, goal, now);
      var rest := SkipsReach(q, goal, now, late);
      run := skip + rest;
      RunAppend(p, skip, rest);
      InTimeAppend(p, skip, rest, now, now, late);
    }
  }

  /** Where a short clip is followed by a voiced line, its end leaves two timers live. */
  lemma ShortClipLeavesTwoTimers(p: Player, next: int, now: int)
    requires Sound(p, 0) && p.playing && Alone(p) && p.audio[p.index] < SHORT_CLIP
    requires p.index < next < |p.lines| && next in p.audio
    ensures Enabled(p, ClipEnds(p.active), now)
    ensures var r := Ended(p, p.active, now); r.playing && Live(r.timers, r.generation) == 2
  {
    LandsBy(Quiet(p, p.active), p.index + 1, next, now);
    ClipEndIsSound(p, 0, p.active, now);
  }

  /** The short clip may end as soon as it has been heard in full. */
  lemma {:induction false} ClipEndIsInTime(p: Player, start: int, late: bool)
    requires JustStarted(p, start)
    requires late || !Overlaps(p.lines, p.index + 1) || p.audio[p.index] <= 0
    ensures var now := start + Max(0, p.audio[p.index]); var end := [At(ClipEnds(p.active), now)];
      IsRun(p, end) && InTime(p, end, start, late) && After(p, end) == Ended(p, p.active, now)
  {
    var now := start + Max(0, p.audio[p.index]);
    RunOfOne(p, ClipEnds(p.active), now);
    assert [At(ClipEnds(p.active), now)][1..] == [];
    assert HeardInFull(p, p.active, now);
    assert late || NothingOverdue(p, now);
  }

  lemma PlayStartsBy(p: Player, early: nat, lines: seq<bool>, audio: map<int, int>, goal: int, now: int)
    requires Sound(p, early) && 0 <= goal < |lines| && goal in audio
    ensures var q := Play(p, lines, audio, now);
      JustStarted(q, now) && q.index <= goal && q.lines == lines && q.audio == audio
  {
    PlayIsSound(p, early, lines, audio, now);
    StepKeepsAudio(p, DoPlay(lines, audio), now);
    var begun := Begun(p, lines, audio);
    LandsBy(begun, 0, goal, now);
    LandsNow(begun, 0, goal, now);
  }

  lemma {:induction false} SomeRunHasTwoTimers(p: Player, early: nat, lines: seq<bool>, audio: map<int, int>,
                                               now: int, late: bool)
    requires Sound(p, early) && TwoTimersArise(lines, audio, late)
    ensures !AlwaysOneTimer(Play(p, lines, audio, now), now, late)
  {
    var q := Play(p, lines, audio, now);
    var i, j :| 0 <= i < j < |lines| && i in audio && j in audio && audio[i] < 200
                && (late || !lines[i + 1] || audio[i] <= 0);
    PlayStartsBy(p, early, lines, audio, i, now);
    var run := SkipsReach(q, i, now, late);
    TwoTimersAfter(q, run, j, now, late);
  }

  lemma {:induction false} TwoTimersAfter(q: Player, run: seq<Timed>, next: int, now: int, late: bool)
    requires IsRun(q, run) && NoPlay(run) && InTime(q, run, now, late)
    requires forall k :: 0 <= k < |run| ==> run[k].now == now
    requires var r := After(q, run);
      && JustStarted(r, now) && r.audio[r.index] < SHORT_CLIP
      && (late || !Overlaps(r.lines, r.index + 1) || r.audio[r.index] <= 0)
      && r.index < next < |r.lines| && next in r.audio
    ensures !AlwaysOneTimer(q, now, late)
  {
    var r := After(q, run);
    var end := [At(ClipEnds(r.active), now + Max(0, r.audio[r.index]))];
    ClipEndIsInTime(r, now, late);
    ShortClipLeavesTwoTimers(r, next, now + Max(0, r.audio[r.index]));
    RunAppend(q, run, end);
    InTimeAppend(q, run, end, now, now, late);
    assert NoPlay(run + end);
  }

  lemma PlayIsPrompt(p: Player, lines: seq<bool>, audio: map<int, int>, now: int)
    ensures PromptlyTimed(Play(p, lines, audio, now))
  {
    StartLineIsPrompt(Begun(p, lines, audio), 0, now);
  }

  /** After any history, the sequence just begun keeps exactly one live timer, whatever happens in time
      until the next play, if and only if none of its short clips is followed by a line with a clip.
      (A short clip on the last such line ends the sequence instead.) If timers are never late, a short
      clip is harmless too when the line after it overlaps it. */
  lemma {:induction false} OneTimerIffNoShortClipIsFollowed(past: seq<Timed>, lines: seq<bool>,
                                                            audio: map<int, int>, now: int, late: bool)
    requires IsRun(FRESH, past)
    ensures AlwaysOneTimer(Play(After(FRESH, past), lines, audio, now), now, late)
            <==> !TwoTimersArise(lines, audio, late)
    ensures TwoTimersArise(lines, audio, true) <==> ShortClipIsFollowed(lines, audio)
    ensures OneTimerAnyhow(Play(After(FRESH, past), lines, audio, now)) <==> !ShortClipIsFollowed(lines, audio)
  {
    var p := After(FRESH, past);
    var early := EarlyInRun(FRESH, 0, past);
    RunsAreSound(FRESH, 0, past);
    if TwoTimersArise(lines, audio, late) {
      SomeRunHasTwoTimers(p, early, lines, audio, now, late);
    } else {
      OneTimerAlways(p, early, lines, audio, now, late);
    }
    if TwoTimersArise(lines, audio, true) {
      SomeRunHasTwoTimers(p, early, lines, audio, now, true);
    } else {
      OneTimerAlways(p, early, lines, audio, now, true);
    }
  }

  lemma {:induction false} OneTimerAlways(p: Player, early: nat, lines: seq<bool>, audio: map<int, int>,
                                          now: int, late: bool)
    requires Sound(p, early) && !TwoTimersArise(lines, audio, late)
    ensures AlwaysOneTimer(Play(p, lines, audio, now), now, late)
    ensures late ==> OneTimerAnyhow(Play(p, lines, audio, now))
  {
    var q := Play(p, lines, audio, now);
    PlayIsSound(p, early, lines, audio, now);
    PlayIsPrompt(p, lines, audio, now);
    StepKeepsAudio(p, DoPlay(lines, audio), now);
    forall run | IsRun(q, run) && NoPlay(run) && (late || InTime(q, run, now, late)) && After(q, run).playing
      ensures Live(After(q, run).timers, After(q, run).generation) == 1
    {
      RunKeepsOneTimer(q, run, now, late);
    }
  }

  // ---- the timeline with harmless short clips ----

  /** Every line with a clip started at its place in the timeline. */
  ghost predicate ClipsOnTime(p: Player, start: int) {
    forall k :: 0 <= k < |p.signals| && p.signals[k].Started? && k in p.audio ==>
      p.signals[k].at == start + Offset(p.lines, p.audio, k)
  }

  ghost predicate OnTrack(p: Player, start: int) {
    && Sound(p, 0) && !ShortClipIsFollowed(p.lines, p.audio)
    && ClipsOnTime(p, start)
    && (p.playing ==> OnTime(p, start))
  }

  /** A short clip that ends the sequence early is followed by silent lines only. */
  lemma EarlyEndStaysOnTrack(p: Player, slot: int, now: int, start: int)
    requires OnTrack(p, start) && Enabled(p, ClipEnds(slot), now) && EndsLine(Quiet(p, slot), slot)
    ensures OnTrack(Ended(p, slot, now), start)
  {
    var q, r := Quiet(p, slot), Ended(p, slot, now);
    ClipEndIsSound(p, 0, slot, now);
    StepKeepsAudio(p, ClipEnds(slot), now);
    NextLineAnnounces(q, now);
    assert forall j :: p.index + 1 <= j < |p.lines| ==> j !in p.audio;
    if p.index + 1 < |p.lines| { NothingLeftToVoice(q, p.index + 1, now); }
    forall k | 0 <= k < |r.signals| && r.signals[k].Started? && k in r.audio
      ensures r.signals[k].at == start + Offset(r.lines, r.audio, k)
    {
      assert k < |p.signals| && r.signals[k] == p.signals[k];
    }
  }

  lemma ClipEndStaysOnTrack(p: Player, slot: int, now: int, start: int)
    requires OnTrack(p, start) && Enabled(p, ClipEnds(slot), now)
    ensures var r := Ended(p, slot, now); OnTrack(r, start) && r.lines == p.lines && r.audio == p.audio
  {
    StepKeepsAudio(p, ClipEnds(slot), now);
    if EndsLine(Quiet(p, slot), slot) {
      EarlyEndStaysOnTrack(p, slot, now, start);
    } else {
      LateEndStaysOnTrack(p, slot, now, start);
    }
  }

  lemma LateEndStaysOnTrack(p: Player, slot: int, now: int, start: int)
    requires OnTrack(p, start) && Enabled(p, ClipEnds(slot), now) && !EndsLine(Quiet(p, slot), slot)
    ensures OnTrack(Ended(p, slot, now), start)
  {
    ClipEndIsSound(p, 0, slot, now);
    assert Ended(p, slot, now) == Quiet(p, slot);
    SilenceKeepsTime(p, slot, start);
  }

  lemma SilenceKeepsTime(p: Player, slot: int, start: int)
    requires 0 <= slot < 2
    ensures OnTime(p, start) ==> OnTime(Quiet(p, slot), start)
    ensures ClipsOnTime(p, start) ==> ClipsOnTime(Quiet(p, slot), start)
    ensures Quiet(p, slot).lines == p.lines && Quiet(p, slot).audio == p.audio && Quiet(p, slot).playing == p.playing
  {
  }

  lemma TimerStaysOnTrack(p: Player, i: nat, now: int, start: int)
    requires OnTrack(p, start) && i < |p.timers| && now == p.timers[i].due
    ensures var r := Fire(p, i, now); OnTrack(r, start) && r.lines == p.lines && r.audio == p.audio
  {
    StepKeepsAudio(p, TimerFires(i), now);
    FireIsSound(p, 0, i, now);
    if p.playing {
      FiringOnTime(p, i, now, start);
      OnTimeClips(Fire(p, i, now), start);
    }
  }

  lemma OnTimeClips(p: Player, start: int)
    requires OnTime(p, start)
    ensures ClipsOnTime(p, start)
  {
  }

  lemma {:induction false} RunStaysOnTrack(p: Player, run: seq<Timed>, start: int)
    requires OnTrack(p, start) && Punctual(p, run)
    ensures IsRun(p, run) && OnTrack(After(p, run), start)
    ensures After(p, run).lines == p.lines && After(p, run).audio == p.audio
    decreases |run|
  {
    if run != [] {
      var e, now := run[0].event, run[0].now;
      if e.ClipEnds? { ClipEndStaysOnTrack(p, e.slot, now, start); } else { TimerStaysOnTrack(p, e.timer, now, start); }
      RunStaysOnTrack(Step(p, e, now), run[1..], start);
    }
  }

  lemma PlayIsOnTrack(p: Player, early: nat, lines: seq<bool>, audio: map<int, int>, start: int)
    requires Sound(p, early) && !ShortClipIsFollowed(lines, audio)
    ensures var q := Play(p, lines, audio, start); OnTrack(q, start) && q.lines == lines && q.audio == audio
  {
    PlayIsSound(p, early, lines, audio, start);
    PlayIsOnTime(p, early, lines, audio, start);
    OnTimeClips(Play(p, lines, audio, start), start);
    StepKeepsAudio(p, DoPlay(lines, audio), start);
  }

  lemma ClipsStart(p: Player, start: int)
    requires OnTrack(p, start)
    ensures forall k :: 0 <= k < |p.signals| && p.signals[k].Started? && k in p.audio ==>
      p.signals[k] == Started(k, start + Offset(p.lines, p.audio, k))
  {
  }

  /** The timeline needs no more than that: unless a short clip is followed by another clip, each line
      with a clip starts at the sum of the earlier lines' clip lengths less their leads. */
  lemma {:induction false} ClipsStartOnTime(p: Player, early: nat, lines: seq<bool>, audio: map<int, int>,
                                            start: int, run: seq<Timed>)
    requires Sound(p, early) && !ShortClipIsFollowed(lines, audio)
    requires Punctual(Play(p, lines, audio, start), run)
    ensures IsRun(Play(p, lines, audio, start), run)
    ensures var q := After(Play(p, lines, audio, start), run);
      forall k :: 0 <= k < |q.signals| && q.signals[k].Started? && k in audio ==>
        q.signals[k] == Started(k, start + Offset(lines, audio, k))
  {
    var begun := Play(p, lines, audio, start);
    PlayIsOnTrack(p, early, lines, audio, start);
    RunStaysOnTrack(begun, run, start);
    ClipsStart(After(begun, run), start);
  }
}
