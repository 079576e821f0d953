/** What every run of the talk-over player keeps. */
module PlayerProofs {
  import opened Common
  import opened PlayerSteps

  // ---- the order of signals ----

  /** Lines start 0, 1, 2, ... without gap or repeat; the sequence finishes at most once, and only
      after the last line (an empty script still announces line 0). */
  ghost predicate InOrder(p: Player) {
    var n := if p.signals != [] && p.signals[|p.signals| - 1].SequenceFinished? then |p.signals| - 1 else |p.signals|;
    && (forall i :: 0 <= i < n ==> p.signals[i].Started? && p.signals[i].line == i)
    && n <= Max(1, |p.lines|)
    && (p.playing ==> n == |p.signals| == p.index + 1)
    && (n < |p.signals| ==> !p.playing && n == Max(1, |p.lines|))
  }

  // ---- timers ----

  ghost function Live(timers: seq<Timer>, generation: int): nat {
    if timers == [] then 0
    else Live(timers[1..], generation) + if timers[0].armed == generation then 1 else 0
  }

  lemma {:induction false} LiveAppend(a: seq<Timer>, b: seq<Timer>, generation: int)
    ensures Live(a + b, generation) == Live(a, generation) + Live(b, generation)
  {
    if a == [] {
      assert a + b == b;
    } else {
      assert (a + b)[1..] == a[1..] + b;
      LiveAppend(a[1..], b, generation);
    }
  }

  lemma LiveRemove(timers: seq<Timer>, i: nat, generation: int)
    requires i < |timers|
    ensures Live(timers, generation) ==
            Live(Remove(timers, i), generation) + if timers[i].armed == generation then 1 else 0
  {
    assert timers == timers[..i] + ([timers[i]] + timers[i + 1..]);
    LiveAppend(timers[..i], [timers[i]] + timers[i + 1..], generation);
    LiveAppend([timers[i]], timers[i + 1..], generation);
    LiveAppend(timers[..i], timers[i + 1..], generation);
  }

  lemma {:induction false} NoneLive(timers: seq<Timer>, generation: int)
    requires forall i :: 0 <= i < |timers| ==> timers[i].armed < generation
    ensures Live(timers, generation) == 0
  {
    if timers != [] {
      NoneLive(timers[1..], generation);
    }
  }

  ghost predicate NoneFromTheFuture(p: Player) {
    forall i :: 0 <= i < |p.timers| ==> p.timers[i].armed <= p.generation
  }

  ghost predicate CurrentLineIsTimed(p: Player) {
    exists i :: 0 <= i < |p.timers| && p.timers[i].armed == p.generation && p.timers[i].line == p.index
  }

  /** The active player carries the current line's clip. */
  ghost predicate Voiced(p: Player) {
    p.index in p.audio && p.slots[p.active].clip == Some(p.index)
  }

  /** `early` counts the lines advanced by a short clip's end since the generation last changed. */
  ghost predicate Sound(p: Player, early: nat) {
    && InOrder(p)
    && NoneFromTheFuture(p)
    && (p.playing ==> Live(p.timers, p.generation) == 1 + early && CurrentLineIsTimed(p) && Voiced(p))
    && (!p.playing ==> !p.slots[0].sounding && !p.slots[1].sounding)
  }

  /** Starting line `i` from a state whose earlier lines were started in order. */
  ghost predicate ReadyFor(p: Player, i: int, live: nat) {
    && p.playing && (i == 0 || 0 <= i < |p.lines|)
    && |p.signals| == i
    && (forall k :: 0 <= k < i ==> p.signals[k].Started? && p.signals[k].line == k)
    && NoneFromTheFuture(p)
    && Live(p.timers, p.generation) == live
  }

  lemma {:induction false} StartLineIsSound(p: Player, i: int, now: int, live: nat)
    requires ReadyFor(p, i, live)
    ensures Sound(StartLine(p, i, now), live)
    ensures StartLine(p, i, now).lines == p.lines && StartLine(p, i, now).audio == p.audio
    ensures if StartLine(p, i, now).playing
            then StartLine(p, i, now).generation == p.generation && StartLine(p, i, now).index >= i
            else StartLine(p, i, now).generation == p.generation + 1
    decreases |p.lines| - i
  {
    var q: Player := p.(index := i, signals := p.signals + [Started(i, now)]);
    if i !in p.audio {
      if i + 1 >= |p.lines| {
        assert NextLine(q, now) == Finish(q, now);
      } else {
        StartLineIsSound(q, i + 1, now, live);
      }
    } else {
      ArmedLineIsSound(p, i, now, live);
    }
  }

  lemma ArmedLineIsSound(p: Player, i: int, now: int, live: nat)
    requires ReadyFor(p, i, live) && i in p.audio
    ensures var r := StartLine(p, i, now);
      Sound(r, live) && r.lines == p.lines && r.audio == p.audio && r.playing
      && r.generation == p.generation && r.index == i
  {
    var r := StartLine(p, i, now);
    assert r == Voice(p.(index := i, signals := p.signals + [Started(i, now)]), now);
    ArmedLineIsTimed(p, i, now);
  }

  lemma ArmedLineIsTimed(p: Player, i: int, now: int)
    requires i in p.audio && (i == 0 || 0 <= i < |p.lines|)
    requires NoneFromTheFuture(p)
    ensures var r := StartLine(p, i, now);
      && r.index == i && r.generation == p.generation
      && Live(r.timers, p.generation) == Live(p.timers, p.generation) + 1
      && NoneFromTheFuture(r) && CurrentLineIsTimed(r)
  {
    var r := StartLine(p, i, now);
    var armed := Timer(p.generation, i, now + Delay(p.lines, p.audio[i], i));
    assert r.timers == p.timers + [armed];
    LiveAppend(p.timers, [armed], p.generation);
    assert r.timers[|p.timers|] == armed;
  }

  /** Advancing from the current line when `live` live timers are left. */
  lemma NextLineIsSound(p: Player, now: int, live: nat)
    requires p.playing && InOrder(p) && NoneFromTheFuture(p) && Live(p.timers, p.generation) == live
    ensures Sound(NextLine(p, now), live)
    ensures if NextLine(p, now).playing
            then NextLine(p, now).generation == p.generation && NextLine(p, now).index > p.index
            else NextLine(p, now).generation == p.generation + 1
  {
    if p.index + 1 < |p.lines| {
      StartLineIsSound(p, p.index + 1, now, live);
    }
  }

  function EarlyAfter(p: Player, early: nat, e: Event, now: int): nat
    requires Enabled(p, e, now)
  {
    if Step(p, e, now).generation != p.generation then 0
    else if e.ClipEnds? && EndsLine(Quiet(p, e.slot), e.slot) then early + 1
    else early
  }

  /** A stop, a new play, an effective skip, and whatever ends the sequence. */
  predicate Interrupts(p: Player, e: Event, now: int)
    requires Enabled(p, e, now)
  {
    e.DoPlay? || e.DoStop? || (p.playing && (e.DoSkip? || !Step(p, e, now).playing))
  }

  lemma PlayIsSound(p: Player, early: nat, lines: seq<bool>, audio: map<int, int>, now: int)
    requires Sound(p, early)
    ensures Sound(Play(p, lines, audio, now), 0) && Play(p, lines, audio, now).generation > p.generation
  {
    var q := Begun(p, lines, audio);
    NoneLive(q.timers, q.generation);
    StartLineIsSound(q, 0, now, 0);
  }

  lemma SkipIsSound(p: Player, early: nat, now: int)
    requires Sound(p, early) && p.playing
    ensures Sound(Skip(p, now), 0) && Skip(p, now).generation > p.generation
  {
    var q := p.(generation := p.generation + 1, slots := Silent(p.slots));
    if p.index + 1 < |p.lines| {
      NoneLive(q.timers, q.generation);
      StartLineIsSound(q, p.index + 1, now, 0);
    }
  }

  lemma FireIsSound(p: Player, early: nat, i: nat, now: int)
    requires Sound(p, early) && i < |p.timers|
    ensures var r := Fire(p, i, now); Sound(r, if r.generation == p.generation then early else 0)
    ensures var r := Fire(p, i, now);
      r.generation >= p.generation && (p.playing && !r.playing ==> r.generation > p.generation)
  {
    var q := p.(timers := Remove(p.timers, i));
    LiveRemove(p.timers, i, p.generation);
    if p.playing && p.timers[i].armed == p.generation {
      NextLineIsSound(q, now, early);
    } else {
      StaleRemoved(p, i);
    }
  }

  lemma ClipEndIsSound(p: Player, early: nat, slot: int, now: int)
    requires Sound(p, early) && 0 <= slot < 2
    ensures var r := Ended(p, slot, now); var advanced := EndsLine(Quiet(p, slot), slot);
      && Sound(r, if r.generation != p.generation then 0 else if advanced then early + 1 else early)
      && r.generation >= p.generation && (p.playing && !r.playing ==> r.generation > p.generation)
  {
    if EndsLine(Quiet(p, slot), slot) {
      NextLineIsSound(Quiet(p, slot), now, 1 + early);
    }
  }

  lemma StepIsSound(p: Player, early: nat, e: Event, now: int)
    requires Sound(p, early) && Enabled(p, e, now)
    ensures Sound(Step(p, e, now), EarlyAfter(p, early, e, now))
    ensures Step(p, e, now).generation >= p.generation
    ensures Interrupts(p, e, now) ==> Step(p, e, now).generation > p.generation
  {
    match e
    case DoPlay(lines, audio) => PlayIsSound(p, early, lines, audio, now);
    case DoSkip => if p.playing { SkipIsSound(p, early, now); }
    case DoStop =>
    case TimerFires(i) => FireIsSound(p, early, i, now);
    case ClipEnds(slot) => ClipEndIsSound(p, early, slot, now);
  }

  lemma StaleRemoved(p: Player, i: nat)
    requires i < |p.timers| && (p.playing ==> p.timers[i].armed != p.generation)
    requires p.playing ==> CurrentLineIsTimed(p)
    ensures p.playing ==> CurrentLineIsTimed(p.(timers := Remove(p.timers, i)))
  {
    if p.playing {
      var k :| 0 <= k < |p.timers| && p.timers[k].armed == p.generation && p.timers[k].line == p.index;
      var rest := Remove(p.timers, i);
      assert rest[if k < i then k else k - 1] == p.timers[k];
    }
  }

  // ---- whole runs ----

  datatype Timed = At(event: Event, now: int)

  /** A run: every event is enabled when it happens. */
  ghost predicate IsRun(p: Player, run: seq<Timed>)
    decreases |run|
  {
    run == [] || (Enabled(p, run[0].event, run[0].now) && IsRun(Step(p, run[0].event, run[0].now), run[1..]))
  }

  ghost function After(p: Player, run: seq<Timed>): Player
    requires IsRun(p, run)
    decreases |run|
  {
    if run == [] then p else After(Step(p, run[0].event, run[0].now), run[1..])
  }

  ghost function EarlyInRun(p: Player, early: nat, run: seq<Timed>): nat
    requires IsRun(p, run)
    decreases |run|
  {
    if run == [] then early
    else EarlyInRun(Step(p, run[0].event, run[0].now), EarlyAfter(p, early, run[0].event, run[0].now), run[1..])
  }

  const FRESH: Player := Player([], map[], -1, false, 0, 0, [Slot(None, false), Slot(None, false)], [], [])

  lemma {:induction false} RunsAreSound(p: Player, early: nat, run: seq<Timed>)
    requires Sound(p, early) && IsRun(p, run)
    ensures Sound(After(p, run), EarlyInRun(p, early, run))
    ensures After(p, run).generation >= p.generation
    decreases |run|
  {
    if run != [] {
      StepIsSound(p, early, run[0].event, run[0].now);
      RunsAreSound(Step(p, run[0].event, run[0].now), EarlyAfter(p, early, run[0].event, run[0].now), run[1..]);
    }
  }

  /** From a new player, any interleaving of calls, timers and clip ends: the lines of the last
      play start 0, 1, 2, ..., the end is announced once and last, and a playing player always has
      a live timer for its current line, plus one for each short clip that ended early. */
  lemma {:induction false} LinesStartInOrderAndNeverStall(run: seq<Timed>)
    requires IsRun(FRESH, run)
    ensures var p := After(FRESH, run);
      && InOrder(p)
      && (p.playing ==> CurrentLineIsTimed(p) && Voiced(p))
      && (p.playing ==> Live(p.timers, p.generation) == 1 + EarlyInRun(FRESH, 0, run))
      && (!p.playing ==> !p.slots[0].sounding && !p.slots[1].sounding)
  {
    RunsAreSound(FRESH, 0, run);
  }

  /** Each firing of a live timer moves on to a later line or ends the sequence. */
  lemma LiveTimerAdvances(p: Player, early: nat, i: nat, now: int)
    requires Sound(p, early) && p.playing && i < |p.timers| && p.timers[i].armed == p.generation
    ensures var q := Fire(p, i, now);
      if q.playing then q.index > p.index
      else p.signals < q.signals && q.signals[|q.signals| - 1].SequenceFinished?
  {
    LiveRemove(p.timers, i, p.generation);
    NextLineIsSound(p.(timers := Remove(p.timers, i)), now, early);
    NextLineAnnounces(p.(timers := Remove(p.timers, i)), now);
  }

  lemma {:induction false} NextLineAnnounces(p: Player, now: int)
    requires p.playing
    ensures var q := NextLine(p, now);
      && p.signals < q.signals
      && (!q.playing ==> q.signals != [] && q.signals[|q.signals| - 1].SequenceFinished?)
    decreases |p.lines| - p.index
  {
    if p.index + 1 < |p.lines| && p.index + 1 !in p.audio {
      NextLineAnnounces(p.(index := p.index + 1, signals := p.signals + [Started(p.index + 1, now)]), now);
    }
  }

  // ---- stale timers ----

  /** Nothing armed before a stop, skip, finish or new play ever acts again: after any further run,
      such a timer going off only disappears from the pending timers. */
  lemma {:induction false} StaleTimersAreInert(p: Player, early: nat, e: Event, at: int, run: seq<Timed>,
                                               t: Timer, i: nat, now: int)
    requires Sound(p, early) && Enabled(p, e, at) && t in p.timers
    requires Interrupts(p, e, at)
    requires IsRun(Step(p, e, at), run)
    requires i < |After(Step(p, e, at), run).timers| && After(Step(p, e, at), run).timers[i] == t
    ensures var q := After(Step(p, e, at), run);
      Fire(q, i, now) == q.(timers := Remove(q.timers, i))
  {
    StepIsSound(p, early, e, at);
    RunsAreSound(Step(p, e, at), EarlyAfter(p, early, e, at), run);
  }

  // ---- voices ----

  /** Moving on to a line with a clip: an overlapping line cuts in on the other player and leaves the
      previous voice as it was; any other line is heard alone. */
  lemma OverlapKeepsThePreviousVoice(p: Player, now: int)
    requires p.playing && p.index >= 0 && p.index + 1 < |p.lines| && p.index + 1 in p.audio
    ensures var q := NextLine(p, now); var before := (q.active + 1) % 2;
      && q.playing && q.index == p.index + 1
      && q.slots[q.active] == Slot(Some(q.index), true)
      && (if p.lines[q.index] then before == p.active && q.slots[before] == p.slots[p.active]
          else q.active == p.active && !q.slots[before].sounding)
  {
    assert NextLine(p, now) == StartLine(p, p.index + 1, now);
  }

  /** A play starts on the active player, heard alone, whatever the first line's overlap flag says. */
  lemma PlayStartsAlone(p: Player, lines: seq<bool>, audio: map<int, int>, now: int)
    requires 0 in audio
    ensures var q := Play(p, lines, audio, now);
      && q.playing && q.index == 0 && q.active == p.active
      && q.slots[q.active] == Slot(Some(0), true) && !q.slots[1 - q.active].sounding
  {
  }

  /** A skip silences the line it leaves: the next line with a clip is heard alone, overlap or not. */
  lemma SkipSilencesTheOldLine(p: Player, now: int)
    requires p.playing && p.index >= 0 && p.index + 1 < |p.lines| && p.index + 1 in p.audio
    ensures var q := Skip(p, now);
      q.index == p.index + 1 && q.slots[q.active] == Slot(Some(q.index), true) && !q.slots[(q.active + 1) % 2].sounding
  {
  }

  // ---- short clips ----

  ghost predicate NoShortClips(audio: map<int, int>) {
    forall i :: i in audio ==> audio[i] >= 200
  }

  /** A clip that ends moves the sequence on exactly when it is the current line's own, is shorter than
      200 ms, and does not talk over a previous voice that is still sounding. */
  lemma ClipEndAdvancesIff(p: Player, early: nat, slot: int, now: int)
    requires Sound(p, early) && 0 <= slot < 2
    ensures Ended(p, slot, now).signals != p.signals <==>
      && p.playing && slot == p.active && p.audio[p.index] < 200
      && !(p.index < |p.lines| && p.lines[p.index] && p.slots[1 - slot].sounding)
    ensures Ended(p, slot, now).signals == p.signals ==>
      Ended(p, slot, now) == p.(slots := p.slots[slot := p.slots[slot].(sounding := false)])
  {
    if p.playing { NextLineAnnounces(Quiet(p, slot), now); }
  }

  lemma StepKeepsAudio(p: Player, e: Event, now: int)
    requires Enabled(p, e, now)
    ensures Step(p, e, now).audio == if e.DoPlay? then e.audio else p.audio
    ensures Step(p, e, now).lines == if e.DoPlay? then e.lines else p.lines
  {
    match e
    case DoPlay(lines, audio) =>
      StartLineKeepsScript(Begun(p, lines, audio), 0, now);
    case DoSkip =>
      if p.playing && p.index + 1 < |p.lines| {
        StartLineKeepsScript(p.(generation := p.generation + 1, slots := Silent(p.slots)), p.index + 1, now);
      }
    case DoStop =>
    case TimerFires(i) =>
      if p.playing && p.index + 1 < |p.lines| {
        StartLineKeepsScript(p.(timers := Remove(p.timers, i)), p.index + 1, now);
      }
    case ClipEnds(slot) =>
      if p.playing && p.index + 1 < |p.lines| {
        StartLineKeepsScript(Quiet(p, slot), p.index + 1, now);
      }
  }

  lemma {:induction false} StartLineKeepsScript(p: Player, i: int, now: int)
    requires p.playing && (i == 0 || 0 <= i < |p.lines|)
    ensures StartLine(p, i, now).audio == p.audio && StartLine(p, i, now).lines == p.lines
    decreases |p.lines| - i
  {
    if i !in p.audio && i + 1 < |p.lines| {
      StartLineKeepsScript(p.(index := i, signals := p.signals + [Started(i, now)]), i + 1, now);
    }
  }

  /** With a short clip the same line advances twice: its end starts line 1, its own timer, due at
      that very moment, then cuts line 1 off and starts line 2. */
  lemma ShortClipCutsTheNextLine(length: int, second: int, third: int, now: int)
    requires 0 <= length < 200
    ensures var p0 := Play(FRESH, [false, false, false], map[0 := length, 1 := second, 2 := third], now);
      var p1 := Ended(p0, 0, now + length);
      && Enabled(p0, ClipEnds(0), now + length)
      && |p1.timers| == 2 && Enabled(p1, TimerFires(0), now + length)
      && Live(p1.timers, p1.generation) == 2
      && Fire(p1, 0, now + length).signals
         == [Started(0, now), Started(1, now + length), Started(2, now + length)]
  {
    var audio := map[0 := length, 1 := second, 2 := third];
    var p0 := Play(FRESH, [false, false, false], audio, now);
    assert p0.timers == [Timer(1, 0, now + length)];
    var q := Quiet(p0, 0);
    assert EndsLine(q, 0);
    var p1 := Ended(p0, 0, now + length);
    assert p1 == StartLine(q, 1, now + length);
    assert p1.timers == [Timer(1, 0, now + length), Timer(1, 1, now + length + Max(0, second))];
    assert Live(p1.timers[1..][1..], 1) == 0;
    assert Live(p1.timers[1..], 1) == 1;
    var fired := p1.(timers := Remove(p1.timers, 0));
    assert Fire(p1, 0, now + length) == NextLine(fired, now + length) == StartLine(fired, 2, now + length);
  }

  // ---- the timeline ----

  /** The time from the start of a sequence to the start of line `k`: each earlier line with a clip
      holds the stage for its clip, less 350 ms when the next line overlaps it, and never less than 0. */
  function Offset(lines: seq<bool>, audio: map<int, int>, k: nat): int {
    if k == 0 then 0
    else if k - 1 !in audio then Offset(lines, audio, k - 1)
    else if k < |lines| && lines[k] then Offset(lines, audio, k - 1) + Max(0, audio[k - 1] - 350)
    else Offset(lines, audio, k - 1) + Max(0, audio[k - 1])
  }

  ghost predicate SignalsOnTime(p: Player, start: int) {
    forall k :: 0 <= k < |p.signals| ==> p.signals[k].at == start + Offset(p.lines, p.audio, k)
  }

  ghost predicate OnTime(p: Player, start: int) {
    && SignalsOnTime(p, start)
    && (p.playing ==> forall i :: 0 <= i < |p.timers| && p.timers[i].armed == p.generation ==>
          p.timers[i].due == start + Offset(p.lines, p.audio, p.index + 1))
  }

  lemma OneMoreOnTime(p: Player, q: Player, s: Signal, start: int)
    requires SignalsOnTime(p, start) && s.at == start + Offset(p.lines, p.audio, |p.signals|)
    requires q.signals == p.signals + [s] && q.lines == p.lines && q.audio == p.audio
    ensures SignalsOnTime(q, start)
  {
  }

  lemma {:induction false} StartLineOnTime(p: Player, i: int, now: int, start: int)
    requires ReadyFor(p, i, 0) && now == start + Offset(p.lines, p.audio, i)
    requires SignalsOnTime(p, start)
    requires forall k :: 0 <= k < |p.timers| ==> p.timers[k].armed < p.generation
    ensures OnTime(StartLine(p, i, now), start)
    decreases |p.lines| - i
  {
    var q: Player := p.(index := i, signals := p.signals + [Started(i, now)]);
    OneMoreOnTime(p, q, Started(i, now), start);
    if i in p.audio {
      ArmedOnTime(p, i, now, start);
    } else if i + 1 < |p.lines| {
      StartLineOnTime(q, i + 1, now, start);
    } else {
      assert NextLine(q, now) == Finish(q, now);
      OneMoreOnTime(q, Finish(q, now), SequenceFinished(now), start);
    }
  }

  lemma ArmedOnTime(p: Player, i: int, now: int, start: int)
    requires ReadyFor(p, i, 0) && i in p.audio && now == start + Offset(p.lines, p.audio, i)
    requires SignalsOnTime(p, start)
    requires forall k :: 0 <= k < |p.timers| ==> p.timers[k].armed < p.generation
    ensures OnTime(StartLine(p, i, now), start)
  {
    var r := StartLine(p, i, now);
    OneMoreOnTime(p, r, Started(i, now), start);
    assert r.timers == p.timers + [Timer(p.generation, i, now + Delay(p.lines, p.audio[i], i))];
  }

  lemma {:induction false} AllStale(timers: seq<Timer>, generation: int)
    requires Live(timers, generation) == 0
    ensures forall i :: 0 <= i < |timers| ==> timers[i].armed != generation
  {
    if timers != [] {
      AllStale(timers[1..], generation);
      assert forall i :: 1 <= i < |timers| ==> timers[i] == timers[1..][i - 1];
    }
  }

  /** Only timers and clip ends happen, and each timer goes off just when it is due. */
  ghost predicate Punctual(p: Player, run: seq<Timed>)
    decreases |run|
  {
    run == [] || (
      && Enabled(p, run[0].event, run[0].now)
      && (run[0].event.ClipEnds? ||
          (run[0].event.TimerFires? && run[0].now == p.timers[run[0].event.timer].due))
      && Punctual(Step(p, run[0].event, run[0].now), run[1..]))
  }

  lemma FiringOnTime(p: Player, i: nat, now: int, start: int)
    requires Sound(p, 0) && OnTime(p, start)
    requires i < |p.timers| && now == p.timers[i].due
    ensures OnTime(Fire(p, i, now), start)
  {
    var q := p.(timers := Remove(p.timers, i));
    LiveRemove(p.timers, i, p.generation);
    if p.playing && p.timers[i].armed == p.generation {
      AllStale(q.timers, p.generation);
      if p.index + 1 < |p.lines| {
        StartLineOnTime(q, p.index + 1, now, start);
      } else {
        assert NextLine(q, now) == Finish(q, now);
        OneMoreOnTime(q, Finish(q, now), SequenceFinished(now), start);
      }
    } else {
      StaleOnTime(p, i, start);
    }
  }

  lemma StaleOnTime(p: Player, i: nat, start: int)
    requires OnTime(p, start) && i < |p.timers|
    ensures OnTime(p.(timers := Remove(p.timers, i)), start)
  {
    var rest := Remove(p.timers, i);
    assert forall k :: 0 <= k < |rest| ==> rest[k] == p.timers[if k < i then k else k + 1];
  }

  lemma {:induction false} RunOnTime(p: Player, run: seq<Timed>, start: int)
    requires Sound(p, 0) && NoShortClips(p.audio) && OnTime(p, start) && Punctual(p, run)
    ensures IsRun(p, run) && OnTime(After(p, run), start)
    ensures After(p, run).lines == p.lines && After(p, run).audio == p.audio
    decreases |run|
  {
    if run != [] {
      var e, now := run[0].event, run[0].now;
      StepIsSound(p, 0, e, now);
      StepKeepsAudio(p, e, now);
      if e.TimerFires? { FiringOnTime(p, e.timer, now, start); }
      RunOnTime(Step(p, e, now), run[1..], start);
    }
  }

  lemma PlayIsOnTime(p: Player, early: nat, lines: seq<bool>, audio: map<int, int>, start: int)
    requires Sound(p, early)
    ensures OnTime(Play(p, lines, audio, start), start)
  {
    var begun := Begun(p, lines, audio);
    NoneLive(begun.timers, begun.generation);
    StartLineOnTime(begun, 0, start, start);
  }

  /** Without skips or short clips and with punctual timers, line `k` starts at the sum of the
      earlier lines' clip lengths, each less the lead when the next line overlaps it, and the end
      is announced at the sum over all lines. */
  lemma {:induction false} TimelineIsExact(p: Player, early: nat, lines: seq<bool>, audio: map<int, int>,
                                           start: int, run: seq<Timed>)
    requires Sound(p, early) && NoShortClips(audio)
    requires Punctual(Play(p, lines, audio, start), run)
    ensures IsRun(Play(p, lines, audio, start), run)
    ensures var q := After(Play(p, lines, audio, start), run);
      forall k :: 0 <= k < |q.signals| ==> q.signals[k].at == start + Offset(lines, audio, k)
  {
    PlayIsSound(p, early, lines, audio, start);
    PlayIsOnTime(p, early, lines, audio, start);
    StepKeepsAudio(p, DoPlay(lines, audio), start);
    RunOnTime(Play(p, lines, audio, start), run, start);
  }
}
