/** The talk-over player as a value: each call and each engine event as a step.
    Times and clip lengths are milliseconds. */
module PlayerSteps {
  import opened Common

  const OVERLAP_LEAD := 350
  const SHORT_CLIP := 200

  /** A pending one-shot timer: the generation it was armed in, the line it was armed for. */
  datatype Timer = Timer(armed: int, line: int, due: int)

  /** One AudioStreamPlayer: the line whose clip it carries, and whether it is sounding. */
  datatype Slot = Slot(clip: Option<int>, sounding: bool)

  datatype Signal = Started(line: int, at: int) | SequenceFinished(at: int)

  /** `lines` holds each line's overlap flag, `audio` the clip length of each line that has one,
      `signals` what was emitted since the last play. */
  datatype RawPlayer = Player(
    lines: seq<bool>,
    audio: map<int, int>,
    index: int,
    playing: bool,
    generation: int,
    active: int,
    slots: seq<Slot>,
    timers: seq<Timer>,
    signals: seq<Signal>)
  {
    predicate Ok() {
      && |slots| == 2 && 0 <= active < 2
      && -1 <= index <= Max(1, |lines|)
      && (playing ==> index == 0 || 0 <= index < |lines|)
    }
  }

  type Player = p: RawPlayer | p.Ok()
    witness Player([], map[], -1, false, 0, 0, [Slot(None, false), Slot(None, false)], [], [])

  function Silent(slots: seq<Slot>): seq<Slot>
    requires |slots| == 2
  {
    [slots[0].(sounding := false), slots[1].(sounding := false)]
  }

  predicate Overlaps(lines: seq<bool>, i: int) { 0 <= i < |lines| && lines[i] }

  /** How long after its start line `i` hands over to the next one. */
  function Delay(lines: seq<bool>, length: int, i: int): int {
    Max(0, length - (if Overlaps(lines, i + 1) then OVERLAP_LEAD else 0))
  }

  function Finish(p: Player, now: int): Player {
    p.(generation := p.generation + 1, playing := false, slots := Silent(p.slots),
       signals := p.signals + [SequenceFinished(now)])
  }

  function PlayOn(p: Player, slot: int): Player
    requires 0 <= slot < 2
  {
    p.(slots := p.slots[slot := Slot(Some(p.index), true)], active := slot)
  }

  function Arm(p: Player, now: int): Player
    requires p.index in p.audio
  {
    p.(timers := p.timers + [Timer(p.generation, p.index, now + Delay(p.lines, p.audio[p.index], p.index))])
  }

  function StartLine(p: Player, i: int, now: int): Player
    requires i == 0 || 0 <= i < |p.lines|
    decreases Max(0, |p.lines| - i), 1
  {
    var q: Player := p.(index := i, signals := p.signals + [Started(i, now)]);
    if i !in p.audio then NextLine(q, now) else Voice(q, now)
  }

  /** An overlapping line cuts in on the other player; any other line silences both first. */
  function Voice(p: Player, now: int): Player
    requires p.index in p.audio
  {
    if p.index > 0 && Overlaps(p.lines, p.index) then Arm(PlayOn(p, (p.active + 1) % 2), now)
    else Arm(PlayOn(p.(slots := Silent(p.slots)), p.active), now)
  }

  function NextLine(p: Player, now: int): Player
    decreases Max(0, |p.lines| - p.index), 0
  {
    if !p.playing then p
    else if p.index + 1 >= |p.lines| then Finish(p, now)
    else StartLine(p, p.index + 1, now)
  }

  function Stop(p: Player): Player {
    p.(generation := p.generation + 1, playing := false, index := -1, slots := Silent(p.slots))
  }

  /** A new sequence is loaded; nothing has started yet. */
  function Begun(p: Player, lines: seq<bool>, audio: map<int, int>): Player {
    Stop(p).(lines := lines, audio := audio, index := 0, playing := true, signals := [])
  }

  function Play(p: Player, lines: seq<bool>, audio: map<int, int>, now: int): Player {
    StartLine(Begun(p, lines, audio), 0, now)
  }

  function Skip(p: Player, now: int): Player {
    if !p.playing || p.index < 0 then p
    else
      var q := p.(generation := p.generation + 1, slots := Silent(p.slots));
      if p.index + 1 >= |p.lines| then Finish(q.(playing := false, index := p.index + 1), now)
      else StartLine(q, p.index + 1, now)
  }

  /** Timer `i` goes off: it acts only in the generation that armed it. */
  function Fire(p: Player, i: nat, now: int): Player
    requires i < |p.timers|
  {
    var q := p.(timers := Remove(p.timers, i));
    if p.timers[i].armed == p.generation && p.playing then NextLine(q, now) else q
  }

  predicate TalkingOver(p: Player) {
    p.index >= 0 && Overlaps(p.lines, p.index) && p.slots[(p.active + 1) % 2].sounding
  }

  /** Whether a clip ending on `slot` advances the sequence: only a very short one does. */
  predicate EndsLine(p: Player, slot: int) {
    slot == p.active && p.playing && !TalkingOver(p) && p.index in p.audio && p.audio[p.index] < SHORT_CLIP
  }

  function Quiet(p: Player, slot: int): Player
    requires 0 <= slot < 2
  {
    p.(slots := p.slots[slot := p.slots[slot].(sounding := false)])
  }

  function Ended(p: Player, slot: int, now: int): Player
    requires 0 <= slot < 2
  {
    var q := Quiet(p, slot);
    if EndsLine(q, slot) then NextLine(q, now) else q
  }

  datatype Event =
    | DoPlay(lines: seq<bool>, audio: map<int, int>)
    | DoSkip
    | DoStop
    | TimerFires(timer: int)
    | ClipEnds(slot: int)

  /** What can happen next: a pending timer that is due, or a sounding clip that ends. */
  predicate Enabled(p: Player, e: Event, now: int) {
    match e
    case TimerFires(i) => 0 <= i < |p.timers| && p.timers[i].due <= now
    case ClipEnds(slot) => 0 <= slot < 2 && p.slots[slot].sounding
    case _ => true
  }

  function Step(p: Player, e: Event, now: int): Player
    requires Enabled(p, e, now)
  {
    match e
    case DoPlay(lines, audio) => Play(p, lines, audio, now)
    case DoSkip => Skip(p, now)
    case DoStop => Stop(p)
    case TimerFires(i) => Fire(p, i, now)
    case ClipEnds(slot) => Ended(p, slot, now)
  }
}

/** The node: its fields change with every event. */
module OverlapSpeechPlayers {
  import opened Common
  import opened PlayerSteps

  class OverlapSpeechPlayer {
    var lines: seq<bool>
    var audio: map<int, int>
    var index: int
    var playing: bool
    var generation: int  // `_seq`
    var active: int
    var slots: seq<Slot>
    var timers: seq<Timer>  // one-shot timers pending in the engine
    var signals: seq<Signal>  // emitted since the last play

    ghost predicate Valid()
      reads this
    {
      Player(lines, audio, index, playing, generation, active, slots, timers, signals).Ok()
    }

    ghost function Model(): Player
      reads this
      requires Valid()
    {
      Player(lines, audio, index, playing, generation, active, slots, timers, signals)
    }

    constructor ()
      ensures Valid()
      ensures Model() == Player([], map[], -1, false, 0, 0, [Slot(None, false), Slot(None, false)], [], [])
    {
      lines, audio, index, playing := [], map[], -1, false;
      generation, active := 0, 0;
      slots, timers, signals := [Slot(None, false), Slot(None, false)], [], [];
    }

    method DoPlay(newLines: seq<bool>, newAudio: map<int, int>, now: int)
      requires Valid()
      modifies this
      ensures Valid() && Model() == Play(old(Model()), newLines, newAudio, now)
    {
      DoStop();
      lines, audio := newLines, newAudio;
      index, playing, signals := 0, true, [];
      DoStartLine(0, now);
    }

    method DoSkip(now: int)
      requires Valid()
      modifies this
      ensures Valid() && Model() == Skip(old(Model()), now)
      ensures old(playing) && old(index) >= 0 && old(index) + 1 >= old(|lines|) ==> index == old(index) + 1
    {
      if !playing || index < 0 { return; }
      generation := generation + 1;
      StopPlayers();
      index := index + 1;
      if index >= |lines| {
        FinishSequence(now);
        return;
      }
      DoStartLine(index, now);
    }

    method DoStop()
      requires Valid()
      modifies this
      ensures Valid() && Model() == Stop(old(Model()))
      ensures !playing && index == -1
    {
      generation := generation + 1;
      playing := false;
      index := -1;
      StopPlayers();
    }

    method DoStartLine(i: int, now: int)
      requires Valid() && (i == 0 || 0 <= i < |lines|)
      modifies this
      ensures Valid() && Model() == StartLine(old(Model()), i, now)
      decreases Max(0, |lines| - i), 1
    {
      index := i;
      signals := signals + [Started(i, now)];
      if i !in audio {
        DoNextLine(now);
        return;
      }
      DoVoice(now);
    }

    method DoVoice(now: int)
      requires Valid() && index in audio
      modifies `slots, `active, `timers
      ensures Valid() && Model() == Voice(old(Model()), now)
    {
      var overlapsPrevious := index > 0 && Overlaps(lines, index);
      if overlapsPrevious {
        DoPlayOn((active + 1) % 2);
      } else {
        StopPlayers();
        DoPlayOn(active);
      }
      ArmTimer(now);
    }

    method ArmTimer(now: int)
      requires index in audio
      modifies `timers
      ensures timers == old(timers) + [Timer(generation, index, now + Delay(lines, audio[index], index))]
    {
      var delay := audio[index] - (if Overlaps(lines, index + 1) then OVERLAP_LEAD else 0);
      if delay < 0 { delay := 0; }
      timers := timers + [Timer(generation, index, now + delay)];
    }

    method DoNextLine(now: int)
      requires Valid()
      modifies this
      ensures Valid() && Model() == NextLine(old(Model()), now)
      decreases Max(0, |lines| - index), 0
    {
      if !playing { return; }
      var next := index + 1;
      if next >= |lines| {
        FinishSequence(now);
        return;
      }
      DoStartLine(next, now);
    }

    method FinishSequence(now: int)
      requires |slots| == 2
      modifies `generation, `playing, `slots, `signals
      ensures generation == old(generation) + 1 && !playing && slots == Silent(old(slots))
      ensures signals == old(signals) + [SequenceFinished(now)]
    {
      generation := generation + 1;
      playing := false;
      StopPlayers();
      signals := signals + [SequenceFinished(now)];
    }

    method DoPlayOn(slot: int)
      requires 0 <= slot < |slots|
      modifies `slots, `active
      ensures slots == old(slots)[slot := Slot(Some(index), true)] && active == slot
    {
      slots := slots[slot := Slot(Some(index), true)];
      active := slot;
    }

    method StopPlayers()
      requires |slots| == 2
      modifies `slots
      ensures slots == Silent(old(slots))
    {
      var i := 0;
      while i < 2
        invariant 0 <= i <= 2 && |slots| == 2
        invariant forall k :: 0 <= k < 2 ==>
          slots[k] == if k < i then old(slots[k]).(sounding := false) else old(slots[k])
      {
        slots := slots[i := slots[i].(sounding := false)];
        i := i + 1;
      }
    }

    method OnTimeout(i: nat, now: int)
      requires Valid() && i < |timers|
      modifies this
      ensures Valid() && Model() == Fire(old(Model()), i, now)
    {
      var armed := timers[i].armed;
      timers := Remove(timers, i);
      if generation == armed && playing {
        DoNextLine(now);
      }
    }

    method OnPlayerFinished(slot: int, now: int)
      requires Valid() && 0 <= slot < 2
      modifies this
      ensures Valid() && Model() == Ended(old(Model()), slot, now)
    {
      slots := slots[slot := slots[slot].(sounding := false)];
      if slot == active && playing {
        var talkingOver := index >= 0 && Overlaps(lines, index) && slots[(active + 1) % 2].sounding;
        if !talkingOver && index in audio && audio[index] < SHORT_CLIP {
          DoNextLine(now);
        }
      }
    }
  }
}
