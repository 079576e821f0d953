/** Mood drift of the cast. Moods are thousandths, so the range [-1, 1] is [-1000, 1000]. */
module MoodSteps {
  import opened Common

  const LOW := -1000
  const HIGH := 1000

  function Clamp(value: int, lo: int, hi: int): int {
    Max(lo, if hi < value then hi else value)
  }

  /** Emotion tag to valence. */
  const VALENCE: map<string, int> := map[
    "anacheka_kwa_dharau" := 300, "anaongea_kwa_huzuni" := -600, "anapiga_kelele" := 200,
    "anaongea_kwa_utulivu" := 0, "anashangaa" := 400, "anafikiria" := 0, "anakasirika" := -500,
    "anahofia" := -400, "anasikitika" := -500, "anajigamba" := 400, "anadhihaki" := 200,
    "anaomba_msaada" := -300]

  function ValenceOf(emotion: string): int {
    if emotion in VALENCE then VALENCE[emotion] else 0
  }

  datatype Line = Line(character: string, emotion: string)

  datatype State = State(memory: string, mood: int)

  /** Rounding `num / den` to a whole number. */
  type Rounding = (int, int) -> int

  /** To a nearest one; ties may go either way. */
  ghost predicate ToNearest(round: Rounding) {
    forall num: int, den: int {:trigger round(num, den)} :: den > 0 ==>
      2 * num - den <= 2 * den * round(num, den) <= 2 * num + den
  }

  /** The valences a character performed, in order. */
  function Performed(lines: seq<Line>, id: string): seq<int> {
    if lines == [] then []
    else
      var last := lines[|lines| - 1];
      Performed(lines[..|lines| - 1], id) + if last.character == id then [ValenceOf(last.emotion)] else []
  }

  function Sum(values: seq<int>): int {
    if values == [] then 0 else Sum(values[..|values| - 1]) + values[|values| - 1]
  }

  /** Three tenths of the average, rounded and clamped. */
  function MoodOf(round: Rounding, valences: seq<int>): int
    requires valences != []
  {
    Clamp(round(3 * Sum(valences), 10 * |valences|), LOW, HIGH)
  }

  function Speakers(lines: seq<Line>): set<string> {
    if lines == [] then {} else Speakers(lines[..|lines| - 1]) + {lines[|lines| - 1].character}
  }

  lemma {:induction false} SpeakersPerform(lines: seq<Line>, id: string)
    ensures id in Speakers(lines) <==> Performed(lines, id) != []
  {
    if lines != [] {
      SpeakersPerform(lines[..|lines| - 1], id);
    }
  }

  lemma OneMoreLine(lines: seq<Line>, i: nat)
    requires i < |lines|
    ensures Speakers(lines[..i + 1]) == Speakers(lines[..i]) + {lines[i].character}
    ensures forall id :: Performed(lines[..i + 1], id)
                         == Performed(lines[..i], id)
                            + if lines[i].character == id then [ValenceOf(lines[i].emotion)] else []
  {
    assert lines[..i + 1][..i] == lines[..i];
  }

  /** `summarize_script`: the headline and mood of each speaker. */
  ghost function Summary(round: Rounding, headline: string, lines: seq<Line>): map<string, State> {
    map id | id in Speakers(lines) ::
      SpeakersPerform(lines, id);
      State(headline, MoodOf(round, Performed(lines, id)))
  }

  function Drifted(mood: int, delta: int): int { Clamp(mood + delta, LOW, HIGH) }

  /** `_apply_weather_bias`. */
  function Biased(states: map<string, State>, offset: int): map<string, State> {
    map id | id in states :: states[id].(mood := Drifted(states[id].mood, offset))
  }

  function MoodAt(states: map<string, State>, id: string): int {
    if id in states then states[id].mood else 0
  }

  /** `_update_states`. */
  function Merged(states: map<string, State>, updates: map<string, State>): map<string, State> {
    map id | id in states.Keys + updates.Keys ::
      if id in updates then State(updates[id].memory, Drifted(MoodAt(states, id), updates[id].mood)) else states[id]
  }
}

module Moods {
  import opened Common
  import opened MoodSteps

  method SummarizeScript(round: Rounding, headline: string, lines: seq<Line>) returns (summary: map<string, State>)
    ensures summary == Summary(round, headline, lines)
  {
    var moods := GatherMoods(lines);
    summary := Baselines(round, headline, moods);
  }

  method Baselines(round: Rounding, headline: string, moods: map<string, seq<int>>)
      returns (summary: map<string, State>)
    requires forall id :: id in moods ==> moods[id] != []
    ensures summary.Keys == moods.Keys
    ensures forall id :: id in moods ==> summary[id] == State(headline, MoodOf(round, moods[id]))
  {
    summary := map[];
    var rest := moods.Keys;
    while rest != {}
      invariant rest <= moods.Keys && summary.Keys == moods.Keys - rest
      invariant forall id :: id in summary ==> summary[id] == State(headline, MoodOf(round, moods[id]))
    {
      var id :| id in rest;
      var mood := Baseline(round, moods[id]);
      summary := summary[id := State(headline, mood)];
      rest := rest - {id};
    }
  }

  method Baseline(round: Rounding, valences: seq<int>) returns (mood: int)
    requires valences != []
    ensures mood == MoodOf(round, valences)
  {
    var total := Total(valences);
    mood := Clamp(round(3 * total, 10 * |valences|), LOW, HIGH);
  }

  method GatherMoods(lines: seq<Line>) returns (moods: map<string, seq<int>>)
    ensures moods.Keys == Speakers(lines)
    ensures forall id :: id in moods ==> moods[id] == Performed(lines, id) && moods[id] != []
  {
    moods := map[];
    for i := 0 to |lines|
      invariant moods.Keys == Speakers(lines[..i])
      invariant forall id :: id in moods ==> moods[id] == Performed(lines[..i], id) && moods[id] != []
    {
      var id := lines[i].character;
      var valence := ValenceOf(lines[i].emotion);
      SpeakersPerform(lines[..i], id);
      OneMoreLine(lines, i);
      moods := moods[id := (if id in moods then moods[id] else []) + [valence]];
    }
    assert lines[..|lines|] == lines;
  }

  method Total(values: seq<int>) returns (total: int)
    ensures total == Sum(values)
  {
    total := 0;
    for i := 0 to |values|
      invariant total == Sum(values[..i])
    {
      assert values[..i + 1][..i] == values[..i];
      total := total + values[i];
    }
    assert values[..|values|] == values;
  }

  /** The running cast state of the ingest loop. */
  class CastStates {
    var states: map<string, State>

    constructor (states: map<string, State>)
      ensures this.states == states
    {
      this.states := states;
    }

    method ApplyWeatherBias(offset: int)
      modifies this
      ensures states == Biased(old(states), offset)
    {
      var rest := states.Keys;
      while rest != {}
        invariant rest <= old(states).Keys && states.Keys == old(states).Keys
        invariant forall id :: id in states ==>
          states[id] == if id in rest then old(states)[id] else Biased(old(states), offset)[id]
      {
        var id :| id in rest;
        states := states[id := states[id].(mood := Clamp(states[id].mood + offset, LOW, HIGH))];
        rest := rest - {id};
      }
    }

    method UpdateStates(updates: map<string, State>)
      modifies this
      ensures states == Merged(old(states), updates)
    {
      var rest := updates.Keys;
      while rest != {}
        invariant rest <= updates.Keys && states.Keys == old(states).Keys + (updates.Keys - rest)
        invariant forall id :: id in states ==>
          states[id] == if id in rest then old(states)[id] else Merged(old(states), updates)[id]
      {
        var id :| id in rest;
        var previous := if id in states then states[id] else State("", 0);
        states := states[id := State(updates[id].memory, Clamp(previous.mood + updates[id].mood, LOW, HIGH))];
        rest := rest - {id};
      }
    }
  }
}

module MoodProofs {
  import opened Common
  import opened MoodSteps

  const MOST_DOWN := -180
  const MOST_UP := 120

  lemma ValenceInRange(emotion: string)
    ensures -600 <= ValenceOf(emotion) <= 400
  {
  }

  lemma {:induction false} PerformedInRange(lines: seq<Line>, id: string)
    ensures forall i :: 0 <= i < |Performed(lines, id)| ==> -600 <= Performed(lines, id)[i] <= 400
  {
    if lines != [] {
      PerformedInRange(lines[..|lines| - 1], id);
      ValenceInRange(lines[|lines| - 1].emotion);
    }
  }

  lemma {:induction false} SumInRange(values: seq<int>)
    requires forall i :: 0 <= i < |values| ==> -600 <= values[i] <= 400
    ensures -600 * |values| <= Sum(values) <= 400 * |values|
  {
    if values != [] {
      SumInRange(values[..|values| - 1]);
    }
  }

  /** Rounding to nearest cannot leave a range with whole ends. */
  lemma RoundingStaysBetween(round: Rounding, num: int, den: int, lo: int, hi: int)
    requires ToNearest(round) && den > 0 && lo * den <= num <= hi * den
    ensures lo <= round(num, den) <= hi
  {
    var r := round(num, den);
    var scaled := den * r;
    assert 2 * den * r == 2 * scaled;
    if r < lo {
      MulAtMost(r + 1, lo, den, scaled);
    }
    if r > hi {
      MulAtLeast(hi + 1, r, den, hi * den);
    }
  }

  lemma MulAtMost(a: int, b: int, den: int, less: int)
    requires a <= b && den > 0 && less == den * (a - 1)
    ensures less + den <= b * den
  {
    Monotone(a, b, den);
  }

  lemma MulAtLeast(a: int, b: int, den: int, less: int)
    requires a <= b && den > 0 && less == (a - 1) * den
    ensures less + den <= den * b
  {
    Monotone(a, b, den);
  }

  /** Whatever the lines, one script moves a speaker's baseline by at most 180 down or 120 up. */
  lemma ScriptMoodInRange(round: Rounding, headline: string, lines: seq<Line>, id: string)
    requires ToNearest(round) && id in Speakers(lines)
    ensures MOST_DOWN <= Summary(round, headline, lines)[id].mood <= MOST_UP
  {
    SpeakersPerform(lines, id);
    var valences := Performed(lines, id);
    PerformedInRange(lines, id);
    SumInRange(valences);
    RoundingStaysBetween(round, 3 * Sum(valences), 10 * |valences|, MOST_DOWN, MOST_UP);
  }

  /** `n` lines with one emotion. */
  function Monologue(id: string, emotion: string, n: nat): seq<Line> {
    if n == 0 then [] else Monologue(id, emotion, n - 1) + [Line(id, emotion)]
  }

  lemma {:induction false} MonologueAddsUp(id: string, emotion: string, n: nat)
    ensures LinesOf(Monologue(id, emotion, n), id) == n
    ensures ValenceSum(Monologue(id, emotion, n), id) == n * ValenceOf(emotion)
  {
    if n > 0 {
      MonologueAddsUp(id, emotion, n - 1);
      LastLine(Monologue(id, emotion, n), id);
      assert Monologue(id, emotion, n)[..|Monologue(id, emotion, n)| - 1] == Monologue(id, emotion, n - 1);
      OneMore(n, ValenceOf(emotion));
    }
  }

  /** Both ends of that range are reached, by a script of any length: all grief or all wonder. */
  lemma BothEndsAreReached(round: Rounding, headline: string, id: string, n: nat)
    requires ToNearest(round) && n > 0
    ensures var grief := Monologue(id, "anaongea_kwa_huzuni", n); var wonder := Monologue(id, "anashangaa", n);
      && id in Speakers(grief) && Summary(round, headline, grief)[id].mood == -180
      && id in Speakers(wonder) && Summary(round, headline, wonder)[id].mood == 120
  {
    var grief, wonder := "anaongea_kwa_huzuni", "anashangaa";
    Extremes(grief, wonder);
    SteadyMood(round, headline, id, grief, n, -180);
    SteadyMood(round, headline, id, wonder, n, 120);
  }

  lemma Extremes(grief: string, wonder: string)
    requires grief == "anaongea_kwa_huzuni" && wonder == "anashangaa"
    ensures ValenceOf(grief) == -600 && ValenceOf(wonder) == 400
  {
  }

  lemma SteadyMood(round: Rounding, headline: string, id: string, emotion: string, n: nat, d: int)
    requires ToNearest(round) && n > 0 && 10 * d == 3 * ValenceOf(emotion)
    ensures id in Speakers(Monologue(id, emotion, n))
    ensures Summary(round, headline, Monologue(id, emotion, n))[id].mood == d
  {
    var lines := Monologue(id, emotion, n);
    MonologueAddsUp(id, emotion, n);
    SpeakersHaveLines(lines, id);
    BaselineIsDrift(round, headline, lines, id);
    OnlyWholeDrift(Summary(round, headline, lines)[id].mood, n, d, ValenceOf(emotion));
  }

  lemma OnlyWholeDrift(m: int, n: int, d: int, v: int)
    requires n > 0 && 10 * d == 3 * v && IsDrift(m, n, n * v)
    ensures m == d
  {
    assert 10 * n * m - 3 * (n * v) == 10 * (n * (m - d)) by { assert n * (10 * d) == n * (3 * v); }
    if m > d { Monotone(1, m - d, n); }
    if m < d { Monotone(1, d - m, n); }
  }

  /** An emotion outside the table, like a neutral one, moves nobody. */
  lemma UnknownEmotionsAreNeutral(round: Rounding, headline: string, id: string, emotion: string, n: nat)
    requires ToNearest(round) && n > 0
    requires emotion !in VALENCE || emotion in ["anaongea_kwa_utulivu", "anafikiria"]
    ensures id in Speakers(Monologue(id, emotion, n))
    ensures Summary(round, headline, Monologue(id, emotion, n))[id].mood == 0
  {
    SteadyMood(round, headline, id, emotion, n, 0);
  }

  ghost predicate InRange(states: map<string, State>) {
    forall id :: id in states ==> LOW <= states[id].mood <= HIGH
  }

  /** One script moves each speaker by at most 180 down or 120 up and no non-speaker at all. */
  lemma OneScriptMovesLittle(round: Rounding, headline: string, lines: seq<Line>,
                                                states: map<string, State>, id: string)
    requires ToNearest(round) && InRange(states)
    ensures var after := Merged(states, Summary(round, headline, lines));
      && InRange(after)
      && MOST_DOWN <= MoodAt(after, id) - MoodAt(states, id) <= MOST_UP
      && (id in Speakers(lines) ==> id in after && after[id].memory == headline)
      && (id !in Speakers(lines) ==> (id in after <==> id in states) && (id in states ==> after[id] == states[id]))
  {
    if id in Speakers(lines) {
      ScriptMoodInRange(round, headline, lines, id);
    }
  }

  /** How many lines the character performs, and the sum of their valences. */
  function LinesOf(lines: seq<Line>, id: string): nat {
    if lines == [] then 0 else LinesOf(lines[1..], id) + if lines[0].character == id then 1 else 0
  }

  function ValenceSum(lines: seq<Line>, id: string): int {
    if lines == [] then 0
    else ValenceSum(lines[1..], id) + if lines[0].character == id then ValenceOf(lines[0].emotion) else 0
  }

  lemma {:induction false} LastLine(lines: seq<Line>, id: string)
    requires lines != []
    ensures var init, last := lines[..|lines| - 1], lines[|lines| - 1];
      && LinesOf(lines, id) == LinesOf(init, id) + (if last.character == id then 1 else 0)
      && ValenceSum(lines, id) == ValenceSum(init, id) + (if last.character == id then ValenceOf(last.emotion) else 0)
  {
    if |lines| > 1 {
      LastLine(lines[1..], id);
      assert lines[..|lines| - 1][1..] == lines[1..][..|lines| - 2];
    }
  }

  lemma {:induction false} PerformedAddsUp(lines: seq<Line>, id: string)
    ensures |Performed(lines, id)| == LinesOf(lines, id) && Sum(Performed(lines, id)) == ValenceSum(lines, id)
  {
    if lines != [] {
      LastLine(lines, id);
      PerformedAddsUp(lines[..|lines| - 1], id);
      SumOneMore(Performed(lines[..|lines| - 1], id), ValenceOf(lines[|lines| - 1].emotion));
    }
  }

  lemma SumOneMore(values: seq<int>, x: int)
    ensures Sum(values + [x]) == Sum(values) + x && Sum(values + []) == Sum(values)
  {
    assert (values + [x])[..|values|] == values && values + [] == values;
  }

  /** `d` is three tenths of the average of `n` values with sum `total`, to the nearest whole. */
  ghost predicate IsDrift(d: int, n: int, total: int) {
    -5 * n <= 10 * n * d - 3 * total <= 5 * n
  }

  lemma DriftOfRounding(round: Rounding, n: int, total: int)
    requires ToNearest(round) && n > 0
    ensures IsDrift(round(3 * total, 10 * n), n, total)
  {
    var d, den := round(3 * total, 10 * n), 10 * n;
    assert 2 * (3 * total) - den <= 2 * den * d <= 2 * (3 * total) + den;
    assert 2 * den * d == 2 * (10 * n * d);
  }

  lemma BaselineIsDrift(round: Rounding, headline: string, lines: seq<Line>, id: string)
    requires ToNearest(round) && id in Speakers(lines)
    ensures LinesOf(lines, id) > 0
    ensures IsDrift(Summary(round, headline, lines)[id].mood, LinesOf(lines, id), ValenceSum(lines, id))
  {
    SpeakersPerform(lines, id);
    PerformedAddsUp(lines, id);
    PerformedInRange(lines, id);
    SumInRange(Performed(lines, id));
    var n, total := LinesOf(lines, id), ValenceSum(lines, id);
    RoundingStaysBetween(round, 3 * total, 10 * n, MOST_DOWN, MOST_UP);
    DriftOfRounding(round, n, total);
  }

  lemma {:induction false} SpeakersHaveLines(lines: seq<Line>, id: string)
    ensures id in Speakers(lines) <==> LinesOf(lines, id) > 0
  {
    SpeakersPerform(lines, id);
    PerformedAddsUp(lines, id);
  }

  /** Where a mood in -1000..1000 ends when moved by `d`: there, or at the nearer end. */
  function Moved(mood: int, d: int): int {
    if mood + d < -1000 then -1000 else if mood + d > 1000 then 1000 else mood + d
  }

  /** One script moves a character with `n` lines by exactly three tenths of their average valence, to the
      nearest thousandth, as far as the range allows; a character new to the cast starts from 0. One
      without lines stays where it was. */
  lemma OneScriptMovesExactly(round: Rounding, headline: string, lines: seq<Line>,
                              states: map<string, State>, id: string) returns (d: int)
    requires ToNearest(round)
    ensures var after := Merged(states, Summary(round, headline, lines));
      var before := if id in states then states[id].mood else 0;
      if LinesOf(lines, id) > 0 then
        && IsDrift(d, LinesOf(lines, id), ValenceSum(lines, id))
        && id in after && after[id] == State(headline, Moved(before, d))
      else (id in after <==> id in states) && (id in states ==> after[id] == states[id])
  {
    SpeakersHaveLines(lines, id);
    if id in Speakers(lines) {
      d := Summary(round, headline, lines)[id].mood;
      BaselineIsDrift(round, headline, lines, id);
    } else {
      d := 0;
    }
  }

  /** Weather moves every mood by its offset, or as far as the range allows, and touches no memory. */
  lemma WeatherShiftsByOffset(states: map<string, State>, offset: int, id: string)
    requires InRange(states) && id in states
    ensures var after := Biased(states, offset);
      && after.Keys == states.Keys && after[id].memory == states[id].memory
      && (LOW <= states[id].mood + offset <= HIGH ==> after[id].mood == states[id].mood + offset)
      && (states[id].mood + offset < LOW ==> after[id].mood == LOW)
      && (states[id].mood + offset > HIGH ==> after[id].mood == HIGH)
  {
  }

  // ---- whole runs ----

  datatype Update = Weather(offset: int) | Script(headline: string, lines: seq<Line>)

  ghost function Run(round: Rounding, states: map<string, State>, updates: seq<Update>): map<string, State> {
    if updates == [] then states
    else
      var before := Run(round, states, updates[..|updates| - 1]);
      match updates[|updates| - 1]
      case Weather(offset) => if offset == 0 then before else Biased(before, offset)
      case Script(headline, lines) => Merged(before, Summary(round, headline, lines))
  }

  ghost predicate Speaks(updates: seq<Update>, id: string) {
    exists i :: 0 <= i < |updates| && updates[i].Script? && id in Speakers(updates[i].lines)
  }

  /** Every mood stays in range over any run of weather and scripts from in-range states. */
  lemma {:induction false} MoodsStayInRange(round: Rounding, states: map<string, State>, updates: seq<Update>)
    requires InRange(states)
    ensures InRange(Run(round, states, updates))
  {
    if updates != [] {
      MoodsStayInRange(round, states, updates[..|updates| - 1]);
    }
  }

  /** Without weather, `n` scripts move nobody by more than `180 n` down or `120 n` up, and a
      character who never speaks not at all. */
  lemma {:induction false} DriftIsBounded(round: Rounding, states: map<string, State>, updates: seq<Update>, id: string)
    requires ToNearest(round) && InRange(states)
    requires forall i :: 0 <= i < |updates| ==> updates[i].Script?
    ensures var moved := MoodAt(Run(round, states, updates), id) - MoodAt(states, id);
      && MOST_DOWN * |updates| <= moved <= MOST_UP * |updates|
      && (!Speaks(updates, id) ==> moved == 0)
  {
    if updates != [] {
      var n := |updates| - 1;
      DriftIsBounded(round, states, updates[..n], id);
      MoodsStayInRange(round, states, updates[..n]);
      OneScriptMovesLittle(round, updates[n].headline, updates[n].lines, Run(round, states, updates[..n]), id);
      if Speaks(updates[..n], id) {
        var i :| 0 <= i < n && updates[..n][i].Script? && id in Speakers(updates[..n][i].lines);
        assert id in Speakers(updates[i].lines);
      }
    }
  }
}
