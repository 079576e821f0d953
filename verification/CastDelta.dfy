/** Live cast updates: the server diffs character states, the client panel patches its own.
    Moods are thousandths. */
module CastDeltas {
  import opened Common

  /** A character of a script; every field may be missing. */
  datatype Character = Character(
    id: Option<string>,
    name: Option<string>,
    mood: Option<int>,
    moodLabel: Option<string>,
    memory: Option<string>)

  /** A stored state; either field may be missing. */
  datatype State = State(mood: Option<int>, memory: Option<string>)

  /** One entry of `characters_delta`: only what changed. */
  datatype Change = Change(id: string, name: string, mood: Option<(int, string)>, memory: Option<string>)

  function IdOf(c: Character): string { c.id.GetOr("") }

  function MoodAt(states: map<string, State>, id: string): int {
    if id in states then states[id].mood.GetOr(0) else 0
  }

  function MemoryAt(states: map<string, State>, id: string): string {
    if id in states then states[id].memory.GetOr("") else ""
  }

  predicate MoodChanged(c: Character, prev: map<string, State>) {
    c.mood.GetOr(0) != MoodAt(prev, IdOf(c))
  }

  predicate MemoryChanged(c: Character, prev: map<string, State>) {
    c.memory.GetOr("") != "" && c.memory.GetOr("") != MemoryAt(prev, IdOf(c))
  }

  function ChangeOf(c: Character, prev: map<string, State>): Change {
    Change(IdOf(c), c.name.GetOr(IdOf(c)),
           if MoodChanged(c, prev) then Some((c.mood.GetOr(0), c.moodLabel.GetOr(""))) else None,
           if MemoryChanged(c, prev) then Some(c.memory.GetOr("")) else None)
  }

  /** The specification of the diff: the changed characters, in order. */
  function Diff(characters: seq<Character>, prev: map<string, State>): seq<Change> {
    if characters == [] then []
    else
      var c := characters[|characters| - 1];
      Diff(characters[..|characters| - 1], prev)
      + if MoodChanged(c, prev) || MemoryChanged(c, prev) then [ChangeOf(c, prev)] else []
  }

  method BuildCharacterDelta(characters: seq<Character>, prev: map<string, State>) returns (deltas: seq<Change>)
    ensures deltas == Diff(characters, prev)
  {
    deltas := [];
    for i := 0 to |characters|
      invariant deltas == Diff(characters[..i], prev)
    {
      var c := characters[i];
      var id := c.id.GetOr("");
      var previous := if id in prev then prev[id] else State(None, None);
      var change := Change(id, c.name.GetOr(id), None, None);
      var changed := false;
      if c.mood.GetOr(0) != previous.mood.GetOr(0) {
        change := change.(mood := Some((c.mood.GetOr(0), c.moodLabel.GetOr(""))));
        changed := true;
      }
      var memory := c.memory.GetOr("");
      if memory != "" && memory != previous.memory.GetOr("") {
        change := change.(memory := Some(memory));
        changed := true;
      }
      assert characters[..i + 1][..i] == characters[..i];
      if changed {
        assert change == ChangeOf(c, prev);
        deltas := deltas + [change];
      }
    }
    assert characters[..|characters|] == characters;
  }

  /** What the panel shows for a character: always both fields. */
  datatype Shown = Shown(mood: int, memory: string)

  function ShownAt(panel: map<string, Shown>, id: string): Shown {
    if id in panel then panel[id] else Shown(0, "")
  }

  function Patched(panel: map<string, Shown>, change: Change): map<string, Shown> {
    if change.id == "" then panel
    else
      var shown := ShownAt(panel, change.id);
      panel[change.id := Shown(if change.mood.Some? then change.mood.value.0 else shown.mood,
                               change.memory.GetOr(shown.memory))]
  }

  function Patch(panel: map<string, Shown>, deltas: seq<Change>): map<string, Shown> {
    if deltas == [] then panel
    else Patched(Patch(panel, deltas[..|deltas| - 1]), deltas[|deltas| - 1])
  }

  function Snapshot(states: map<string, State>): map<string, Shown> {
    map id | id in states :: Shown(states[id].mood.GetOr(0), states[id].memory.GetOr(""))
  }

  /** Names learnt from deltas: a later non-empty name wins. */
  function Named(names: map<string, string>, deltas: seq<Change>): map<string, string> {
    if deltas == [] then names
    else
      var before, last := Named(names, deltas[..|deltas| - 1]), deltas[|deltas| - 1];
      if last.id == "" || last.name == "" then before else before[last.id := last.name]
  }

  class CastPanel {
    var states: map<string, Shown>
    var names: map<string, string>

    constructor ()
      ensures states == map[] && names == map[]
    {
      states, names := map[], map[];
    }

    method SetSnapshot(characters: map<string, State>)
      modifies this
      ensures states == Snapshot(characters) && names == old(names)
    {
      states := map[];
      var rest := characters.Keys;
      while rest != {}
        invariant rest <= characters.Keys && names == old(names)
        invariant states == map id | id in characters.Keys - rest :: Snapshot(characters)[id]
      {
        var id :| id in rest;
        states := states[id := Shown(characters[id].mood.GetOr(0), characters[id].memory.GetOr(""))];
        rest := rest - {id};
      }
    }

    method ApplyDeltas(deltas: seq<Change>)
      modifies this
      ensures states == Patch(old(states), deltas) && names == Named(old(names), deltas)
    {
      for i := 0 to |deltas|
        invariant states == Patch(old(states), deltas[..i]) && names == Named(old(names), deltas[..i])
      {
        var entry := deltas[i];
        assert deltas[..i + 1][..i] == deltas[..i];
        if entry.id != "" {
          if entry.name != "" { names := names[entry.id := entry.name]; }
          var state := if entry.id in states then states[entry.id] else Shown(0, "");
          if entry.mood.Some? { state := state.(mood := entry.mood.value.0); }
          if entry.memory.Some? { state := state.(memory := entry.memory.value); }
          states := states[entry.id := state];
        }
      }
      assert deltas[..|deltas|] == deltas;
    }
  }
}

module CastDeltaProofs {
  import opened Common
  import opened CastDeltas

  /** Entry `i` is the last of the deltas to give character `id` a mood, a memory or a name. */
  ghost predicate LastMood(deltas: seq<Change>, id: string, i: int) {
    && 0 <= i < |deltas| && deltas[i].id == id && deltas[i].mood.Some?
    && forall j :: i < j < |deltas| && deltas[j].id == id ==> deltas[j].mood.None?
  }

  ghost predicate LastMemory(deltas: seq<Change>, id: string, i: int) {
    && 0 <= i < |deltas| && deltas[i].id == id && deltas[i].memory.Some?
    && forall j :: i < j < |deltas| && deltas[j].id == id ==> deltas[j].memory.None?
  }

  ghost predicate LastName(deltas: seq<Change>, id: string, i: int) {
    && 0 <= i < |deltas| && deltas[i].id == id && deltas[i].name != ""
    && forall j :: i < j < |deltas| && deltas[j].id == id ==> deltas[j].name == ""
  }

  lemma PatchedShows(panel: map<string, Shown>, change: Change, id: string)
    requires id != ""
    ensures var after := Patched(panel, change); var before := ShownAt(panel, id);
      if change.id != id then ShownAt(after, id) == before && (id in after <==> id in panel)
      else
        && id in after
        && after[id].mood == (if change.mood.Some? then change.mood.value.0 else before.mood)
        && after[id].memory == change.memory.GetOr(before.memory)
  {
  }

  lemma {:induction false} LastMoodWins(panel: map<string, Shown>, deltas: seq<Change>, id: string, i: int)
    requires id != ""
    ensures var after := Patch(panel, deltas);
      && (LastMood(deltas, id, i) ==> id in after && after[id].mood == deltas[i].mood.value.0)
      && ((forall d :: d in deltas && d.id == id ==> d.mood.None?) ==>
            ShownAt(after, id).mood == ShownAt(panel, id).mood)
  {
    if deltas != [] {
      var init, last := deltas[..|deltas| - 1], deltas[|deltas| - 1];
      LastMoodWins(panel, init, id, i);
      PatchedShows(Patch(panel, init), last, id);
      assert deltas == init + [last];
      assert LastMood(deltas, id, i) && i < |init| ==> LastMood(init, id, i) && (last.id == id ==> last.mood.None?);
    }
  }

  lemma {:induction false} LastMemoryWins(panel: map<string, Shown>, deltas: seq<Change>, id: string, i: int)
    requires id != ""
    ensures var after := Patch(panel, deltas);
      && (LastMemory(deltas, id, i) ==> id in after && after[id].memory == deltas[i].memory.value)
      && ((forall d :: d in deltas && d.id == id ==> d.memory.None?) ==>
            ShownAt(after, id).memory == ShownAt(panel, id).memory)
  {
    if deltas != [] {
      var init, last := deltas[..|deltas| - 1], deltas[|deltas| - 1];
      LastMemoryWins(panel, init, id, i);
      PatchedShows(Patch(panel, init), last, id);
      assert deltas == init + [last];
      assert LastMemory(deltas, id, i) && i < |init| ==>
               LastMemory(init, id, i) && (last.id == id ==> last.memory.None?);
    }
  }

  lemma {:induction false} LastNameWins(names: map<string, string>, deltas: seq<Change>, id: string, i: int)
    ensures var named := Named(names, deltas);
      && (id != "" && LastName(deltas, id, i) ==> id in named && named[id] == deltas[i].name)
      && ((forall d :: d in deltas && d.id == id ==> d.name == "") || id == "" ==>
            (id in named <==> id in names) && (id in names ==> named[id] == names[id]))
  {
    if deltas != [] {
      var init, last := deltas[..|deltas| - 1], deltas[|deltas| - 1];
      LastNameWins(names, init, id, i);
      assert deltas == init + [last];
      assert LastName(deltas, id, i) && i < |init| ==> LastName(init, id, i) && (last.id == id ==> last.name == "");
    }
  }

  lemma {:induction false} NoEmptyIdAppears(panel: map<string, Shown>, deltas: seq<Change>)
    ensures var after := Patch(panel, deltas);
      ("" in after <==> "" in panel) && ("" in panel ==> after[""] == panel[""])
  {
    if deltas != [] { NoEmptyIdAppears(panel, deltas[..|deltas| - 1]); }
  }

  /** Applying any deltas: the last word on each field of a character wins, a field nobody mentions stays,
      and an entry without an id, or without a name, changes nothing there. */
  lemma TheLastWordWins(panel: map<string, Shown>, names: map<string, string>, deltas: seq<Change>, id: string, i: int)
    ensures var after := Patch(panel, deltas); var named := Named(names, deltas);
      && (id != "" && LastMood(deltas, id, i) ==> id in after && after[id].mood == deltas[i].mood.value.0)
      && (id != "" && LastMemory(deltas, id, i) ==> id in after && after[id].memory == deltas[i].memory.value)
      && (id != "" && LastName(deltas, id, i) ==> id in named && named[id] == deltas[i].name)
      && (id == "" || (forall d :: d in deltas && d.id == id ==> d.mood.None?) ==>
            ShownAt(after, id).mood == ShownAt(panel, id).mood)
      && (id == "" || (forall d :: d in deltas && d.id == id ==> d.memory.None?) ==>
            ShownAt(after, id).memory == ShownAt(panel, id).memory)
      && (id == "" || (forall d :: d in deltas && d.id == id ==> d.name == "") ==>
            (id in named <==> id in names) && (id in names ==> named[id] == names[id]))
      && (id == "" ==> (id in after <==> id in panel))
  {
    LastNameWins(names, deltas, id, i);
    if id != "" {
      LastMoodWins(panel, deltas, id, i);
      LastMemoryWins(panel, deltas, id, i);
    } else {
      NoEmptyIdAppears(panel, deltas);
    }
  }

  /** The panel shows, for every id, what the server believes it shows. */
  ghost predicate InStep(panel: map<string, Shown>, prev: map<string, State>) {
    forall id: string :: ShownAt(panel, id) == Shown(MoodAt(prev, id), MemoryAt(prev, id))
  }

  ghost predicate DistinctIds(characters: seq<Character>) {
    && (forall c :: c in characters ==> IdOf(c) != "")
    && (forall i, j :: 0 <= i < j < |characters| ==> IdOf(characters[i]) != IdOf(characters[j]))
  }

  function Wanted(c: Character): Shown { Shown(c.mood.GetOr(0), c.memory.GetOr("")) }

  /** The one thing a delta cannot say: that a memory became empty. */
  predicate ClearsMemory(c: Character, prev: map<string, State>) {
    c.memory.GetOr("") == "" && MemoryAt(prev, IdOf(c)) != ""
  }

  predicate Changed(c: Character, prev: map<string, State>) {
    MoodChanged(c, prev) || MemoryChanged(c, prev)
  }

  /** What a listed character comes to show: a cleared memory stays. */
  function Updated(c: Character, prev: map<string, State>): Shown {
    if ClearsMemory(c, prev) then Wanted(c).(memory := MemoryAt(prev, IdOf(c))) else Wanted(c)
  }

  lemma DiffStep(panel: map<string, Shown>, names: map<string, string>, characters: seq<Character>,
                                    prev: map<string, State>)
    requires characters != []
    ensures var init, last := characters[..|characters| - 1], characters[|characters| - 1];
      var patched, named := Patch(panel, Diff(init, prev)), Named(names, Diff(init, prev));
      if Changed(last, prev) then
        && Patch(panel, Diff(characters, prev)) == Patched(patched, ChangeOf(last, prev))
        && Named(names, Diff(characters, prev)) == Named(named, [ChangeOf(last, prev)])
      else Patch(panel, Diff(characters, prev)) == patched && Named(names, Diff(characters, prev)) == named
  {
    var init, last := characters[..|characters| - 1], characters[|characters| - 1];
    var diff, change := Diff(init, prev), [ChangeOf(last, prev)];
    if Changed(last, prev) {
      assert Diff(characters, prev) == diff + change;
      assert (diff + change)[..|diff|] == diff && change[..0] == [];
    } else {
      assert Diff(characters, prev) == diff;
    }
  }

  lemma {:induction false} UnlistedIsUntouched(panel: map<string, Shown>, characters: seq<Character>,
                                               prev: map<string, State>, id: string)
    requires forall c :: c in characters ==> IdOf(c) != id
    ensures ShownAt(Patch(panel, Diff(characters, prev)), id) == ShownAt(panel, id)
    ensures id in Patch(panel, Diff(characters, prev)) <==> id in panel
  {
    if characters != [] {
      var init, c := characters[..|characters| - 1], characters[|characters| - 1];
      UnlistedIsUntouched(panel, init, prev, id);
      assert c in characters;
      DiffStep(panel, map[], characters, prev);
    }
  }

  lemma LastIsUpdated(panel: map<string, Shown>, characters: seq<Character>, prev: map<string, State>)
    requires InStep(panel, prev) && DistinctIds(characters) && characters != []
    ensures var c := characters[|characters| - 1];
      ShownAt(Patch(panel, Diff(characters, prev)), IdOf(c)) == Updated(c, prev)
  {
    var init, last := characters[..|characters| - 1], characters[|characters| - 1];
    assert last in characters;
    DiffStep(panel, map[], characters, prev);
    UnlistedIsUntouched(panel, init, prev, IdOf(last));
    assert ShownAt(panel, IdOf(last)) == Shown(MoodAt(prev, IdOf(last)), MemoryAt(prev, IdOf(last)));
  }

  lemma {:induction false} ListedIsUpdated(panel: map<string, Shown>, characters: seq<Character>,
                                           prev: map<string, State>, i: nat)
    requires InStep(panel, prev) && DistinctIds(characters) && i < |characters|
    ensures var c := characters[i];
      ShownAt(Patch(panel, Diff(characters, prev)), IdOf(c)) == Updated(c, prev)
  {
    var init, last := characters[..|characters| - 1], characters[|characters| - 1];
    if i < |init| {
      assert last in characters;
      ListedIsUpdated(panel, init, prev, i);
      DiffStep(panel, map[], characters, prev);
    } else {
      LastIsUpdated(panel, characters, prev);
    }
  }

  /** Patch undoes diff. Each listed character shows its new mood and memory exactly when its memory
      was not cleared; every other character is left alone. */
  lemma PatchUndoesDiff(panel: map<string, Shown>, characters: seq<Character>,
                                           prev: map<string, State>)
    requires InStep(panel, prev) && DistinctIds(characters)
    ensures var after := Patch(panel, Diff(characters, prev));
      && (forall i :: 0 <= i < |characters| ==>
            (ShownAt(after, IdOf(characters[i])) == Wanted(characters[i]) <==> !ClearsMemory(characters[i], prev)))
      && (forall id: string :: (forall c :: c in characters ==> IdOf(c) != id) ==>
            ShownAt(after, id) == ShownAt(panel, id) && (id in after <==> id in panel))
  {
    var after := Patch(panel, Diff(characters, prev));
    forall i | 0 <= i < |characters|
      ensures ShownAt(after, IdOf(characters[i])) == Wanted(characters[i]) <==> !ClearsMemory(characters[i], prev)
    {
      ListedIsUpdated(panel, characters, prev, i);
    }
    forall id: string | forall c :: c in characters ==> IdOf(c) != id
      ensures ShownAt(after, id) == ShownAt(panel, id) && (id in after <==> id in panel)
    {
      UnlistedIsUntouched(panel, characters, prev, id);
    }
  }

  /** An id is in the delta exactly when applying it would change something: an unchanged character
      costs nothing. */
  lemma {:induction false} OnlyChangesAreSent(characters: seq<Character>, prev: map<string, State>)
    ensures forall d :: d in Diff(characters, prev) ==>
      exists c :: c in characters && Changed(c, prev) && d == ChangeOf(c, prev)
    ensures forall c :: c in characters && Changed(c, prev) ==>
      ChangeOf(c, prev) in Diff(characters, prev)
  {
    if characters != [] {
      var init, last := characters[..|characters| - 1], characters[|characters| - 1];
      OnlyChangesAreSent(init, prev);
      assert characters == init + [last];
    }
  }

  /** `d` tells of `c`: its own id and, of its mood (with its label) and its memory, just what differs
      from the states it was taken against. */
  predicate TellsOf(d: Change, c: Character, prev: map<string, State>) {
    && d.id == c.id.GetOr("") && d.name == c.name.GetOr(d.id)
    && d.mood == (if c.mood.GetOr(0) == MoodAt(prev, d.id) then None
                  else Some((c.mood.GetOr(0), c.moodLabel.GetOr(""))))
    && d.memory == (if c.memory.GetOr("") in ["", MemoryAt(prev, d.id)] then None else c.memory)
    && (d.mood.Some? || d.memory.Some?)
  }

  /** Every entry tells of some character, and of every character of which there is something to tell
      there is an entry. */
  lemma EntriesSayWhatChanged(characters: seq<Character>, prev: map<string, State>)
    ensures forall d :: d in Diff(characters, prev) ==> exists c :: c in characters && TellsOf(d, c, prev)
    ensures forall c :: c in characters && !(exists d :: d in Diff(characters, prev) && TellsOf(d, c, prev)) ==>
      && c.mood.GetOr(0) == MoodAt(prev, c.id.GetOr(""))
      && c.memory.GetOr("") in ["", MemoryAt(prev, c.id.GetOr(""))]
  {
    OnlyChangesAreSent(characters, prev);
    forall c | c in characters && Changed(c, prev) ensures TellsOf(ChangeOf(c, prev), c, prev) {
    }
  }

  /** The panel learns the name of every character that changed: its own, or else its id. */
  lemma {:induction false} ChangedNamesAreLearnt(names: map<string, string>, characters: seq<Character>,
                                                 prev: map<string, State>, i: nat)
    requires DistinctIds(characters) && i < |characters|
    requires Changed(characters[i], prev)
    requires characters[i].name != Some("")
    ensures var after := Named(names, Diff(characters, prev)); var c := characters[i];
      IdOf(c) in after && after[IdOf(c)] == c.name.GetOr(IdOf(c))
  {
    var init, last := characters[..|characters| - 1], characters[|characters| - 1];
    assert last in characters && characters[i] in characters;
    DiffStep(map[], names, characters, prev);
    assert [ChangeOf(last, prev)][..0] == [];
    if i < |init| {
      ChangedNamesAreLearnt(names, init, prev, i);
    }
  }

  // ---- sequences of updates ----

  /** The server's view after an update, when each delta is taken against what the client shows. */
  function ViewOf(panel: map<string, Shown>): map<string, State> {
    map id | id in panel :: State(Some(panel[id].mood), Some(panel[id].memory))
  }

  lemma ViewsAreInStep(panel: map<string, Shown>, states: map<string, State>)
    ensures InStep(panel, ViewOf(panel))
    ensures InStep(Snapshot(states), states)
  {
  }

  function Updates(panel: map<string, Shown>, scripts: seq<seq<Character>>): map<string, Shown> {
    if scripts == [] then panel
    else
      var before := Updates(panel, scripts[..|scripts| - 1]);
      Patch(before, Diff(scripts[|scripts| - 1], ViewOf(before)))
  }

  function Entry(script: seq<Character>, id: string): Option<Character> {
    if script == [] then None
    else if IdOf(script[|script| - 1]) == id then Some(script[|script| - 1])
    else Entry(script[..|script| - 1], id)
  }

  /** What the scripts last said about a character, starting from what the panel showed: its latest
      mood and its latest non-empty memory. */
  function Latest(shown: Shown, scripts: seq<seq<Character>>, id: string): Shown {
    if scripts == [] then shown
    else
      var entry := Entry(scripts[|scripts| - 1], id);
      var before := Latest(shown, scripts[..|scripts| - 1], id);
      if entry.None? then before
      else if Wanted(entry.value).memory == "" then Wanted(entry.value).(memory := before.memory)
      else Wanted(entry.value)
  }

  lemma {:induction false} EntryIsListed(script: seq<Character>, id: string)
    ensures match Entry(script, id)
      case Some(c) => IdOf(c) == id && exists i :: 0 <= i < |script| && script[i] == c
      case None => forall c :: c in script ==> IdOf(c) != id
  {
    if script != [] {
      var init, last := script[..|script| - 1], script[|script| - 1];
      assert script == init + [last];
      if IdOf(last) == id {
        assert script[|script| - 1] == last;
      } else {
        EntryIsListed(init, id);
        if Entry(init, id).Some? {
          var i :| 0 <= i < |init| && init[i] == Entry(init, id).value;
          assert script[i] == Entry(init, id).value;
        }
      }
    }
  }

  /** The law lifts to any sequence of updates, each diffed against what the client then shows:
      the panel always shows each character's latest mood and latest non-empty memory. */
  lemma {:induction false} PanelShowsTheLatest(panel: map<string, Shown>, scripts: seq<seq<Character>>, id: string)
    requires forall k :: 0 <= k < |scripts| ==> DistinctIds(scripts[k])
    ensures ShownAt(Updates(panel, scripts), id) == Latest(ShownAt(panel, id), scripts, id)
  {
    if scripts != [] {
      var n := |scripts| - 1;
      var init, script := scripts[..n], scripts[n];
      forall k | 0 <= k < n ensures init[..k] == scripts[..k] && init[k] == scripts[k] {
      }
      PanelShowsTheLatest(panel, init, id);
      var before := Updates(panel, init);
      ViewsAreInStep(before, map[]);
      EntryIsListed(script, id);
      if Entry(script, id).Some? {
        var i :| 0 <= i < |script| && script[i] == Entry(script, id).value;
        ListedIsUpdated(before, script, ViewOf(before), i);
      } else {
        UnlistedIsUntouched(before, script, ViewOf(before), id);
      }
    }
  }

  // ---- what the server broadcasts ----

  /** The generator copies the stored mood and memory into each character; diffed against those
      same states, as the ingestor does, the delta is always empty. */
  lemma {:induction false} DeltaAgainstOwnStatesIsEmpty(characters: seq<Character>, states: map<string, State>)
    requires forall c :: c in characters ==>
      c.mood.GetOr(0) == MoodAt(states, IdOf(c)) && c.memory.GetOr("") == MemoryAt(states, IdOf(c))
    ensures Diff(characters, states) == []
  {
    if characters != [] {
      assert characters[|characters| - 1] in characters;
      assert forall c :: c in characters[..|characters| - 1] ==> c in characters;
      DeltaAgainstOwnStatesIsEmpty(characters[..|characters| - 1], states);
    }
  }
}
