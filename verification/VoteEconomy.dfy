/** Community votes on the direction of each script. */
module VoteSteps {
  import opened Common

  const DIRECTIONS := ["msisimko", "furaha", "wasiwasi", "utulivu"]
  const DEFAULT_DIRECTION := "utulivu"

  predicate IsDirection(d: string) { d in DIRECTIONS }

  /** The stored votes: a dictionary of scripts in order of their first vote, each with one
      direction per client. */
  datatype Votes = Votes(order: seq<string>, byScript: map<string, map<string, string>>)

  function Empty(): Votes { Votes([], map[]) }

  function BallotsOf(v: Votes, script: string): map<string, string> {
    if script in v.byScript then v.byScript[script] else map[]
  }

  /** Nothing changes for an unknown direction or a repeated vote. */
  predicate Changes(v: Votes, script: string, client: string, direction: string) {
    && IsDirection(direction)
    && !(client in BallotsOf(v, script) && BallotsOf(v, script)[client] == direction)
  }

  function Record(v: Votes, script: string, client: string, direction: string): Votes {
    if !Changes(v, script, client, direction) then v
    else Votes(if script in v.byScript then v.order else v.order + [script],
               v.byScript[script := BallotsOf(v, script)[client := direction]])
  }

  function Voters(ballots: map<string, string>, direction: string): set<string> {
    set client | client in ballots && ballots[client] == direction
  }

  /** How many clients currently stand for each direction, in the fixed order of directions. */
  function Tally(ballots: map<string, string>): seq<nat> {
    [|Voters(ballots, DIRECTIONS[0])|, |Voters(ballots, DIRECTIONS[1])|,
     |Voters(ballots, DIRECTIONS[2])|, |Voters(ballots, DIRECTIONS[3])|]
  }

  function Total(counts: seq<nat>): nat {
    if counts == [] then 0 else counts[0] + Total(counts[1..])
  }

  /** The first position of the largest count. */
  function FirstMax(counts: seq<nat>): (best: nat)
    requires counts != []
    ensures best < |counts|
  {
    if |counts| == 1 then 0
    else
      var before := FirstMax(counts[..|counts| - 1]);
      if counts[|counts| - 1] > counts[before] then |counts| - 1 else before
  }

  function Winner(ballots: map<string, string>): string {
    if Total(Tally(ballots)) == 0 then DEFAULT_DIRECTION else DIRECTIONS[FirstMax(Tally(ballots))]
  }

  function Pulse(v: Votes): string {
    if v.order == [] then DEFAULT_DIRECTION else Winner(BallotsOf(v, v.order[|v.order| - 1]))
  }

  function Influence(v: Votes, client: string): nat {
    |set script | script in v.byScript && client in v.byScript[script]|
  }
}

/** Counting ballots one client at a time. */
module TallyLemmas {
  import opened VoteSteps

  ghost predicate CountedUpTo(counts: map<string, nat>, seen: map<string, string>) {
    forall d :: d in counts ==> counts[d] == |Voters(seen, d)|
  }

  lemma CountsOneMore(counts: map<string, nat>, seen: map<string, string>, client: string, direction: string)
    requires CountedUpTo(counts, seen) && client !in seen && direction in counts
    ensures CountedUpTo(counts[direction := counts[direction] + 1], seen[client := direction])
  {
    forall d | d in counts
      ensures |Voters(seen[client := direction], d)| == |Voters(seen, d)| + if direction == d then 1 else 0
    {
      VotersOneMore(seen, client, direction, d);
    }
  }

  lemma DirectionsDiffer(i: nat, k: nat)
    requires i < 4 && k < 4
    ensures DIRECTIONS[i] == DIRECTIONS[k] <==> i == k
  {
    assert |DIRECTIONS[0]| == 8 && |DIRECTIONS[1]| == 6 && |DIRECTIONS[2]| == 8 && |DIRECTIONS[3]| == 7;
    assert DIRECTIONS[0][0] == 'm' && DIRECTIONS[2][0] == 'w';
  }

  lemma VotersOneMore(seen: map<string, string>, client: string, direction: string, other: string)
    requires client !in seen
    ensures |Voters(seen[client := direction], other)| == |Voters(seen, other)| + if direction == other then 1 else 0
  {
    var after := Voters(seen[client := direction], other);
    assert client !in Voters(seen, other);
    assert after == if direction == other then Voters(seen, other) + {client} else Voters(seen, other);
  }

  lemma TallyOneMore(seen: map<string, string>, client: string, i: nat)
    requires client !in seen && i < 4
    ensures Tally(seen[client := DIRECTIONS[i]]) == Tally(seen)[i := Tally(seen)[i] + 1]
  {
    VotersOneMore(seen, client, DIRECTIONS[i], DIRECTIONS[0]);
    VotersOneMore(seen, client, DIRECTIONS[i], DIRECTIONS[1]);
    VotersOneMore(seen, client, DIRECTIONS[i], DIRECTIONS[2]);
    VotersOneMore(seen, client, DIRECTIONS[i], DIRECTIONS[3]);
    DirectionsDiffer(i, 0);
    DirectionsDiffer(i, 1);
    DirectionsDiffer(i, 2);
    DirectionsDiffer(i, 3);
  }
}

module VoteServices {
  import opened Common
  import opened VoteSteps
  import opened TallyLemmas

  datatype Recorded = Accepted(changed: bool) | InvalidDirection

  class VoteService {
    var votes: Votes  // the persisted file

    constructor ()
      ensures votes == Empty()
    {
      votes := Empty();
    }

    method RecordVote(script: string, client: string, direction: string) returns (r: Recorded)
      modifies this
      ensures votes == Record(old(votes), script, client, direction)
      ensures r.InvalidDirection? <==> direction !in ["msisimko", "furaha", "wasiwasi", "utulivu"]
      ensures r.Accepted? ==> (r.changed <==> votes != old(votes))
    {
      if direction !in DIRECTIONS { return InvalidDirection; }
      var order, byScript := votes.order, votes.byScript;
      if script !in byScript {
        order, byScript := order + [script], byScript[script := map[]];
      }
      var ballots := byScript[script];
      if client in ballots && ballots[client] == direction { return Accepted(false); }
      votes := Votes(order, byScript[script := ballots[client := direction]]);
      return Accepted(true);
    }

    /** One pass over the ballots of a script. */
    method CountVotes(script: string) returns (counts: map<string, nat>)
      requires forall client :: client in BallotsOf(votes, script) ==> IsDirection(BallotsOf(votes, script)[client])
      ensures forall d :: d in counts <==> IsDirection(d)
      ensures forall d :: d in counts ==> counts[d] == |Voters(BallotsOf(votes, script), d)|
    {
      var ballots := if script in votes.byScript then votes.byScript[script] else map[];
      assert ballots == BallotsOf(votes, script);
      counts := map d | d in DIRECTIONS :: 0;
      var rest := ballots.Keys;
      ghost var seen: map<string, string> := map[];
      while rest != {}
        invariant rest <= ballots.Keys && seen == ballots - rest
        invariant forall d :: d in counts <==> IsDirection(d)
        invariant CountedUpTo(counts, seen)
      {
        var client :| client in rest;
        var direction := ballots[client];
        assert IsDirection(direction);
        CountsOneMore(counts, seen, client, direction);
        counts := counts[direction := counts[direction] + 1];
        rest := rest - {client};
        seen := seen[client := direction];
        assert seen == ballots - rest;
      }
      assert ballots - {} == ballots;
    }
  }
}

module VoteProofs {
  import opened Common
  import opened VoteSteps
  import opened TallyLemmas

  datatype Vote = Vote(script: string, client: string, direction: string)

  ghost function Run(history: seq<Vote>): Votes {
    if history == [] then Empty()
    else
      var last := history[|history| - 1];
      Record(Run(history[..|history| - 1]), last.script, last.client, last.direction)
  }

  /** The latest valid vote of a client on a script. */
  function Latest(history: seq<Vote>, script: string, client: string): Option<string> {
    if history == [] then None
    else
      var last := history[|history| - 1];
      if last.script == script && last.client == client && IsDirection(last.direction) then Some(last.direction)
      else Latest(history[..|history| - 1], script, client)
  }

  ghost predicate Consistent(v: Votes) {
    && (forall i, j :: 0 <= i < j < |v.order| ==> v.order[i] != v.order[j])
    && (forall s :: s in v.order <==> s in v.byScript)
    && (forall s, c :: s in v.byScript && c in v.byScript[s] ==> IsDirection(v.byScript[s][c]))
  }

  lemma {:induction false} RunIsConsistent(history: seq<Vote>)
    ensures Consistent(Run(history))
  {
    if history != [] {
      RunIsConsistent(history[..|history| - 1]);
    }
  }

  /** The stored ballot of every client is its latest valid vote. */
  lemma {:induction false} BallotIsLatestVote(history: seq<Vote>, script: string, client: string)
    ensures var ballots := BallotsOf(Run(history), script);
      Latest(history, script, client) == if client in ballots then Some(ballots[client]) else None
  {
    if history != [] {
      BallotIsLatestVote(history[..|history| - 1], script, client);
    }
  }

  function Supporters(history: seq<Vote>, script: string, direction: string): set<string> {
    set i | 0 <= i < |history| && Latest(history, script, history[i].client) == Some(direction) :: history[i].client
  }

  lemma {:induction false} LatestHasAVote(history: seq<Vote>, script: string, client: string)
    requires Latest(history, script, client).Some?
    ensures exists i :: 0 <= i < |history| && history[i].client == client
  {
    var n := |history| - 1;
    if !(history[n].script == script && history[n].client == client && IsDirection(history[n].direction)) {
      LatestHasAVote(history[..n], script, client);
      var i :| 0 <= i < n && history[..n][i].client == client;
      assert history[i].client == client;
    } else {
      assert history[n].client == client;
    }
  }

  /** The tally for a direction is the number of clients whose latest valid vote is that direction. */
  lemma {:induction false} TallyCountsLatestVotes(history: seq<Vote>, script: string, k: nat)
    requires k < 4
    ensures Tally(BallotsOf(Run(history), script))[k] == |Supporters(history, script, DIRECTIONS[k])|
  {
    var ballots := BallotsOf(Run(history), script);
    forall client
      ensures client in Voters(ballots, DIRECTIONS[k]) <==> client in Supporters(history, script, DIRECTIONS[k])
    {
      BallotIsLatestVote(history, script, client);
      if client in Voters(ballots, DIRECTIONS[k]) {
        LatestHasAVote(history, script, client);
      }
    }
    assert Voters(ballots, DIRECTIONS[k]) == Supporters(history, script, DIRECTIONS[k]);
  }

  lemma {:induction false} FirstMaxIsFirstMaximum(counts: seq<nat>)
    requires counts != []
    ensures forall i :: 0 <= i < |counts| ==> counts[i] <= counts[FirstMax(counts)]
    ensures forall i :: 0 <= i < FirstMax(counts) ==> counts[i] < counts[FirstMax(counts)]
  {
    if |counts| > 1 {
      FirstMaxIsFirstMaximum(counts[..|counts| - 1]);
    }
  }

  lemma NoBallots()
    ensures Total(Tally(map[])) == 0
  {
    TotalOfFour(Tally(map[]));
    assert Voters(map[], DIRECTIONS[0]) == Voters(map[], DIRECTIONS[1]) == {};
    assert Voters(map[], DIRECTIONS[2]) == Voters(map[], DIRECTIONS[3]) == {};
  }

  lemma TotalOneMore(rest: map<string, string>, c: string, i: nat)
    requires c !in rest && i < 4
    ensures Total(Tally(rest[c := DIRECTIONS[i]])) == Total(Tally(rest)) + 1
  {
    TallyOneMore(rest, c, i);
    TotalOfFour(Tally(rest));
    TotalOfFour(Tally(rest[c := DIRECTIONS[i]]));
  }

  lemma {:induction false} TotalIsVoters(ballots: map<string, string>)
    requires forall c :: c in ballots ==> IsDirection(ballots[c])
    ensures Total(Tally(ballots)) == |ballots|
    decreases |ballots|
  {
    if c :| c in ballots {
      var rest := ballots - {c};
      TotalIsVoters(rest);
      assert IsDirection(ballots[c]);
      var i :| 0 <= i < 4 && DIRECTIONS[i] == ballots[c];
      assert rest[c := DIRECTIONS[i]] == ballots;
      TotalOneMore(rest, c, i);
    } else {
      assert ballots == map[];
      NoBallots();
    }
  }

  lemma TotalOfFour(counts: seq<nat>)
    requires |counts| == 4
    ensures Total(counts) == counts[0] + counts[1] + counts[2] + counts[3]
  {
    assert Total(counts[1..]) == counts[1] + Total(counts[1..][1..]);
    assert Total(counts[1..][1..]) == counts[2] + Total(counts[1..][1..][1..]);
    assert Total(counts[1..][1..][1..]) == counts[3];
  }

  /** Direction `w` has the most supporters, and more than any direction listed before it. */
  ghost predicate Leads(history: seq<Vote>, script: string, w: nat) {
    && w < 4
    && (forall k :: 0 <= k < 4 ==>
          |Supporters(history, script, DIRECTIONS[k])| <= |Supporters(history, script, DIRECTIONS[w])|)
    && (forall k :: 0 <= k < w ==>
          |Supporters(history, script, DIRECTIONS[k])| < |Supporters(history, script, DIRECTIONS[w])|)
  }

  /** The winner has the most supporters, and more than any direction listed before it; a script
      nobody voted on resolves to the default. */
  lemma {:induction false} WinnerIsFirstMaximum(history: seq<Vote>, script: string)
    ensures var winner := Winner(BallotsOf(Run(history), script));
      if forall client :: Latest(history, script, client).None? then winner == "utulivu"
      else exists w: nat :: Leads(history, script, w)
                            && winner == ["msisimko", "furaha", "wasiwasi", "utulivu"][w]
  {
    var ballots := BallotsOf(Run(history), script);
    RunIsConsistent(history);
    TotalIsVoters(ballots);
    forall client ensures Latest(history, script, client).None? <==> client !in ballots {
      BallotIsLatestVote(history, script, client);
    }
    if forall client :: Latest(history, script, client).None? {
      assert ballots == map[];
    } else {
      var client :| Latest(history, script, client).Some?;
      assert client in ballots;
      var w := FirstMax(Tally(ballots));
      FirstMaxIsFirstMaximum(Tally(ballots));
      forall k | 0 <= k < 4
        ensures Tally(ballots)[k] == |Supporters(history, script, DIRECTIONS[k])|
      {
        TallyCountsLatestVotes(history, script, k);
      }
      assert Leads(history, script, w) && Winner(ballots) == DIRECTIONS[w];
    }
  }

  lemma {:induction false} OnlyValidVotesMakeBallots(history: seq<Vote>)
    requires forall i :: 0 <= i < |history| ==> history[i].direction !in ["msisimko", "furaha", "wasiwasi", "utulivu"]
    ensures Run(history) == Empty()
  {
    if history != [] { OnlyValidVotesMakeBallots(history[..|history| - 1]); }
  }

  /** Until somebody casts a valid vote, the pulse is neutral and invalid votes leave no trace. */
  lemma {:induction false} PulseStartsNeutral(history: seq<Vote>)
    requires forall i :: 0 <= i < |history| ==> history[i].direction !in ["msisimko", "furaha", "wasiwasi", "utulivu"]
    ensures Run(history).order == [] && Pulse(Run(history)) == "utulivu"
  {
    OnlyValidVotesMakeBallots(history);
  }

  // ---- conservation ----

  /** The (script, client) pairs with a standing vote. */
  function Standing(v: Votes, scripts: set<string>, clients: set<string>): set<(string, string)> {
    set s, c | s in scripts && c in clients && s in v.byScript && c in v.byScript[s] :: (s, c)
  }

  function SumTotals(v: Votes, scripts: seq<string>): nat {
    if scripts == [] then 0 else Total(Tally(BallotsOf(v, scripts[0]))) + SumTotals(v, scripts[1..])
  }

  function SumInfluence(v: Votes, clients: seq<string>): nat {
    if clients == [] then 0 else Influence(v, clients[0]) + SumInfluence(v, clients[1..])
  }

  function Members(s: seq<string>): set<string> { set x | x in s }

  lemma {:induction false} PairsWithScript(s: string, clients: set<string>)
    ensures |set c | c in clients :: (s, c)| == |clients|
  {
    var pairs := set c | c in clients :: (s, c);
    if c :| c in clients {
      PairsWithScript(s, clients - {c});
      assert pairs == (set d | d in clients - {c} :: (s, d)) + {(s, c)};
    } else {
      assert clients == {} && pairs == {};
    }
  }

  lemma {:induction false} PairsWithClient(scripts: set<string>, c: string)
    ensures |set s | s in scripts :: (s, c)| == |scripts|
  {
    var pairs := set s | s in scripts :: (s, c);
    if s :| s in scripts {
      PairsWithClient(scripts - {s}, c);
      assert pairs == (set d | d in scripts - {s} :: (d, c)) + {(s, c)};
    } else {
      assert scripts == {} && pairs == {};
    }
  }

  lemma StandingSplits(v: Votes, s: string, rest: set<string>, clients: set<string>)
    requires s !in rest && BallotsOf(v, s).Keys <= clients
    ensures var mine := set c | c in BallotsOf(v, s).Keys :: (s, c);
      && Standing(v, {s} + rest, clients) == mine + Standing(v, rest, clients)
      && mine !! Standing(v, rest, clients)
  {
  }

  lemma {:induction false} CountByScript(v: Votes, scripts: seq<string>, clients: set<string>)
    requires Distinct(scripts)
    requires forall s :: s in scripts ==> Total(Tally(BallotsOf(v, s))) == |BallotsOf(v, s).Keys|
    requires forall s :: s in scripts ==> BallotsOf(v, s).Keys <= clients
    ensures |Standing(v, Members(scripts), clients)| == SumTotals(v, scripts)
  {
    if scripts == [] {
      assert Standing(v, Members(scripts), clients) == {};
    } else {
      var s, rest := scripts[0], scripts[1..];
      CountByScript(v, rest, clients);
      assert Members(scripts) == {s} + Members(rest) && s !in Members(rest);
      StandingSplits(v, s, Members(rest), clients);
      PairsWithScript(s, BallotsOf(v, s).Keys);
    }
  }

  function VotedOn(v: Votes, c: string): set<string> {
    set s | s in v.byScript && c in v.byScript[s]
  }

  lemma StandingSplitsByClient(v: Votes, c: string, rest: set<string>)
    requires c !in rest
    ensures var mine := set s | s in VotedOn(v, c) :: (s, c);
      && Standing(v, v.byScript.Keys, {c} + rest) == mine + Standing(v, v.byScript.Keys, rest)
      && mine !! Standing(v, v.byScript.Keys, rest)
  {
  }

  lemma MembersCons(x: string, rest: seq<string>)
    ensures Members([x] + rest) == {x} + Members(rest)
    ensures Distinct([x] + rest) ==> x !in Members(rest)
  {
    forall y | y in rest && Distinct([x] + rest) ensures y != x {
      var i :| 0 <= i < |rest| && rest[i] == y;
      assert ([x] + rest)[i + 1] == y && ([x] + rest)[0] == x;
    }
  }

  lemma {:induction false} CountByClient(v: Votes, clients: seq<string>)
    requires Distinct(clients)
    ensures |Standing(v, v.byScript.Keys, Members(clients))| == SumInfluence(v, clients)
  {
    if clients == [] {
      assert Standing(v, v.byScript.Keys, Members(clients)) == {};
    } else {
      var c, rest := clients[0], clients[1..];
      CountByClient(v, rest);
      MembersCons(c, rest);
      assert clients == [c] + rest;
      StandingSplitsByClient(v, c, Members(rest));
      PairsWithClient(VotedOn(v, c), c);
    }
  }

  /** The influence of all clients adds up to the votes of all scripts. */
  lemma {:induction false} InfluenceEqualsVotes(history: seq<Vote>, clients: seq<string>)
    requires Distinct(clients)
    requires forall i :: 0 <= i < |history| ==> history[i].client in clients
    ensures SumInfluence(Run(history), clients) == SumTotals(Run(history), Run(history).order)
  {
    var v := Run(history);
    RunIsConsistent(history);
    forall s, c | s in v.byScript && c in v.byScript[s] ensures c in Members(clients) {
      BallotIsLatestVote(history, s, c);
      LatestHasAVote(history, s, c);
    }
    assert Members(v.order) == v.byScript.Keys;
    forall s | s in v.order
      ensures Total(Tally(BallotsOf(v, s))) == |BallotsOf(v, s).Keys| && BallotsOf(v, s).Keys <= Members(clients)
    {
      TotalIsVoters(BallotsOf(v, s));
    }
    CountByScript(v, v.order, Members(clients));
    CountByClient(v, clients);
  }

  // ---- the pulse ----

  /** The scripts in order of their first valid vote. */
  function FirstVotes(history: seq<Vote>): seq<string> {
    if history == [] then []
    else
      var before, last := FirstVotes(history[..|history| - 1]), history[|history| - 1];
      if IsDirection(last.direction) && last.script !in before then before + [last.script] else before
  }

  /** The pulse is the winner of the script whose FIRST vote is the most recent, not of the script
      voted on last: after a vote it follows the voted script exactly when that script was new or
      already the newest. */
  lemma {:induction false} PulseFollowsTheNewestScript(history: seq<Vote>, script: string, client: string,
                                                       direction: string)
    requires IsDirection(direction)
    ensures var firsts := FirstVotes(history); var after := Run(history + [Vote(script, client, direction)]);
      && after.order != []
      && Pulse(after) == Winner(BallotsOf(after, after.order[|after.order| - 1]))
      && (after.order[|after.order| - 1] == script <==>
            script !in firsts || firsts[|firsts| - 1] == script)
  {
    OrderIsFirstVotes(history);
    RunIsConsistent(history);
    RunOneMore(history, Vote(script, client, direction));
    NewestAfterAVote(Run(history), script, client, direction);
  }

  lemma {:induction false} RunOneMore(history: seq<Vote>, v: Vote)
    ensures Run(history + [v]) == Record(Run(history), v.script, v.client, v.direction)
  {
    var next := history + [v];
    assert next[..|next| - 1] == history;
  }

  lemma NewestAfterAVote(v: Votes, script: string, client: string, direction: string)
    requires IsDirection(direction) && Consistent(v)
    ensures var after := Record(v, script, client, direction);
      && after.order != []
      && (after.order[|after.order| - 1] == script <==> script !in v.order || v.order[|v.order| - 1] == script)
  {
  }

  lemma {:induction false} OrderIsFirstVotes(history: seq<Vote>)
    ensures Run(history).order == FirstVotes(history)
  {
    if history != [] {
      OrderIsFirstVotes(history[..|history| - 1]);
      RunIsConsistent(history[..|history| - 1]);
    }
  }
}
