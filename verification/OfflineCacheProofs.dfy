/** What the eviction loop achieves. */
module EvictionProofs {
  import opened Common
  import opened Manifests
  import opened CacheFiles
  import opened CacheSteps

  /** The stories the loop evicts, in order. */
  function Victims(m: Manifest, maxStories: int, maxBytes: int): seq<string>
    decreases |m.order|
  {
    if OverLimit(m, maxStories, maxBytes) && LeastRecent(m) != "" then
      assert LeastRecent(m) in m.order;
      [LeastRecent(m)] + Victims(Erase(m, LeastRecent(m)), maxStories, maxBytes)
    else []
  }

  function Drop(m: Manifest, ids: seq<string>): Manifest
    decreases |ids|
  {
    if ids == [] then m else Drop(Erase(m, ids[0]), ids[1..])
  }

  // ---- the total, and what the limits mean ----

  /** The total is the sum of all entries' bytes, each counted once. */
  lemma TotalIsSum(m: Manifest)
    ensures TotalBytes(m) == SumOf(BytesOf(m.entries))
  {
    SumIsSum(BytesOf(m.entries), m.order);
  }

  lemma TotalAfterPut(m: Manifest, id: string, e: Entry)
    ensures TotalBytes(Put(m, id, e)) ==
            TotalBytes(m) + e.bytes - (if id in m.entries then m.entries[id].bytes else 0)
  {
    TotalIsSum(m);
    TotalIsSum(Put(m, id, e));
    BytesWith(m.entries, id, e);
    SumUpdate(BytesOf(m.entries), id, e.bytes);
  }

  lemma BytesWith(entries: map<string, Entry>, id: string, e: Entry)
    ensures BytesOf(entries[id := e]) == BytesOf(entries)[id := e.bytes]
  {
  }

  lemma TotalAfterErase(m: Manifest, id: string)
    ensures TotalBytes(Erase(m, id)) == TotalBytes(m) - (if id in m.entries then m.entries[id].bytes else 0)
  {
    TotalIsSum(m);
    TotalIsSum(Erase(m, id));
    BytesWithout(m.entries, id);
    if id in m.entries { SumSplit(BytesOf(m.entries), id); }
  }

  lemma BytesWithout(entries: map<string, Entry>, id: string)
    ensures BytesOf(entries - {id}) == BytesOf(entries) - {id}
    ensures id !in entries ==> BytesOf(entries - {id}) == BytesOf(entries)
  {
  }

  /** An empty cache has no bytes; storing an entry adds its bytes in place of those it had, and
      erasing it takes them away. */
  lemma TotalLaws(m: Manifest, id: string, e: Entry)
    ensures TotalBytes(Manifest([], map[])) == 0
    ensures TotalBytes(Put(m, id, e)) ==
            TotalBytes(m) + e.bytes - (if id in m.entries then m.entries[id].bytes else 0)
    ensures TotalBytes(Erase(m, id)) == TotalBytes(m) - (if id in m.entries then m.entries[id].bytes else 0)
  {
    TotalAfterPut(m, id, e);
    TotalAfterErase(m, id);
  }

  ghost predicate WithinLimits(entries: map<string, Entry>, maxStories: int, maxBytes: int) {
    |entries| <= maxStories && SumOf(BytesOf(entries)) <= maxBytes
  }

  lemma {:induction false} AsManyAsKeys(keys: seq<string>)
    requires Distinct(keys)
    ensures |keys| == |set k | k in keys|
  {
    if keys != [] {
      var init, last := keys[..|keys| - 1], keys[|keys| - 1];
      AsManyAsKeys(init);
      assert keys == init + [last];
      assert (set k | k in keys) == (set k | k in init) + {last};
    }
  }

  lemma LimitsMean(m: Manifest, maxStories: int, maxBytes: int)
    ensures OverLimit(m, maxStories, maxBytes) <==> !WithinLimits(m.entries, maxStories, maxBytes)
  {
    TotalIsSum(m);
    AsManyAsKeys(m.order);
    assert (set k | k in m.order) == m.entries.Keys;
    assert |m.entries| == |m.entries.Keys|;
  }

  // ---- the victims ----

  ghost predicate Before(order: seq<string>, a: string, b: string) {
    exists i, j :: 0 <= i < j < |order| && order[i] == a && order[j] == b
  }

  lemma {:induction false} WithoutKeepsOrder(order: seq<string>, id: string, a: string, b: string)
    requires Distinct(order) && a != id && b != id
    ensures Before(Without(order, id), a, b) <==> Before(order, a, b)
  {
    if order != [] {
      var rest := order[1..];
      assert order == [order[0]] + rest;
      WithoutKeepsOrder(rest, id, a, b);
      BeforeCons(order[0], rest, a, b);
      BeforeCons(order[0], Without(rest, id), a, b);
    }
  }

  lemma BeforeCons(x: string, rest: seq<string>, a: string, b: string)
    ensures Before([x] + rest, a, b) <==> (x == a && b in rest) || Before(rest, a, b)
  {
    var order := [x] + rest;
    if Before(order, a, b) {
      var i, j :| 0 <= i < j < |order| && order[i] == a && order[j] == b;
      assert rest[j - 1] == b;
      if i > 0 { assert rest[i - 1] == a; }
    }
    if Before(rest, a, b) {
      var i, j :| 0 <= i < j < |rest| && rest[i] == a && rest[j] == b;
      assert order[i + 1] == a && order[j + 1] == b;
    }
    if x == a && b in rest {
      var j :| 0 <= j < |rest| && rest[j] == b;
      assert order[0] == a && order[j + 1] == b;
    }
  }

  /** The dictionary lists stories in the order they were first stored: storing one again does not move
      it, a new one comes after all others, and erasing one leaves the others in place. */
  lemma KeysKeepTheirOrder(m: Manifest, id: string, e: Entry, a: string, b: string)
    requires a in m.entries && b in m.entries
    ensures Before(Put(m, id, e).order, a, b) <==> Before(m.order, a, b)
    ensures id !in m.entries ==> Before(Put(m, id, e).order, a, id)
    ensures a != id && b != id ==> (Before(Erase(m, id).order, a, b) <==> Before(m.order, a, b))
  {
    var order := Put(m, id, e).order;
    if Before(m.order, a, b) {
      var i, j :| 0 <= i < j < |m.order| && m.order[i] == a && m.order[j] == b;
      assert order[i] == a && order[j] == b;
    }
    if Before(order, a, b) {
      var i, j :| 0 <= i < j < |order| && order[i] == a && order[j] == b;
      assert m.order[i] == a && m.order[j] == b;
    }
    if id !in m.entries {
      assert a in m.order;
      var i :| 0 <= i < |m.order| && m.order[i] == a;
      assert order[i] == a && order[|m.order|] == id;
    }
    if a != id && b != id { WithoutKeepsOrder(m.order, id, a, b); }
  }

  /** Of several least recently used stories, the victim is the first in dictionary order. */
  lemma {:induction false} OldestIsFirst(m: Manifest, n: nat)
    requires 0 < n <= |m.order|
    ensures exists i :: 0 <= i < n && m.order[i] == Oldest(m, n)
                        && forall k :: 0 <= k < i ==> m.entries[m.order[k]].lastUsed > m.entries[m.order[i]].lastUsed
  {
    OldestIsLeast(m, n);
    if n > 1 {
      OldestIsFirst(m, n - 1);
      OldestIsLeast(m, n - 1);
    }
    if Oldest(m, n) == m.order[n - 1] {
      assert forall k :: 0 <= k < n - 1 ==> m.order[k] != m.order[n - 1];
    }
  }

  lemma {:induction false} DropEntries(m: Manifest, ids: seq<string>)
    ensures Drop(m, ids).entries == m.entries - set id | id in ids
    decreases |ids|
  {
    if ids != [] {
      DropEntries(Erase(m, ids[0]), ids[1..]);
    }
  }

  lemma {:induction false} OldestIsLeast(m: Manifest, n: nat)
    requires n <= |m.order|
    ensures forall i :: 0 <= i < n ==>
      m.entries[Oldest(m, n)].lastUsed <= m.entries[m.order[i]].lastUsed
  {
    if n > 0 {
      OldestIsLeast(m, n - 1);
    }
  }

  lemma LeastRecentIsLeast(m: Manifest, id: string)
    requires id in m.entries
    ensures LeastRecent(m) in m.entries
    ensures m.entries[LeastRecent(m)].lastUsed <= m.entries[id].lastUsed
  {
    assert id in m.order;
    OldestIsLeast(m, |m.order|);
  }

  ghost predicate DropsVictims(c: Cache, r: Cache) {
    var vs := Victims(c.manifest, c.maxStories, c.maxBytes);
    && r.manifest == Drop(c.manifest, vs)
    && r.evicted == c.evicted + vs
    && r.maxStories == c.maxStories && r.maxBytes == c.maxBytes
  }

  lemma DropsOneMore(c: Cache, r: Cache)
    requires OverLimit(c.manifest, c.maxStories, c.maxBytes) && LeastRecent(c.manifest) != ""
    requires LeastRecent(c.manifest) in c.manifest.entries
    requires DropsVictims(Evict(c, LeastRecent(c.manifest)), r)
    ensures DropsVictims(c, r)
  {
    var victim := LeastRecent(c.manifest);
    var rest := Victims(Erase(c.manifest, victim), c.maxStories, c.maxBytes);
    assert ([victim] + rest)[1..] == rest;
    Associative(c.evicted, [victim], rest);
  }

  lemma {:induction false} EnforceDropsVictims(c: Cache)
    ensures DropsVictims(c, Enforce(c))
    decreases |c.manifest.order|
  {
    var victim := LeastRecent(c.manifest);
    if OverLimit(c.manifest, c.maxStories, c.maxBytes) && victim != "" {
      assert victim in c.manifest.order;
      EnforceDropsVictims(Evict(c, victim));
      DropsOneMore(c, Enforce(c));
    } else {
      assert c.evicted + [] == c.evicted;
    }
  }

  ghost predicate IsOldest(m: Manifest, victim: string) {
    && victim in m.entries
    && forall id :: id in m.entries ==> m.entries[victim].lastUsed <= m.entries[id].lastUsed
  }

  lemma LeastRecentIsOldest(m: Manifest)
    requires m.order != []
    ensures IsOldest(m, LeastRecent(m))
  {
    forall id | id in m.entries
      ensures m.entries[LeastRecent(m)].lastUsed <= m.entries[id].lastUsed
    {
      LeastRecentIsLeast(m, id);
    }
  }

  /** Each eviction in turn was needed, a limit still being exceeded, and took a least recently
      used story. */
  ghost predicate NeededInTurn(m: Manifest, ids: seq<string>, maxStories: int, maxBytes: int)
    decreases |ids|
  {
    ids == [] || (
      && OverLimit(m, maxStories, maxBytes)
      && IsOldest(m, ids[0])
      && NeededInTurn(Erase(m, ids[0]), ids[1..], maxStories, maxBytes))
  }

  /** Each victim was needed when its turn came: with only the earlier ones gone, a limit was still
      exceeded. (Fewer victims in another order may do: the loop goes by age, not by size.) */
  lemma {:induction false} VictimsAreNeeded(m: Manifest, maxStories: int, maxBytes: int)
    ensures NeededInTurn(m, Victims(m, maxStories, maxBytes), maxStories, maxBytes)
    decreases |m.order|
  {
    var victim := LeastRecent(m);
    if OverLimit(m, maxStories, maxBytes) && victim != "" {
      assert victim in m.entries;
      VictimsAreNeeded(Erase(m, victim), maxStories, maxBytes);
      LeastRecentIsOldest(m);
    }
  }

  /** Stopping after any of the earlier victims would leave a limit exceeded, and the next one is a
      least recently used story of what is left. */
  lemma {:induction false} NoPrefixSuffices(m: Manifest, ids: seq<string>, maxStories: int, maxBytes: int, k: nat)
    requires NeededInTurn(m, ids, maxStories, maxBytes) && k < |ids|
    ensures OverLimit(Drop(m, ids[..k]), maxStories, maxBytes) && IsOldest(Drop(m, ids[..k]), ids[k])
    decreases k
  {
    if k > 0 {
      assert ids[..k][1..] == ids[1..][..k - 1];
      NoPrefixSuffices(Erase(m, ids[0]), ids[1..], maxStories, maxBytes, k - 1);
    }
  }

  /** The victims suffice: without them both limits hold, or nothing is left. */
  lemma {:induction false} VictimsSuffice(m: Manifest, maxStories: int, maxBytes: int)
    requires "" !in m.entries
    ensures var left := Drop(m, Victims(m, maxStories, maxBytes));
      OverLimit(left, maxStories, maxBytes) ==> left.order == []
    decreases |m.order|
  {
    var victim := LeastRecent(m);
    if OverLimit(m, maxStories, maxBytes) && victim != "" {
      assert victim in m.entries;
      VictimsSuffice(Erase(m, victim), maxStories, maxBytes);
    }
  }

  lemma {:induction false} VictimsAreOlder(m: Manifest, ids: seq<string>, maxStories: int, maxBytes: int,
                                           v: string, id: string)
    requires NeededInTurn(m, ids, maxStories, maxBytes) && v in ids && id in Drop(m, ids).entries
    ensures v in m.entries && id in m.entries && m.entries[v].lastUsed <= m.entries[id].lastUsed
    decreases |ids|
  {
    DropEntries(m, ids);
    if v != ids[0] {
      VictimsAreOlder(Erase(m, ids[0]), ids[1..], maxStories, maxBytes, v, id);
    }
  }

  /** After every store: limits met (or nothing left); the evicted ids are signalled in the order of
      eviction, and stopping earlier in that order would not have met the limits; every survivor
      `kept` is untouched and at least as recent as every evicted story `gone`. */
  lemma {:induction false} EvictionIsLeastRecentlyUsed(c: Cache, gone: string, kept: string)
    requires "" !in c.manifest.entries
    ensures var r := Enforce(c); var vs := Victims(c.manifest, c.maxStories, c.maxBytes);
      && r.evicted == c.evicted + vs
      && (forall k :: 0 <= k < |vs| ==>
            !WithinLimits(c.manifest.entries - (set id | id in vs[..k]), c.maxStories, c.maxBytes))
      && r.manifest.entries == c.manifest.entries - (set id | id in vs)
      && (WithinLimits(r.manifest.entries, c.maxStories, c.maxBytes) || r.manifest.entries == map[])
      && (gone in vs && kept in r.manifest.entries ==>
            && gone in c.manifest.entries
            && c.manifest.entries[gone].lastUsed <= r.manifest.entries[kept].lastUsed)
  {
    var vs := Victims(c.manifest, c.maxStories, c.maxBytes);
    EnforceDropsVictims(c);
    VictimsAreNeeded(c.manifest, c.maxStories, c.maxBytes);
    VictimsSuffice(c.manifest, c.maxStories, c.maxBytes);
    DropEntries(c.manifest, vs);
    NothingLeft(Drop(c.manifest, vs));
    LimitsMean(Drop(c.manifest, vs), c.maxStories, c.maxBytes);
    forall k | 0 <= k < |vs|
      ensures !WithinLimits(c.manifest.entries - (set id | id in vs[..k]), c.maxStories, c.maxBytes)
    {
      NoPrefixSuffices(c.manifest, vs, c.maxStories, c.maxBytes, k);
      DropEntries(c.manifest, vs[..k]);
      LimitsMean(Drop(c.manifest, vs[..k]), c.maxStories, c.maxBytes);
    }
    if gone in vs && kept in Drop(c.manifest, vs).entries {
      VictimsAreOlder(c.manifest, vs, c.maxStories, c.maxBytes, gone, kept);
    }
  }

  lemma NothingLeft(m: Manifest)
    ensures m.order == [] ==> m.entries == map[]
  {
    if m.order == [] { assert m.entries.Keys == {}; }
  }

  // ---- the story just stored ----

  lemma {:induction false} SumNonNegative(sizes: map<string, int>, keys: seq<string>, n: nat)
    requires n <= |keys| && forall k :: k in keys ==> k in sizes && sizes[k] >= 0
    ensures SumTo(sizes, keys, n) >= 0
    ensures forall i :: 0 <= i < n ==> sizes[keys[i]] <= SumTo(sizes, keys, n)
  {
    if n > 0 {
      SumNonNegative(sizes, keys, n - 1);
      assert keys[n - 1] in keys;
    }
  }

  /** With the newest stamp and room for one story, the story just stored is evicted only if its
      own tracked bytes exceed the budget; and then always, unless some tracked size is negative. */
  lemma {:induction false} NewestIsEvictedOnlyIfTooBig(m: Manifest, maxStories: int, maxBytes: int, id: string)
    requires id in m.entries && "" !in m.entries
    requires maxStories >= 1
    requires forall k :: k in m.entries && k != id ==> m.entries[k].lastUsed < m.entries[id].lastUsed
    ensures var kept := Drop(m, Victims(m, maxStories, maxBytes)).entries;
      && (id !in kept ==> m.entries[id].bytes > maxBytes)
      && ((forall k :: k in m.entries ==> m.entries[k].bytes >= 0) ==>
            (id !in kept <==> m.entries[id].bytes > maxBytes))
    decreases |m.order|
  {
    assert id in m.order;
    if forall k :: k in m.entries ==> m.entries[k].bytes >= 0 {
      SumNonNegative(BytesOf(m.entries), m.order, |m.order|);
    }
    var victim := LeastRecent(m);
    if OverLimit(m, maxStories, maxBytes) {
      LeastRecentIsLeast(m, id);
      assert victim in m.order;
      var vs := Victims(m, maxStories, maxBytes);
      if victim != id {
        NewestIsEvictedOnlyIfTooBig(Erase(m, victim), maxStories, maxBytes, id);
      } else {
        forall k | k in m.order ensures k == id {
          LeastRecentIsLeast(m, k);
        }
        assert forall i :: 0 <= i < |m.order| ==> m.order[i] in m.order;
        assert m.order == [id];
        assert SumTo(BytesOf(m.entries), m.order, 0) == 0;
        DropEntries(m, vs);
        assert vs[0] == id;
      }
    }
  }

  /** Every stamp lies before `now`. */
  ghost predicate Older(entries: map<string, Entry>, now: int) {
    && "" !in entries
    && forall id :: id in entries ==> entries[id].lastUsed < now
  }

  /** The two stores: the story just written is lost only if it alone breaks the budget. */
  lemma JustStoredIsKept(c: Cache, id: string, json: string, line: int, data: seq<bv8>, now: int)
    requires id != "" && c.maxStories >= 1 && Older(c.manifest.entries, now)
    ensures id !in StoreScript(c, id, json, now, true).manifest.entries ==> |json| > c.maxBytes
    ensures id in c.manifest.entries && id !in StoreAudio(c, id, line, data, now, true).manifest.entries ==>
              WriteAudio(c, id, line, data, now).manifest.entries[id].bytes > c.maxBytes
  {
    var w := WriteScript(c, id, json, now);
    EnforceDropsVictims(w);
    NewestIsEvictedOnlyIfTooBig(w.manifest, c.maxStories, c.maxBytes, id);
    if id in c.manifest.entries {
      var a := WriteAudio(c, id, line, data, now);
      EnforceDropsVictims(a);
      NewestIsEvictedOnlyIfTooBig(a.manifest, c.maxStories, c.maxBytes, id);
    }
  }

  // ---- over whole runs ----

  function StampOf(op: Op): Option<int> {
    match op
    case CacheScript(_, _, now, _) => Some(now)
    case CacheAudio(_, _, _, now, _) => Some(now)
    case LoadScript(_, now, _) => Some(now)
    case LoadAudio(_, _, now, _) => Some(now)
    case _ => None
  }

  ghost predicate StampedBefore(ops: seq<Op>, now: int) {
    forall i :: 0 <= i < |ops| ==> StampOf(ops[i]).GetOr(now - 1) < now
  }

  /** The clock never stands still between two calls. */
  ghost predicate Ticking(ops: seq<Op>) {
    forall k :: 0 <= k < |ops| && StampOf(ops[k]).Some? ==> StampedBefore(ops[..k], StampOf(ops[k]).value)
  }

  /** No stamp in memory or in the saved manifest is as late as `now`. */
  ghost predicate AllOlder(c: Cache, now: int) {
    && Older(c.manifest.entries, now)
    && (MANIFEST in c.files && c.files[MANIFEST].ManifestText? ==> Older(c.files[MANIFEST].saved, now))
  }

  lemma {:induction false} EnforceStaysOlder(c: Cache, now: int)
    requires AllOlder(c, now)
    ensures AllOlder(Enforce(c), now)
    decreases |c.manifest.order|
  {
    var victim := LeastRecent(c.manifest);
    if OverLimit(c.manifest, c.maxStories, c.maxBytes) && victim != "" {
      assert victim in c.manifest.order;
      EnforceStaysOlder(Evict(c, victim), now);
    }
  }

  lemma StepStaysOlder(c: Cache, op: Op, now: int)
    requires AllOlder(c, now) && StampOf(op).GetOr(now - 1) < now
    ensures AllOlder(Step(c, op), now)
  {
    match op
    case CacheScript(id, json, at, writable) =>
      if id != "" && writable { EnforceStaysOlder(WriteScript(c, id, json, at), now); }
    case CacheAudio(id, line, data, at, writable) =>
      if id in c.manifest.entries && writable { EnforceStaysOlder(WriteAudio(c, id, line, data, at), now); }
    case _ =>
  }

  lemma {:induction false} RunStaysOlder(maxStories: int, maxBytes: int, ops: seq<Op>, now: int)
    requires StampedBefore(ops, now)
    ensures AllOlder(Run(Empty(maxStories, maxBytes), ops), now)
  {
    if ops != [] {
      var before := ops[..|ops| - 1];
      RunStaysOlder(maxStories, maxBytes, before, now);
      StepStaysOlder(Run(Empty(maxStories, maxBytes), before), ops[|ops| - 1], now);
    }
  }

  lemma {:induction false} RunSplit(c: Cache, ops: seq<Op>, k: nat)
    requires k < |ops|
    ensures Run(c, ops[..k + 1]) == Step(Run(c, ops[..k]), ops[k])
  {
    assert ops[..k + 1][..k] == ops[..k];
  }

  /** On every run whose clock moves on between calls, with limits that leave room for one story: a
      store is followed by the loss of its own story only if that story alone breaks the budget. */
  lemma {:induction false} EveryStoreKeepsItsStory(maxStories: int, maxBytes: int, ops: seq<Op>, k: nat)
    requires Ticking(ops) && k < |ops| && Run(Empty(maxStories, maxBytes), ops[..k]).maxStories >= 1
    ensures var c := Run(Empty(maxStories, maxBytes), ops[..k]);
      var kept := Run(Empty(maxStories, maxBytes), ops[..k + 1]).manifest.entries;
      match ops[k]
      case CacheScript(id, json, _, writable) =>
        id != "" && writable && id !in kept ==> |json| > c.maxBytes
      case CacheAudio(id, line, data, now, writable) =>
        id in c.manifest.entries && writable && id !in kept ==>
          WriteAudio(c, id, line, data, now).manifest.entries[id].bytes > c.maxBytes
      case _ => true
  {
    var c := Run(Empty(maxStories, maxBytes), ops[..k]);
    RunSplit(Empty(maxStories, maxBytes), ops, k);
    match ops[k]
    case CacheScript(id, json, now, writable) =>
      if id != "" && writable {
        RunStaysOlder(maxStories, maxBytes, ops[..k], now);
        JustStoredIsKept(c, id, json, 0, [], now);
      }
    case CacheAudio(id, line, data, now, writable) =>
      if id in c.manifest.entries && writable {
        RunStaysOlder(maxStories, maxBytes, ops[..k], now);
        JustStoredIsKept(c, id, [], line, data, now);
      }
    case _ =>
  }

  lemma OlderGoFirst(c: Cache, older: string, newer: string)
    requires "" !in c.manifest.entries && older in c.manifest.entries && newer in c.manifest.entries
    requires c.manifest.entries[older].lastUsed < c.manifest.entries[newer].lastUsed
    ensures older in Enforce(c).manifest.entries ==> newer in Enforce(c).manifest.entries
  {
    EvictionIsLeastRecentlyUsed(c, newer, older);
  }

  /** Loading a story refreshes it: when the next store evicts it, every story that was neither
      loaded nor just stored is gone already. */
  lemma LoadedStoryOutlivesTheOthers(c: Cache, id: string, name: string, loaded: int,
                                                        id2: string, json: string, stored: int, other: string)
    requires id2 != "" && LoadFile(c, id, name).Some? && Older(c.manifest.entries, loaded)
    requires loaded < stored && other != id && other != id2
    ensures var kept := StoreScript(Load(c, id, name, loaded, true), id2, json, stored, true).manifest.entries;
      other in kept ==> id in kept
  {
    var w := WriteScript(Load(c, id, name, loaded, true), id2, json, stored);
    if other in w.manifest.entries {
      OlderGoFirst(w, other, id);
    } else {
      EvictionIsLeastRecentlyUsed(w, id, other);
    }
  }
}

/** What the directory and the byte counts mean, over every run. */
module CacheRunProofs {
  import opened Common
  import opened Decimals
  import opened Manifests
  import opened CacheFiles
  import opened CacheSteps
  import EvictionProofs

  // ---- the directory ----

  /** Story `id` with entry `e` is on disk: its text, and every recorded clip at its recorded size. */
  ghost predicate Backed(files: map<string, File>, id: string, e: Entry) {
    && ScriptFile(id) in files && files[ScriptFile(id)].ScriptText?
    && forall line :: line in e.audio ==>
         && IsLineKey(line)
         && AudioFile(id, line) in files
         && files[AudioFile(id, line)].AudioData?
         && |files[AudioFile(id, line)].data| == e.audio[line]
  }

  ghost predicate Owned(entries: map<string, Entry>, file: string) {
    exists id :: id in entries && file in FilesOf(id, entries[id].audio.Keys)
  }

  /** The story and audio files that no entry names. */
  ghost function Unowned(files: map<string, File>, entries: map<string, Entry>): set<string> {
    set file | file in files && file != MANIFEST && !Owned(entries, file)
  }

  ghost function Lost(c: Cache): set<string> { Unowned(c.files, c.manifest.entries) }

  ghost predicate AllBacked(c: Cache) {
    forall id {:trigger Backed(c.files, id, c.manifest.entries[id])} :: id in c.manifest.entries ==>
      id != "" && id != "manifest" && Backed(c.files, id, c.manifest.entries[id])
  }

  // ---- what was stored ----

  /** What the callers handed in: the last text of each story and the last bytes of each clip; the
      audio bytes each story already held when its script was last stored; the files orphaned by
      unreadable manifests; and whether a restart would find the entries in memory. */
  datatype Ledger = Ledger(
    texts: map<string, string>,
    clips: map<(string, int), seq<bv8>>,
    carried: map<string, int>,
    orphans: set<string>,
    synced: bool)

  const BLANK: Ledger := Ledger(map[], map[], map[], {}, true)

  ghost function Record(c: Cache, led: Ledger, op: Op): Ledger {
    match op
    case CacheScript(id, json, _, writable) =>
      if id == "" || !writable then led
      else led.(texts := led.texts[id := json], carried := led.carried[id := SumOf(AudioOf(c, id))],
                orphans := led.orphans - {ScriptFile(id)}, synced := led.synced || !IsEmpty(Step(c, op)))
    case CacheAudio(id, line, data, _, writable) =>
      if id !in c.manifest.entries || !writable then led
      else led.(clips := led.clips[(id, line) := data],
                orphans := led.orphans - {AudioFile(id, Text(line))}, synced := led.synced || !IsEmpty(Step(c, op)))
    case LoadScript(id, _, readable) => led.(synced := led.synced || Touches(c, id, ScriptFile(id), readable))
    case LoadAudio(id, line, _, readable) =>
      led.(synced := led.synced || Touches(c, id, AudioFile(id, Text(line)), readable))
    case ClearAll => led.(orphans := {}, synced := true)
    case SetLimits(_, _) => led
    case NewProcess(order, readable) =>
      if !Restarts(c, order, readable) then led
      else if !readable then led.(orphans := c.files.Keys - {MANIFEST}, synced := led.synced && IsEmpty(c))
      else led.(orphans := if led.synced then led.orphans else Unowned(c.files, Reloaded(c.files)), synced := true)
  }

  ghost predicate IsEmpty(c: Cache) { c.manifest.entries == map[] }

  ghost predicate Touches(c: Cache, id: string, name: string, readable: bool) {
    readable && LoadFile(c, id, name).Some?
  }

  /** The files hold what was last stored under their names, named by an entry or not. */
  ghost predicate HoldsLastStores(files: map<string, File>, led: Ledger) {
    && (forall id {:trigger ScriptFile(id)} :: id != "manifest" && ScriptFile(id) in files ==>
          id in led.texts && files[ScriptFile(id)] == ScriptText(led.texts[id]))
    && (forall id, line: int {:trigger AudioFile(id, Text(line))} :: AudioFile(id, Text(line)) in files ==>
          (id, line) in led.clips && files[AudioFile(id, Text(line))] == AudioData(led.clips[(id, line)]))
  }

  /** An entry that is on disk and whose byte count is accounted for. */
  ghost predicate Good(files: map<string, File>, led: Ledger, id: string, e: Entry) {
    && id != "" && id != "manifest" && Backed(files, id, e)
    && id in led.texts && id in led.carried
    && e.bytes + led.carried[id] == |led.texts[id]| + SumOf(e.audio)
  }

  ghost predicate AllGood(files: map<string, File>, led: Ledger, entries: map<string, Entry>) {
    forall id {:trigger Good(files, led, id, entries[id])} :: id in entries ==> Good(files, led, id, entries[id])
  }

  /** What holds even halfway through a store, before the manifest is saved. */
  ghost predicate Coherent(c: Cache, led: Ledger) {
    && AllGood(c.files, led, c.manifest.entries)
    && AllGood(c.files, led, Reloaded(c.files) - c.manifest.entries.Keys)
    && HoldsLastStores(c.files, led)
    && led.orphans == Lost(c)
    && (led.synced ==> Reloaded(c.files).Keys <= c.manifest.entries.Keys)
    && (MANIFEST in c.files ==> c.files[MANIFEST].ManifestText?)
  }

  /** What holds between calls: a restart, too, would find only entries that are on disk. */
  ghost predicate Faithful(c: Cache, led: Ledger) {
    && Coherent(c, led)
    && AllGood(c.files, led, Reloaded(c.files))
    && (led.synced ==> Reloaded(c.files) == c.manifest.entries)
  }

  // ---- preservation, one primitive at a time ----

  /** A story whose files and recorded sizes stay the same stays as sound as it was. */
  lemma CarriesOver(files: map<string, File>, after: map<string, File>, led: Ledger, id: string, e: Entry, stamp: int)
    requires Backed(files, id, e)
    requires forall file :: file in FilesOf(id, e.audio.Keys) && file in files ==>
               file in after && after[file] == files[file]
    ensures Backed(after, id, e.(lastUsed := stamp))
    ensures Good(files, led, id, e) ==> Good(after, led, id, e.(lastUsed := stamp))
  {
    assert ScriptFile(id) in FilesOf(id, e.audio.Keys);
    assert forall line :: line in e.audio.Keys ==> AudioFile(id, line) in FilesOf(id, e.audio.Keys);
    assert e.(lastUsed := e.lastUsed) == e;
  }

  lemma FilesApart(files: map<string, File>, id1: string, e1: Entry, id2: string, e2: Entry)
    requires Backed(files, id1, e1) && Backed(files, id2, e2) && id1 != id2
    ensures FilesOf(id1, e1.audio.Keys) !! FilesOf(id2, e2.audio.Keys)
  {
    FilesOfDisjoint(id1, e1.audio.Keys, id2, e2.audio.Keys);
  }

  lemma EvictLosesNothing(c: Cache, victim: string)
    requires victim in c.manifest.entries
    ensures Lost(Evict(c, victim)) == Lost(c)
  {
    var r, gone := Evict(c, victim), FilesOf(victim, c.manifest.entries[victim].audio.Keys);
    forall file ensures Owned(c.manifest.entries, file) <==> Owned(r.manifest.entries, file) || file in gone {
      if Owned(c.manifest.entries, file) && file !in gone {
        var id :| id in c.manifest.entries && file in FilesOf(id, c.manifest.entries[id].audio.Keys);
        assert id in r.manifest.entries && file in FilesOf(id, r.manifest.entries[id].audio.Keys);
      }
      if Owned(r.manifest.entries, file) {
        var id :| id in r.manifest.entries && file in FilesOf(id, r.manifest.entries[id].audio.Keys);
        assert file in FilesOf(id, c.manifest.entries[id].audio.Keys);
      }
    }
  }

  /** Eviction leaves no file of the victim, touches no file of another story and orphans none. */
  lemma EvictIsExact(c: Cache, victim: string)
    requires AllBacked(c) && victim in c.manifest.entries
    ensures var r := Evict(c, victim);
      && AllBacked(r) && Lost(r) == Lost(c)
      && (forall file :: file in r.files ==>
            file in c.files && r.files[file] == c.files[file]
            && file !in FilesOf(victim, c.manifest.entries[victim].audio.Keys))
      && (forall id, file :: id in r.manifest.entries && file in FilesOf(id, r.manifest.entries[id].audio.Keys) ==>
            file in r.files)
      && (MANIFEST in c.files ==> MANIFEST in r.files)
  {
    var r, e := Evict(c, victim), c.manifest.entries[victim];
    assert Backed(c.files, victim, e);
    ManifestIsNotAStoryFile(victim, e.audio.Keys);
    EvictLosesNothing(c, victim);
    forall id | id in r.manifest.entries
      ensures id != "" && id != "manifest" && Backed(r.files, id, r.manifest.entries[id])
      ensures FilesOf(id, r.manifest.entries[id].audio.Keys) <= r.files.Keys
    {
      var other := c.manifest.entries[id];
      assert Backed(c.files, id, other);
      FilesApart(c.files, id, other, victim, e);
      CarriesOver(c.files, r.files, BLANK, id, other, other.lastUsed);
    }
  }

  lemma EvictedIsNotReloaded(c: Cache, victim: string)
    requires victim in c.manifest.entries && victim != "manifest"
    ensures Reloaded(Evict(c, victim).files) == Reloaded(c.files) - {victim}
  {
    var gone := FilesOf(victim, c.manifest.entries[victim].audio.Keys);
    ManifestIsNotAStoryFile(victim, c.manifest.entries[victim].audio.Keys);
    forall id ensures ScriptFile(id) in gone <==> id == victim {
      if ScriptFile(id) == ScriptFile(victim) { ScriptFileInjective(id, victim); }
      forall line | line in c.manifest.entries[victim].audio ensures AudioFile(victim, line) != ScriptFile(id) {
        AudioIsNotJson(victim, line, id);
      }
    }
  }

  lemma EvictKeepsGood(c: Cache, led: Ledger, victim: string, id: string, e: Entry)
    requires victim in c.manifest.entries && id != victim
    requires Good(c.files, led, victim, c.manifest.entries[victim]) && Good(c.files, led, id, e)
    ensures Good(Evict(c, victim).files, led, id, e)
  {
    FilesApart(c.files, id, e, victim, c.manifest.entries[victim]);
    CarriesOver(c.files, Evict(c, victim).files, led, id, e, e.lastUsed);
  }

  lemma EvictStaysCoherent(c: Cache, led: Ledger, victim: string)
    requires Coherent(c, led) && victim in c.manifest.entries
    ensures Coherent(Evict(c, victim), led)
  {
    var r := Evict(c, victim);
    assert Good(c.files, led, victim, c.manifest.entries[victim]);
    EvictLosesNothing(c, victim);
    EvictedIsNotReloaded(c, victim);
    forall id | id in r.manifest.entries ensures Good(r.files, led, id, r.manifest.entries[id]) {
      assert Good(c.files, led, id, c.manifest.entries[id]);
      EvictKeepsGood(c, led, victim, id, c.manifest.entries[id]);
    }
    var rest, before := Reloaded(r.files) - r.manifest.entries.Keys, Reloaded(c.files) - c.manifest.entries.Keys;
    forall id | id in rest ensures Good(r.files, led, id, rest[id]) {
      assert id in before && before[id] == rest[id];
      assert Good(c.files, led, id, before[id]);
      EvictKeepsGood(c, led, victim, id, rest[id]);
    }
  }

  lemma SaveKeepsGood(c: Cache, led: Ledger, id: string, e: Entry)
    requires Good(c.files, led, id, e)
    ensures Good(Save(c).files, led, id, e) && ScriptFile(id) in Save(c).files
  {
    ManifestIsNotAStoryFile(id, e.audio.Keys);
    CarriesOver(c.files, Save(c).files, led, id, e, e.lastUsed);
  }

  lemma SaveHoldsLastStores(c: Cache, led: Ledger)
    requires HoldsLastStores(c.files, led)
    ensures HoldsLastStores(Save(c).files, led)
  {
    forall id | id != "manifest" ensures ScriptFile(id) != MANIFEST {
      if ScriptFile(id) == MANIFEST { ScriptFileInjective(id, "manifest"); }
    }
    forall id, line: int ensures AudioFile(id, Text(line)) != MANIFEST {
      AudioIsNotJson(id, Text(line), "manifest");
    }
  }

  /** Saving brings the manifest on disk in line with the entries in memory. */
  lemma SaveStaysFaithful(c: Cache, led: Ledger)
    requires AllGood(c.files, led, c.manifest.entries) && HoldsLastStores(c.files, led) && led.orphans == Lost(c)
    ensures Faithful(Save(c), led.(synced := true))
  {
    var r := Save(c);
    forall id | id in c.manifest.entries
      ensures Good(r.files, led.(synced := true), id, r.manifest.entries[id]) && ScriptFile(id) in r.files
    {
      assert Good(c.files, led, id, c.manifest.entries[id]);
      SaveKeepsGood(c, led, id, c.manifest.entries[id]);
    }
    assert Reloaded(r.files) == c.manifest.entries;
    SaveHoldsLastStores(c, led);
    assert Lost(r) == Lost(c);
  }

  lemma {:induction false} EnforceStaysFaithful(c: Cache, led: Ledger)
    requires Coherent(c, led) && c.dirty
    ensures Faithful(Enforce(c), led.(synced := led.synced || !IsEmpty(Enforce(c))))
    decreases |c.manifest.order|
  {
    var victim := LeastRecent(c.manifest);
    if !OverLimit(c.manifest, c.maxStories, c.maxBytes) {
      SaveStaysFaithful(c, led);
      FewerClaims(Save(c), led.(synced := true), led.synced || !IsEmpty(Save(c)));
    } else if victim == "" {
      GivesUpOnlyWhenEmpty(c, led);
      assert Reloaded(c.files) - c.manifest.entries.Keys == Reloaded(c.files);
    } else {
      assert victim in c.manifest.order;
      EvictStaysCoherent(c, led, victim);
      EnforceStaysFaithful(Evict(c, victim), led);
    }
  }

  lemma NoEmptyId(c: Cache, led: Ledger)
    requires AllGood(c.files, led, c.manifest.entries)
    ensures "" !in c.manifest.entries
  {
    forall id | id in c.manifest.entries ensures id != "" {
      assert Good(c.files, led, id, c.manifest.entries[id]);
    }
  }

  lemma GivesUpOnlyWhenEmpty(c: Cache, led: Ledger)
    requires AllGood(c.files, led, c.manifest.entries) && LeastRecent(c.manifest) == ""
    ensures IsEmpty(c)
  {
    NoEmptyId(c, led);
    assert c.manifest.entries.Keys == {};
  }

  lemma FewerClaims(c: Cache, led: Ledger, synced: bool)
    requires Faithful(c, led) && led.synced
    ensures Faithful(c, led.(synced := synced))
  {
    SameBooks(c, led, led.(synced := synced));
  }

  /** Only the texts, the clips and the carried bytes matter to an entry. */
  lemma SameBooks(c: Cache, led: Ledger, other: Ledger)
    requires other.texts == led.texts && other.clips == led.clips && other.carried == led.carried
    ensures AllGood(c.files, led, c.manifest.entries) ==> AllGood(c.files, other, c.manifest.entries)
    ensures AllGood(c.files, led, Reloaded(c.files)) ==> AllGood(c.files, other, Reloaded(c.files))
    ensures AllGood(c.files, led, Reloaded(c.files) - c.manifest.entries.Keys) ==>
              AllGood(c.files, other, Reloaded(c.files) - c.manifest.entries.Keys)
    ensures HoldsLastStores(c.files, led) ==> HoldsLastStores(c.files, other)
  {
    forall id, e | Good(c.files, led, id, e) ensures Good(c.files, other, id, e) {
    }
  }

  // ---- the two stores ----

  /** Writing one of `id`'s files and its entry disturbs no other story. */
  lemma WriteKeepsOthers(c: Cache, r: Cache, led: Ledger, after: Ledger, id: string, lines: set<string>,
                         written: string, content: File, other: string, e: Entry)
    requires r.files == c.files[written := content] && written in FilesOf(id, lines)
    requires forall line :: line in lines ==> IsLineKey(line)
    requires other != id && Good(c.files, led, other, e)
    requires other in after.texts && after.texts[other] == led.texts[other]
    requires other in after.carried && after.carried[other] == led.carried[other]
    ensures Good(r.files, after, other, e)
  {
    FilesOfDisjoint(other, e.audio.Keys, id, lines);
    CarriesOver(c.files, r.files, led, other, e, e.lastUsed);
    assert e.(lastUsed := e.lastUsed) == e;
  }

  lemma WriteAdopts(c: Cache, r: Cache, id: string, e: Entry, written: string, content: File)
    requires r.manifest == Put(c.manifest, id, e) && r.files == c.files[written := content]
    requires FilesOf(id, e.audio.Keys)
             == (if id in c.manifest.entries then FilesOf(id, c.manifest.entries[id].audio.Keys) else {}) + {written}
    ensures Lost(r) == Lost(c) - {written}
  {
    forall file
      ensures Owned(r.manifest.entries, file) <==> Owned(c.manifest.entries, file) || file == written
    {
      OwnedAfterPut(c.manifest.entries, id, e, written, file);
    }
  }

  lemma OwnedAfterPut(entries: map<string, Entry>, id: string, e: Entry, written: string, file: string)
    requires FilesOf(id, e.audio.Keys)
             == (if id in entries then FilesOf(id, entries[id].audio.Keys) else {}) + {written}
    ensures Owned(entries[id := e], file) <==> Owned(entries, file) || file == written
  {
    var after := entries[id := e];
    if file == written {
      assert id in after && file in FilesOf(id, after[id].audio.Keys);
    }
    if Owned(entries, file) {
      var owner :| owner in entries && file in FilesOf(owner, entries[owner].audio.Keys);
      assert file in FilesOf(owner, after[owner].audio.Keys);
    }
    if Owned(after, file) && file != written {
      var owner :| owner in after && file in FilesOf(owner, after[owner].audio.Keys);
      assert file in FilesOf(owner, entries[owner].audio.Keys);
    }
  }

  /** The common part of both stores: `after` differs from `led` about `id` only. */
  lemma WriteStaysCoherent(c: Cache, r: Cache, led: Ledger, after: Ledger, id: string, e: Entry,
                           written: string, content: File)
    requires Faithful(c, led) && id != "manifest"
    requires r.manifest == Put(c.manifest, id, e) && r.files == c.files[written := content]
    requires FilesOf(id, e.audio.Keys)
             == (if id in c.manifest.entries then FilesOf(id, c.manifest.entries[id].audio.Keys) else {}) + {written}
    requires forall line :: line in e.audio ==> IsLineKey(line)
    requires forall other :: other != id && other in led.texts ==>
               other in after.texts && after.texts[other] == led.texts[other]
    requires forall other :: other != id && other in led.carried ==>
               other in after.carried && after.carried[other] == led.carried[other]
    requires after.orphans == led.orphans - {written} && after.synced == led.synced
    requires Good(r.files, after, id, e) && HoldsLastStores(r.files, after)
    ensures Coherent(r, after)
  {
    var lines := e.audio.Keys;
    ManifestIsNotAStoryFile(id, lines);
    WriteAdopts(c, r, id, e, written, content);
    forall other | other in r.manifest.entries ensures Good(r.files, after, other, r.manifest.entries[other]) {
      if other != id {
        assert Good(c.files, led, other, c.manifest.entries[other]);
        WriteKeepsOthers(c, r, led, after, id, lines, written, content, other, c.manifest.entries[other]);
      }
    }
    ReloadedAfterWrite(c, r, id, lines, written, content);
    var rest, before := Reloaded(r.files) - r.manifest.entries.Keys, Reloaded(c.files);
    forall other | other in rest ensures Good(r.files, after, other, rest[other]) {
      assert other in before && before[other] == rest[other];
      assert Good(c.files, led, other, before[other]);
      WriteKeepsOthers(c, r, led, after, id, lines, written, content, other, before[other]);
    }
  }

  lemma ReloadedAfterWrite(c: Cache, r: Cache, id: string, lines: set<string>, written: string, content: File)
    requires r.files == c.files[written := content] && written in FilesOf(id, lines) && id != "manifest"
    ensures forall other :: other != id ==>
      && (other in Reloaded(r.files) <==> other in Reloaded(c.files))
      && (other in Reloaded(c.files) ==> Reloaded(r.files)[other] == Reloaded(c.files)[other])
  {
    ManifestIsNotAStoryFile(id, lines);
    forall other | other != id ensures ScriptFile(other) != written {
      if ScriptFile(other) == ScriptFile(id) { ScriptFileInjective(other, id); }
      forall line | line in lines ensures AudioFile(id, line) != ScriptFile(other) {
        AudioIsNotJson(id, line, other);
      }
    }
  }

  /** The ledger as it stands after the write, before the manifest is saved. */
  ghost function Noted(c: Cache, led: Ledger, op: Op): Ledger { Record(c, led, op).(synced := led.synced) }

  lemma ScriptHeld(c: Cache, led: Ledger, op: Op)
    requires HoldsLastStores(c.files, led) && op.CacheScript? && op.writable && op.id != "" && op.id != "manifest"
    ensures HoldsLastStores(WriteScript(c, op.id, op.json, op.now).files, Noted(c, led, op))
  {
    forall id | id != op.id ensures ScriptFile(id) != ScriptFile(op.id) {
      if ScriptFile(id) == ScriptFile(op.id) { ScriptFileInjective(id, op.id); }
    }
    forall id, line: int ensures AudioFile(id, Text(line)) != ScriptFile(op.id) {
      AudioIsNotJson(id, Text(line), op.id);
    }
  }

  lemma WrittenScript(c: Cache, led: Ledger, op: Op)
    requires op.CacheScript? && op.writable && op.id != "" && op.id != "manifest"
    requires op.id in c.manifest.entries ==> Backed(c.files, op.id, c.manifest.entries[op.id])
    ensures var r := WriteScript(c, op.id, op.json, op.now);
      Good(r.files, Noted(c, led, op), op.id, r.manifest.entries[op.id])
  {
    forall line | line in AudioOf(c, op.id) ensures AudioFile(op.id, line) != ScriptFile(op.id) {
      AudioIsNotJson(op.id, line, op.id);
    }
  }

  lemma WriteScriptStaysCoherent(c: Cache, led: Ledger, op: Op)
    requires Faithful(c, led) && op.CacheScript? && op.writable && op.id != "" && op.id != "manifest"
    ensures Coherent(WriteScript(c, op.id, op.json, op.now), Noted(c, led, op))
  {
    var id, r := op.id, WriteScript(c, op.id, op.json, op.now);
    if id in c.manifest.entries { assert Good(c.files, led, id, c.manifest.entries[id]); }
    WrittenScript(c, led, op);
    ScriptHeld(c, led, op);
    WriteStaysCoherent(c, r, led, Noted(c, led, op), id, r.manifest.entries[id], ScriptFile(id), ScriptText(op.json));
  }

  lemma ClipsApart(id: string, n: int)
    ensures forall m: int :: Text(m) == Text(n) ==> m == n
    ensures forall line :: IsLineKey(line) && AudioFile(id, line) == AudioFile(id, Text(n)) ==> line == Text(n)
    ensures AudioFile(id, Text(n)) != ScriptFile(id)
  {
    forall m: int | Text(m) == Text(n) ensures m == n {
      TextInjective(m, n);
    }
    LineKey(n);
    forall line | IsLineKey(line) && AudioFile(id, line) == AudioFile(id, Text(n)) ensures line == Text(n) {
      AudioFileInjective(id, line, id, Text(n));
    }
    AudioIsNotJson(id, Text(n), id);
  }

  lemma ClipHeld(c: Cache, led: Ledger, op: Op)
    requires HoldsLastStores(c.files, led) && op.CacheAudio? && op.writable && op.id in c.manifest.entries
    ensures HoldsLastStores(WriteAudio(c, op.id, op.line, op.data, op.now).files, Noted(c, led, op))
  {
    forall id ensures ScriptFile(id) != AudioFile(op.id, Text(op.line)) {
      AudioIsNotJson(op.id, Text(op.line), id);
    }
    forall id, line: int | AudioFile(id, Text(line)) == AudioFile(op.id, Text(op.line))
      ensures id == op.id && line == op.line
    {
      LineKey(line);
      LineKey(op.line);
      AudioFileInjective(id, Text(line), op.id, Text(op.line));
      TextInjective(line, op.line);
    }
  }

  lemma WrittenClip(c: Cache, led: Ledger, op: Op)
    requires op.CacheAudio? && op.writable && op.id in c.manifest.entries
    requires Good(c.files, led, op.id, c.manifest.entries[op.id])
    ensures var r := WriteAudio(c, op.id, op.line, op.data, op.now);
      Good(r.files, Noted(c, led, op), op.id, r.manifest.entries[op.id])
  {
    ClipsApart(op.id, op.line);
    LineKey(op.line);
    SumUpdate(c.manifest.entries[op.id].audio, Text(op.line), |op.data|);
  }

  lemma WriteAudioStaysCoherent(c: Cache, led: Ledger, op: Op)
    requires Faithful(c, led) && op.CacheAudio? && op.writable && op.id in c.manifest.entries
    ensures Coherent(WriteAudio(c, op.id, op.line, op.data, op.now), Noted(c, led, op))
  {
    var id, key := op.id, Text(op.line);
    var r := WriteAudio(c, id, op.line, op.data, op.now);
    LineKey(op.line);
    assert Good(c.files, led, id, c.manifest.entries[id]);
    WrittenClip(c, led, op);
    ClipHeld(c, led, op);
    OneMoreFile(id, c.manifest.entries[id].audio.Keys, key);
    WriteStaysCoherent(c, r, led, Noted(c, led, op), id, r.manifest.entries[id],
                       AudioFile(id, key), AudioData(op.data));
  }

  lemma OneMoreFile(id: string, lines: set<string>, line: string)
    ensures FilesOf(id, lines + {line}) == FilesOf(id, lines) + {AudioFile(id, line)}
  {
  }

  lemma OwnedAlike(entries: map<string, Entry>, others: map<string, Entry>, file: string)
    requires entries.Keys == others.Keys && forall id :: id in entries ==> entries[id].audio == others[id].audio
    ensures Owned(entries, file) ==> Owned(others, file)
  {
    if Owned(entries, file) {
      var owner :| owner in entries && file in FilesOf(owner, entries[owner].audio.Keys);
      assert file in FilesOf(owner, others[owner].audio.Keys);
    }
  }

  lemma TouchStaysFaithful(c: Cache, led: Ledger, id: string, now: int)
    requires Faithful(c, led) && id in c.manifest.entries
    ensures Faithful(Touch(c, id, now), led.(synced := true))
  {
    var r := c.(manifest := Put(c.manifest, id, c.manifest.entries[id].(lastUsed := now)));
    forall other | other in r.manifest.entries ensures Good(r.files, led, other, r.manifest.entries[other]) {
      assert Good(c.files, led, other, c.manifest.entries[other]);
    }
    forall file ensures Owned(r.manifest.entries, file) <==> Owned(c.manifest.entries, file) {
      OwnedAlike(c.manifest.entries, r.manifest.entries, file);
      OwnedAlike(r.manifest.entries, c.manifest.entries, file);
    }
    assert Lost(r) == Lost(c);
    SaveStaysFaithful(r, led);
    assert Touch(c, id, now) == Save(r);
  }

  // ---- whole runs ----

  ghost function LedgerOf(c: Cache, ops: seq<Op>): Ledger {
    if ops == [] then BLANK
    else
      var before := ops[..|ops| - 1];
      Record(Run(c, before), LedgerOf(c, before), ops[|ops| - 1])
  }

  /** No script is stored under the id whose file is the manifest itself. */
  ghost predicate SparesManifest(ops: seq<Op>) {
    forall i :: 0 <= i < |ops| && ops[i].CacheScript? ==> ops[i].id != "manifest"
  }

  lemma LoadStaysFaithful(c: Cache, led: Ledger, id: string, name: string, now: int, readable: bool)
    requires Faithful(c, led)
    ensures Faithful(Load(c, id, name, now, readable), led.(synced := led.synced || Touches(c, id, name, readable)))
  {
    if Touches(c, id, name, readable) {
      TouchStaysFaithful(c, led, id, now);
    } else {
      assert led.(synced := led.synced) == led;
    }
  }

  lemma RestartStaysFaithful(c: Cache, led: Ledger, order: seq<string>, readable: bool)
    requires Faithful(c, led)
    ensures Faithful(Step(c, NewProcess(order, readable)), Record(c, led, NewProcess(order, readable)))
  {
    var r, after := Step(c, NewProcess(order, readable)), Record(c, led, NewProcess(order, readable));
    if Restarts(c, order, readable) {
      assert r.files == c.files && r.manifest.entries == if readable then Reloaded(c.files) else map[];
      SameBooks(c, led, after);
      if readable {
        assert Reloaded(r.files) - r.manifest.entries.Keys == map[];
      } else {
        forall file ensures !Owned(r.manifest.entries, file) {
        }
        assert Reloaded(r.files) - r.manifest.entries.Keys == Reloaded(r.files);
      }
    }
  }

  lemma StepStaysFaithful(c: Cache, led: Ledger, op: Op)
    requires Faithful(c, led)
    requires op.CacheScript? ==> op.id != "manifest"
    ensures Faithful(Step(c, op), Record(c, led, op))
  {
    match op
    case CacheScript(id, json, now, writable) =>
      if id != "" && writable {
        WriteScriptStaysCoherent(c, led, op);
        EnforceStaysFaithful(WriteScript(c, id, json, now), Noted(c, led, op));
      }
    case CacheAudio(id, line, data, now, writable) =>
      if id in c.manifest.entries && writable {
        WriteAudioStaysCoherent(c, led, op);
        EnforceStaysFaithful(WriteAudio(c, id, line, data, now), Noted(c, led, op));
      }
    case LoadScript(id, now, readable) => LoadStaysFaithful(c, led, id, ScriptFile(id), now, readable);
    case LoadAudio(id, line, now, readable) =>
      LoadStaysFaithful(c, led, id, AudioFile(id, Text(line)), now, readable);
    case ClearAll =>
      SaveStaysFaithful(c.(manifest := Manifest([], map[]), files := map[]), led.(orphans := {}));
    case SetLimits(_, _) =>
    case NewProcess(order, readable) => RestartStaysFaithful(c, led, order, readable);
  }

  /** From an empty directory, under any limits and any sequence of stores, loads, clears, limit
      changes and restarts, also with an unreadable manifest: every entry is on disk with its files
      at their recorded sizes, every file holds what was last stored under its name, every byte count
      is accounted for, and the files that belong to no entry are exactly the orphans. */
  lemma {:induction false} RunsStayFaithful(maxStories: int, maxBytes: int, ops: seq<Op>)
    requires SparesManifest(ops)
    ensures Faithful(Run(Empty(maxStories, maxBytes), ops), LedgerOf(Empty(maxStories, maxBytes), ops))
  {
    if ops != [] {
      var before := ops[..|ops| - 1];
      RunsStayFaithful(maxStories, maxBytes, before);
      var c0 := Empty(maxStories, maxBytes);
      StepStaysFaithful(Run(c0, before), LedgerOf(c0, before), ops[|ops| - 1]);
    }
  }

  /** No manifest was unreadable since the cache was last cleared, if ever. */
  ghost predicate Readable(ops: seq<Op>) {
    ops != [] ==>
      match ops[|ops| - 1]
      case ClearAll => true
      case NewProcess(_, readable) => readable && Readable(ops[..|ops| - 1])
      case _ => Readable(ops[..|ops| - 1])
  }

  lemma {:induction false} ReadableOrphansNothing(c: Cache, ops: seq<Op>)
    requires Readable(ops)
    ensures LedgerOf(c, ops).orphans == {} && LedgerOf(c, ops).synced
  {
    if ops != [] && !ops[|ops| - 1].ClearAll? {
      ReadableOrphansNothing(c, ops[..|ops| - 1]);
    }
  }

  /** The directory holds the files of the cached stories and the orphans, and nothing else; so it is
      exactly the cache if and only if there are no orphans, as when every manifest was readable. */
  lemma {:induction false} DiskHoldsExactlyTheCache(maxStories: int, maxBytes: int, ops: seq<Op>)
    requires SparesManifest(ops)
    ensures var c := Run(Empty(maxStories, maxBytes), ops);
      var orphans := LedgerOf(Empty(maxStories, maxBytes), ops).orphans;
      && (forall file :: file in c.files && file != MANIFEST <==> Owned(c.manifest.entries, file) || file in orphans)
      && (forall file :: file in orphans ==> !Owned(c.manifest.entries, file))
      && ((forall file :: file in c.files && file != MANIFEST <==> Owned(c.manifest.entries, file)) <==> orphans == {})
      && (Readable(ops) ==> orphans == {})
  {
    RunsStayFaithful(maxStories, maxBytes, ops);
    var c := Run(Empty(maxStories, maxBytes), ops);
    if Readable(ops) { ReadableOrphansNothing(Empty(maxStories, maxBytes), ops); }
    forall file | Owned(c.manifest.entries, file) ensures file in c.files && file != MANIFEST {
      OwnedIsOnDisk(c, LedgerOf(Empty(maxStories, maxBytes), ops), file);
    }
  }

  lemma OwnedIsOnDisk(c: Cache, led: Ledger, file: string)
    requires AllGood(c.files, led, c.manifest.entries) && Owned(c.manifest.entries, file)
    ensures file in c.files && file != MANIFEST
  {
    var id :| id in c.manifest.entries && file in FilesOf(id, c.manifest.entries[id].audio.Keys);
    var lines := c.manifest.entries[id].audio.Keys;
    assert Good(c.files, led, id, c.manifest.entries[id]);
    ManifestIsNotAStoryFile(id, lines);
    if file != ScriptFile(id) {
      var line :| line in lines && file == AudioFile(id, line);
    }
  }

  lemma OnlyOwnClips(c: Cache, led: Ledger, id: string, line: int)
    requires AllGood(c.files, led, c.manifest.entries) && id in c.manifest.entries
    requires Owned(c.manifest.entries, AudioFile(id, Text(line)))
    ensures Text(line) in c.manifest.entries[id].audio
  {
    var file := AudioFile(id, Text(line));
    LineKey(line);
    assert file in FilesOf(id, {Text(line)}) by { assert Text(line) in {Text(line)}; }
    var owner :| owner in c.manifest.entries && file in FilesOf(owner, c.manifest.entries[owner].audio.Keys);
    assert Good(c.files, led, owner, c.manifest.entries[owner]);
    if owner != id {
      FilesOfDisjoint(owner, c.manifest.entries[owner].audio.Keys, id, {Text(line)});
      assert false;
    }
    ClipsApart(id, line);
  }

  ghost predicate LoadsLastStore(c: Cache, led: Ledger, id: string, line: int) {
    var script, clip := LoadFile(c, id, ScriptFile(id)), LoadFile(c, id, AudioFile(id, Text(line)));
    && (id in c.manifest.entries ==> id in led.texts && script == Some(ScriptText(led.texts[id])))
    && (clip.Some? <==>
          Text(line) in AudioOf(c, id) || (id in c.manifest.entries && AudioFile(id, Text(line)) in led.orphans))
    && (clip.Some? ==> (id, line) in led.clips && clip == Some(AudioData(led.clips[(id, line)])))
  }

  /** A load returns what was last stored under that id and line. It finds the clips the entry records
      and, of a story stored again after its manifest was lost, the orphaned ones. */
  lemma {:induction false} LoadsReturnTheLastStore(maxStories: int, maxBytes: int, ops: seq<Op>, id: string, line: int)
    requires SparesManifest(ops)
    ensures LoadsLastStore(Run(Empty(maxStories, maxBytes), ops), LedgerOf(Empty(maxStories, maxBytes), ops), id, line)
  {
    RunsStayFaithful(maxStories, maxBytes, ops);
    var c, led := Run(Empty(maxStories, maxBytes), ops), LedgerOf(Empty(maxStories, maxBytes), ops);
    var file := AudioFile(id, Text(line));
    if id in c.manifest.entries {
      assert Good(c.files, led, id, c.manifest.entries[id]);
      AudioIsNotJson(id, Text(line), "manifest");
      if Owned(c.manifest.entries, file) { OnlyOwnClips(c, led, id, line); }
      if Text(line) in AudioOf(c, id) {
        assert file in FilesOf(id, c.manifest.entries[id].audio.Keys);
      }
    }
  }

  /** A new process that can read the manifest has every entry, whatever key order the JSON gave, unless
      an earlier one could not and nothing was saved since. */
  lemma {:induction false} RestartLosesNothing(maxStories: int, maxBytes: int, ops: seq<Op>, order: seq<string>)
    requires SparesManifest(ops)
    requires LedgerOf(Empty(maxStories, maxBytes), ops).synced || Readable(ops)
    ensures var c := Run(Empty(maxStories, maxBytes), ops);
      && Reloaded(c.files) == c.manifest.entries
      && Step(c, NewProcess(order, true)).manifest.entries == c.manifest.entries
  {
    RunsStayFaithful(maxStories, maxBytes, ops);
    if Readable(ops) { ReadableOrphansNothing(Empty(maxStories, maxBytes), ops); }
  }

  /** A new process starts with ten stories and 100 MiB as its limits, nothing signalled, and the files as
      they are; with an unreadable manifest it knows none of them. */
  lemma ProcessesStartAfresh(c: Cache, order: seq<string>, readable: bool)
    requires Restarts(c, order, readable)
    ensures var r := Step(c, NewProcess(order, readable));
      && r.maxStories == 10 && r.maxBytes == 104_857_600
      && r.evicted == [] && !r.dirty && r.files == c.files
      && (!readable ==> r.manifest.entries == map[])
  {
  }

  // ---- byte accounting ----

  ghost function StoredBytes(c: Cache, id: string): int
    requires id in c.manifest.entries && Backed(c.files, id, c.manifest.entries[id])
  {
    |c.files[ScriptFile(id)].text| + SumOf(c.manifest.entries[id].audio)
  }

  ghost function CarriedOf(led: Ledger, id: string): int {
    if id in led.carried then led.carried[id] else 0
  }

  lemma {:induction false} SumsAgree(tracked: map<string, int>, carried: map<string, int>, stored: map<string, int>)
    requires tracked.Keys == carried.Keys == stored.Keys
    requires forall k :: k in tracked ==> tracked[k] + carried[k] == stored[k]
    ensures SumOf(tracked) + SumOf(carried) == SumOf(stored)
    decreases |tracked|
  {
    if k :| k in tracked {
      SumSplit(tracked, k);
      SumSplit(carried, k);
      SumSplit(stored, k);
      SumsAgree(tracked - {k}, carried - {k}, stored - {k});
    } else {
      assert tracked == map[] && carried == map[] && stored == map[];
    }
  }

  /** Tracked bytes plus the audio held at the last re-cache are exactly what is stored, for each
      story and for the total. So a story's count is exact just when it held no audio then, and below
      zero just when it held more than is stored now; and the total is exact just when none is carried. */
  lemma {:induction false} TrackedPlusCarriedIsStored(maxStories: int, maxBytes: int, ops: seq<Op>)
    requires SparesManifest(ops)
    ensures var c := Run(Empty(maxStories, maxBytes), ops);
      var led := LedgerOf(Empty(maxStories, maxBytes), ops);
      && AllBacked(c)
      && (forall id :: id in c.manifest.entries ==>
            && id in led.carried
            && c.manifest.entries[id].bytes + led.carried[id] == StoredBytes(c, id)
            && (c.manifest.entries[id].bytes == StoredBytes(c, id) <==> led.carried[id] == 0)
            && (c.manifest.entries[id].bytes < 0 <==> led.carried[id] > StoredBytes(c, id)))
      && TotalBytes(c.manifest) + TotalCarried(c, led) == TotalStored(c)
      && (TotalBytes(c.manifest) == TotalStored(c) <==> TotalCarried(c, led) == 0)
  {
    RunsStayFaithful(maxStories, maxBytes, ops);
    var c := Run(Empty(maxStories, maxBytes), ops);
    var led := LedgerOf(Empty(maxStories, maxBytes), ops);
    forall id | id in c.manifest.entries ensures Good(c.files, led, id, c.manifest.entries[id]) {
    }
    HeldTexts(c, led);
    SumsAgree(BytesOf(c.manifest.entries), map id | id in c.manifest.entries :: CarriedOf(led, id),
              map id | id in c.manifest.entries :: StoredBytes(c, id));
    EvictionProofs.TotalIsSum(c.manifest);
  }

  lemma HeldTexts(c: Cache, led: Ledger)
    requires HoldsLastStores(c.files, led) && AllGood(c.files, led, c.manifest.entries)
    ensures AllBacked(c)
    ensures forall id :: id in c.manifest.entries ==>
      && id in led.carried
      && c.manifest.entries[id].bytes + led.carried[id] == StoredBytes(c, id)
  {
    forall id | id in c.manifest.entries
      ensures id != "" && id != "manifest" && Backed(c.files, id, c.manifest.entries[id])
      ensures id in led.carried && c.manifest.entries[id].bytes + led.carried[id] == StoredBytes(c, id)
    {
      assert Good(c.files, led, id, c.manifest.entries[id]);
      assert ScriptFile(id) in c.files;
    }
  }

  ghost function TotalCarried(c: Cache, led: Ledger): int {
    SumOf(map id | id in c.manifest.entries :: CarriedOf(led, id))
  }

  ghost function TotalStored(c: Cache): int
    requires AllBacked(c)
  {
    SumOf(map id | id in c.manifest.entries :: StoredBytes(c, id))
  }

  /** A run in which no script is stored again while the story still holds audio. */
  ghost predicate NeverRecaches(c: Cache, ops: seq<Op>) {
    forall k :: 0 <= k < |ops| && ops[k].CacheScript? ==> SumOf(AudioOf(Run(c, ops[..k]), ops[k].id)) == 0
  }

  lemma {:induction false} NothingCarried(c: Cache, ops: seq<Op>, id: string)
    requires NeverRecaches(c, ops)
    ensures CarriedOf(LedgerOf(c, ops), id) == 0
  {
    if ops != [] {
      var before := ops[..|ops| - 1];
      forall k | 0 <= k < |before| ensures before[..k] == ops[..k] {
      }
      NothingCarried(c, before, id);
      assert ops[..|before|] == before;
      RecordCarries(Run(c, before), LedgerOf(c, before), ops[|before|], id);
    }
  }

  lemma RecordCarries(c: Cache, led: Ledger, op: Op, id: string)
    ensures CarriedOf(Record(c, led, op), id) ==
      if op.CacheScript? && op.id == id && id != "" && op.writable then SumOf(AudioOf(c, id))
      else CarriedOf(led, id)
  {
  }

  lemma {:induction false} SumOfZeros(sizes: map<string, int>)
    requires forall k :: k in sizes ==> sizes[k] == 0
    ensures SumOf(sizes) == 0
    decreases |sizes|
  {
    if k :| k in sizes {
      SumSplit(sizes, k);
      SumOfZeros(sizes - {k});
    } else {
      assert sizes == map[];
    }
  }

  /** `total_bytes` is exactly what is stored on every run that never re-caches such a story. */
  lemma {:induction false} TotalIsExactWithoutRecache(maxStories: int, maxBytes: int, ops: seq<Op>)
    requires SparesManifest(ops) && NeverRecaches(Empty(maxStories, maxBytes), ops)
    ensures var c := Run(Empty(maxStories, maxBytes), ops);
      AllBacked(c) && TotalBytes(c.manifest) == TotalStored(c)
  {
    TrackedPlusCarriedIsStored(maxStories, maxBytes, ops);
    var c := Run(Empty(maxStories, maxBytes), ops);
    var led := LedgerOf(Empty(maxStories, maxBytes), ops);
    forall id | id in c.manifest.entries ensures CarriedOf(led, id) == 0 {
      NothingCarried(Empty(maxStories, maxBytes), ops, id);
    }
    SumOfZeros(map id | id in c.manifest.entries :: CarriedOf(led, id));
  }

  // ---- where the obvious claims fail ----

  lemma {:induction false} EnforceEndsSaved(c: Cache)
    requires c.dirty && "" !in c.manifest.entries
    ensures Enforce(c).manifest.order != [] ==>
      MANIFEST in Enforce(c).files && Enforce(c).files[MANIFEST].ManifestText?
    decreases |c.manifest.order|
  {
    var victim := LeastRecent(c.manifest);
    assert c.manifest.order != [] ==> victim in c.manifest.order;
    if OverLimit(c.manifest, c.maxStories, c.maxBytes) && victim != "" {
      EnforceEndsSaved(Evict(c, victim));
    }
  }

  lemma ManifestScriptIsLost(c: Cache, json: string, now: int)
    requires "" !in c.manifest.entries && "manifest" in StoreScript(c, "manifest", json, now, true).manifest.entries
    ensures LoadFile(StoreScript(c, "manifest", json, now, true), "manifest", ScriptFile("manifest"))
            != Some(ScriptText(json))
  {
    var w := WriteScript(c, "manifest", json, now);
    EnforceEndsSaved(w);
    assert "manifest" in Enforce(w).manifest.order && ScriptFile("manifest") == MANIFEST;
  }

  lemma OtherScriptsLoad(c: Cache, led: Ledger, id: string, json: string, now: int)
    requires Faithful(c, led)
    requires id != "" && id != "manifest" && id in StoreScript(c, id, json, now, true).manifest.entries
    ensures LoadFile(StoreScript(c, id, json, now, true), id, ScriptFile(id)) == Some(ScriptText(json))
  {
    var op := CacheScript(id, json, now, true);
    var r, after := StoreScript(c, id, json, now, true), Record(c, led, op);
    StepStaysFaithful(c, led, op);
    assert Good(r.files, after, id, r.manifest.entries[id]);
    assert ScriptFile(id) in r.files;
  }

  /** A script that is still cached right after it was stored can be loaded back exactly when its
      id is not "manifest": that script shares its file with the manifest. */
  lemma {:induction false} StoredScriptLoadsIffNotManifest(c: Cache, led: Ledger, id: string, json: string, now: int)
    requires Faithful(c, led) && id != "" && id in StoreScript(c, id, json, now, true).manifest.entries
    ensures LoadFile(StoreScript(c, id, json, now, true), id, ScriptFile(id)) == Some(ScriptText(json))
            <==> id != "manifest"
  {
    if id == "manifest" {
      NoEmptyId(c, led);
      ManifestScriptIsLost(c, json, now);
    } else {
      OtherScriptsLoad(c, led, id, json, now);
    }
  }

  /** Re-caching a story that holds audio forgets that audio's size, and re-recording a shorter
      clip then takes the tracked size below zero. */
  lemma TrackedBytesCanBeNegative(id: string, json: string, long: seq<bv8>, short: seq<bv8>)
    requires id != "" && |long| > |json| + |short|
    ensures var c1 := StoreScript(Empty(1, |json| + |long|), id, json, 1, true);
      var c2 := StoreAudio(c1, id, 0, long, 2, true);
      var c3 := StoreScript(c2, id, json, 3, true);
      var c4 := StoreAudio(c3, id, 0, short, 4, true);
      && id in c4.manifest.entries
      && c4.manifest.entries[id].bytes == |json| + |short| - |long| < 0
  {
    var c0 := Empty(1, |json| + |long|);
    OnlyStory(WriteScript(c0, id, json, 1), id);
    var c1 := StoreScript(c0, id, json, 1, true);
    OnlyStory(WriteAudio(c1, id, 0, long, 2), id);
    var c2 := StoreAudio(c1, id, 0, long, 2, true);
    OnlyStory(WriteScript(c2, id, json, 3), id);
    var c3 := StoreScript(c2, id, json, 3, true);
    OnlyStory(WriteAudio(c3, id, 0, short, 4), id);
  }

  lemma OnlyStory(c: Cache, id: string)
    requires c.manifest.order == [id] && c.dirty && c.maxStories >= 1
    requires id in c.manifest.entries && c.manifest.entries[id].bytes <= c.maxBytes
    ensures Enforce(c) == Save(c)
  {
    assert SumTo(BytesOf(c.manifest.entries), c.manifest.order, 0) == 0;
  }
}
