/** Names of the files the offline cache writes below its directory. */
module CacheFiles {
  import opened Decimals

  const MANIFEST := "manifest.json"

  function ScriptFile(id: string): string { id + ".json" }

  function AudioFile(id: string, line: string): string { id + "__line" + line + ".audio" }

  /** The line keys the cache makes with `str(line_index)`. */
  predicate IsLineKey(line: string) {
    forall i :: 0 <= i < |line| ==> IsDigit(line[i]) || line[i] == '-'
  }

  lemma LineKey(n: int)
    ensures IsLineKey(Text(n))
  {
  }

  lemma AudioIsNotJson(id: string, line: string, other: string)
    ensures AudioFile(id, line) != ScriptFile(other)
  {
    var a, s := AudioFile(id, line), ScriptFile(other);
    assert a[|a| - 1] == 'o' && s[|s| - 1] == 'n';
  }

  /** The (id, line) to file-name encoding is injective: a line key holds no letter, so the
      last letter before ".audio" ends the separator "__line". */
  lemma AudioFileInjective(id1: string, line1: string, id2: string, line2: string)
    requires IsLineKey(line1) && IsLineKey(line2)
    requires AudioFile(id1, line1) == AudioFile(id2, line2)
    ensures id1 == id2 && line1 == line2
  {
    var a := AudioFile(id1, line1);
    var n1, n2 := |a| - 6 - |line1|, |a| - 6 - |line2|;
    assert a[n1 - 1] == 'e' && a[n2 - 1] == 'e';
    assert forall i :: n1 <= i < |a| - 6 ==> a[i] == line1[i - n1];
    assert forall i :: n2 <= i < |a| - 6 ==> a[i] == line2[i - n2];
    assert n1 == n2;
    assert line1 == a[n1..|a| - 6] == line2;
    assert id1 == a[..n1 - 6] == id2;
  }

  lemma ScriptFileInjective(id1: string, id2: string)
    requires ScriptFile(id1) == ScriptFile(id2)
    ensures id1 == id2
  {
    var s := ScriptFile(id1);
    assert id1 == s[..|s| - 5] == id2;
  }

  /** Every file that belongs to one story. */
  function FilesOf(id: string, lines: set<string>): set<string> {
    {ScriptFile(id)} + set line | line in lines :: AudioFile(id, line)
  }

  lemma FilesOfDisjoint(id1: string, lines1: set<string>, id2: string, lines2: set<string>)
    requires forall line :: line in lines1 + lines2 ==> IsLineKey(line)
    requires id1 != id2
    ensures FilesOf(id1, lines1) !! FilesOf(id2, lines2)
  {
    forall f | f in FilesOf(id1, lines1) && f in FilesOf(id2, lines2)
      ensures false
    {
      if f == ScriptFile(id1) {
        if f == ScriptFile(id2) {
          ScriptFileInjective(id1, id2);
        } else {
          var line :| line in lines2 && f == AudioFile(id2, line);
          AudioIsNotJson(id2, line, id1);
        }
      } else {
        var line :| line in lines1 && f == AudioFile(id1, line);
        if f == ScriptFile(id2) {
          AudioIsNotJson(id1, line, id2);
        } else {
          var other :| other in lines2 && f == AudioFile(id2, other);
          AudioFileInjective(id1, line, id2, other);
        }
      }
    }
  }

  lemma ManifestIsNotAStoryFile(id: string, lines: set<string>)
    requires id != "manifest"
    ensures MANIFEST !in FilesOf(id, lines)
  {
    assert MANIFEST == ScriptFile("manifest");
    if MANIFEST == ScriptFile(id) {
      ScriptFileInjective("manifest", id);
    } else if MANIFEST in FilesOf(id, lines) {
      var line :| line in lines && MANIFEST == AudioFile(id, line);
      AudioIsNotJson(id, line, "manifest");
    }
  }
}

/** The manifest: an insertion-ordered dictionary from story id to entry. */
module Manifests {
  import opened Common

  datatype Entry = Entry(lastUsed: int, bytes: int, audio: map<string, int>)

  datatype RawManifest = Manifest(order: seq<string>, entries: map<string, Entry>) {
    ghost predicate Ok() {
      && Distinct(order)
      && (forall id :: id in order <==> id in entries)
    }
  }

  type Manifest = m: RawManifest | m.Ok() witness Manifest([], map[])

  function Without(order: seq<string>, id: string): (r: seq<string>)
    ensures forall k :: k in r <==> k in order && k != id
    ensures |r| + (if id in order then 1 else 0) <= |order|
    ensures Distinct(order) ==> Distinct(r)
  {
    if order == [] then []
    else
      var rest := Without(order[1..], id);
      assert Distinct(order) ==> order[0] !in order[1..] && Distinct(order[1..]);
      if order[0] == id then rest else [order[0]] + rest
  }

  /** `_manifest[id] = entry`: a known key keeps its place, a new one goes last. */
  function Put(m: Manifest, id: string, e: Entry): Manifest {
    Manifest(if id in m.entries then m.order else m.order + [id], m.entries[id := e])
  }

  /** `_manifest.erase(id)`. */
  function Erase(m: Manifest, id: string): Manifest {
    Manifest(Without(m.order, id), m.entries - {id})
  }

  /** The sum over the first `n` keys. */
  function SumTo(sizes: map<string, int>, keys: seq<string>, n: nat): int
    requires n <= |keys| && forall k :: k in keys ==> k in sizes
  {
    if n == 0 then 0 else SumTo(sizes, keys, n - 1) + sizes[keys[n - 1]]
  }

  function Sum(sizes: map<string, int>, keys: seq<string>): int
    requires forall k :: k in keys ==> k in sizes
  {
    SumTo(sizes, keys, |keys|)
  }

  function BytesOf(entries: map<string, Entry>): map<string, int> {
    map id | id in entries :: entries[id].bytes
  }

  /** The same sum without any order of the keys. */
  ghost function SumOf(sizes: map<string, int>): int {
    if sizes == map[] then 0
    else var k :| k in sizes; sizes[k] + SumOf(sizes - {k})
  }

  lemma {:induction false} SumSplit(sizes: map<string, int>, k: string)
    requires k in sizes
    ensures SumOf(sizes) == sizes[k] + SumOf(sizes - {k})
    decreases |sizes|
  {
    var picked :| picked in sizes && SumOf(sizes) == sizes[picked] + SumOf(sizes - {picked});
    if picked != k {
      SumSplit(sizes - {picked}, k);
      SumSplit(sizes - {k}, picked);
      assert sizes - {picked} - {k} == sizes - {k} - {picked};
    }
  }

  lemma SumUpdate(sizes: map<string, int>, k: string, size: int)
    ensures SumOf(sizes[k := size]) == SumOf(sizes) - (if k in sizes then sizes[k] else 0) + size
  {
    var after := sizes[k := size];
    SumSplit(after, k);
    if k in sizes {
      SumSplit(sizes, k);
      assert after - {k} == sizes - {k};
    } else {
      assert after - {k} == sizes;
    }
  }

  /** The sizes of the first `n` keys. */
  function SizesTo(sizes: map<string, int>, keys: seq<string>, n: nat): map<string, int>
    requires n <= |keys| && forall k :: k in keys ==> k in sizes
  {
    map k | k in keys[..n] :: sizes[k]
  }

  lemma OneMoreSize(sizes: map<string, int>, keys: seq<string>, n: nat)
    requires n < |keys| && Distinct(keys) && forall k :: k in keys ==> k in sizes
    ensures SumOf(SizesTo(sizes, keys, n + 1)) == SumOf(SizesTo(sizes, keys, n)) + sizes[keys[n]]
  {
    assert keys[..n + 1] == keys[..n] + [keys[n]];
    assert SizesTo(sizes, keys, n + 1) == SizesTo(sizes, keys, n)[keys[n] := sizes[keys[n]]];
    SumUpdate(SizesTo(sizes, keys, n), keys[n], sizes[keys[n]]);
  }

  /** Adding up along a list of keys counts each of them once. */
  lemma {:induction false} SumToIsSum(sizes: map<string, int>, keys: seq<string>, n: nat)
    requires n <= |keys| && Distinct(keys) && forall k :: k in keys ==> k in sizes
    ensures SumTo(sizes, keys, n) == SumOf(SizesTo(sizes, keys, n))
  {
    if n == 0 {
      assert SizesTo(sizes, keys, 0) == map[];
    } else {
      SumToIsSum(sizes, keys, n - 1);
      OneMoreSize(sizes, keys, n - 1);
    }
  }

  lemma SumIsSum(sizes: map<string, int>, keys: seq<string>)
    requires Distinct(keys) && forall k :: k in keys <==> k in sizes
    ensures Sum(sizes, keys) == SumOf(sizes)
  {
    SumToIsSum(sizes, keys, |keys|);
    assert keys[..|keys|] == keys;
    assert SizesTo(sizes, keys, |keys|) == sizes;
  }

  /** The byte count the limits are checked against. */
  function TotalBytes(m: Manifest): int { Sum(BytesOf(m.entries), m.order) }

  function Oldest(m: Manifest, n: nat): (victim: string)
    requires n <= |m.order|
    ensures n > 0 ==> victim in m.entries
  {
    if n == 0 then ""
    else
      var best, next := Oldest(m, n - 1), m.order[n - 1];
      if n == 1 || m.entries[next].lastUsed < m.entries[best].lastUsed then next else best
  }

  /** The id with the smallest stamp, the first of them in dictionary order; "" when empty. */
  function LeastRecent(m: Manifest): string { Oldest(m, |m.order|) }

  predicate OverLimit(m: Manifest, maxStories: int, maxBytes: int) {
    |m.order| > maxStories || TotalBytes(m) > maxBytes
  }
}

/** The cache as a value: what each public call of the client's OfflineCache node does to the
    manifest, the directory and the `entry_evicted` signal log. */
module CacheSteps {
  import opened Common
  import opened Decimals
  import opened CacheFiles
  import opened Manifests

  datatype File =
    | ScriptText(text: string)
    | AudioData(data: seq<bv8>)
    | ManifestText(saved: map<string, Entry>)

  datatype Cache = Cache(
    manifest: Manifest,
    files: map<string, File>,
    dirty: bool,
    evicted: seq<string>,
    maxStories: int,
    maxBytes: int)

  const DEFAULT_MAX_STORIES := 10
  const DEFAULT_MAX_BYTES := 100 * 1024 * 1024

  function Empty(maxStories: int, maxBytes: int): Cache {
    Cache(Manifest([], map[]), map[], false, [], maxStories, maxBytes)
  }

  function Save(c: Cache): Cache {
    c.(files := c.files[MANIFEST := ManifestText(c.manifest.entries)], dirty := false)
  }

  function Evict(c: Cache, id: string): (r: Cache)
    requires id in c.manifest.entries
    ensures |r.manifest.order| < |c.manifest.order|
  {
    assert id in c.manifest.order;
    c.(manifest := Erase(c.manifest, id),
       files := c.files - FilesOf(id, c.manifest.entries[id].audio.Keys),
       evicted := c.evicted + [id],
       dirty := true)
  }

  /** Evict until within both limits; an empty victim name gives up without saving. */
  function Enforce(c: Cache): Cache
    decreases |c.manifest.order|
  {
    if OverLimit(c.manifest, c.maxStories, c.maxBytes) then
      var victim := LeastRecent(c.manifest);
      if victim == "" then c else Enforce(Evict(c, victim))
    else if c.dirty then Save(c)
    else c
  }

  function AudioOf(c: Cache, id: string): map<string, int> {
    if id in c.manifest.entries then c.manifest.entries[id].audio else map[]
  }

  /** cache_script after its file was opened. Only the size of the text is tracked. */
  function WriteScript(c: Cache, id: string, json: string, now: int): Cache {
    c.(files := c.files[ScriptFile(id) := ScriptText(json)],
       manifest := Put(c.manifest, id, Entry(now, |json|, AudioOf(c, id))),
       dirty := true)
  }

  function StoreScript(c: Cache, id: string, json: string, now: int, writable: bool): Cache {
    if id == "" || !writable then c else Enforce(WriteScript(c, id, json, now))
  }

  function WithAudio(e: Entry, key: string, size: nat, now: int): Entry {
    var before := if key in e.audio then e.audio[key] else 0;
    Entry(now, e.bytes + (size - before), e.audio[key := size])
  }

  function WriteAudio(c: Cache, id: string, line: int, data: seq<bv8>, now: int): Cache
    requires id in c.manifest.entries
  {
    c.(files := c.files[AudioFile(id, Text(line)) := AudioData(data)],
       manifest := Put(c.manifest, id, WithAudio(c.manifest.entries[id], Text(line), |data|, now)),
       dirty := true)
  }

  function StoreAudio(c: Cache, id: string, line: int, data: seq<bv8>, now: int, writable: bool): Cache {
    if id !in c.manifest.entries || !writable then c else Enforce(WriteAudio(c, id, line, data, now))
  }

  function Touch(c: Cache, id: string, now: int): Cache {
    if id !in c.manifest.entries then c
    else Save(c.(manifest := Put(c.manifest, id, c.manifest.entries[id].(lastUsed := now))))
  }

  function LoadFile(c: Cache, id: string, name: string): Option<File> {
    if id in c.manifest.entries && name in c.files then Some(c.files[name]) else None
  }

  /** `readable`: the file could be opened, and a script's text parsed. */
  function Load(c: Cache, id: string, name: string, now: int, readable: bool): Cache {
    if LoadFile(c, id, name).None? || !readable then c else Touch(c, id, now)
  }

  function Clear(c: Cache): Cache {
    Save(c.(manifest := Manifest([], map[]), files := map[]))
  }

  /** The entries a new process finds: those saved whose script file is still there. */
  function Reloaded(files: map<string, File>): map<string, Entry> {
    if MANIFEST in files && files[MANIFEST].ManifestText? then
      var saved := files[MANIFEST].saved;
      map id | id in saved && ScriptFile(id) in files :: saved[id]
    else map[]
  }

  /** Reading the manifest back; `order` is the key order of its JSON. One that cannot be opened or
      parsed (`!readable`) counts as none. */
  ghost function Restart(c: Cache, order: seq<string>, readable: bool): Cache {
    var entries := if readable then Reloaded(c.files) else map[];
    if Manifest(order, entries).Ok() then
      c.(manifest := Manifest(order, entries), dirty := false)
    else c
  }

  /** Whether the process can start with these keys. */
  ghost predicate Restarts(c: Cache, order: seq<string>, readable: bool) {
    Manifest(order, if readable then Reloaded(c.files) else map[]).Ok()
  }

  datatype Op =
    | CacheScript(id: string, json: string, now: int, writable: bool)
    | CacheAudio(id: string, line: int, data: seq<bv8>, now: int, writable: bool)
    | LoadScript(id: string, now: int, readable: bool)
    | LoadAudio(id: string, line: int, now: int, readable: bool)
    | ClearAll
    | SetLimits(maxStories: int, maxBytes: int)
    | NewProcess(order: seq<string>, readable: bool)

  ghost function Step(c: Cache, op: Op): Cache {
    match op
    case CacheScript(id, json, now, writable) => StoreScript(c, id, json, now, writable)
    case CacheAudio(id, line, data, now, writable) => StoreAudio(c, id, line, data, now, writable)
    case LoadScript(id, now, readable) => Load(c, id, ScriptFile(id), now, readable)
    case LoadAudio(id, line, now, readable) => Load(c, id, AudioFile(id, Text(line)), now, readable)
    case ClearAll => Clear(c)
    case SetLimits(s, b) => c.(maxStories := s, maxBytes := b)
    case NewProcess(order, readable) =>
      if Restarts(c, order, readable)
      then Restart(Empty(DEFAULT_MAX_STORIES, DEFAULT_MAX_BYTES).(files := c.files), order, readable)
      else c
  }

  ghost function Run(c: Cache, ops: seq<Op>): Cache {
    if ops == [] then c else Step(Run(c, ops[..|ops| - 1]), ops[|ops| - 1])
  }
}

/** The node itself: fields updated in place, each call tied to its step on values. */
module OfflineCaches {
  import opened Common
  import opened Decimals
  import opened CacheFiles
  import opened Manifests
  import opened CacheSteps

  /** Of the saved entries those are left that are still `rest` to be checked or have their script file. */
  ghost predicate StillThere(entries: map<string, Entry>, saved: map<string, Entry>, files: map<string, File>,
                             rest: seq<string>) {
    entries == map id | id in saved && (ScriptFile(id) in files || id in rest) :: saved[id]
  }

  lemma OneFewerToCheck(entries: map<string, Entry>, saved: map<string, Entry>, files: map<string, File>,
                        order: seq<string>, i: nat)
    requires i < |order| && Distinct(order) && StillThere(entries, saved, files, order[i..])
    ensures StillThere(if ScriptFile(order[i]) in files then entries else entries - {order[i]}, saved, files,
                       order[i + 1..])
  {
    assert order[i..] == [order[i]] + order[i + 1..];
  }

  class OfflineCache {
    var maxStories: int
    var maxBytes: int
    var manifest: Manifest
    var dirty: bool
    var files: map<string, File>  // the cache directory
    var evictions: seq<string>  // the `entry_evicted` signals so far

    ghost function Model(): Cache
      reads this
    {
      Cache(manifest, files, dirty, evictions, maxStories, maxBytes)
    }

    constructor (maxStories: int, maxBytes: int)
      ensures Model() == Empty(maxStories, maxBytes)
    {
      this.maxStories, this.maxBytes := maxStories, maxBytes;
      manifest, dirty, files, evictions := Manifest([], map[]), false, map[], [];
    }

    /** A new process: read the manifest back, then drop every entry whose script file is gone.
        `order` is the order in which the JSON text lists the ids; a manifest that cannot be opened or
        parsed (`!readable`) counts as none. */
    method LoadManifest(order: seq<string>, readable: bool)
      requires MANIFEST in files && files[MANIFEST].ManifestText? ==>
                 Manifest(order, files[MANIFEST].saved).Ok()
      modifies this
      ensures manifest.entries == if readable then Reloaded(old(files)) else map[]
      ensures Model() == Restart(old(Model()), manifest.order, readable)
      ensures Model() == old(Model()).(manifest := manifest, dirty := false)
    {
      manifest, dirty := Manifest([], map[]), false;
      if MANIFEST in files && readable && files[MANIFEST].ManifestText? {
        var saved := files[MANIFEST].saved;
        manifest := Manifest(order, saved);
        DropMissing();
      }
    }

    /** Drop the entries whose script file is gone. */
    method DropMissing()
      modifies `manifest
      ensures manifest.entries ==
        map id | id in old(manifest.entries) && ScriptFile(id) in files :: old(manifest.entries)[id]
    {
      var order := manifest.order;
      for i := 0 to |order|
        invariant StillThere(manifest.entries, old(manifest.entries), files, order[i..])
      {
        OneFewerToCheck(manifest.entries, old(manifest.entries), files, order, i);
        if ScriptFile(order[i]) !in files {
          manifest := Erase(manifest, order[i]);
        }
      }
    }

    method CacheScript(id: string, json: string, now: int, writable: bool) returns (ok: bool)
      modifies this
      ensures ok == (id != "" && writable)
      ensures Model() == StoreScript(old(Model()), id, json, now, writable)
    {
      if id == "" { return false; }
      if !writable { return false; }
      files := files[ScriptFile(id) := ScriptText(json)];
      var audio := if id in manifest.entries then manifest.entries[id].audio else map[];
      manifest := Put(manifest, id, Entry(now, |json|, audio));
      dirty := true;
      EnforceLimits();
      return true;
    }

    method CacheAudio(id: string, line: int, data: seq<bv8>, now: int, writable: bool) returns (ok: bool)
      modifies this
      ensures ok == (id in old(manifest.entries) && writable)
      ensures Model() == StoreAudio(old(Model()), id, line, data, now, writable)
    {
      if id !in manifest.entries { return false; }
      if !writable { return false; }
      var key := Text(line);
      files := files[AudioFile(id, key) := AudioData(data)];
      var entry := manifest.entries[id];
      var delta := |data| - (if key in entry.audio then entry.audio[key] else 0);
      var updated := Entry(now, entry.bytes + delta, entry.audio[key := |data|]);
      assert updated == WithAudio(entry, key, |data|, now);
      manifest := Put(manifest, id, updated);
      dirty := true;
      assert Model() == WriteAudio(old(Model()), id, line, data, now);
      EnforceLimits();
      return true;
    }

    method LoadScript(id: string, now: int, readable: bool) returns (r: Option<File>)
      modifies this
      ensures r == if readable then LoadFile(old(Model()), id, ScriptFile(id)) else None
      ensures Model() == Load(old(Model()), id, ScriptFile(id), now, readable)
    {
      r := LoadNamed(id, ScriptFile(id), now, readable);
    }

    method LoadAudio(id: string, line: int, now: int, readable: bool) returns (r: Option<File>)
      modifies this
      ensures r == if readable then LoadFile(old(Model()), id, AudioFile(id, Text(line))) else None
      ensures Model() == Load(old(Model()), id, AudioFile(id, Text(line)), now, readable)
    {
      r := LoadNamed(id, AudioFile(id, Text(line)), now, readable);
    }

    method LoadNamed(id: string, name: string, now: int, readable: bool) returns (r: Option<File>)
      modifies this
      ensures r == if readable then LoadFile(old(Model()), id, name) else None
      ensures Model() == Load(old(Model()), id, name, now, readable)
    {
      if id !in manifest.entries || name !in files { return None; }
      if !readable { return None; }
      r := Some(files[name]);
      manifest := Put(manifest, id, manifest.entries[id].(lastUsed := now));
      SaveManifest();
    }

    method Total() returns (total: int)
      ensures total == TotalBytes(manifest)
    {
      total := 0;
      for i := 0 to |manifest.order|
        invariant total == SumTo(BytesOf(manifest.entries), manifest.order, i)
      {
        total := total + manifest.entries[manifest.order[i]].bytes;
      }
    }

    method FindLeastRecent() returns (victim: string)
      ensures victim == LeastRecent(manifest)
    {
      victim := "";
      var oldest: Option<int> := None;
      for i := 0 to |manifest.order|
        invariant victim == Oldest(manifest, i)
        invariant oldest == if i == 0 then None else Some(manifest.entries[victim].lastUsed)
      {
        var id := manifest.order[i];
        var used := manifest.entries[id].lastUsed;
        if oldest == None || used < oldest.value {
          oldest, victim := Some(used), id;
        }
      }
    }

    method EnforceLimits()
      modifies this
      ensures Model() == Enforce(old(Model()))
    {
      var total := Total();
      while |manifest.order| > maxStories || total > maxBytes
        invariant total == TotalBytes(manifest)
        invariant Enforce(Model()) == Enforce(old(Model()))
        decreases |manifest.order|
      {
        var victim := FindLeastRecent();
        if victim == "" { return; }
        EvictStory(victim);
        total := Total();
      }
      if dirty { SaveManifest(); }
    }

    method EvictStory(id: string)
      requires id in manifest.entries
      modifies this
      ensures Model() == Evict(old(Model()), id)
    {
      var audio := manifest.entries[id].audio;
      RemoveAudio(id, audio.Keys);
      files := files - {ScriptFile(id)};
      assert files == old(files) - FilesOf(id, audio.Keys);
      manifest := Erase(manifest, id);
      evictions := evictions + [id];
      dirty := true;
    }

    method RemoveAudio(id: string, lines: set<string>)
      modifies `files
      ensures files == old(files) - set line | line in lines :: AudioFile(id, line)
    {
      var rest := lines;
      while rest != {}
        invariant rest <= lines
        invariant files == old(files) - set line | line in lines - rest :: AudioFile(id, line)
      {
        var line :| line in rest;
        ghost var gone := set other | other in lines - rest :: AudioFile(id, other);
        assert (set other | other in lines - (rest - {line}) :: AudioFile(id, other)) == gone + {AudioFile(id, line)};
        files := files - {AudioFile(id, line)};
        rest := rest - {line};
      }
    }

    method SaveManifest()
      modifies this
      ensures Model() == Save(old(Model()))
      ensures !dirty
    {
      files := files[MANIFEST := ManifestText(manifest.entries)];
      dirty := false;
    }

    method ClearAll()
      modifies this
      ensures Model() == Clear(old(Model()))
    {
      manifest := Manifest([], map[]);
      files := map[];
      SaveManifest();
    }
  }
}
