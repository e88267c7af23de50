/**
 Files left under ids still to be handed out: how a process leaves one, what the next one makes of it,
 and so when exactly the promises about this process's own entries hold.
 */
module CacheOrphans {
  import opened Wrappers
  import opened JobIdentity
  import opened CacheStore
  import opened CacheRuns
  import opened CacheSafety
  import opened CacheSteps
  import opened CacheTheorems
  import opened CacheScenes

  // --- reserving under a given id ---

  /** The start with `n` ids used up. */
  ghost function Later(s: Store, n: nat): World
    requires Loaded(s)
  {
    Start(s).(s := s.(nextID := s.nextID + n))
  }

  /** A reservation whose index could not be saved: its id is used up. */
  function Lost(i: Identity): Step {
    DoCreate(i, "k", "v", "", 0, false)
  }

  /** An identity that may write, read what it wrote, and whose repository has no entry yet. */
  predicate Newcomer(s: Store, i: Identity) {
    i.writeRef != "" && CanRead(i, i.writeRef) && forall id :: id in s.entries ==> s.entries[id].repo != i.repository
  }

  lemma LoseOne(s: Store, i: Identity, n: nat)
    requires Loaded(s) && Newcomer(s, i)
    ensures Enabled(Later(s, n), Lost(i)) && Do(Later(s, n), Lost(i)) == Later(s, n + 1)
  {
    var w := Later(s, n);
    assert w.s.entries - {w.s.nextID} == w.s.entries;
    MergeSame(w.heap, w.s.entries);
    assert Newest(w.s.entries, Query(i.repository, i.writeRef, Lower("k"), "v", AnyExact)).None?;
  }

  lemma StartRuns(s: Store)
    requires Loaded(s)
    ensures Run([Start(s)], [], s) && Start(s) == Later(s, 0)
  {
  }

  lemma {:induction false} LoseIds(s: Store, i: Identity, n: nat) returns (ws: seq<World>, steps: seq<Step>)
    requires Loaded(s) && Newcomer(s, i)
    ensures Run(ws, steps, s) && |ws| > 0 && ws[|ws| - 1] == Later(s, n)
  {
    hide Run, Enabled, Do, Start, Later, Loaded, Newcomer;
    if n == 0 {
      StartRuns(s);
      ws, steps := [Start(s)], [];
    } else {
      ws, steps := LoseIds(s, i, n - 1);
      LoseOne(s, i, n - 1);
      ws, steps := Onward(ws, steps, s, Lost(i), Later(s, n));
    }
  }

  ghost function Fresh(s: Store, i: Identity, n: nat): World
    requires Loaded(s)
  {
    var w := Later(s, n);
    WithNew(w, Reservation(w.s, i, Lower("k"), "v", "", 0))
  }

  lemma ReserveOne(s: Store, i: Identity, n: nat)
    requires Loaded(s) && Newcomer(s, i)
    ensures var st := DoCreate(i, "k", "v", "", 0, true); Enabled(Later(s, n), st) && Do(Later(s, n), st) == Fresh(s, i, n)
  {
    var w := Later(s, n);
    assert Newest(w.s.entries, Query(i.repository, i.writeRef, Lower("k"), "v", AnyExact)).None?;
    MergeMore(w.heap, w.s.entries, w.s.nextID, Reservation(w.s, i, Lower("k"), "v", "", 0));
  }

  /** A new reservation under a given id, after the ids before it are used up. */
  lemma ReserveRun(s: Store, i: Identity, n: nat) returns (ws: seq<World>, steps: seq<Step>)
    requires Loaded(s) && Newcomer(s, i)
    ensures Run(ws, steps, s) && |ws| > 0 && ws[|ws| - 1] == Fresh(s, i, n)
  {
    ws, steps := LoseIds(s, i, n);
    ReserveOne(s, i, n);
    hide Run, Enabled, Do, Later, Fresh, Loaded, Newcomer;
    ws, steps := Onward(ws, steps, s, DoCreate(i, "k", "v", "", 0, true), Fresh(s, i, n));
  }

  lemma FreshFound(s: Store, i: Identity, n: nat)
    requires Loaded(s) && Newcomer(s, i)
    ensures var w, id := Fresh(s, i, n), s.nextID + n;
            && Keyed(w.s.entries) && Unused(w, i, id)
            && Newest(w.s.entries, Query(i.repository, i.writeRef, Lower("k"), "v", ReservedExact)) == Some(w.s.entries[id])
  {
    var w, id := Fresh(s, i, n), s.nextID + n;
    var q := Query(i.repository, i.writeRef, Lower("k"), "v", ReservedExact);
    assert Hits(q, w.s.entries[id]);
    assert IsNewest(w.s.entries, q, Newest(w.s.entries, q));
  }

  /** The bytes were answered, and nobody uploaded anything. */
  ghost predicate ServedUnsent(w: World, i: Identity, id: Id, bytes: Bytes) {
    && Answered(i, id, bytes) in w.served && w.log == {} && !OwnersBytes(w, id, bytes)
    && id in w.heap && w.heap[id].complete && w.heap[id].size == |bytes|
  }

  /** The reservation is sealed with the blob that is there, and read back. */
  lemma AdoptRun(ws: seq<World>, steps: seq<Step>, s: Store, i: Identity, id: Id, x: Write)
    returns (vs: seq<World>, ts: seq<Step>)
    requires Run(ws, steps, s) && |ws| > 0 && Ready(ws[|ws| - 1], i, id, "k", "v") && CanRead(i, i.writeRef)
    requires var w := ws[|ws| - 1]; w.log == {} && id in w.last && w.last[id] == x && !Traceable({}, id, x)
    ensures Run(vs, ts, s) && |vs| > 0 && id in ws[|ws| - 1].s.blobs
    ensures ServedUnsent(vs[|vs| - 1], i, id, ws[|ws| - 1].s.blobs[id])
  {
    hide Run, Traceable, Newest;
    vs, ts := PublishRun(ws, steps, s, i, i, id, "k", "v", None);
  }

  // --- what is left over is served ---

  lemma BlobReady(s: Store, i: Identity, id: Id)
    requires Loaded(s) && Newcomer(s, i) && s.nextID <= id && id in s.blobs
    ensures var w := Fresh(s, i, id - s.nextID);
            && Ready(w, i, id, "k", "v") && w.log == {} && id in w.last && w.last[id] == Put(s.blobs[id])
            && !Traceable({}, id, Put(s.blobs[id])) && w.s.blobs[id] == s.blobs[id]
  {
    hide Newest;
    FreshFound(s, i, id - s.nextID);
  }

  /**
   A blob under an id still to be handed out is always adopted: some run hands its id to any newcomer,
   whose finalize then publishes bytes nobody uploaded, and they are served.
   */
  lemma OrphanIsServed(s: Store, i: Identity, id: Id) returns (ws: seq<World>, steps: seq<Step>)
    requires Loaded(s) && Newcomer(s, i) && s.nextID <= id && id in s.blobs
    ensures Run(ws, steps, s) && |ws| > 0 && ServedUnsent(ws[|ws| - 1], i, id, s.blobs[id])
  {
    ws, steps := ReserveRun(s, i, id - s.nextID);
    BlobReady(s, i, id);
    hide Run, Fresh, Ready, ServedUnsent, Traceable, Loaded;
    ws, steps := AdoptRun(ws, steps, s, i, id, Put(s.blobs[id]));
  }

  /** The reservation with one left-over block committed as its blob. */
  function WithBlock(w: World, id: Id, b: string): World
    requires id in w.s.blocks && b in w.s.blocks[id]
  {
    var bytes := w.s.blocks[id][b];
    w.(s := w.s.(blobs := w.s.blobs[id := bytes], blocks := w.s.blocks - {id}, staged := w.s.staged[id := |bytes|]),
       last := w.last[id := Listed([b], [bytes])])
  }

  lemma CommitThis(s: Store, id: Id, b: string)
    requires id in s.blocks && b in s.blocks[id] && Fits(s, |s.blocks[id][b]|)
    ensures var bytes := s.blocks[id][b];
            CommitBlocks(s, id, [b], Fine)
            == (s.(blobs := s.blobs[id := bytes], blocks := s.blocks - {id}, staged := s.staged[id := |bytes|]), Committed)
            && PartsOf(BlocksOf(s, id), [b]) == [bytes]
  {
    var bytes := s.blocks[id][b];
    assert [b][1..] == [] && [] + bytes == bytes;
    assert Assemble(s.blocks[id], [b][1..], s.maxEntry, bytes, Fine) == (bytes, Committed);
    assert Assemble(s.blocks[id], [b], s.maxEntry, [], Fine) == (bytes, Committed);
  }

  lemma CommitOne(w: World, i: Identity, id: Id, b: string)
    requires Keyed(w.s.entries) && w.reqs == map[] && w.holder == map[] && id in w.heap
    requires id in w.s.blocks && b in w.s.blocks[id] && Fits(w.s, |w.s.blocks[id][b]|)
    ensures var u := Alone(w, Writable(id, i));
            Enabled(u, DoCommit(0, [b], Fine)) && Do(u, DoCommit(0, [b], Fine)) == WithBlock(w, id, b)
  {
    var u := Alone(w, Writable(id, i));
    CommitThis(u.s, id, b);
    assert u.reqs - {0} == w.reqs && u.holder - {id} == w.holder;
    hide CommitBlocks, PartsOf, IndexStep, PointStep, StartStep, Keyed;
  }

  lemma BlockReady(s: Store, i: Identity, n: nat, b: string)
    requires Loaded(s) && Newcomer(s, i) && s.nextID + n in s.blocks && b in s.blocks[s.nextID + n]
    ensures var id := s.nextID + n;
            var v, x := WithBlock(Fresh(s, i, n), id, b), Listed([b], [s.blocks[id][b]]);
            && Ready(v, i, id, "k", "v") && v.log == {} && id in v.last && v.last[id] == x && v.s.blobs[id] == s.blocks[id][b]
            && !Traceable({}, id, x)
  {
    hide Newest;
    FreshFound(s, i, n);
    var id := s.nextID + n;
    assert !HasBlock({}, id, [b][0], [s.blocks[id][b]][0]);
  }

  /** A staged block left under an id still to be handed out is adopted as well, if it fits the cap. */
  lemma OrphanBlockIsServed(s: Store, i: Identity, id: Id, b: string) returns (ws: seq<World>, steps: seq<Step>)
    requires Loaded(s) && Newcomer(s, i) && s.nextID <= id && id in s.blocks && b in s.blocks[id]
    requires Fits(s, |s.blocks[id][b]|)
    ensures Run(ws, steps, s) && |ws| > 0 && ServedUnsent(ws[|ws| - 1], i, id, s.blocks[id][b])
  {
    var n := id - s.nextID;
    var w := Fresh(s, i, n);
    ws, steps := ReserveRun(s, i, n);
    FreshFound(s, i, n);
    CommitOne(w, i, id, b);
    BlockReady(s, i, n, b);
    var v := WithBlock(w, id, b);
    hide Run, Enabled, Do, Fresh, Alone, WithBlock, Ready, Loaded, Unused, Owns, Newest, ServedUnsent, Traceable;
    ws, steps := UploadRun(ws, steps, s, i, id);
    ws, steps := Onward(ws, steps, s, DoCommit(0, [b], Fine), v);
    ws, steps := AdoptRun(ws, steps, s, i, id, Listed([b], [s.blocks[id][b]]));
  }

  // --- the promises hold exactly of clean ids ---

  lemma {:induction false} Longest(entries: map<Id, Entry>) returns (n: nat)
    ensures forall id :: id in entries ==> |entries[id].repo| < n
    decreases |entries|
  {
    n := 0;
    if entries != map[] {
      var id :| id in entries;
      assert (entries - {id}).Keys == entries.Keys - {id};
      n := Longest(entries - {id});
      n := Max(n, |entries[id].repo| + 1);
      assert forall k :: k in entries && k != id ==> k in entries - {id};
    }
  }

  lemma SomeNewcomer(s: Store) returns (i: Identity)
    ensures Newcomer(s, i)
  {
    var n := Longest(s.entries);
    i := NoIdentity.(repository := seq(n, _ => 'a'), writeRef := "refs/heads/main", readRefs := ["refs/heads/main"]);
    assert i.readRefs[0] == i.writeRef;
  }

  /** Whatever any run serves under the id is its owner's last successful upload. */
  ghost predicate OwnersOnly(s: Store, id: Id) {
    forall ws: seq<World>, steps: seq<Step>, k: nat, v: Answered ::
      Run(ws, steps, s) && k < |ws| && v in ws[k].served && v.id == id ==> OwnersBytes(ws[k], id, v.bytes)
  }

  lemma NotOwners(s: Store, ws: seq<World>, steps: seq<Step>, i: Identity, id: Id, bytes: Bytes)
    requires Run(ws, steps, s) && |ws| > 0 && ServedUnsent(ws[|ws| - 1], i, id, bytes)
    ensures !OwnersOnly(s, id)
  {
    hide Run, OwnersBytes;
    var k: nat, v := |ws| - 1, Answered(i, id, bytes);
    assert v in ws[k].served && v.id == id;
  }

  /**
   For an id still to be handed out, what is served under it is always its owner's upload exactly when
   the process starts with no blob under it and no staged block that fits the per-entry cap.
   */
  lemma OwnersExactly(s: Store, id: Id)
    requires Loaded(s) && s.nextID <= id
    ensures OwnersOnly(s, id) <==> Clean(s, id)
  {
    hide Run, Loaded, OwnersBytes, ServedUnsent;
    if Clean(s, id) {
      forall ws: seq<World>, steps: seq<Step>, k: nat, v: Answered |
        Run(ws, steps, s) && k < |ws| && v in ws[k].served && v.id == id
        ensures OwnersBytes(ws[k], id, v.bytes)
      {
        ServedBytes(ws, steps, s, k, v);
      }
    } else {
      hide OwnersOnly;
      var i := SomeNewcomer(s);
      if id in s.blobs {
        var ws, steps := OrphanIsServed(s, i, id);
        NotOwners(s, ws, steps, i, id, s.blobs[id]);
      } else {
        var b :| b in s.blocks[id] && Fits(s, |s.blocks[id][b]|);
        var ws, steps := OrphanBlockIsServed(s, i, id, b);
        NotOwners(s, ws, steps, i, id, s.blocks[id][b]);
      }
    }
  }

  predicate SizeFits(s: Store, w: World, id: Id) {
    id in w.heap && w.heap[id].complete ==> Fits(s, w.heap[id].size)
  }

  /** Whatever any run finalizes under the id is within the per-entry cap. */
  ghost predicate SizesFit(s: Store, id: Id) {
    forall ws: seq<World>, steps: seq<Step>, k: nat :: Run(ws, steps, s) && k < |ws| ==> SizeFits(s, ws[k], id)
  }

  /**
   For an id still to be handed out, the per-entry cap is kept exactly when no blob past it lies there at
   the start.
   */
  lemma CapExactly(s: Store, id: Id)
    requires Loaded(s) && s.nextID <= id
    ensures SizesFit(s, id) <==> Capped(s, id)
  {
    hide Run, Loaded, Fits, OwnersBytes;
    if Capped(s, id) {
      forall ws: seq<World>, steps: seq<Step>, k: nat | Run(ws, steps, s) && k < |ws| ensures SizeFits(s, ws[k], id) {
        FinalizedFits(ws, steps, s, k, id);
      }
    } else {
      var i := SomeNewcomer(s);
      var ws, steps := OrphanIsServed(s, i, id);
      var k: nat := |ws| - 1;
      assert !SizeFits(s, ws[k], id);
    }
  }

  // --- how one is left ---

  const Late := MAX_INCOMPLETE_AGE + 1

  /** An upload waiting to write while its reservation was reclaimed. */
  ghost function Reclaimed(s: Store, i: Identity): World
    requires Loaded(s)
  {
    var w := Alone(Fresh(s, i, 0), Writable(s.nextID, i));
    w.(s := Gc(w.s, Late))
  }

  lemma ReclaimOne(s: Store, i: Identity)
    requires Loaded(s) && Newcomer(s, i)
    ensures var w := Alone(Fresh(s, i, 0), Writable(s.nextID, i));
            Enabled(w, DoGc(Late)) && Do(w, DoGc(Late)) == Reclaimed(s, i)
    ensures Keyed(Reclaimed(s, i).s.entries) && s.nextID in Reclaimed(s, i).heap
    ensures Reclaimed(s, i).s.entries.Keys <= s.entries.Keys
    ensures forall id :: id in Reclaimed(s, i).s.entries ==> Reclaimed(s, i).s.entries[id] == s.entries[id]
  {
    hide UniqueKeys;
    var w := Alone(Fresh(s, i, 0), Writable(s.nextID, i));
    assert Abandoned(w.s.entries[s.nextID], Late - MAX_INCOMPLETE_AGE);
    MergeSame(w.heap, Gc(w.s, Late).entries);
  }

  /** An upload that outlives its reservation leaves a blob under an id past every one in the index. */
  lemma LateUploadStays(s: Store, i: Identity, bytes: Bytes) returns (ws: seq<World>, steps: seq<Step>)
    requires Loaded(s) && Newcomer(s, i) && Fits(s, |bytes|)
    ensures Run(ws, steps, s) && |ws| > 0
    ensures var t := ws[|ws| - 1].s;
            && s.nextID in t.blobs && t.blobs[s.nextID] == bytes && t.entries.Keys <= s.entries.Keys
            && (forall id :: id in t.entries ==> t.entries[id] == s.entries[id])
  {
    var id, w := s.nextID, Fresh(s, i, 0);
    ws, steps := ReserveRun(s, i, 0);
    FreshFound(s, i, 0);
    ReclaimOne(s, i);
    var v := Reclaimed(s, i);
    assert v.reqs == map[0 := Writable(id, i)] && Fits(v.s, |bytes|);
    hide Run, Enabled, Do, Fresh, Alone, Loaded, Newcomer, Unused, Reclaimed, Newest, Fits;
    ws, steps := UploadRun(ws, steps, s, i, id);
    ws, steps := Onward(ws, steps, s, DoGc(Late), v);
    ws, steps := WriteRun(ws, steps, s, id, i, bytes);
  }

  /** What the next process finds: the index and the files, and the id it computes from the index. */
  function Restarted(t: Store, next: Id): Store {
    t.(nextID := next, staged := map[])
  }

  lemma {:induction false} SomeNext(entries: map<Id, Entry>) returns (next: Id)
    ensures Follows(entries, next)
    decreases |entries|
  {
    next := 1;
    if entries != map[] {
      var id :| id in entries;
      var rest := entries - {id};
      assert rest.Keys == entries.Keys - {id};
      assert forall k :: k in entries && k != id ==> k in rest;
      next := SomeNext(rest);
      if id >= next {
        next := id + 1;
      }
    }
  }

  lemma RestartLoads(s: Store, t: Store, next: Id)
    requires Loaded(s) && 1 <= s.nextID && Follows(t.entries, next)
    requires t.entries.Keys <= s.entries.Keys && forall id :: id in t.entries ==> t.entries[id] == s.entries[id]
    ensures Loaded(Restarted(t, next)) && next <= s.nextID
  {
    hide SameKey;
  }

  /**
   So an upload that outlives its reservation is served by the next process to somebody else: one
   process lets it write, the next computes its first id from the index alone, hands the blob's id
   to any newcomer, and answers with bytes that nobody of this process ever uploaded.
   */
  lemma LateUploadIsServed(s: Store, i: Identity, j: Identity, bytes: Bytes)
    returns (ws: seq<World>, steps: seq<Step>, next: Id, vs: seq<World>, ts: seq<Step>)
    requires Loaded(s) && 1 <= s.nextID && Newcomer(s, i) && Newcomer(s, j) && Fits(s, |bytes|)
    ensures Run(ws, steps, s) && |ws| > 0 && Follows(ws[|ws| - 1].s.entries, next)
    ensures Run(vs, ts, Restarted(ws[|ws| - 1].s, next)) && |vs| > 0
    ensures ServedUnsent(vs[|vs| - 1], j, s.nextID, bytes)
  {
    hide Run, ServedUnsent, Follows, Loaded, Fits;
    ws, steps := LateUploadStays(s, i, bytes);
    var t := ws[|ws| - 1].s;
    next := SomeNext(t.entries);
    RestartLoads(s, t, next);
    vs, ts := OrphanIsServed(Restarted(t, next), j, s.nextID);
  }
}
