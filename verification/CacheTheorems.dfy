/** What holds of every run of the cache server within one process. */
module CacheTheorems {
  import opened Wrappers
  import opened JobIdentity
  import opened CacheStore
  import opened CacheLookup
  import opened CacheEviction
  import opened CacheRuns
  import opened CacheSafety
  import opened CacheSteps

  /** Some upload of the entry's owner, or a list of blocks its owner staged, has exactly these bytes. */
  ghost predicate OwnersBytes(w: World, id: Id, bytes: Bytes) {
    && id in w.heap && id in w.last && Content(w.last[id]) == bytes && Traceable(w.log, id, w.last[id])
    && forall x :: x in w.log && x.id == id ==> Owns(x.who, w.heap[id])
  }

  /**
   Whatever was served came from a completed entry of the reader's own repository under a ref it may
   read, and is byte for byte what that entry was sealed with. For an entry this process reserved
   under a clean id, that is the last successful upload made under the generation, job and run that
   reserved it. CacheOrphans shows that of no other id handed out is this true.
   */
  lemma ServedBytes(ws: seq<World>, steps: seq<Step>, s: Store, k: nat, v: Answered)
    requires Run(ws, steps, s) && k < |ws| && v in ws[k].served
    ensures var w := ws[k];
            && v.id in w.heap && w.heap[v.id].complete
            && w.heap[v.id].repo == v.to.repository && CanRead(v.to, w.heap[v.id].rf)
            && v.id in w.sealed && w.sealed[v.id] == v.bytes
            && (s.nextID <= v.id ==> w.heap[v.id].size == |v.bytes|)
            && (Clean(s, v.id) ==> OwnersBytes(w, v.id, v.bytes))
  {
    hide Run, Owns, Traceable;
    Reachable(ws, steps, s, k);
    StartFixed(ws, steps, s, k);
    var w := ws[k];
    assert SealOk(w, v.id);
  }

  /** Every successful upload was made under the generation, job and run that reserved its entry. */
  lemma LoggedByOwner(ws: seq<World>, steps: seq<Step>, s: Store, k: nat, x: Sent)
    requires Run(ws, steps, s) && k < |ws| && x in ws[k].log
    ensures x.id in ws[k].heap && Owns(x.who, ws[k].heap[x.id])
  {
    Reachable(ws, steps, s, k);
  }

  lemma StartFixed(ws: seq<World>, steps: seq<Step>, s: Store, k: nat)
    requires Run(ws, steps, s) && k < |ws|
    ensures ws[k].start == s
  {
    KeptOnRuns(ws, steps, s, 0, k);
  }

  /**
   A finalized entry is immutable: from then on its bytes, size, repository, ref, key and owner stay
   what they were, any blob still under its id has those bytes, and no upload to it gets through.
   */
  lemma FinalizedForever(ws: seq<World>, steps: seq<Step>, s: Store, j: nat, k: nat, id: Id)
    requires Run(ws, steps, s) && j <= k < |ws| && id in ws[j].sealed
    ensures id in ws[k].sealed && ws[k].sealed[id] == ws[j].sealed[id]
    ensures id in ws[j].heap && id in ws[k].heap
            && ws[k].heap[id] == ws[j].heap[id].(usedAt := ws[k].heap[id].usedAt)
    ensures id in ws[k].s.blobs ==> ws[k].s.blobs[id] == ws[j].sealed[id]
    ensures forall r :: r in ws[k].reqs && ws[k].reqs[r].id == id ==> !ws[k].reqs[r].Writable? && !ws[k].reqs[r].Streaming?
  {
    hide Run, Owns, Traceable;
    Reachable(ws, steps, s, j);
    Reachable(ws, steps, s, k);
    KeptOnRuns(ws, steps, s, j, k);
    assert SealOk(ws[j], id);
    assert id in ws[k].s.blobs ==> BlobOk(ws[k], id);
  }

  /** Never two entries for one repository, ref, key and version, so a finalize names its own reservation. */
  lemma OneEntryPerKey(ws: seq<World>, steps: seq<Step>, s: Store, k: nat, a: Id, b: Id)
    requires Run(ws, steps, s) && k < |ws|
    requires a in ws[k].s.entries && b in ws[k].s.entries
    requires SameKey(ws[k].s.entries[a], ws[k].s.entries[b]) && ws[k].s.entries[a].rf != ""
    ensures a == b
  {
    Reachable(ws, steps, s, k);
  }

  /**
   Nothing finalized or stored under an id this process hands out is past the per-entry cap, unless it was
   there before.
   */
  lemma FinalizedFits(ws: seq<World>, steps: seq<Step>, s: Store, k: nat, id: Id)
    requires Run(ws, steps, s) && k < |ws| && Capped(s, id)
    ensures id in ws[k].heap && ws[k].heap[id].complete ==> Fits(s, ws[k].heap[id].size)
    ensures id in ws[k].s.blobs ==> Fits(s, |ws[k].s.blobs[id]|)
  {
    Reachable(ws, steps, s, k);
    StartFixed(ws, steps, s, k);
  }

  // --- the size cap ---

  /** What an entry is charged for its upload is within the per-entry cap. */
  predicate StagedOk(s: Store) {
    forall id :: id in s.staged ==> 0 <= s.staged[id] && Fits(s, s.staged[id])
  }

  lemma SealStaged(w: World, r: Rid, i: Identity, want: Option<int>, now: int)
    requires r in w.reqs && Keyed(w.s.entries) && StagedOk(w.s)
    ensures StagedOk(Sealed(w, r, i, want, now).s)
  {
    hide Evict, Owns;
    var id := w.reqs[r].id;
    if Finalize(w.s, id, i, want, now).1.Finalized? {
      var gone := EvictWithout(SealedNow(w, id, now).s, id);
    }
  }

  lemma CreateStaged(s: Store, i: Identity, key: string, version: string, sig: string, now: int, saved: bool)
    requires Keyed(s.entries) && StagedOk(s)
    ensures StagedOk(Create(s, i, key, version, sig, now, saved).0)
  {
    CreateShape(s, i, key, version, sig, now, saved);
    hide Create, InTheWay, Newest;
  }

  lemma TouchStaged(s: Store, i: Identity, key: string, restoreKeys: seq<string>, version: string, now: int)
    requires Keyed(s.entries) && StagedOk(s)
    ensures StagedOk(Touch(s, i, key, restoreKeys, version, now))
  {
    hide FirstHit, Queries;
  }

  lemma IndexStaged(w: World, st: Step)
    requires Enabled(w, st) && Indexes(st) && StagedOk(w.s)
    ensures StagedOk(IndexStep(w, st).s)
  {
    hide Create, Sealed, Touch;
    match st
    case DoCreate(i, key, version, sig, now, saved) => CreateStaged(w.s, i, Lower(key), version, sig, now, saved);
    case DoMatch(i, key, restoreKeys, version, now) => TouchStaged(w.s, i, key, restoreKeys, version, now);
    case DoFinalize(r, i, want, now) => SealStaged(w, r, i, want, now);
    case DoGc(_) =>
  }

  /** A block fits what its entry has left, so blocks never take the charge past the cap. */
  lemma BlockStaysWithin(s: Store, id: Id, block: string, body: Option<Bytes>)
    requires StagedOk(s)
    ensures var (t, ok) := PutBlock(s, id, block, body);
            StagedOk(t) && (ok ==> body.Some? && StagedOf(t, id) == StagedOf(s, id) + |body.value|)
  {
  }

  lemma CommitStaged(s: Store, id: Id, list: seq<string>, f: Fault)
    requires StagedOk(s)
    ensures StagedOk(CommitBlocks(s, id, list, f).0)
  {
    CommitAllOrNothing(s, id, list, f);
    if list != [] && !f.AtOpen? {
      AssembleMeans(BlocksOf(s, id), list, s.maxEntry, [], f);
    }
    hide Assemble, AllStaged, Flatten, PartsOf;
  }

  lemma WriteStaged(w: World, st: Step)
    requires Writes(st) && WriteEnabled(w, st) && StagedOk(w.s) && Caps(w)
    ensures StagedOk(WriteStep(w, st).s)
  {
    hide PutBlock, CommitBlocks, PartsOf, Capped;
    var id := w.reqs[st.r].id;
    match st
    case DoBlock(_, block, body) => BlockStaysWithin(w.s, id, block, body);
    case DoCommit(_, list, f) => CommitStaged(w.s, id, list, f);
    case _ =>
  }

  lemma RequestKeepsStore(w: World, st: Step)
    requires Enabled(w, st) && !Indexes(st) && !Writes(st)
    ensures Do(w, st).s == w.s
  {
    hide Newest, Owns, MayDownload, Keyed;
  }

  lemma StagedStep(w: World, st: Step)
    requires Enabled(w, st) && StagedOk(w.s) && Caps(w)
    ensures StagedOk(Do(w, st).s)
  {
    hide StagedOk, IndexStep, WriteStep, StartStep, PointStep, Caps;
    if Indexes(st) {
      IndexStaged(w, st);
    } else if Writes(st) {
      WriteStaged(w, st);
    } else {
      RequestKeepsStore(w, st);
    }
  }

  /** In every run no entry is charged past the per-entry cap, whatever is uploaded and however often. */
  lemma {:induction false} StagedWithinCap(ws: seq<World>, steps: seq<Step>, s: Store, k: nat)
    requires Run(ws, steps, s) && k < |ws|
    ensures StagedOk(ws[k].s)
  {
    hide Enabled, Do, StagedOk, Caps, IndexOk, Locks, Rights, Contents, LogOk, BlocksOk, LastOk, Answers;
    if k == 0 {
      assert StagedOk(s) by {
        NoneStaged(s);
      }
    } else {
      StagedWithinCap(ws, steps, s, k - 1);
      Reachable(ws, steps, s, k - 1);
      assert Enabled(ws[k - 1], steps[k - 1]) && ws[k] == Do(ws[k - 1], steps[k - 1]);
      StagedStep(ws[k - 1], steps[k - 1]);
    }
  }

  lemma NoneStaged(s: Store)
    requires s.staged == map[]
    ensures StagedOk(s)
  {
  }

  /**
   In every run, right after a finalize under a size cap the completed and staged bytes are within it,
   or nothing but the entry just finalized and unfinished ones is left.
   */
  lemma FinalizeKeepsCap(ws: seq<World>, steps: seq<Step>, s: Store, k: nat)
    requires Run(ws, steps, s) && k < |steps| && steps[k].DoFinalize? && ws[k].s.maxSize > 0
    requires ws[k + 1].sealed != ws[k].sealed
    ensures var t, id := ws[k + 1].s, ws[k].reqs[steps[k].r].id;
            CompletedBytes(t.entries) + StagedBytes(t.staged) <= t.maxSize
            || forall x :: x in t.entries ==> !Evictable(t.entries[x], id)
  {
    var w, st := ws[k], steps[k];
    assert Enabled(w, st) && ws[k + 1] == Do(w, st);
    StagedWithinCap(ws, steps, s, k);
    hide Run, Evict, Owns, CompletedBytes, StagedBytes, Evictable;
    var id := w.reqs[st.r].id;
    assert Finalize(w.s, id, st.i, st.want, st.now).1.Finalized?;
    var gone := EvictionExact(SealedNow(w, id, st.now).s, id);
  }

  // --- a PUT in pieces ---

  function AppendAll(s: Store, id: Id, chunks: seq<Bytes>): Store
    decreases |chunks|
  {
    if chunks == [] then s else AppendAll(AppendBlob(s, id, chunks[0]), id, chunks[1..])
  }

  lemma {:induction false} AppendAllMeans(s: Store, id: Id, chunks: seq<Bytes>)
    requires id in s.blobs
    ensures AppendAll(s, id, chunks) == s.(blobs := s.blobs[id := s.blobs[id] + Flatten(chunks)])
    decreases |chunks|
  {
    if chunks == [] {
      assert s.blobs[id] + [] == s.blobs[id];
    } else {
      AppendAllMeans(AppendBlob(s, id, chunks[0]), id, chunks[1..]);
      assert s.blobs[id] + chunks[0] + Flatten(chunks[1..]) == s.blobs[id] + (chunks[0] + Flatten(chunks[1..]));
    }
  }

  /** However its body is cut into pieces, a PUT nothing interferes with comes to the same as one write of the whole. */
  lemma StreamIsPut(s: Store, id: Id, chunks: seq<Bytes>)
    ensures Fits(s, |Flatten(chunks)|) ==>
              CloseBlob(AppendAll(OpenBlob(s, id), id, chunks), id, Flatten(chunks), true) == PutBlob(s, id, Some(Flatten(chunks))).0
    ensures CloseBlob(AppendAll(OpenBlob(s, id), id, chunks), id, Flatten(chunks), false) == PutBlob(s, id, None).0
  {
    AppendAllMeans(OpenBlob(s, id), id, chunks);
    assert [] + Flatten(chunks) == Flatten(chunks);
    var u := AppendAll(OpenBlob(s, id), id, chunks);
    assert u.blobs - {id} == s.blobs - {id};
  }
}
