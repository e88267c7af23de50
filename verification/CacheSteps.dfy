/** Every step of the cache server keeps its invariant; whole runs follow. */
module CacheSteps {
  import opened Wrappers
  import opened JobIdentity
  import opened CacheStore
  import opened CacheLookup
  import opened CacheEviction
  import opened CacheRuns
  import opened CacheSafety

  // --- the index ---

  lemma GcInv(w: World, now: int)
    requires Inv(w)
    ensures Inv(Index(w, Gc(w.s, now))) && Keeps(w, Index(w, Gc(w.s, now)))
  {
    hide Keeps, Locks, Rights, Contents, LogOk, BlocksOk, LastOk, Caps, Answers, UniqueKeys;
    var dead := AbandonedIds(w.s.entries, now - MAX_INCOMPLETE_AGE);
    ShrinkInv(w, dead);
    MergeSame(w.heap, w.s.entries - dead);
  }

  lemma FoundHere(entries: map<Id, Entry>, qs: seq<Query>)
    requires Keyed(entries)
    ensures var e := FirstHit(entries, qs); e.Some? ==> e.value.id in entries && entries[e.value.id] == e.value
  {
    FirstHitMeans(entries, qs);
  }

  lemma MatchInv(w: World, i: Identity, key: string, restoreKeys: seq<string>, version: string, now: int)
    requires Inv(w)
    ensures var v := Index(w, Touch(w.s, i, key, restoreKeys, version, now)); Inv(v) && Keeps(w, v)
  {
    hide Locks, Rights, Contents, LogOk, BlocksOk, LastOk, Caps, Answers, UniqueKeys, FirstHit, Queries;
    var qs := Queries(i.repository, i.readRefs, Lower(key), restoreKeys, version);
    var e := FirstHit(w.s.entries, qs);
    if e.None? {
      MergeSame(w.heap, w.s.entries);
    } else {
      FoundHere(w.s.entries, qs);
      TouchInv(w, e.value.id, now);
      MergeMore(w.heap, w.s.entries, e.value.id, e.value.(usedAt := now));
    }
  }

  /** Once the reservation found for a key is gone, no entry has that key. */
  lemma KeyIsFree(entries: map<Id, Entry>, i: Identity, key: string, version: string, e: Entry)
    requires Keyed(entries) && UniqueKeys(entries) && i.writeRef != ""
    requires e.repo == i.repository && e.rf == i.writeRef && e.key == key && e.version == version
    ensures var found := Newest(entries, Query(i.repository, i.writeRef, key, version, AnyExact));
            forall id :: id in entries && (found.Some? ==> id != found.value.id) ==>
                           !SameKey(e, entries[id]) && !SameKey(entries[id], e)
  {
    var q := Query(i.repository, i.writeRef, key, version, AnyExact);
    var found := Newest(entries, q);
    forall id | id in entries && (found.Some? ==> id != found.value.id)
      ensures !SameKey(e, entries[id]) && !SameKey(entries[id], e)
    {
      if SameKey(e, entries[id]) || SameKey(entries[id], e) {
        assert Hits(q, entries[id]);
        assert false;
      }
    }
  }

  /** The store once an id is handed out, with or without its reservation. */
  function Taking(u: Store, i: Identity, key: string, version: string, sig: string, now: int, saved: bool): Store {
    var n := u.nextID;
    var t := u.(nextID := n + 1);
    if saved then t.(entries := t.entries[n := Reservation(u, i, key, version, sig, now)]) else t.(entries := t.entries - {n})
  }

  ghost function InTheWay(s: Store, i: Identity, key: string, version: string): set<Id>
    requires Keyed(s.entries)
  {
    var found := Newest(s.entries, Query(i.repository, i.writeRef, key, version, AnyExact));
    if found.Some? then {found.value.id} else {}
  }

  /** Creating refuses, or takes over what is in the way and hands out an id. */
  lemma CreateShape(s: Store, i: Identity, key: string, version: string, sig: string, now: int, saved: bool)
    requires Keyed(s.entries)
    ensures var t := Create(s, i, key, version, sig, now, saved).0;
            t == s
            || (i.writeRef != "" && t == Taking(Without(s, InTheWay(s, i, key, version)), i, key, version, sig, now, saved))
  {
    hide Newest;
    WithoutNone(s);
  }

  lemma CreateInv(w: World, i: Identity, key: string, version: string, sig: string, now: int, saved: bool)
    requires Inv(w)
    ensures var v := Index(w, Create(w.s, i, key, version, sig, now, saved).0); Inv(v) && Keeps(w, v)
  {
    hide Locks, Rights, Contents, LogOk, BlocksOk, LastOk, Caps, Answers, UniqueKeys, SameKey, Create, Taking, InTheWay, Keeps;
    CreateShape(w.s, i, key, version, sig, now, saved);
    if Create(w.s, i, key, version, sig, now, saved).0 == w.s {
      MergeSame(w.heap, w.s.entries);
      KeepsSame(w);
    } else {
      var gone := InTheWay(w.s, i, key, version);
      ShrinkInv(w, gone);
      TakeOver(w, gone, i, key, version, sig, now, saved);
    }
  }

  lemma FreeToReserve(w: World, u: World, i: Identity, key: string, version: string, sig: string, now: int)
    requires Keyed(w.s.entries) && UniqueKeys(w.s.entries) && i.writeRef != ""
    requires u == Shrunk(w, InTheWay(w.s, i, key, version))
    ensures Reservable(u, Reservation(u.s, i, key, version, sig, now))
  {
    hide Newest, SameKey, UniqueKeys;
    KeyIsFree(w.s.entries, i, key, version, Reservation(u.s, i, key, version, sig, now));
  }

  lemma TakeOver(w: World, gone: set<Id>, i: Identity, key: string, version: string, sig: string, now: int, saved: bool)
    requires Inv(w) && gone == InTheWay(w.s, i, key, version) && i.writeRef != ""
    requires var u := Shrunk(w, gone); Inv(u) && Keeps(w, u)
    ensures var v := Index(w, Taking(Shrunk(w, gone).s, i, key, version, sig, now, saved)); Inv(v) && Keeps(w, v)
  {
    hide Locks, Rights, Contents, LogOk, BlocksOk, LastOk, Caps, Answers, UniqueKeys, Newest, Keeps, InTheWay, Reservable, Keyed;
    var u := Shrunk(w, gone);
    var e, n := Reservation(u.s, i, key, version, sig, now), u.s.nextID;
    if saved {
      FreeToReserve(w, u, i, key, version, sig, now);
      ReserveInv(u, e);
      MergeMore(w.heap, u.s.entries, n, e);
      KeepsTrans(w, u, WithNew(u, e));
    } else {
      BumpInv(u);
      assert n !in u.s.entries;
      assert u.s.entries - {n} == u.s.entries;
      MergeSame(w.heap, u.s.entries);
      KeepsTrans(w, u, Bumped(u));
    }
  }

  lemma MergeMore(heap: map<Id, Entry>, entries: map<Id, Entry>, n: Id, e: Entry)
    requires forall id :: id in entries ==> id in heap && heap[id] == entries[id]
    ensures heap + entries[n := e] == heap[n := e]
  {
  }

  lemma KeepsTrans(w: World, u: World, v: World)
    requires Keeps(w, u) && Keeps(u, v)
    ensures Keeps(w, v)
  {
  }

  lemma KeepsSame(w: World)
    ensures Keeps(w, w)
  {
  }

  // --- a request moves on or is over ---

  /** The same uploads are writing the same bytes. */
  ghost predicate SameStreams(w: World, v: World) {
    && (forall id :: BeingWritten(v, id) == BeingWritten(w, id))
    && (forall id :: BeingWritten(v, id) ==> v.reqs[v.holder[id]] == w.reqs[w.holder[id]])
    && (forall r :: r in v.reqs && v.reqs[r].Streaming? ==> r in w.reqs && w.reqs[r] == v.reqs[r])
  }

  /** Only requests and their locks moved. */
  ghost predicate OnlyMoves(w: World, v: World) {
    && v.s == w.s && v.heap == w.heap && v.last == w.last && v.log == w.log && v.start == w.start
    && v.sealed == w.sealed && w.served <= v.served
    && SameStreams(w, v)
  }

  lemma MoveContents(w: World, v: World)
    requires Contents(w) && OnlyMoves(w, v)
    ensures Contents(v)
  {
    hide Content;
    forall id | id in v.s.blobs ensures BlobOk(v, id) {
      assert BlobOk(w, id);
      assert BeingWritten(v, id) == BeingWritten(w, id);
    }
    forall id | id in v.sealed ensures SealOk(v, id) {
      assert SealOk(w, id);
    }
  }

  lemma MoveRest(w: World, v: World)
    requires IndexOk(w) && LogOk(w) && Caps(w) && OnlyMoves(w, v) && Rights(v)
    ensures IndexOk(v) && LogOk(v) && Caps(v) && Keeps(w, v)
  {
    hide UniqueKeys, Right, Owns, MayDownload;
  }

  lemma MoveInv(w: World, v: World)
    requires Inv(w) && OnlyMoves(w, v) && Locks(v) && Rights(v) && Answers(v)
    ensures Inv(v) && Keeps(w, v)
  {
    hide IndexOk, Locks, Rights, Contents, LogOk, BlocksOk, LastOk, Caps, Answers, Keeps, SameStreams;
    MoveContents(w, v);
    MoveRest(w, v);
    FilesSame(w, v);
  }

  lemma OverLocks(w: World, r: Rid)
    requires Locks(w) && r in w.reqs
    ensures Locks(Over(w, r)) && (w.reqs[r].Streaming? || SameStreams(w, Over(w, r)))
  {
  }

  lemma OverInv(w: World, r: Rid)
    requires Inv(w) && r in w.reqs && !w.reqs[r].Streaming?
    ensures Inv(Over(w, r)) && Keeps(w, Over(w, r))
  {
    hide IndexOk, Locks, Contents, LogOk, BlocksOk, LastOk, Caps, Answers, Keeps, SameStreams, Right;
    OverLocks(w, r);
    AnswersSame(w, Over(w, r));
    MoveInv(w, Over(w, r));
  }

  lemma AnswersSame(w: World, v: World)
    requires Answers(w) && v.served == w.served && v.sealed == w.sealed && v.heap == w.heap
    ensures Answers(v)
  {
  }

  /** `r` goes on to a point on the same entry with the lock as before. */
  predicate GoesOn(w: World, r: Rid, q: Req) {
    r in w.reqs && q.id == w.reqs[r].id && Holds(q) == Holds(w.reqs[r]) && !q.Streaming? && !w.reqs[r].Streaming?
  }

  lemma GoLocks(w: World, r: Rid, q: Req)
    requires Locks(w) && GoesOn(w, r, q)
    ensures Locks(Go(w, r, q)) && SameStreams(w, Go(w, r, q))
  {
  }

  /** Moving to another point on the same entry with the right to be there. */
  lemma GoInv(w: World, r: Rid, q: Req)
    requires Inv(w) && GoesOn(w, r, q) && w.reqs[r].id in w.heap && Right(q, w.heap, w.sealed)
    ensures Inv(Go(w, r, q)) && Keeps(w, Go(w, r, q))
  {
    hide IndexOk, Locks, Contents, LogOk, BlocksOk, LastOk, Caps, Answers, Keeps, SameStreams, Right;
    GoLocks(w, r, q);
    AnswersSame(w, Go(w, r, q));
    MoveInv(w, Go(w, r, q));
  }

  /** A new request on an entry, not yet let in. */
  lemma NewLocks(w: World, r: Rid, q: Req)
    requires Locks(w) && r !in w.reqs && !Holds(q)
    ensures Locks(Go(w, r, q)) && SameStreams(w, Go(w, r, q))
  {
  }

  lemma NewInv(w: World, r: Rid, q: Req)
    requires Inv(w) && r !in w.reqs && (q.Found? || q.Waiting?) && q.id in w.heap
    ensures Inv(Go(w, r, q)) && Keeps(w, Go(w, r, q))
  {
    hide IndexOk, Locks, Contents, LogOk, BlocksOk, LastOk, Caps, Answers, Keeps, SameStreams, Owns, MayDownload;
    NewLocks(w, r, q);
    AnswersSame(w, Go(w, r, q));
    MoveInv(w, Go(w, r, q));
  }

  function Locked(w: World, r: Rid): World
    requires r in w.reqs && w.reqs[r].Waiting?
  {
    var q := w.reqs[r];
    Go(w, r, Holding(q.id, q.what)).(holder := w.holder[q.id := r])
  }

  lemma LockedLocks(w: World, r: Rid)
    requires Locks(w) && r in w.reqs && w.reqs[r].Waiting? && w.reqs[r].id !in w.holder
    ensures Locks(Locked(w, r)) && SameStreams(w, Locked(w, r))
  {
  }

  lemma LockInv(w: World, r: Rid)
    requires Inv(w) && r in w.reqs && w.reqs[r].Waiting? && w.reqs[r].id !in w.holder
    ensures Inv(Locked(w, r)) && Keeps(w, Locked(w, r))
  {
    hide IndexOk, Locks, Contents, LogOk, BlocksOk, LastOk, Caps, Answers, Keeps, SameStreams, Owns, MayDownload;
    LockedLocks(w, r);
    AnswersSame(w, Locked(w, r));
    MoveInv(w, Locked(w, r));
  }

  // --- sealing ---

  lemma EvictWithout(s: Store, keep: Id) returns (gone: set<Id>)
    requires Keyed(s.entries)
    ensures Evict(s, keep).0 == Without(s, gone) && keep !in gone
  {
    hide EvictFrom, Exact, Without, CompletedBytes, StagedBytes, Keyed;
    if s.maxSize <= 0 {
      gone := {};
      WithoutNone(s);
    } else {
      var total := CompletedBytes(s.entries) + StagedBytes(s.staged);
      gone := EvictFromExact(s, total, keep);
      NotKept(s, total, keep, gone);
    }
  }

  lemma NotKept(s: Store, total: int, keep: Id, gone: set<Id>)
    requires Keyed(s.entries) && Exact(s.entries, total, s.maxSize, keep, gone)
    ensures keep !in gone
  {
    ExactKeys(s.entries, total, s.maxSize, keep, gone);
  }

  lemma FinalizeInv(w: World, r: Rid, i: Identity, want: Option<int>, now: int)
    requires Inv(w) && r in w.reqs && w.reqs[r].Holding? && w.reqs[r].what.Sealing?
    ensures Inv(Sealed(w, r, i, want, now)) && Keeps(w, Sealed(w, r, i, want, now))
  {
    hide Rights, Contents, LogOk, BlocksOk, LastOk, Caps, Answers, UniqueKeys, Keeps, Evict, Owns;
    var id := w.reqs[r].id;
    var (t, result) := Finalize(w.s, id, i, want, now);
    if result.Finalized? {
      var u := SealedNow(w, id, now);
      SealInv(w, id, now);
      var gone := EvictWithout(u.s, id);
      ShrinkInv(u, gone);
      var v := Shrunk(u, gone);
      MergeSame(u.heap, v.s.entries);
      assert Finalizing(w, id, now, t) == v;
      OverInv(v, r);
      KeepsTrans(w, u, v);
      KeepsTrans(w, v, Over(v, r));
    } else {
      OverInv(w, r);
    }
  }

  // --- an upload's bytes ---

  predicate MayWrite(q: Req) {
    q.Writable? || q.Streaming?
  }

  /** What every step of the upload `r` leaves alone, and whose uploads it logs. */
  ghost predicate OnlyWrites(w: World, v: World, r: Rid) {
    && r in w.reqs && MayWrite(w.reqs[r])
    && v.s.entries == w.s.entries && v.s.nextID == w.s.nextID && v.s.maxEntry == w.s.maxEntry
    && v.heap == w.heap && v.sealed == w.sealed && v.served == w.served && v.start == w.start
    && w.log <= v.log
    && (forall x :: x in v.log - w.log ==> x.id == w.reqs[r].id && x.who == w.reqs[r].who)
    && ((v.reqs == w.reqs - {r} && v.holder == w.holder - {w.reqs[r].id}) || StreamsOn(w, v, r))
  }

  predicate StreamsOn(w: World, v: World, r: Rid)
    requires r in w.reqs && MayWrite(w.reqs[r])
  {
    && r in v.reqs && v.reqs[r].Streaming? && v.reqs[r].id == w.reqs[r].id && v.reqs[r].who == w.reqs[r].who
    && v.reqs == w.reqs[r := v.reqs[r]] && v.holder == w.holder
  }

  lemma WriteFrame(w: World, v: World, r: Rid)
    requires IndexOk(w) && Rights(w) && LogOk(w) && Answers(w) && OnlyWrites(w, v, r)
    ensures IndexOk(v) && Rights(v) && LogOk(v) && Answers(v) && Keeps(w, v)
  {
    hide UniqueKeys, Owns, MayDownload;
  }

  lemma WriteLocks(w: World, v: World, r: Rid)
    requires Locks(w) && OnlyWrites(w, v, r)
    ensures Locks(v)
  {
  }

  /** An upload in progress is on a reservation nobody else writes to. */
  lemma WriteAlone(w: World, r: Rid)
    requires Locks(w) && Rights(w) && Contents(w) && r in w.reqs && MayWrite(w.reqs[r])
    ensures var id := w.reqs[r].id;
            && id in w.holder && w.holder[id] == r && id in w.heap && !w.heap[id].complete && id !in w.sealed
            && Owns(w.reqs[r].who, w.heap[id])
  {
    hide Owns, MayDownload, Content;
  }

  lemma OthersWriting(w: World, v: World, r: Rid, k: Id)
    requires Locks(w) && OnlyWrites(w, v, r) && k != w.reqs[r].id
    ensures BeingWritten(v, k) == BeingWritten(w, k)
    ensures BeingWritten(v, k) ==> v.reqs[v.holder[k]] == w.reqs[w.holder[k]]
  {
  }

  lemma SealsStay(w: World, v: World, id: Id)
    requires (forall k :: k in w.sealed ==> SealOk(w, k)) && id !in w.sealed && v.sealed == w.sealed && v.heap == w.heap
    requires forall k :: k in w.last && k != id ==> k in v.last && v.last[k] == w.last[k]
    ensures forall k :: k in v.sealed ==> SealOk(v, k)
  {
    hide Content;
    forall k | k in v.sealed ensures SealOk(v, k) {
      assert SealOk(w, k);
    }
  }

  /** Only the upload's own blob changed. */
  lemma WriteContents(w: World, v: World, r: Rid)
    requires Locks(w) && Rights(w) && Contents(w) && OnlyWrites(w, v, r)
    requires var id := w.reqs[r].id;
             && (forall k :: k in v.s.blobs && k != id ==> k in w.s.blobs && v.s.blobs[k] == w.s.blobs[k])
             && (forall k :: k in w.last && k != id ==> k in v.last && v.last[k] == w.last[k])
             && (id in v.s.blobs ==> BlobOk(v, id))
    ensures Contents(v)
  {
    WriteAlone(w, r);
    var id := w.reqs[r].id;
    SealsStay(w, v, id);
    hide Content, Owns, Rights, Locks, BeingWritten, SealOk;
    forall k | k in v.s.blobs ensures BlobOk(v, k) {
      if k != id {
        assert BlobOk(w, k);
        OthersWriting(w, v, r, k);
      }
    }
  }

  ghost predicate BlocksTraced(v: World, id: Id) {
    Clean(v.start, id) && id in v.s.blocks ==> forall b :: b in v.s.blocks[id] ==> BlockOk(v, id, b)
  }

  lemma BlockGrows(w: World, v: World, id: Id, b: string)
    requires id in w.s.blocks && b in w.s.blocks[id] && BlockOk(w, id, b) && w.log <= v.log && v.s.maxEntry == w.s.maxEntry
    requires id in v.s.blocks && b in v.s.blocks[id] && v.s.blocks[id][b] == w.s.blocks[id][b]
    ensures BlockOk(v, id, b)
  {
    if HasBlock(w.log, id, b, w.s.blocks[id][b]) {
      var who :| Block(id, who, b, w.s.blocks[id][b]) in w.log;
      assert Block(id, who, b, v.s.blocks[id][b]) in v.log;
    }
  }

  lemma OwnBlocks(w: World, v: World, id: Id)
    requires BlocksOk(w) && w.log <= v.log && v.start == w.start && v.s.maxEntry == w.s.maxEntry
    requires id in v.s.blocks ==> id in w.s.blocks && v.s.blocks[id] == w.s.blocks[id]
    ensures BlocksTraced(v, id)
  {
    if Clean(w.start, id) && id in v.s.blocks {
      forall b | b in v.s.blocks[id] ensures BlockOk(v, id, b) {
        BlockGrows(w, v, id, b);
      }
    }
  }

  ghost predicate LastTraced(v: World, id: Id) {
    Clean(v.start, id) && id in v.last ==> Traceable(v.log, id, v.last[id])
  }

  lemma OwnLast(w: World, v: World, id: Id)
    requires LastOk(w) && w.log <= v.log && v.start == w.start
    requires id in v.last ==> id in w.last && v.last[id] == w.last[id]
    ensures LastTraced(v, id)
  {
    hide Traceable;
    if id in v.last && Clean(w.start, id) {
      LogGrows(w.log, v.log, id, w.last[id]);
    }
  }

  /** The upload's own blob, blocks and write are in order, and nobody else's changed. */
  lemma WriteFiles(w: World, v: World, r: Rid)
    requires IndexOk(w) && BlocksOk(w) && LastOk(w) && Caps(w) && OnlyWrites(w, v, r)
    requires var id := w.reqs[r].id;
             && (forall k :: k in v.s.blobs && k != id ==> k in w.s.blobs && v.s.blobs[k] == w.s.blobs[k])
             && (forall k :: k in v.s.blocks && k != id ==> k in w.s.blocks && v.s.blocks[k] == w.s.blocks[k])
             && (forall k :: k in v.last && k != id ==> k in w.last && v.last[k] == w.last[k])
    requires LastTraced(v, w.reqs[r].id) && BlocksTraced(v, w.reqs[r].id)
    requires w.s.maxEntry > 0 ==>
               && (w.reqs[r].id in v.s.blobs && Capped(w.start, w.reqs[r].id) ==> |v.s.blobs[w.reqs[r].id]| <= w.s.maxEntry)
               && (r in v.reqs && v.reqs[r].Streaming? ==> |v.reqs[r].sent| <= w.s.maxEntry)
    ensures BlocksOk(v) && LastOk(v) && Caps(v)
  {
    WriteBlocks(w, v, r);
    hide UniqueKeys, Traceable, HasBlock, BlocksOk;
    forall k | k in v.last && Clean(w.start, k) ensures Traceable(v.log, k, v.last[k]) {
      if k != w.reqs[r].id {
        LogGrows(w.log, v.log, k, w.last[k]);
      }
    }
  }

  lemma WriteBlocks(w: World, v: World, r: Rid)
    requires IndexOk(w) && BlocksOk(w) && OnlyWrites(w, v, r)
    requires forall k :: k in v.s.blocks && k != w.reqs[r].id ==> k in w.s.blocks && v.s.blocks[k] == w.s.blocks[k]
    requires BlocksTraced(v, w.reqs[r].id)
    ensures BlocksOk(v)
  {
    hide UniqueKeys, HasBlock;
    forall k, b | k in v.s.blocks && Clean(w.start, k) && b in v.s.blocks[k] ensures BlockOk(v, k, b) {
      if k != w.reqs[r].id {
        BlockGrows(w, v, k, b);
      }
    }
  }

  lemma LogGrows(log: set<Sent>, more: set<Sent>, id: Id, x: Write)
    requires log <= more && Traceable(log, id, x)
    ensures Traceable(more, id, x)
  {
    match x
    case Put(bytes) =>
      var who :| Whole(id, who, bytes) in log;
      assert Whole(id, who, bytes) in more;
    case Listed(list, parts) =>
      forall k | 0 <= k < |list| ensures HasBlock(more, id, list[k], parts[k]) {
        assert HasBlock(log, id, list[k], parts[k]);
        var who :| Block(id, who, list[k], parts[k]) in log;
        assert Block(id, who, list[k], parts[k]) in more;
      }
  }

  lemma OwnBlob(w: World, r: Rid)
    requires Locks(w) && Contents(w) && r in w.reqs && w.reqs[r].Streaming? && w.reqs[r].id in w.heap
    ensures var id := w.reqs[r].id; id in w.s.blobs ==> w.s.blobs[id] == w.reqs[r].sent
  {
    var id := w.reqs[r].id;
    assert id in w.s.blobs ==> BlobOk(w, id);
  }

  /** What a step of streaming changes. */
  lemma StreamFrame(w: World, st: Step)
    requires (st.DoOpen? || st.DoChunk?) && WriteEnabled(w, st)
    ensures var v, r := WriteStep(w, st), st.r;
            var id := w.reqs[r].id;
            && OnlyWrites(w, v, r) && r in v.reqs && v.reqs[r].Streaming? && v.reqs[r].id == id
            && v.holder == w.holder && v.heap == w.heap && v.sealed == w.sealed && v.log == w.log && v.start == w.start
            && v.s.blocks == w.s.blocks && v.last == (if st.DoOpen? then w.last - {id} else w.last)
            && v.s.maxEntry == w.s.maxEntry && Fits(w.s, |v.reqs[r].sent|)
            && v.s.blobs == (if st.DoOpen? then w.s.blobs[id := []]
                             else if id in w.s.blobs then w.s.blobs[id := w.s.blobs[id] + st.c] else w.s.blobs)
            && v.reqs[r].sent == (if st.DoOpen? then [] else w.reqs[r].sent + st.c)
  {
    hide PutBlock, PartsOf, CommitBlocks;
  }

  lemma StreamInv(w: World, st: Step)
    requires Inv(w) && (st.DoOpen? || st.DoChunk?) && WriteEnabled(w, st)
    ensures Inv(WriteStep(w, st)) && Keeps(w, WriteStep(w, st))
  {
    hide IndexOk, Locks, Rights, Contents, LogOk, Answers, Keeps, BlocksOk, LastOk, LastTraced, BlocksTraced, Owns,
      WriteStep, OnlyWrites, Capped;
    var v, r, id := WriteStep(w, st), st.r, w.reqs[st.r].id;
    StreamFrame(w, st);
    WriteAlone(w, r);
    if st.DoChunk? {
      OwnBlob(w, r);
    }
    WriteFrame(w, v, r);
    WriteLocks(w, v, r);
    WriteContents(w, v, r);
    OwnLast(w, v, id);
    OwnBlocks(w, v, id);
    WriteFiles(w, v, r);
  }

  lemma CloseTraced(w: World, st: Step)
    requires LastOk(w) && st.DoClose? && WriteEnabled(w, st)
    ensures LastTraced(WriteStep(w, st), w.reqs[st.r].id)
  {
    var v, q := WriteStep(w, st), w.reqs[st.r];
    if st.ok {
      assert Whole(q.id, q.who, q.sent) in v.log;
    } else {
      OwnLast(w, v, q.id);
    }
  }

  lemma CloseFrame(w: World, st: Step)
    requires st.DoClose? && WriteEnabled(w, st)
    ensures var v, r := WriteStep(w, st), st.r;
            var q := w.reqs[r];
            && OnlyWrites(w, v, r) && r !in v.reqs && v.holder == w.holder - {q.id}
            && v.heap == w.heap && v.sealed == w.sealed && w.log <= v.log && v.start == w.start
            && v.s.blocks == w.s.blocks && v.s.maxEntry == w.s.maxEntry
            && v.last == (if st.ok then w.last[q.id := Put(q.sent)] else w.last)
            && v.s.blobs == (if st.ok then w.s.blobs else w.s.blobs - {q.id})
  {
    hide PutBlock, PartsOf, CommitBlocks;
  }

  lemma CloseInv(w: World, st: Step)
    requires Inv(w) && st.DoClose? && WriteEnabled(w, st)
    ensures Inv(WriteStep(w, st)) && Keeps(w, WriteStep(w, st))
  {
    hide IndexOk, Locks, Rights, Contents, LogOk, Answers, Keeps, BlocksOk, LastOk, LastTraced, BlocksTraced, Owns,
      WriteStep, OnlyWrites, Capped;
    var v, r, q := WriteStep(w, st), st.r, w.reqs[st.r];
    CloseFrame(w, st);
    WriteAlone(w, r);
    OwnBlob(w, r);
    WriteFrame(w, v, r);
    WriteLocks(w, v, r);
    WriteContents(w, v, r);
    CloseTraced(w, st);
    OwnBlocks(w, v, q.id);
    WriteFiles(w, v, r);
  }

  /** A staged block was there before, or is the one just put. */
  lemma PutBlockAdds(s: Store, id: Id, block: string, body: Option<Bytes>, b: string)
    requires var t := PutBlock(s, id, block, body).0; id in t.blocks && b in t.blocks[id]
    ensures var (t, ok) := PutBlock(s, id, block, body);
            (id in s.blocks && b in s.blocks[id] && s.blocks[id][b] == t.blocks[id][b])
            || (ok && body.Some? && b == block && t.blocks[id][b] == body.value)
  {
  }

  lemma BlockStaged(w: World, st: Step)
    requires BlocksOk(w) && st.DoBlock? && WriteEnabled(w, st)
    ensures BlocksTraced(WriteStep(w, st), w.reqs[st.r].id)
  {
    hide PutBlock, BlockOk, Clean;
    var v, q := WriteStep(w, st), w.reqs[st.r];
    if Clean(w.start, q.id) && q.id in v.s.blocks {
      forall b | b in v.s.blocks[q.id] ensures BlockOk(v, q.id, b) {
        PutBlockAdds(w.s, q.id, st.block, st.body, b);
        PutBlockFrame(w.s, q.id, st.block, st.body);
        if q.id in w.s.blocks && b in w.s.blocks[q.id] && w.s.blocks[q.id][b] == v.s.blocks[q.id][b] {
          BlockGrows(w, v, q.id, b);
        } else {
          JustPut(v, q.id, q.who, b);
        }
      }
    }
  }

  lemma JustPut(v: World, id: Id, who: Identity, b: string)
    requires id in v.s.blocks && b in v.s.blocks[id] && Block(id, who, b, v.s.blocks[id][b]) in v.log
    ensures BlockOk(v, id, b)
  {
  }

  lemma PutBlockFrame(s: Store, id: Id, block: string, body: Option<Bytes>)
    ensures var t := PutBlock(s, id, block, body).0;
            && t == s.(blocks := t.blocks, staged := t.staged)
            && forall k :: k in t.blocks && k != id ==> k in s.blocks && t.blocks[k] == s.blocks[k]
  {
  }

  lemma BlockFrame(w: World, st: Step)
    requires st.DoBlock? && WriteEnabled(w, st)
    ensures var v, r := WriteStep(w, st), st.r;
            var id := w.reqs[r].id;
            && OnlyWrites(w, v, r) && r !in v.reqs && v.s.blobs == w.s.blobs && v.last == w.last
            && v.holder == w.holder - {id} && v.heap == w.heap && v.sealed == w.sealed
            && w.log <= v.log && v.start == w.start
            && forall k :: k in v.s.blocks && k != id ==> k in w.s.blocks && v.s.blocks[k] == w.s.blocks[k]
  {
    hide PutBlock, PartsOf, CommitBlocks;
    PutBlockFrame(w.s, w.reqs[st.r].id, st.block, st.body);
  }

  lemma BlockInv(w: World, st: Step)
    requires Inv(w) && st.DoBlock? && WriteEnabled(w, st)
    ensures Inv(WriteStep(w, st)) && Keeps(w, WriteStep(w, st))
  {
    hide IndexOk, Locks, Rights, Contents, LogOk, Answers, Keeps, BlocksOk, LastOk, LastTraced, BlocksTraced, Owns,
      WriteStep, OnlyWrites;
    var v, r, q := WriteStep(w, st), st.r, w.reqs[st.r];
    BlockFrame(w, st);
    WriteAlone(w, r);
    IdleBlob(w, r);
    WriteFrame(w, v, r);
    WriteLocks(w, v, r);
    WriteContents(w, v, r);
    OwnLast(w, v, q.id);
    BlockStaged(w, st);
    WriteFiles(w, v, r);
  }

  /** Before its upload starts writing, the blob is what was last written. */
  lemma IdleBlob(w: World, r: Rid)
    requires Locks(w) && Contents(w) && r in w.reqs && w.reqs[r].Writable?
    ensures var id := w.reqs[r].id; id in w.s.blobs ==> id in w.last && Content(w.last[id]) == w.s.blobs[id]
  {
    var id := w.reqs[r].id;
    assert id in w.s.blobs ==> BlobOk(w, id);
  }

  predicate AllStaged(blocks: map<string, Bytes>, list: seq<string>) {
    forall k :: 0 <= k < |list| ==> list[k] in blocks
  }

  lemma {:induction false} AssembleMeans(blocks: map<string, Bytes>, list: seq<string>, cap: int, sofar: Bytes, f: Fault)
    requires !f.AtOpen?
    ensures var (out, r) := Assemble(blocks, list, cap, sofar, f);
            var whole := sofar + Flatten(PartsOf(blocks, list));
            && (r.Committed? <==> f.Fine? && AllStaged(blocks, list) && (list == [] || cap <= 0 || |whole| <= cap))
            && (r.Committed? ==> out == whole)
  {
    var parts := PartsOf(blocks, list);
    if list == [] {
      assert parts == [];
    } else if list[0] in blocks {
      var out := sofar + blocks[list[0]];
      AssembleMeans(blocks, list[1..], cap, out, NextFault(f));
      assert parts[1..] == PartsOf(blocks, list[1..]);
      assert sofar + Flatten(parts) == out + Flatten(parts[1..]);
      assert AllStaged(blocks, list) <==> AllStaged(blocks, list[1..]) by {
        if AllStaged(blocks, list[1..]) {
          forall k | 0 <= k < |list| ensures list[k] in blocks {
            assert k > 0 ==> list[1..][k - 1] == list[k];
          }
        }
      }
    }
  }

  /**
   A block list is all or nothing: with no I/O error, every block staged and the whole within the cap the blob
   becomes their concatenation in the list's order, and otherwise the blob stays as it was.
   */
  lemma CommitAllOrNothing(s: Store, id: Id, list: seq<string>, f: Fault)
    ensures var (t, r) := CommitBlocks(s, id, list, f);
            var whole := Flatten(PartsOf(BlocksOf(s, id), list));
            && (r.Committed? <==> f.Fine? && list != [] && AllStaged(BlocksOf(s, id), list) && Fits(s, |whole|))
            && t.blobs == (if r.Committed? then s.blobs[id := whole] else s.blobs)
  {
    if !f.AtOpen? {
      AssembleMeans(BlocksOf(s, id), list, s.maxEntry, [], f);
    }
    var whole := Flatten(PartsOf(BlocksOf(s, id), list));
    assert [] + whole == whole;
  }

  lemma {:induction false} PartFits(parts: seq<Bytes>, k: nat)
    requires k < |parts|
    ensures |parts[k]| <= |Flatten(parts)|
  {
    if k > 0 {
      PartFits(parts[1..], k - 1);
    }
  }

  lemma CommitTraced(w: World, st: Step)
    requires BlocksOk(w) && LastOk(w) && st.DoCommit? && WriteEnabled(w, st)
    ensures LastTraced(WriteStep(w, st), w.reqs[st.r].id)
  {
    hide HasBlock;
    var v, id, list := WriteStep(w, st), w.reqs[st.r].id, st.list;
    CommitAllOrNothing(w.s, id, list, st.f);
    if !CommitBlocks(w.s, id, list, st.f).1.Committed? {
      OwnLast(w, v, id);
    } else if Clean(w.start, id) {
      var parts := PartsOf(BlocksOf(w.s, id), list);
      forall k | 0 <= k < |list| ensures HasBlock(w.log, id, list[k], parts[k]) {
        assert list[k] in BlocksOf(w.s, id);
        PartFits(parts, k);
        assert BlockOk(w, id, list[k]);
      }
    }
  }

  lemma CommitStores(s: Store, id: Id, list: seq<string>, f: Fault)
    ensures var t := CommitBlocks(s, id, list, f).0;
            && t == s.(blobs := t.blobs, blocks := t.blocks, staged := t.staged)
            && (t.blocks == s.blocks || t.blocks == s.blocks - {id})
  {
    hide Assemble;
  }

  lemma CommitFrame(w: World, st: Step)
    requires st.DoCommit? && WriteEnabled(w, st)
    ensures var v, r := WriteStep(w, st), st.r;
            var id := w.reqs[r].id;
            var whole := Flatten(PartsOf(BlocksOf(w.s, id), st.list));
            && OnlyWrites(w, v, r) && r !in v.reqs && v.holder == w.holder - {id}
            && v.heap == w.heap && v.sealed == w.sealed && w.log <= v.log && v.start == w.start && v.s.maxEntry == w.s.maxEntry
            && (v.s.blocks == w.s.blocks || v.s.blocks == w.s.blocks - {id})
            && ((v.s.blobs == w.s.blobs && v.last == w.last)
                || (v.s.blobs == w.s.blobs[id := whole] && Fits(w.s, |whole|)
                    && v.last == w.last[id := Listed(st.list, PartsOf(BlocksOf(w.s, id), st.list))]))
  {
    hide CommitBlocks, Flatten, AllStaged, PartsOf, BlocksOf;
    CommitAllOrNothing(w.s, w.reqs[st.r].id, st.list, st.f);
    CommitStores(w.s, w.reqs[st.r].id, st.list, st.f);
  }

  lemma CommitInv(w: World, st: Step)
    requires Inv(w) && st.DoCommit? && WriteEnabled(w, st)
    ensures Inv(WriteStep(w, st)) && Keeps(w, WriteStep(w, st))
  {
    hide IndexOk, Locks, Rights, Contents, LogOk, Answers, Keeps, BlocksOk, LastOk, LastTraced, BlocksTraced, Owns,
      BlocksOf, PartsOf, Flatten, WriteStep, OnlyWrites, Capped, AllStaged;
    var v, r, q := WriteStep(w, st), st.r, w.reqs[st.r];
    WriteAlone(w, r);
    IdleBlob(w, r);
    CommitFrame(w, st);
    WriteFrame(w, v, r);
    WriteLocks(w, v, r);
    WriteContents(w, v, r);
    CommitTraced(w, st);
    OwnBlocks(w, v, q.id);
    WriteFiles(w, v, r);
  }

  // --- a request alone ---

  lemma ReservedHere(entries: map<Id, Entry>, q: Query)
    requires Keyed(entries)
    ensures var e := Newest(entries, q); e.Some? ==> e.value.id in entries
  {
  }

  lemma StartInv(w: World, st: Step)
    requires Inv(w) && Starts(st) && StartEnabled(w, st)
    ensures Inv(StartStep(w, st)) && Keeps(w, StartStep(w, st))
  {
    hide Locks, Rights, Contents, LogOk, BlocksOk, LastOk, Caps, Answers, Keeps, UniqueKeys, Newest, Owns;
    match st
    case DoFind(r, id, _, put) => NewInv(w, r, Found(id, put));
    case DoReserved(r, i, key, version) =>
      var query := Query(i.repository, i.writeRef, Lower(key), version, ReservedExact);
      ReservedHere(w.s.entries, query);
      NewInv(w, r, Waiting(Newest(w.s.entries, query).value.id, Sealing));
  }

  lemma ServeInv(w: World, r: Rid)
    requires Inv(w) && r in w.reqs && w.reqs[r].Serving?
    ensures var v := PointStep(w, DoServe(r)); Inv(v) && Keeps(w, v)
  {
    hide IndexOk, Locks, Contents, LogOk, BlocksOk, LastOk, Caps, SameStreams, Keeps, CanRead, Owns;
    var q, v := w.reqs[r], PointStep(w, DoServe(r));
    OverLocks(w, r);
    LocksOver(w, v, r);
    if q.id in w.s.blobs {
      ReadAgain(w, q.id);
    }
    MoveInv(w, v);
  }

  lemma LocksOver(w: World, v: World, r: Rid)
    requires r in w.reqs && v.reqs == Over(w, r).reqs && v.holder == Over(w, r).holder
    requires Locks(Over(w, r)) && SameStreams(w, Over(w, r))
    ensures Locks(v) && SameStreams(w, v)
  {
  }

  /** A sealed blob still there has the bytes it was sealed with. */
  lemma ReadAgain(w: World, id: Id)
    requires Contents(w) && id in w.heap && w.heap[id].complete && id in w.s.blobs
    ensures id in w.sealed && w.sealed[id] == w.s.blobs[id]
  {
    assert BlobOk(w, id);
  }

  lemma AuthInv(w: World, r: Rid, i: Identity)
    requires Inv(w) && r in w.reqs && w.reqs[r].Found?
    ensures var v := PointStep(w, DoAuth(r, i)); Inv(v) && Keeps(w, v)
  {
    hide Locks, Rights, Contents, LogOk, BlocksOk, LastOk, Caps, Answers, Keeps, UniqueKeys, Owns, CanRead;
    var q := w.reqs[r];
    PointRight(w, r);
    if q.put && Owns(i, w.heap[q.id]) {
      GoInv(w, r, Waiting(q.id, Upload));
    } else if !q.put && MayDownload(i, w.heap[q.id]) {
      GoInv(w, r, Reading(q.id, i));
    } else {
      OverInv(w, r);
    }
  }

  lemma OpenInv(w: World, r: Rid)
    requires Inv(w) && r in w.reqs && w.reqs[r].Reading?
    ensures var v := PointStep(w, DoOpenBlob(r)); Inv(v) && Keeps(w, v)
  {
    hide Locks, Rights, Contents, LogOk, BlocksOk, LastOk, Caps, Answers, Keeps, UniqueKeys, Owns, CanRead;
    var q := w.reqs[r];
    PointRight(w, r);
    if q.id in w.s.blobs {
      ReadAgain(w, q.id);
      GoInv(w, r, Serving(q.id, q.who, w.s.blobs[q.id]));
    } else {
      OverInv(w, r);
    }
  }

  /** Ownership and freshness checked again under the lock. */
  lemma RecheckInv(w: World, st: Step)
    requires Inv(w) && (st.DoOwn? || st.DoFresh?) && PointEnabled(w, st)
    ensures Inv(PointStep(w, st)) && Keeps(w, PointStep(w, st))
  {
    hide Locks, Rights, Contents, LogOk, BlocksOk, LastOk, Caps, Answers, Keeps, UniqueKeys, Owns, CanRead;
    var q := w.reqs[st.r];
    PointRight(w, st.r);
    if st.DoOwn? && Owns(st.i, w.heap[q.id]) {
      GoInv(w, st.r, Owned(q.id, st.i));
    } else if st.DoFresh? && !w.heap[q.id].complete {
      GoInv(w, st.r, Writable(q.id, q.who));
    } else {
      OverInv(w, st.r);
    }
  }

  lemma PointInv(w: World, st: Step)
    requires Inv(w) && !Indexes(st) && !Writes(st) && !Starts(st) && PointEnabled(w, st)
    ensures Inv(PointStep(w, st)) && Keeps(w, PointStep(w, st))
  {
    RequestsInHeap(w);
    hide Inv, Keeps, Owns, MayDownload;
    match st
    case DoAuth(r, i) => AuthInv(w, r, i);
    case DoLock(r) => LockInv(w, r);
    case DoOwn(r, i) => RecheckInv(w, st);
    case DoFresh(r) => RecheckInv(w, st);
    case DoOpenBlob(r) => OpenInv(w, r);
    case DoServe(r) => ServeInv(w, r);
    case DoGiveUp(r) => OverInv(w, r);
  }

  lemma RequestsInHeap(w: World)
    requires Inv(w)
    ensures forall r :: r in w.reqs ==> w.reqs[r].id in w.heap
  {
    hide Rights, Locks, Contents, Caps, Answers, BlocksOk, LastOk, LogOk;
  }

  lemma PointRight(w: World, r: Rid)
    requires Rights(w) && r in w.reqs
    ensures w.reqs[r].id in w.heap && Right(w.reqs[r], w.heap, w.sealed)
  {
  }

  // --- every step, every run ---

  lemma InvStep(w: World, st: Step)
    requires Inv(w) && Enabled(w, st)
    ensures Inv(Do(w, st)) && Keeps(w, Do(w, st))
  {
    hide Inv, Keeps, Keyed;
    match st
    case DoCreate(i, key, version, sig, now, saved) =>
      if key == "" || version == "" {
        KeepsSame(w);
      } else {
        CreateInv(w, i, Lower(key), version, sig, now, saved);
      }
    case DoGc(now) => GcInv(w, now);
    case DoMatch(i, key, restoreKeys, version, now) => MatchInv(w, i, key, restoreKeys, version, now);
    case DoFinalize(r, i, want, now) => FinalizeInv(w, r, i, want, now);
    case DoClose(_, _) => CloseInv(w, st);
    case DoBlock(_, _, _) => BlockInv(w, st);
    case DoCommit(_, _, _) => CommitInv(w, st);
    case _ =>
      if Writes(st) {
        StreamInv(w, st);
      } else if Starts(st) {
        StartInv(w, st);
      } else {
        PointInv(w, st);
      }
  }

  lemma StartsOk(s: Store)
    requires Loaded(s)
    ensures Inv(Start(s))
  {
  }

  lemma {:induction false} Reachable(ws: seq<World>, steps: seq<Step>, s: Store, k: nat)
    requires Run(ws, steps, s) && k < |ws|
    ensures Inv(ws[k])
  {
    hide Inv, Enabled, Do;
    if k == 0 {
      StartsOk(s);
    } else {
      Reachable(ws, steps, s, k - 1);
      assert Enabled(ws[k - 1], steps[k - 1]) && ws[k] == Do(ws[k - 1], steps[k - 1]);
      InvStep(ws[k - 1], steps[k - 1]);
    }
  }

  lemma {:induction false} KeptOnRuns(ws: seq<World>, steps: seq<Step>, s: Store, j: nat, k: nat)
    requires Run(ws, steps, s) && j <= k < |ws|
    ensures Keeps(ws[j], ws[k])
  {
    hide Inv, Keeps, Enabled, Do;
    if j == k {
      KeepsSame(ws[j]);
    } else {
      KeptOnRuns(ws, steps, s, j, k - 1);
      Reachable(ws, steps, s, k - 1);
      assert Enabled(ws[k - 1], steps[k - 1]) && ws[k] == Do(ws[k - 1], steps[k - 1]);
      InvStep(ws[k - 1], steps[k - 1]);
      KeepsTrans(ws[j], ws[k - 1], ws[k]);
    }
  }
}
