/** What every interleaving of the cache server keeps. */
module CacheSafety {
  import opened JobIdentity
  import opened CacheStore
  import opened CacheEviction
  import opened CacheRuns

  function Content(x: Write): Bytes {
    match x
    case Put(bytes) => bytes
    case Listed(_, parts) => Flatten(parts)
  }

  ghost predicate IndexOk(w: World) {
    && Keyed(w.s.entries) && Keyed(w.heap) && UniqueKeys(w.s.entries)
    && w.start.nextID <= w.s.nextID && w.s.maxEntry == w.start.maxEntry
    && (forall id :: id in w.s.entries ==> id in w.heap && w.heap[id] == w.s.entries[id])
    && (forall id :: id in w.heap ==> id < w.s.nextID)
    && (forall r :: r in w.reqs ==> w.reqs[r].id in w.heap)
  }

  /** Exactly the requests that hold an entry's lock are its holder. */
  ghost predicate Locks(w: World) {
    && (forall id :: id in w.holder ==>
                       w.holder[id] in w.reqs && w.reqs[w.holder[id]].id == id && Holds(w.reqs[w.holder[id]]))
    && (forall r :: r in w.reqs && Holds(w.reqs[r]) ==> w.reqs[r].id in w.holder && w.holder[w.reqs[r].id] == r)
  }

  /** What a request may assume at its point, whatever ran in between. */
  ghost predicate Right(q: Req, heap: map<Id, Entry>, sealed: map<Id, Bytes>)
    requires q.id in heap
  {
    && (q.Owned? || q.Writable? || q.Streaming? ==> Owns(q.who, heap[q.id]))
    && (q.Writable? || q.Streaming? ==> !heap[q.id].complete)
    && (q.Reading? || q.Serving? ==> MayDownload(q.who, heap[q.id]))
    && (q.Serving? ==> q.id in sealed && sealed[q.id] == q.snapshot)
  }

  ghost predicate Rights(w: World) {
    forall r :: r in w.reqs ==> w.reqs[r].id in w.heap && Right(w.reqs[r], w.heap, w.sealed)
  }

  predicate BeingWritten(w: World, id: Id) {
    id in w.holder && w.holder[id] in w.reqs && w.reqs[w.holder[id]].Streaming?
  }

  ghost predicate BlobOk(w: World, id: Id)
    requires id in w.s.blobs
  {
    && (id in w.heap && w.heap[id].complete ==> id in w.sealed && w.sealed[id] == w.s.blobs[id])
    && (if BeingWritten(w, id) then w.s.blobs[id] == w.reqs[w.holder[id]].sent
        else id in w.last && Content(w.last[id]) == w.s.blobs[id])
  }

  ghost predicate SealOk(w: World, id: Id)
    requires id in w.sealed
  {
    id in w.heap && w.heap[id].complete && id in w.last && Content(w.last[id]) == w.sealed[id]
  }

  /** A blob is what was last written to it; a sealed one never changes again. */
  ghost predicate Contents(w: World) {
    && (forall id :: id in w.s.blobs ==> BlobOk(w, id))
    && (forall id :: id in w.sealed ==> SealOk(w, id))
    && (forall id :: id in w.heap && w.start.nextID <= id && w.heap[id].complete ==>
                       id in w.sealed && w.heap[id].size == |w.sealed[id]|)
  }

  ghost predicate HasBlock(log: set<Sent>, id: Id, block: string, bytes: Bytes) {
    exists who :: Block(id, who, block, bytes) in log
  }

  ghost predicate HasWhole(log: set<Sent>, id: Id, bytes: Bytes) {
    exists who :: Whole(id, who, bytes) in log
  }

  /** The write is one successful PUT, or a list whose every block was put. */
  ghost predicate Traceable(log: set<Sent>, id: Id, x: Write) {
    match x
    case Put(bytes) => HasWhole(log, id, bytes)
    case Listed(list, parts) => |parts| == |list| && forall k :: 0 <= k < |list| ==> HasBlock(log, id, list[k], parts[k])
  }

  ghost predicate LogOk(w: World) {
    forall x :: x in w.log ==> x.id in w.heap && Owns(x.who, w.heap[x.id])
  }

  /** A staged block was put by its entry's owner, or was there before and is too large to be used. */
  ghost predicate BlockOk(w: World, id: Id, b: string)
    requires id in w.s.blocks && b in w.s.blocks[id]
  {
    HasBlock(w.log, id, b, w.s.blocks[id][b]) || !Fits(w.s, |w.s.blocks[id][b]|)
  }

  ghost predicate BlocksOk(w: World) {
    forall id, b :: id in w.s.blocks && Clean(w.start, id) && b in w.s.blocks[id] ==> BlockOk(w, id, b)
  }

  ghost predicate LastOk(w: World) {
    forall id :: id in w.last && Clean(w.start, id) ==> Traceable(w.log, id, w.last[id])
  }

  ghost predicate Caps(w: World) {
    w.s.maxEntry > 0 ==>
      && (forall id :: id in w.s.blobs && Capped(w.start, id) ==> |w.s.blobs[id]| <= w.s.maxEntry)
      && (forall r :: r in w.reqs && w.reqs[r].Streaming? ==> |w.reqs[r].sent| <= w.s.maxEntry)
      && (forall id :: id in w.heap && Capped(w.start, id) && w.heap[id].complete ==> w.heap[id].size <= w.s.maxEntry)
  }

  ghost predicate Answers(w: World) {
    forall v :: v in w.served ==>
                  v.id in w.sealed && v.bytes == w.sealed[v.id] && v.id in w.heap && MayDownload(v.to, w.heap[v.id])
  }

  ghost predicate Inv(w: World) {
    IndexOk(w) && Locks(w) && Rights(w) && Contents(w) && LogOk(w) && BlocksOk(w) && LastOk(w) && Caps(w) && Answers(w)
  }

  /** Nothing that was sealed or answered is ever taken back, and an entry keeps what it was reserved as. */
  ghost predicate Keeps(w: World, v: World) {
    && (forall id :: id in w.heap ==> id in v.heap && SameEntry(w.heap[id], v.heap[id]))
    && (forall id :: id in w.sealed ==> id in v.sealed && v.sealed[id] == w.sealed[id])
    && w.served <= v.served && w.log <= v.log && v.start == w.start
  }

  predicate SameEntry(e: Entry, f: Entry) {
    && f == e.(size := f.size, complete := f.complete, usedAt := f.usedAt)
    && (e.complete ==> f.complete && f.size == e.size)
  }

  // --- parts a step does not touch ---

  lemma LocksSame(w: World, v: World)
    requires Locks(w) && v.reqs == w.reqs && v.holder == w.holder
    ensures Locks(v)
  {
  }

  lemma FilesSame(w: World, v: World)
    requires BlocksOk(w) && LastOk(w)
    requires v.s.blobs.Keys <= w.s.blobs.Keys && v.s.blocks.Keys <= w.s.blocks.Keys
    requires forall id :: id in v.s.blocks ==> v.s.blocks[id] == w.s.blocks[id]
    requires v.last == w.last && v.log == w.log && v.start == w.start && v.s.maxEntry == w.s.maxEntry
    ensures BlocksOk(v) && LastOk(v)
  {
    hide Traceable, HasBlock, Clean;
    forall id, b | id in v.s.blocks && Clean(v.start, id) && b in v.s.blocks[id] ensures BlockOk(v, id, b) {
      assert BlockOk(w, id, b);
    }
  }

  // --- entries leave the index ---

  lemma MergeSame(heap: map<Id, Entry>, entries: map<Id, Entry>)
    requires forall id :: id in entries ==> id in heap && heap[id] == entries[id]
    ensures heap + entries == heap
  {
  }

  function Shrunk(w: World, gone: set<Id>): World {
    w.(s := Without(w.s, gone))
  }

  lemma ShrinkContents(w: World, gone: set<Id>)
    requires Contents(w)
    ensures Contents(Shrunk(w, gone))
  {
    var v := Shrunk(w, gone);
    forall id | id in v.s.blobs ensures BlobOk(v, id) {
      assert BlobOk(w, id);
    }
    forall id | id in v.sealed ensures SealOk(v, id) {
      assert SealOk(w, id);
    }
  }

  lemma ShrinkRest(w: World, gone: set<Id>)
    requires IndexOk(w) && Rights(w) && LogOk(w) && Caps(w) && Answers(w)
    ensures var v := Shrunk(w, gone); IndexOk(v) && Rights(v) && LogOk(v) && Caps(v) && Answers(v) && Keeps(w, v)
  {
    hide Right, Owns, MayDownload;
  }

  lemma ShrinkInv(w: World, gone: set<Id>)
    requires Inv(w)
    ensures Inv(Shrunk(w, gone)) && Keeps(w, Shrunk(w, gone))
  {
    hide IndexOk, Locks, Rights, Contents, LogOk, BlocksOk, LastOk, Caps, Answers, Keeps;
    ShrinkContents(w, gone);
    ShrinkRest(w, gone);
    LocksSame(w, Shrunk(w, gone));
    FilesSame(w, Shrunk(w, gone));
  }

  // --- an id is used up without an entry ---

  function Bumped(w: World): World {
    w.(s := w.s.(nextID := w.s.nextID + 1))
  }

  lemma BumpContents(w: World)
    requires Contents(w)
    ensures Contents(Bumped(w))
  {
    forall id | id in w.s.blobs ensures BlobOk(Bumped(w), id) {
      assert BlobOk(w, id);
    }
    forall id | id in w.sealed ensures SealOk(Bumped(w), id) {
      assert SealOk(w, id);
    }
  }

  lemma BumpRest(w: World)
    requires IndexOk(w) && Rights(w) && LogOk(w) && Caps(w) && Answers(w)
    ensures var v := Bumped(w); IndexOk(v) && Rights(v) && LogOk(v) && Caps(v) && Answers(v) && Keeps(w, v)
  {
    hide Right, Owns, MayDownload, UniqueKeys;
  }

  lemma BumpInv(w: World)
    requires Inv(w)
    ensures Inv(Bumped(w)) && Keeps(w, Bumped(w))
  {
    hide IndexOk, Locks, Rights, Contents, LogOk, BlocksOk, LastOk, Caps, Answers, Keeps;
    BumpContents(w);
    BumpRest(w);
    LocksSame(w, Bumped(w));
    FilesSame(w, Bumped(w));
  }

  // --- an entry is reserved ---

  function WithNew(w: World, e: Entry): World {
    w.(s := w.s.(nextID := w.s.nextID + 1, entries := w.s.entries[w.s.nextID := e]), heap := w.heap[w.s.nextID := e])
  }

  ghost predicate Reservable(w: World, e: Entry) {
    && e.id == w.s.nextID && !e.complete
    && forall id :: id in w.s.entries ==> !SameKey(e, w.s.entries[id]) && !SameKey(w.s.entries[id], e)
  }

  lemma ReserveIndex(w: World, e: Entry)
    requires IndexOk(w) && Reservable(w, e)
    ensures IndexOk(WithNew(w, e)) && w.s.nextID !in w.heap
  {
    hide SameKey;
  }

  lemma ReserveRights(w: World, e: Entry)
    requires Rights(w) && w.s.nextID !in w.heap
    ensures Rights(WithNew(w, e))
  {
    hide Owns, MayDownload;
  }

  lemma ReserveContents(w: World, e: Entry)
    requires IndexOk(w) && Contents(w) && Reservable(w, e) && w.s.nextID !in w.heap
    ensures Contents(WithNew(w, e))
  {
    hide IndexOk, Content, Traceable, SameKey;
    var v := WithNew(w, e);
    forall id | id in v.s.blobs ensures BlobOk(v, id) {
      assert BlobOk(w, id);
    }
    forall id | id in v.sealed ensures SealOk(v, id) {
      assert SealOk(w, id);
    }
  }

  lemma ReserveRest(w: World, e: Entry)
    requires IndexOk(w) && LogOk(w) && Caps(w) && Answers(w) && !e.complete && w.s.nextID !in w.heap
    ensures var v := WithNew(w, e); LogOk(v) && Caps(v) && Answers(v) && Keeps(w, v)
  {
    hide Owns, MayDownload, UniqueKeys;
  }

  lemma ReserveInv(w: World, e: Entry)
    requires Inv(w) && Reservable(w, e)
    ensures Inv(WithNew(w, e)) && Keeps(w, WithNew(w, e))
  {
    hide IndexOk, Locks, Rights, Contents, LogOk, BlocksOk, LastOk, Caps, Answers, Keeps, Reservable;
    ReserveIndex(w, e);
    ReserveRights(w, e);
    ReserveContents(w, e);
    assert !e.complete by {
      NotDone(w, e);
    }
    ReserveRest(w, e);
    LocksSame(w, WithNew(w, e));
    FilesSame(w, WithNew(w, e));
  }

  lemma NotDone(w: World, e: Entry)
    requires Reservable(w, e)
    ensures !e.complete
  {
  }

  // --- an entry is used ---

  function Touched(w: World, id: Id, now: int): World
    requires id in w.s.entries
  {
    var e := w.s.entries[id].(usedAt := now);
    w.(s := w.s.(entries := w.s.entries[id := e]), heap := w.heap[id := e])
  }

  lemma TouchIndex(w: World, id: Id, now: int)
    requires IndexOk(w) && id in w.s.entries
    ensures IndexOk(Touched(w, id, now))
  {
    var v := Touched(w, id, now);
    forall a, b | a in v.s.entries && b in v.s.entries && v.s.entries[a].rf != "" && SameKey(v.s.entries[a], v.s.entries[b])
      ensures a == b
    {
      assert SameKey(w.s.entries[a], w.s.entries[b]);
    }
  }

  lemma TouchContents(w: World, id: Id, now: int)
    requires IndexOk(w) && Contents(w) && id in w.s.entries
    ensures Contents(Touched(w, id, now))
  {
    hide Content, UniqueKeys;
    var v := Touched(w, id, now);
    forall k | k in v.s.blobs ensures BlobOk(v, k) {
      assert BlobOk(w, k);
    }
    forall k | k in v.sealed ensures SealOk(v, k) {
      assert SealOk(w, k);
    }
  }

  lemma TouchRest(w: World, id: Id, now: int)
    requires IndexOk(w) && Rights(w) && LogOk(w) && Caps(w) && Answers(w) && id in w.s.entries
    ensures var v := Touched(w, id, now); Rights(v) && LogOk(v) && Caps(v) && Answers(v) && Keeps(w, v)
  {
    hide UniqueKeys;
  }

  lemma TouchInv(w: World, id: Id, now: int)
    requires Inv(w) && id in w.s.entries
    ensures Inv(Touched(w, id, now)) && Keeps(w, Touched(w, id, now))
  {
    hide IndexOk, Locks, Rights, Contents, LogOk, BlocksOk, LastOk, Caps, Answers, Keeps;
    TouchIndex(w, id, now);
    TouchContents(w, id, now);
    TouchRest(w, id, now);
    LocksSame(w, Touched(w, id, now));
    FilesSame(w, Touched(w, id, now));
  }

  // --- an entry is sealed ---

  function Done(w: World, id: Id, now: int): Entry
    requires id in w.s.entries && id in w.s.blobs
  {
    w.s.entries[id].(size := |w.s.blobs[id]|, complete := true, usedAt := now)
  }

  function SealedNow(w: World, id: Id, now: int): World
    requires id in w.s.entries && id in w.s.blobs
  {
    var e := Done(w, id, now);
    w.(s := w.s.(entries := w.s.entries[id := e], staged := w.s.staged - {id}),
       heap := w.heap[id := e], sealed := w.sealed[id := w.s.blobs[id]])
  }

  /** The sealing request holds the lock of a reservation whose blob is there. */
  predicate Sealable(w: World, id: Id) {
    && id in w.s.entries && id in w.s.blobs && !w.s.entries[id].complete
    && id in w.holder && w.holder[id] in w.reqs && w.reqs[w.holder[id]].Holding?
  }

  lemma SealIndex(w: World, id: Id, now: int)
    requires IndexOk(w) && id in w.s.entries && id in w.s.blobs
    ensures IndexOk(SealedNow(w, id, now))
  {
    var v := SealedNow(w, id, now);
    forall a, b | a in v.s.entries && b in v.s.entries && v.s.entries[a].rf != "" && SameKey(v.s.entries[a], v.s.entries[b])
      ensures a == b
    {
      assert SameKey(w.s.entries[a], w.s.entries[b]);
    }
  }

  lemma SealRights(w: World, id: Id, now: int)
    requires IndexOk(w) && Locks(w) && Rights(w) && Contents(w) && Sealable(w, id)
    ensures Rights(SealedNow(w, id, now)) && id !in w.sealed
  {
    hide UniqueKeys, BlobOk, Content;
  }

  lemma SealContents(w: World, id: Id, now: int)
    requires IndexOk(w) && Contents(w) && Sealable(w, id) && id !in w.sealed
    ensures Contents(SealedNow(w, id, now))
  {
    hide UniqueKeys, Content, Owns;
    var v := SealedNow(w, id, now);
    forall k | k in v.s.blobs ensures BlobOk(v, k) {
      assert BlobOk(w, k);
    }
    forall k | k in v.sealed ensures SealOk(v, k) {
      assert k != id ==> SealOk(w, k);
      assert BlobOk(w, id);
    }
  }

  lemma SealLog(w: World, id: Id, now: int)
    requires IndexOk(w) && LogOk(w) && id in w.s.entries && id in w.s.blobs
    ensures LogOk(SealedNow(w, id, now))
  {
    hide UniqueKeys;
  }

  lemma SealCaps(w: World, id: Id, now: int)
    requires IndexOk(w) && Caps(w) && id in w.s.entries && id in w.s.blobs
    ensures Caps(SealedNow(w, id, now))
  {
    hide UniqueKeys, Capped;
  }

  lemma SealKeeps(w: World, id: Id, now: int)
    requires IndexOk(w) && Sealable(w, id) && id !in w.sealed
    ensures Keeps(w, SealedNow(w, id, now))
  {
    hide UniqueKeys;
  }

  lemma SealRest(w: World, id: Id, now: int)
    requires IndexOk(w) && LogOk(w) && Caps(w) && Sealable(w, id) && id !in w.sealed
    ensures var v := SealedNow(w, id, now); LogOk(v) && Caps(v) && Keeps(w, v)
  {
    hide IndexOk, LogOk, Caps, Keeps;
    SealLog(w, id, now);
    SealCaps(w, id, now);
    SealKeeps(w, id, now);
  }

  lemma SealAnswers(w: World, id: Id, now: int)
    requires IndexOk(w) && Answers(w) && id in w.s.entries && id in w.s.blobs && id !in w.sealed
    ensures Answers(SealedNow(w, id, now))
  {
    hide UniqueKeys, CanRead;
  }

  lemma SealInv(w: World, id: Id, now: int)
    requires Inv(w) && Sealable(w, id)
    ensures Inv(SealedNow(w, id, now)) && Keeps(w, SealedNow(w, id, now))
  {
    hide IndexOk, Locks, Rights, Contents, LogOk, BlocksOk, LastOk, Caps, Answers, Keeps;
    SealIndex(w, id, now);
    SealRights(w, id, now);
    SealContents(w, id, now);
    SealRest(w, id, now);
    SealAnswers(w, id, now);
    LocksSame(w, SealedNow(w, id, now));
    FilesSame(w, SealedNow(w, id, now));
  }
}
