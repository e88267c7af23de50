/**
 Every interleaving of the cache server's requests, its janitor and its evictions, within one
 process. A request is at one of a few points between which other requests run; an entry's lock is
 held across the points of one upload or finalize, while creating and reclaiming never take it.
 */
module CacheRuns {
  import opened Wrappers
  import opened JobIdentity
  import opened CacheStore
  import opened CacheLookup

  type Rid = nat

  datatype Purpose = Upload | Sealing

  /** Where a request is. `who` is the identity last looked up for it. */
  datatype Req =
    | Found(id: Id, put: bool)                  // its entry and signature matched
    | Waiting(id: Id, what: Purpose)            // authorized, wants the entry's lock
    | Holding(id: Id, what: Purpose)
    | Owned(id: Id, who: Identity)               // ownership checked again under the lock
    | Writable(id: Id, who: Identity)            // and the entry is still a reservation
    | Streaming(id: Id, who: Identity, sent: Bytes)
    | Reading(id: Id, who: Identity)             // may download
    | Serving(id: Id, who: Identity, snapshot: Bytes)

  /** An upload that succeeded. */
  datatype Sent = Whole(id: Id, who: Identity, bytes: Bytes) | Block(id: Id, who: Identity, block: string, bytes: Bytes)

  /** What a blob's content is: one PUT's body, or the blocks of a list in its order. */
  datatype Write = Put(bytes: Bytes) | Listed(list: seq<string>, parts: seq<Bytes>)

  datatype Answered = Answered(to: Identity, id: Id, bytes: Bytes)

  datatype World = World(
    s: Store,
    start: Store,                 // what this process found when it started
    heap: map<Id, Entry>,         // every entry there was, as last seen; a request's pointer outlives the index
    reqs: map<Rid, Req>,
    holder: map<Id, Rid>,         // who holds an entry's lock
    log: set<Sent>,
    last: map<Id, Write>,         // what each blob's content came from
    sealed: map<Id, Bytes>,       // each completed entry's bytes when it was finalized
    served: set<Answered>
  )

  datatype Step =
    | DoCreate(i: Identity, key: string, version: string, sig: string, now: int, saved: bool)
    | DoGc(now: int)
    | DoMatch(i: Identity, key: string, restoreKeys: seq<string>, version: string, now: int)
    | DoFind(r: Rid, id: Id, sig: string, put: bool)
    | DoAuth(r: Rid, i: Identity)
    | DoReserved(r: Rid, i: Identity, key: string, version: string)
    | DoLock(r: Rid)
    | DoOwn(r: Rid, i: Identity)
    | DoFresh(r: Rid)
    | DoOpen(r: Rid)
    | DoChunk(r: Rid, c: Bytes)
    | DoClose(r: Rid, ok: bool)
    | DoBlock(r: Rid, block: string, body: Option<Bytes>)
    | DoCommit(r: Rid, list: seq<string>, f: Fault)
    | DoFinalize(r: Rid, i: Identity, want: Option<int>, now: int)
    | DoOpenBlob(r: Rid)
    | DoServe(r: Rid)
    | DoGiveUp(r: Rid)

  predicate Holds(q: Req) {
    q.Holding? || q.Owned? || q.Writable? || q.Streaming?
  }

  // Steps that change the index, steps of an upload's bytes, and steps of a request alone.

  predicate Indexes(st: Step) {
    st.DoCreate? || st.DoGc? || st.DoMatch? || st.DoFinalize?
  }

  predicate Writes(st: Step) {
    st.DoOpen? || st.DoChunk? || st.DoClose? || st.DoBlock? || st.DoCommit?
  }

  predicate Starts(st: Step) {
    st.DoFind? || st.DoReserved?
  }

  ghost predicate StartEnabled(w: World, st: Step)
    requires Starts(st) && Keyed(w.s.entries)
  {
    st.r !in w.reqs &&
    match st
    case DoFind(_, id, sig, _) => id in w.s.entries && w.s.entries[id].sig == sig
    case DoReserved(_, i, key, version) =>
      var e := Newest(w.s.entries, Query(i.repository, i.writeRef, Lower(key), version, ReservedExact));
      e.Some? && Owns(i, e.value)
  }

  predicate WriteEnabled(w: World, st: Step)
    requires Writes(st)
  {
    st.r in w.reqs &&
    var q := w.reqs[st.r];
    match st
    case DoChunk(_, c) => q.Streaming? && Fits(w.s, |q.sent| + |c|)
    case DoClose(_, _) => q.Streaming?
    case _ => q.Writable?
  }

  predicate PointEnabled(w: World, st: Step)
    requires !Indexes(st) && !Writes(st) && !Starts(st)
  {
    st.r in w.reqs &&
    var q := w.reqs[st.r];
    match st
    case DoAuth(_, _) => q.Found?
    case DoLock(_) => q.Waiting? && q.id !in w.holder
    case DoOwn(_, _) => q.Holding? && q.what.Upload?
    case DoFresh(_) => q.Owned?
    case DoOpenBlob(_) => q.Reading?
    case DoServe(_) => q.Serving?
    case DoGiveUp(_) => !q.Streaming?
  }

  ghost predicate Enabled(w: World, st: Step) {
    && Keyed(w.s.entries) && (forall r :: r in w.reqs ==> w.reqs[r].id in w.heap)
    && if Indexes(st) then st.DoFinalize? ==> st.r in w.reqs && w.reqs[st.r].Holding? && w.reqs[st.r].what.Sealing?
       else if Writes(st) then WriteEnabled(w, st)
       else if Starts(st) then StartEnabled(w, st)
       else PointEnabled(w, st)
  }

  /** The index changed; entries that left it are remembered. */
  function Index(w: World, s: Store): World {
    w.(s := s, heap := w.heap + s.entries)
  }

  function Go(w: World, r: Rid, q: Req): World {
    w.(reqs := w.reqs[r := q])
  }

  /** The request is over, and with it its hold on the entry. */
  function Over(w: World, r: Rid): World
    requires r in w.reqs
  {
    w.(reqs := w.reqs - {r}, holder := if Holds(w.reqs[r]) then w.holder - {w.reqs[r].id} else w.holder)
  }

  /** A lookup marks what it found as used. */
  ghost function Touch(s: Store, i: Identity, key: string, restoreKeys: seq<string>, version: string, now: int): Store
    requires Keyed(s.entries)
  {
    var e := FirstHit(s.entries, Queries(i.repository, i.readRefs, Lower(key), restoreKeys, version));
    if e.None? then s else s.(entries := s.entries[e.value.id := e.value.(usedAt := now)])
  }

  ghost function Sealed(w: World, r: Rid, i: Identity, want: Option<int>, now: int): World
    requires r in w.reqs && Keyed(w.s.entries)
  {
    var id := w.reqs[r].id;
    var (t, result) := Finalize(w.s, id, i, want, now);
    if result.Finalized? then
      // the blob is as the section saw it
      Over(Finalizing(w, id, now, t), r)
    else Over(w, r)
  }

  function Finalizing(w: World, id: Id, now: int, t: Store): World {
    if id in w.s.blobs && id in w.s.entries then
      var done := w.s.entries[id].(size := |w.s.blobs[id]|, complete := true, usedAt := now);
      w.(s := t, heap := w.heap[id := done] + t.entries, sealed := w.sealed[id := w.s.blobs[id]])
    else w
  }

  ghost function IndexStep(w: World, st: Step): World
    requires Enabled(w, st) && Indexes(st)
  {
    match st
    case DoCreate(i, key, version, sig, now, saved) =>
      if key == "" || version == "" then w else Index(w, Create(w.s, i, Lower(key), version, sig, now, saved).0)
    case DoGc(now) => Index(w, Gc(w.s, now))
    case DoMatch(i, key, restoreKeys, version, now) => Index(w, Touch(w.s, i, key, restoreKeys, version, now))
    case DoFinalize(r, i, want, now) => Sealed(w, r, i, want, now)
  }

  function WriteStep(w: World, st: Step): World
    requires Writes(st) && WriteEnabled(w, st)
  {
    var q := w.reqs[st.r];
    match st
    case DoOpen(r) => Go(w, r, Streaming(q.id, q.who, [])).(s := OpenBlob(w.s, q.id), last := w.last - {q.id})
    case DoChunk(r, c) => Go(w, r, q.(sent := q.sent + c)).(s := AppendBlob(w.s, q.id, c))
    case DoClose(r, ok) =>
      var v := Over(w, r).(s := CloseBlob(w.s, q.id, q.sent, ok));
      if ok then v.(log := w.log + {Whole(q.id, q.who, q.sent)}, last := w.last[q.id := Put(q.sent)]) else v
    case DoBlock(r, block, body) =>
      var (t, ok) := PutBlock(w.s, q.id, block, body);
      var v := Over(w, r).(s := t);
      if ok && body.Some? then v.(log := w.log + {Block(q.id, q.who, block, body.value)}) else v
    case DoCommit(r, list, f) =>
      var (t, result) := CommitBlocks(w.s, q.id, list, f);
      var v := Over(w, r).(s := t);
      if result.Committed? then v.(last := w.last[q.id := Listed(list, PartsOf(BlocksOf(w.s, q.id), list))]) else v
  }

  /** The blocks a list names, one after the other. */
  function PartsOf(blocks: map<string, Bytes>, list: seq<string>): (parts: seq<Bytes>)
    ensures |parts| == |list|
  {
    seq(|list|, k requires 0 <= k < |list| => if list[k] in blocks then blocks[list[k]] else [])
  }

  ghost function StartStep(w: World, st: Step): World
    requires Starts(st) && Keyed(w.s.entries) && StartEnabled(w, st)
  {
    match st
    case DoFind(r, id, _, put) => Go(w, r, Found(id, put))
    case DoReserved(r, i, key, version) =>
      Go(w, r, Waiting(Newest(w.s.entries, Query(i.repository, i.writeRef, Lower(key), version, ReservedExact)).value.id, Sealing))
  }

  function PointStep(w: World, st: Step): World
    requires !Indexes(st) && !Writes(st) && !Starts(st) && PointEnabled(w, st)
    requires forall r :: r in w.reqs ==> w.reqs[r].id in w.heap
  {
    var q := w.reqs[st.r];
    var e := w.heap[q.id];
    match st
    case DoAuth(r, i) =>
      if q.put then (if Owns(i, e) then Go(w, r, Waiting(q.id, Upload)) else Over(w, r))
      else if MayDownload(i, e) then Go(w, r, Reading(q.id, i)) else Over(w, r)
    case DoLock(r) => Go(w, r, Holding(q.id, q.what)).(holder := w.holder[q.id := r])
    case DoOwn(r, i) => if Owns(i, e) then Go(w, r, Owned(q.id, i)) else Over(w, r)
    case DoFresh(r) => if !e.complete then Go(w, r, Writable(q.id, q.who)) else Over(w, r)
    case DoOpenBlob(r) => if q.id in w.s.blobs then Go(w, r, Serving(q.id, q.who, w.s.blobs[q.id])) else Over(w, r)
    case DoServe(r) =>
      // an open file keeps its bytes when its name goes, and shows what is written under the name while it stays
      var bytes := if q.id in w.s.blobs then w.s.blobs[q.id] else q.snapshot;
      Over(w, r).(served := w.served + {Answered(q.who, q.id, bytes)})
    case DoGiveUp(r) => Over(w, r)
  }

  ghost function Do(w: World, st: Step): World
    requires Enabled(w, st)
  {
    if Indexes(st) then IndexStep(w, st)
    else if Writes(st) then WriteStep(w, st)
    else if Starts(st) then StartStep(w, st)
    else PointStep(w, st)
  }

  /** At most one entry for a repository, ref, key and version. */
  ghost predicate UniqueKeys(entries: map<Id, Entry>) {
    forall a, b ::
      a in entries && b in entries && entries[a].rf != "" && SameKey(entries[a], entries[b]) ==> a == b
  }

  predicate SameKey(e: Entry, f: Entry) {
    e.repo == f.repo && e.rf == f.rf && e.key == f.key && e.version == f.version
  }

  /** A loaded index: keyed by id, below the next id, no two entries for one key. */
  ghost predicate Loaded(s: Store) {
    && Keyed(s.entries) && UniqueKeys(s.entries) && s.staged == map[]
    && (forall id :: id in s.entries ==> id < s.nextID)
  }

  /** An id still to be handed out, with no blob on disk under it and no staged block that could be committed. */
  ghost predicate Clean(s: Store, id: Id) {
    s.nextID <= id && id !in s.blobs && (id in s.blocks ==> forall b :: b in s.blocks[id] ==> !Fits(s, |s.blocks[id][b]|))
  }

  /** An id still to be handed out, with no blob on disk past the per-entry cap under it. */
  predicate Capped(s: Store, id: Id) {
    s.nextID <= id && (id in s.blobs ==> Fits(s, |s.blobs[id]|))
  }

  ghost function Start(s: Store): World
    requires Loaded(s)
  {
    World(s, s, s.entries, map[], map[], {}, map id | id in s.blobs :: Put(s.blobs[id]),
          map id | id in s.entries && s.entries[id].complete && id in s.blobs :: s.blobs[id], {})
  }

  ghost predicate Run(ws: seq<World>, steps: seq<Step>, s: Store) {
    && Loaded(s)
    && |ws| == |steps| + 1 && ws[0] == Start(s)
    && forall k :: 0 <= k < |steps| ==> Enabled(ws[k], steps[k]) && ws[k + 1] == Do(ws[k], steps[k])
  }
}
