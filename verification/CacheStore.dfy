/** The cache server's index, blobs and staged blocks, and the sections its handlers run on them. */
module CacheStore {
  import opened Wrappers
  import opened JobIdentity

  type Id = nat
  type Bytes = seq<bv8>

  datatype Entry = Entry(
    id: Id,
    sig: string,
    repo: string,
    rf: string,
    generation: string,
    jobID: string,
    runID: int,
    key: string,
    version: string,
    size: int,
    complete: bool,
    createdAt: int,
    usedAt: int
  )

  const MAX_INCOMPLETE_AGE := 1800

  datatype Store = Store(
    entries: map<Id, Entry>,
    nextID: Id,
    maxSize: int,
    maxEntry: int,
    staged: map<Id, int>,
    blobs: map<Id, Bytes>,
    blocks: map<Id, map<string, Bytes>>
  )

  /** An index whose keys are its entries' ids. */
  predicate Keyed(entries: map<Id, Entry>) {
    forall id :: id in entries ==> entries[id].id == id
  }

  /** The id after every one in the index, and no more. */
  predicate Follows(entries: map<Id, Entry>, next: Id) {
    1 <= next && (forall id :: id in entries ==> id < next) && (next == 1 || next - 1 in entries)
  }

  // --- searching ---

  datatype Which = AnyExact | ReservedExact | CompleteExact | CompletePrefix

  datatype Query = Query(repo: string, rf: string, key: string, version: string, which: Which)

  predicate Hits(q: Query, e: Entry) {
    && e.repo == q.repo && q.rf != "" && e.rf == q.rf && e.version == q.version
    && match q.which
       case AnyExact => e.key == q.key
       case ReservedExact => !e.complete && e.key == q.key
       case CompleteExact => e.complete && e.key == q.key
       case CompletePrefix => e.complete && q.key <= e.key
  }

  /** Whether e replaces best as the newest match. */
  predicate Newer(best: Option<Entry>, e: Entry) {
    best.None? ||
    (if e.createdAt != best.value.createdAt then e.createdAt > best.value.createdAt else e.id > best.value.id)
  }

  /** The one entry the search is to find: a hit no other hit is newer than. */
  ghost predicate IsNewest(entries: map<Id, Entry>, q: Query, r: Option<Entry>) {
    match r
    case None => forall id :: id in entries ==> !Hits(q, entries[id])
    case Some(e) =>
      && e.id in entries && entries[e.id] == e && Hits(q, e)
      && forall id :: id in entries && Hits(q, entries[id]) && id != e.id ==> !Newer(r, entries[id])
  }

  lemma {:induction false} NewestExists(entries: map<Id, Entry>, q: Query)
    requires Keyed(entries)
    ensures exists r :: IsNewest(entries, q, r)
    decreases |entries|
  {
    if entries == map[] {
      assert IsNewest(entries, q, None);
    } else {
      var id :| id in entries;
      var rest := entries - {id};
      assert rest.Keys == entries.Keys - {id};
      assert forall k :: k in entries && k != id ==> k in rest && rest[k] == entries[k];
      NewestExists(rest, q);
      var r :| IsNewest(rest, q, r);
      var e := entries[id];
      if Hits(q, e) && Newer(r, e) {
        assert IsNewest(entries, q, Some(e));
      } else {
        assert IsNewest(entries, q, r);
      }
    }
  }

  ghost function Newest(entries: map<Id, Entry>, q: Query): (r: Option<Entry>)
    requires Keyed(entries)
    ensures IsNewest(entries, q, r)
  {
    NewestExists(entries, q);
    var r :| IsNewest(entries, q, r);
    r
  }

  /** There is only one newest hit, so the order an index is searched in makes no difference. */
  lemma NewestUnique(entries: map<Id, Entry>, q: Query, r: Option<Entry>, t: Option<Entry>)
    requires Keyed(entries) && IsNewest(entries, q, r) && IsNewest(entries, q, t)
    ensures r == t
  {
  }

  // --- sections ---

  function Forget(s: Store, id: Id): Store {
    s.(entries := s.entries - {id}, staged := s.staged - {id}, blobs := s.blobs - {id}, blocks := s.blocks - {id})
  }

  datatype Refusal = NoScope | Exists | BeingCreated | SaveFailed

  datatype CreateResult = Reserved(id: Id) | Refused(why: Refusal)

  function Reservation(s: Store, i: Identity, key: string, version: string, sig: string, now: int): Entry {
    Entry(s.nextID, sig, i.repository, i.writeRef, i.generation, i.jobID, i.runID, key, version, -1, false, now, now)
  }

  /** Reserve a new entry, taking over a reservation whose upload never completed in time. */
  ghost function Create(s: Store, i: Identity, key: string, version: string, sig: string, now: int, saved: bool)
    : (Store, CreateResult)
    requires Keyed(s.entries)
  {
    if i.writeRef == "" then (s, Refused(NoScope))
    else
      var found := Newest(s.entries, Query(i.repository, i.writeRef, key, version, AnyExact));
      if found.Some? && found.value.complete then (s, Refused(Exists))
      else if found.Some? && found.value.usedAt >= now - MAX_INCOMPLETE_AGE then (s, Refused(BeingCreated))
      else
        var t := if found.Some? then Forget(s, found.value.id) else s;
        var u := t.(nextID := t.nextID + 1);
        if saved then
          (u.(entries := u.entries[t.nextID := Reservation(t, i, key, version, sig, now)]), Reserved(t.nextID))
        else (u.(entries := u.entries - {t.nextID}), Refused(SaveFailed))
  }

  predicate Owns(i: Identity, e: Entry) {
    i.writeRef != "" && e.rf == i.writeRef && e.repo == i.repository
    && e.generation == i.generation && e.jobID == i.jobID && e.runID == i.runID
  }

  // --- eviction ---

  predicate LessRecentlyUsed(a: Entry, b: Entry) {
    if a.usedAt != b.usedAt then a.usedAt < b.usedAt else a.id < b.id
  }

  predicate Evictable(e: Entry, keep: Id) {
    e.complete && e.id != keep
  }

  ghost predicate IsVictim(entries: map<Id, Entry>, keep: Id, v: Option<Entry>) {
    match v
    case None => forall id :: id in entries ==> !Evictable(entries[id], keep)
    case Some(e) =>
      && e.id in entries && entries[e.id] == e && Evictable(e, keep)
      && forall id :: id in entries && Evictable(entries[id], keep) && id != e.id ==> LessRecentlyUsed(e, entries[id])
  }

  lemma {:induction false} VictimExists(entries: map<Id, Entry>, keep: Id)
    requires Keyed(entries)
    ensures exists v :: IsVictim(entries, keep, v)
    decreases |entries|
  {
    if entries == map[] {
      assert IsVictim(entries, keep, None);
    } else {
      var id :| id in entries;
      var rest := entries - {id};
      assert rest.Keys == entries.Keys - {id};
      assert forall k :: k in entries && k != id ==> k in rest && rest[k] == entries[k];
      VictimExists(rest, keep);
      var v :| IsVictim(rest, keep, v);
      var e := entries[id];
      if Evictable(e, keep) && (v.None? || LessRecentlyUsed(e, v.value)) {
        assert IsVictim(entries, keep, Some(e));
      } else {
        assert IsVictim(entries, keep, v);
      }
    }
  }

  ghost function Victim(entries: map<Id, Entry>, keep: Id): (v: Option<Entry>)
    requires Keyed(entries)
    ensures IsVictim(entries, keep, v)
  {
    VictimExists(entries, keep);
    var v :| IsVictim(entries, keep, v);
    v
  }

  lemma VictimUnique(entries: map<Id, Entry>, keep: Id, v: Option<Entry>, u: Option<Entry>)
    requires Keyed(entries) && IsVictim(entries, keep, v) && IsVictim(entries, keep, u)
    ensures v == u
  {
  }

  ghost function EvictFrom(s: Store, total: int, keep: Id): (Store, nat)
    requires Keyed(s.entries)
    decreases |s.entries|
  {
    if total <= s.maxSize then (s, 0)
    else
      var v := Victim(s.entries, keep);
      if v.None? then (s, 0)
      else
        assert (s.entries - {v.value.id}).Keys == s.entries.Keys - {v.value.id};
        var (t, k) := EvictFrom(Forget(s, v.value.id), total - v.value.size, keep);
        (t, k + 1)
  }

  /** The sum of f over s, in whatever order it is taken. */
  ghost function Sum(s: set<Id>, f: map<Id, int>): int
    requires s <= f.Keys
    decreases |s|
  {
    if s == {} then 0
    else
      var x :| x in s;
      f[x] + Sum(s - {x}, f)
  }

  ghost function CompleteIds(entries: map<Id, Entry>): set<Id> {
    set id | id in entries && entries[id].complete
  }

  ghost function Sizes(entries: map<Id, Entry>): map<Id, int> {
    map id | id in entries :: entries[id].size
  }

  ghost function CompletedBytes(entries: map<Id, Entry>): int {
    Sum(CompleteIds(entries), Sizes(entries))
  }

  ghost function StagedBytes(staged: map<Id, int>): int {
    Sum(staged.Keys, staged)
  }

  ghost function Evict(s: Store, keep: Id): (Store, nat)
    requires Keyed(s.entries)
  {
    if s.maxSize <= 0 then (s, 0)
    else EvictFrom(s, CompletedBytes(s.entries) + StagedBytes(s.staged), keep)
  }

  // --- finalizing ---

  datatype FinalizeResult = Finalized | Expired | NotUploaded | SizeMismatch

  /** The locked part of finalizing entry id; `want` is the size the request names, if it names one. */
  ghost function Finalize(s: Store, id: Id, i: Identity, want: Option<int>, now: int): (Store, FinalizeResult)
    requires Keyed(s.entries)
  {
    if id !in s.entries || s.entries[id].complete || !Owns(i, s.entries[id]) then (s, Expired)
    else if id !in s.blobs then (s, NotUploaded)
    else if want.Some? && want.value >= 0 && want.value != |s.blobs[id]| then (s, SizeMismatch)
    else
      var e := s.entries[id].(size := |s.blobs[id]|, complete := true, usedAt := now);
      var t := s.(entries := s.entries[id := e], staged := s.staged - {id});
      (Evict(t, id).0, Finalized)
  }

  // --- reclaiming ---

  predicate Abandoned(e: Entry, cutoff: int) {
    !e.complete && e.usedAt < cutoff
  }

  ghost function AbandonedIds(entries: map<Id, Entry>, cutoff: int): set<Id> {
    set id | id in entries && Abandoned(entries[id], cutoff)
  }

  ghost function Gc(s: Store, now: int): Store {
    var dead := AbandonedIds(s.entries, now - MAX_INCOMPLETE_AGE);
    s.(entries := s.entries - dead, staged := s.staged - dead, blobs := s.blobs - dead, blocks := s.blocks - dead)
  }

  // --- uploading ---

  function BlocksOf(s: Store, id: Id): map<string, Bytes> {
    if id in s.blocks then s.blocks[id] else map[]
  }

  function StagedOf(s: Store, id: Id): int {
    if id in s.staged then s.staged[id] else 0
  }

  // A PUT truncates the blob in place, appends what arrives, and counts the bytes once it is closed.
  // The blob may be unlinked meanwhile; what arrives then goes to no name.

  function OpenBlob(s: Store, id: Id): Store {
    s.(blobs := s.blobs[id := []])
  }

  function AppendBlob(s: Store, id: Id, c: Bytes): Store {
    if id in s.blobs then s.(blobs := s.blobs[id := s.blobs[id] + c]) else s
  }

  function CloseBlob(s: Store, id: Id, sent: Bytes, ok: bool): Store {
    if ok then s.(staged := s.staged[id := |sent|]) else s.(blobs := s.blobs - {id}, staged := s.staged - {id})
  }

  predicate Fits(s: Store, n: int) {
    s.maxEntry <= 0 || n <= s.maxEntry
  }

  /** A whole PUT; None stands for a body that broke off. Over the per-entry cap it is refused. */
  function PutBlob(s: Store, id: Id, body: Option<Bytes>): (Store, bool) {
    if body.None? || !Fits(s, |body.value|) then
      (s.(blobs := s.blobs - {id}, staged := s.staged - {id}), false)
    else
      (s.(blobs := s.blobs[id := body.value], staged := s.staged[id := |body.value|]), true)
  }

  /** One staged block, bounded by what the entry has left of its cap. */
  function PutBlock(s: Store, id: Id, block: string, body: Option<Bytes>): (Store, bool) {
    if block == "" then (s, false)
    else if body.None? || (s.maxEntry > 0 && |body.value| > Max(s.maxEntry - StagedOf(s, id), 0)) then
      (s.(blocks := s.blocks[id := BlocksOf(s, id) - {block}]), false)
    else
      (s.(blocks := s.blocks[id := BlocksOf(s, id)[block := body.value]],
          staged := s.staged[id := StagedOf(s, id) + |body.value|]), true)
  }

  datatype CommitResult = Committed | EmptyList | MissingBlock | TooLarge | Broken

  /**
   Where assembling a list hits an I/O error, if it does: opening the new file, after copying so many
   blocks, or once all are copied.
   */
  datatype Fault = Fine | AtOpen | After(copied: nat)

  function NextFault(f: Fault): Fault {
    if f.After? && f.copied > 0 then After(f.copied - 1) else f
  }

  /** The blocks of a list one after the other, up to a missing one, an error or past the cap. */
  function Assemble(blocks: map<string, Bytes>, list: seq<string>, cap: int, sofar: Bytes, f: Fault): (Bytes, CommitResult) {
    if list == [] then (sofar, if f.Fine? then Committed else Broken)
    else if list[0] !in blocks then (sofar, MissingBlock)
    else if f == After(0) then (sofar, Broken)
    else
      var out := sofar + blocks[list[0]];
      if cap > 0 && |out| > cap then (out, TooLarge) else Assemble(blocks, list[1..], cap, out, NextFault(f))
  }

  function CommitBlocks(s: Store, id: Id, list: seq<string>, f: Fault): (Store, CommitResult) {
    if list == [] then (s, EmptyList)
    else if f.AtOpen? then (s, Broken)
    else
      var (out, r) := Assemble(BlocksOf(s, id), list, s.maxEntry, [], f);
      match r
      case Committed =>
        (s.(blobs := s.blobs[id := out], blocks := s.blocks - {id}, staged := s.staged[id := |out|]), r)
      case TooLarge => (s.(blocks := s.blocks - {id}, staged := s.staged - {id}), r)
      case _ => (s, r)
  }

  function Flatten(parts: seq<Bytes>): Bytes {
    if parts == [] then [] else parts[0] + Flatten(parts[1..])
  }

  // --- downloading ---

  predicate MayDownload(i: Identity, e: Entry) {
    e.complete && e.repo == i.repository && CanRead(i, e.rf)
  }
}
