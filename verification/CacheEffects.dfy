/** What each section of the cache server does, said of the entries and the files alone. */
module CacheEffects {
  import opened Wrappers
  import opened JobIdentity
  import opened CacheStore
  import opened CacheLookup
  import opened CacheMatch
  import opened CacheEviction
  import opened CacheRuns
  import opened CacheSteps

  // --- reserving ---

  /** An entry for exactly this repository, ref, key and version. */
  predicate For(e: Entry, i: Identity, key: string, version: string) {
    i.writeRef != "" && e.repo == i.repository && e.rf == i.writeRef && e.key == key && e.version == version
  }

  ghost predicate Taken(entries: map<Id, Entry>, i: Identity, key: string, version: string) {
    exists id :: id in entries && For(entries[id], i, key, version) && entries[id].complete
  }

  /** Another job's reservation that may still be uploading. */
  ghost predicate InProgress(entries: map<Id, Entry>, i: Identity, key: string, version: string, now: int) {
    exists id :: id in entries && For(entries[id], i, key, version) && !entries[id].complete && entries[id].usedAt >= now - 1800
  }

  lemma FoundFor(entries: map<Id, Entry>, i: Identity, key: string, version: string)
    requires Keyed(entries) && UniqueKeys(entries) && i.writeRef != ""
    ensures var found := Newest(entries, Query(i.repository, i.writeRef, key, version, AnyExact));
            && (found.None? <==> forall id :: id in entries ==> !For(entries[id], i, key, version))
            && (found.Some? ==> found.value.id in entries && entries[found.value.id] == found.value && For(found.value, i, key, version)
                                && forall id :: id in entries && For(entries[id], i, key, version) ==> id == found.value.id)
  {
    var q := Query(i.repository, i.writeRef, key, version, AnyExact);
    var found := Newest(entries, q);
    assert forall id :: id in entries ==> (Hits(q, entries[id]) <==> For(entries[id], i, key, version));
    if found.Some? {
      forall id | id in entries && For(entries[id], i, key, version) ensures id == found.value.id {
        assert SameKey(entries[id], entries[found.value.id]);
      }
    }
  }

  /**
   Reserving is refused without a write scope, when the key is completed, and while another reservation
   for it may still be uploading; otherwise, if the index can be saved, it hands out the next id.
   */
  lemma CreateAnswers(s: Store, i: Identity, key: string, version: string, sig: string, now: int, saved: bool)
    requires Keyed(s.entries) && UniqueKeys(s.entries)
    ensures var r := Create(s, i, key, version, sig, now, saved).1;
            && (r == Refused(NoScope) <==> i.writeRef == "")
            && (r == Refused(Exists) <==> Taken(s.entries, i, key, version))
            && (r == Refused(BeingCreated) <==> InProgress(s.entries, i, key, version, now))
            && (r == Refused(SaveFailed) <==>
                  i.writeRef != "" && !Taken(s.entries, i, key, version) && !InProgress(s.entries, i, key, version, now) && !saved)
            && (r == Reserved(s.nextID) <==>
                  i.writeRef != "" && !Taken(s.entries, i, key, version) && !InProgress(s.entries, i, key, version, now) && saved)
  {
    if i.writeRef != "" {
      FoundFor(s.entries, i, key, version);
    }
    hide Newest;
  }

  /**
   A reservation is the creator's, for the key asked for, with no bytes yet; it takes the place of a stale
   one and of nothing else, and every other entry and file stays.
   */
  lemma CreateReserves(s: Store, i: Identity, key: string, version: string, sig: string, now: int)
    requires Keyed(s.entries) && UniqueKeys(s.entries) && s.nextID !in s.entries
    requires Create(s, i, key, version, sig, now, true).1 == Reserved(s.nextID)
    ensures var t := Create(s, i, key, version, sig, now, true).0;
            && t.nextID == s.nextID + 1 && s.nextID in t.entries
            && (var e := t.entries[s.nextID];
                && e.id == s.nextID && e.sig == sig && e.repo == i.repository && e.rf == i.writeRef && e.key == key
                && e.version == version && e.generation == i.generation && e.jobID == i.jobID && e.runID == i.runID
                && !e.complete && e.createdAt == now && e.usedAt == now)
            && (forall id :: id != s.nextID ==>
                               (id in t.entries <==> id in s.entries && !For(s.entries[id], i, key, version)))
            && (forall id :: id in t.entries && id != s.nextID ==> t.entries[id] == s.entries[id])
            && (forall id :: id in s.entries && For(s.entries[id], i, key, version) ==> id !in t.blobs && id !in t.blocks && id !in t.staged)
            && (forall id :: id !in s.entries || !For(s.entries[id], i, key, version) ==> SameFiles(s, t, id))
  {
    ReservesEntry(s, i, key, version, sig, now);
    ReservesFiles(s, i, key, version, sig, now);
    hide *;
  }

  lemma ReservesEntry(s: Store, i: Identity, key: string, version: string, sig: string, now: int)
    requires Keyed(s.entries) && UniqueKeys(s.entries) && s.nextID !in s.entries
    requires Create(s, i, key, version, sig, now, true).1 == Reserved(s.nextID)
    ensures var t := Create(s, i, key, version, sig, now, true).0;
            && t.nextID == s.nextID + 1 && s.nextID in t.entries
            && (var e := t.entries[s.nextID];
                && e.id == s.nextID && e.sig == sig && e.repo == i.repository && e.rf == i.writeRef && e.key == key
                && e.version == version && e.generation == i.generation && e.jobID == i.jobID && e.runID == i.runID
                && !e.complete && e.createdAt == now && e.usedAt == now)
            && (forall id :: id != s.nextID ==>
                               (id in t.entries <==> id in s.entries && !For(s.entries[id], i, key, version)))
            && (forall id :: id in t.entries && id != s.nextID ==> t.entries[id] == s.entries[id])
  {
    FoundFor(s.entries, i, key, version);
    hide Newest, Keyed, UniqueKeys, For;
  }

  lemma ReservesFiles(s: Store, i: Identity, key: string, version: string, sig: string, now: int)
    requires Keyed(s.entries) && UniqueKeys(s.entries) && s.nextID !in s.entries
    requires Create(s, i, key, version, sig, now, true).1 == Reserved(s.nextID)
    ensures var t := Create(s, i, key, version, sig, now, true).0;
            && (forall id :: id in s.entries && For(s.entries[id], i, key, version) ==> id !in t.blobs && id !in t.blocks && id !in t.staged)
            && (forall id :: id !in s.entries || !For(s.entries[id], i, key, version) ==> SameFiles(s, t, id))
  {
    FoundFor(s.entries, i, key, version);
    hide Newest, Keyed, UniqueKeys, For, Reservation;
  }

  /** The blob, staged blocks and charge of an id are as they were. */
  predicate SameFiles(s: Store, t: Store, id: Id) {
    && (id in t.blobs <==> id in s.blobs) && (id in s.blobs ==> t.blobs[id] == s.blobs[id])
    && (id in t.blocks <==> id in s.blocks) && (id in s.blocks ==> t.blocks[id] == s.blocks[id])
    && (id in t.staged <==> id in s.staged) && (id in s.staged ==> t.staged[id] == s.staged[id])
  }

  // --- finalizing ---

  /**
   Finalizing succeeds exactly for the owner of a reservation still there whose blob has the size the
   request names, if it names one; otherwise it says why not and changes nothing.
   */
  lemma FinalizeAnswers(s: Store, id: Id, i: Identity, want: Option<int>, now: int)
    requires Keyed(s.entries)
    ensures var (t, r) := Finalize(s, id, i, want, now);
            && (r == Expired <==> id !in s.entries || s.entries[id].complete || !Owns(i, s.entries[id]))
            && (r == NotUploaded <==> id in s.entries && !s.entries[id].complete && Owns(i, s.entries[id]) && id !in s.blobs)
            && (r == SizeMismatch <==>
                  && id in s.entries && !s.entries[id].complete && Owns(i, s.entries[id]) && id in s.blobs
                  && want.Some? && want.value >= 0 && want.value != |s.blobs[id]|)
            && (r != Finalized ==> t == s)
  {
    hide Evict, Owns;
  }

  /**
   A finalized entry is complete with its blob's size; its blob and everything it was reserved as stay.
   What else goes is what an eviction then takes, and that is nothing without a size cap.
   */
  lemma FinalizeSeals(s: Store, id: Id, i: Identity, want: Option<int>, now: int)
    requires Keyed(s.entries) && Finalize(s, id, i, want, now).1 == Finalized
    ensures var t := Finalize(s, id, i, want, now).0;
            && id in t.entries && id in t.blobs && id in s.blobs && t.blobs[id] == s.blobs[id]
            && t.entries[id] == s.entries[id].(size := |s.blobs[id]|, complete := true, usedAt := now) && id !in t.staged
            && (forall k :: k in t.entries && k != id ==> k in s.entries && t.entries[k] == s.entries[k])
            && (s.maxSize <= 0 ==> forall k :: k in s.entries ==> k in t.entries)
            && t == Evict(s.(entries := s.entries[id := t.entries[id]], staged := s.staged - {id}), id).0
  {
    hide Evict, Owns;
    var u := s.(entries := s.entries[id := s.entries[id].(size := |s.blobs[id]|, complete := true, usedAt := now)], staged := s.staged - {id});
    var gone := EvictWithout(u, id);
    if s.maxSize <= 0 {
      NothingEvicted(u, id);
    }
  }

  lemma NothingEvicted(s: Store, keep: Id)
    requires Keyed(s.entries) && s.maxSize <= 0
    ensures Evict(s, keep).0 == s
  {
  }

  /** What an eviction takes was last used before whatever evictable it leaves, the lower id first among equals. */
  lemma EvictsOldest(s: Store, keep: Id) returns (gone: set<Id>)
    requires Keyed(s.entries) && 0 < s.maxSize && forall id :: id in s.staged ==> 0 <= s.staged[id]
    ensures Evict(s, keep) == (Without(s, gone), |gone|)
    ensures forall id :: id in gone ==> id in s.entries && s.entries[id].complete && id != keep
    ensures forall id, k :: id in gone && k in s.entries && k !in gone && k != keep && s.entries[k].complete ==>
                              s.entries[id].usedAt < s.entries[k].usedAt
                              || (s.entries[id].usedAt == s.entries[k].usedAt && id < k)
  {
    gone := EvictionExact(s, keep);
    var total := CompletedBytes(s.entries) + StagedBytes(s.staged);
    assert LeastRecent(s.entries, keep, gone);
    hide Evict, Without, CompletedBytes, StagedBytes, Sum, Exact;
  }

  // --- reclaiming and looking up ---

  /** The janitor takes exactly the reservations not used for half an hour, with their files, and nothing else. */
  lemma GcTakes(s: Store, now: int)
    ensures var t := Gc(s, now);
            && (forall id :: id in t.entries <==> id in s.entries && (s.entries[id].complete || s.entries[id].usedAt >= now - 1800))
            && (forall id :: id in t.entries ==> t.entries[id] == s.entries[id])
            && (forall id :: id in s.entries && id !in t.entries ==> id !in t.blobs && id !in t.blocks && id !in t.staged)
            && (forall id :: id in t.entries || id !in s.entries ==> SameFiles(s, t, id))
            && t.nextID == s.nextID
  {
  }

  /** A lookup marks the best match as used now and changes nothing else; without one it changes nothing. */
  lemma LookupTouches(s: Store, i: Identity, key: string, rks: seq<string>, version: string, now: int, r: Option<Entry>)
    requires Keyed(s.entries) && BestMatch(s.entries, i.repository, i.readRefs, Lower(key), rks, version, r)
    ensures Touch(s, i, key, rks, version, now)
            == if r.None? then s else s.(entries := s.entries[r.value.id := r.value.(usedAt := now)])
  {
    var hit := FirstHit(s.entries, Queries(i.repository, i.readRefs, Lower(key), rks, version));
    MatchMeans(s.entries, i.repository, i.readRefs, Lower(key), rks, version);
    BestMatchUnique(s.entries, i.repository, i.readRefs, Lower(key), rks, version, r, hit);
    hide BestMatch, FirstHit, Queries;
  }

  // --- uploading ---

  /** A PUT is kept exactly if its body came whole and fits; then the blob is the body, and otherwise there is none. */
  lemma PutKeeps(s: Store, id: Id, body: Option<Bytes>)
    ensures var (t, ok) := PutBlob(s, id, body);
            && (ok <==> body.Some? && (s.maxEntry <= 0 || |body.value| <= s.maxEntry))
            && (if ok then id in t.blobs && t.blobs[id] == body.value && id in t.staged && t.staged[id] == |body.value|
                else id !in t.blobs && id !in t.staged)
            && t.entries == s.entries && t.nextID == s.nextID && t.blocks == s.blocks
            && (forall k :: k != id ==> SameFiles(s, t, k))
  {
  }

  /**
   A block is kept exactly if it is named, its body came whole, and it fits what the entry has left of the
   cap; it replaces the block of that name, and other blocks stay. One that is refused is dropped.
   */
  lemma BlockKeeps(s: Store, id: Id, block: string, body: Option<Bytes>)
    ensures var (t, ok) := PutBlock(s, id, block, body);
            var used := if id in s.staged then s.staged[id] else 0;
            && (s.maxEntry > 0 && 0 <= used <= s.maxEntry ==>
                  (ok <==> block != "" && body.Some? && used + |body.value| <= s.maxEntry))
            && (s.maxEntry <= 0 ==> (ok <==> block != "" && body.Some?))
            && (ok ==> && block in BlocksOf(t, id) && BlocksOf(t, id)[block] == body.value
                       && id in t.staged && t.staged[id] == used + |body.value|)
            && (!ok && block != "" ==> block !in BlocksOf(t, id) && t.staged == s.staged)
            && (forall b :: b != block ==>
                              (b in BlocksOf(t, id) <==> b in BlocksOf(s, id))
                              && (b in BlocksOf(s, id) ==> BlocksOf(t, id)[b] == BlocksOf(s, id)[b]))
            && (block == "" ==> t == s)
            && t.entries == s.entries && t.nextID == s.nextID && t.blobs == s.blobs && forall k :: k != id ==> SameFiles(s, t, k)
  {
  }

  /** A committed list leaves no blocks and charges the whole; past the cap the blocks go and nothing is charged. */
  lemma CommitCharges(s: Store, id: Id, list: seq<string>, f: Fault)
    ensures var (t, r) := CommitBlocks(s, id, list, f);
            var whole := Flatten(PartsOf(BlocksOf(s, id), list));
            && (r.Committed? ==> id !in t.blocks && id in t.staged && t.staged[id] == |whole|)
            && (r.TooLarge? ==> id !in t.blocks && id !in t.staged && t.blobs == s.blobs)
            && (!r.Committed? && !r.TooLarge? ==> t == s)
            && t.entries == s.entries && t.nextID == s.nextID && forall k :: k != id ==> SameFiles(s, t, k)
  {
    CommitAllOrNothing(s, id, list, f);
    hide Assemble, Flatten, PartsOf;
    assert CommitBlocks(s, id, list, f).1.Committed? ==>
        CommitBlocks(s, id, list, f).0.staged[id] == |CommitBlocks(s, id, list, f).0.blobs[id]|;
  }

  // --- who is let in ---

  /**
   A blob request goes on exactly if it may: to write, for the reservation's own job under its generation;
   to read, for a completed entry of the reader's repository under a ref it may read.
   */
  lemma LetIn(ws: seq<World>, steps: seq<Step>, s: Store, k: nat)
    requires Run(ws, steps, s) && k < |steps| && steps[k].DoAuth?
    ensures var w, v, r, i := ws[k], ws[k + 1], steps[k].r, steps[k].i;
            && r in w.reqs && w.reqs[r].id in w.heap
            && (var q, e := w.reqs[r], w.heap[w.reqs[r].id];
                && (q.Found? && q.put ==>
                      (r in v.reqs && v.reqs[r] == Waiting(q.id, Upload) <==>
                         i.writeRef != "" && e.rf == i.writeRef && e.repo == i.repository
                         && e.generation == i.generation && e.jobID == i.jobID && e.runID == i.runID))
                && (q.Found? && !q.put ==>
                      (r in v.reqs && v.reqs[r] == Reading(q.id, i) <==>
                         e.complete && e.repo == i.repository && e.rf != "" && e.rf in i.readRefs)))
  {
    assert Enabled(ws[k], steps[k]) && ws[k + 1] == Do(ws[k], steps[k]);
    hide IndexStep, WriteStep, StartStep, Run;
  }
}
