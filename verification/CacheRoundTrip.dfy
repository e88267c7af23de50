/** What is uploaded can be had again: from any start, and for any key that is free. */
module CacheRoundTrip {
  import opened Wrappers
  import opened JobIdentity
  import opened CacheStore
  import opened CacheMatch
  import opened CacheRuns
  import opened CacheSafety
  import opened CacheSteps
  import opened CacheScenes
  import opened CacheEffects

  /** The key can be reserved at `now`. */
  ghost predicate Free(s: Store, i: Identity, key: string, version: string, now: int) {
    && i.writeRef != "" && key != "" && version != ""
    && !Taken(s.entries, i, Lower(key), version) && !InProgress(s.entries, i, Lower(key), version, now)
  }

  lemma ReserveStep(s: Store, i: Identity, key: string, version: string, now: int)
    requires Loaded(s) && Free(s, i, key, version, now)
    ensures var st := DoCreate(i, key, version, "", now, true);
            && Keyed(s.entries) && Enabled(Start(s), st)
            && Do(Start(s), st) == Index(Start(s), Create(s, i, Lower(key), version, "", now, true).0)
  {
    hide Create, Taken, InProgress, UniqueKeys, Lower, WriteStep, PointStep, StartStep, Keyed, Index;
  }

  lemma ReservesHere(s: Store, i: Identity, key: string, version: string, now: int)
    requires Loaded(s) && Free(s, i, key, version, now)
    ensures var t := Create(s, i, Lower(key), version, "", now, true).0;
            && Keyed(t.entries) && s.nextID in t.entries && For(t.entries[s.nextID], i, Lower(key), version)
            && t.entries[s.nextID].sig == "" && !t.entries[s.nextID].complete && Owns(i, t.entries[s.nextID])
  {
    CreateAnswers(s, i, Lower(key), version, "", now, true);
    CreateReserves(s, i, Lower(key), version, "", now);
    hide Create, Taken, InProgress, UniqueKeys, Lower;
  }

  lemma CapStays(s: Store, i: Identity, key: string, version: string, now: int)
    requires Keyed(s.entries)
    ensures Create(s, i, key, version, "", now, true).0.maxEntry == s.maxEntry
  {
    hide Newest;
  }

  lemma ReserveOne(s: Store, i: Identity, key: string, version: string, now: int) returns (w: World)
    requires Loaded(s) && Free(s, i, key, version, now)
    ensures var st := DoCreate(i, key, version, "", now, true); Enabled(Start(s), st) && w == Do(Start(s), st)
    ensures Keyed(w.s.entries) && Unused(w, i, s.nextID) && For(w.s.entries[s.nextID], i, Lower(key), version)
    ensures w.s.maxEntry == s.maxEntry && w.log == {}
  {
    ReserveStep(s, i, key, version, now);
    w := Do(Start(s), DoCreate(i, key, version, "", now, true));
    ReservesHere(s, i, key, version, now);
    CapStays(s, i, Lower(key), version, now);
    hide Do, Enabled, Create, Taken, InProgress, UniqueKeys, Lower, Keyed, Owns, For;
  }

  /** With one entry to a key, the reservation found for it is its own. */
  lemma FindsOwn(entries: map<Id, Entry>, i: Identity, key: string, version: string, id: Id)
    requires Keyed(entries) && UniqueKeys(entries) && id in entries && For(entries[id], i, key, version) && !entries[id].complete
    ensures Newest(entries, Query(i.repository, i.writeRef, key, version, ReservedExact)) == Some(entries[id])
  {
    var q := Query(i.repository, i.writeRef, key, version, ReservedExact);
    var r := Newest(entries, q);
    assert Hits(q, entries[id]);
    assert SameKey(entries[id], r.value);
  }

  lemma BecomesReady(w: World, i: Identity, id: Id, key: string, version: string, bytes: Bytes)
    requires Keyed(w.s.entries) && UniqueKeys(w.s.entries) && Unused(w, i, id) && For(w.s.entries[id], i, Lower(key), version)
    ensures var v := Written(Alone(w, Writable(id, i)), id, i, bytes);
            && v.log == w.log + {Whole(id, i, bytes)} && id in v.s.blobs && v.s.blobs[id] == bytes && v.s.entries == w.s.entries
            && v.heap == w.heap && Ready(v, i, id, key, version)
  {
    FindsOwn(w.s.entries, i, Lower(key), version, id);
    hide Newest, UniqueKeys, Owns, Lower;
  }

  lemma FirstIsBest(entries: map<Id, Entry>, i: Identity, j: Identity, key: string, version: string, rks: seq<string>, id: Id)
    requires Keyed(entries) && UniqueKeys(entries) && id in entries && For(entries[id], i, key, version) && entries[id].complete
    requires j.repository == i.repository && j.readRefs != [] && j.readRefs[0] == i.writeRef
    ensures BestMatch(entries, j.repository, j.readRefs, key, rks, version, Some(entries[id]))
  {
    var e := entries[id];
    assert FoundAt(e, j.repository, j.readRefs, key, rks, version, 0, 0);
    forall k, n, u | k in entries && FoundAt(entries[k], j.repository, j.readRefs, key, rks, version, n, u)
      ensures Beats(e, 0, 0, entries[k], n, u)
    {
      if n == 0 && u == 0 {
        assert SameKey(e, entries[k]);
      }
    }
    assert BeatsAll(entries, j.repository, j.readRefs, key, rks, version, e, 0, 0);
  }

  lemma StaysFor(e: Entry, f: Entry, i: Identity, key: string, version: string)
    requires For(e, i, key, version) && SameEntry(e, f)
    ensures For(f, i, key, version)
  {
  }

  lemma UniqueOnRun(ws: seq<World>, steps: seq<Step>, s: Store)
    requires Run(ws, steps, s) && |ws| > 0
    ensures Keyed(ws[|ws| - 1].s.entries) && UniqueKeys(ws[|ws| - 1].s.entries)
  {
    Reachable(ws, steps, s, |ws| - 1);
    hide Run, Locks, Rights, Contents, LogOk, BlocksOk, LastOk, Caps, Answers;
  }

  lemma OneStep(s: Store, st: Step) returns (ws: seq<World>, steps: seq<Step>)
    requires Loaded(s) && Enabled(Start(s), st)
    ensures Run(ws, steps, s) && |ws| > 0 && ws[|ws| - 1] == Do(Start(s), st)
  {
    ws, steps := [Start(s), Do(Start(s), st)], [st];
  }

  /**
   From any start, a job with a free key can reserve it, upload any bytes within the cap and finalize
   them; then a lookup by any job of the repository that reads that ref first finds the entry, whatever
   restore keys it names besides, and what it downloads is what was uploaded.
   */
  lemma UploadIsServed(
    s: Store, i: Identity, j: Identity, key: string, version: string, now: int, bytes: Bytes, want: Option<int>, rks: seq<string>)
    returns (ws: seq<World>, steps: seq<Step>)
    requires Loaded(s) && Free(s, i, key, version, now) && Fits(s, |bytes|) && Wanted(want, bytes)
    requires j.repository == i.repository && j.readRefs != [] && j.readRefs[0] == i.writeRef
    ensures Run(ws, steps, s) && |ws| > 0
    ensures var w, id := ws[|ws| - 1], s.nextID;
            && id in w.s.entries && For(w.s.entries[id], i, Lower(key), version)
            && BestMatch(w.s.entries, j.repository, j.readRefs, Lower(key), rks, version, Some(w.s.entries[id]))
            && Answered(j, id, bytes) in w.served
  {
    var id := s.nextID;
    var w := ReserveOne(s, i, key, version, now);
    assert Reader(j, i);
    hide Enabled, Do, Loaded, Free, Newest, BestMatch, Unused, Alone, Lower, Reader, SameEntry, Start, Ready;
    ws, steps := OneStep(s, DoCreate(i, key, version, "", now, true));
    UniqueOnRun(ws, steps, s);
    BecomesReady(w, i, id, key, version, bytes);
    AloneWritable(w, i, id);
    hide Run, Written, Keyed, UniqueKeys;
    ws, steps := UploadRun(ws, steps, s, i, id);
    ws, steps := WriteRun(ws, steps, s, id, i, bytes);
    var v := ws[|ws| - 1];
    ReadyEntry(v, i, id, key, version);
    var before := v.heap[id];
    ws, steps := PublishRun(ws, steps, s, i, j, id, key, version, want);
    UniqueOnRun(ws, steps, s);
    var u := ws[|ws| - 1];
    PublishedEntry(u, j, id, bytes);
    StaysFor(before, u.heap[id], i, Lower(key), version);
    FirstIsBest(u.s.entries, i, j, Lower(key), version, rks, id);
  }

  lemma AloneWritable(w: World, i: Identity, id: Id)
    requires Unused(w, i, id)
    ensures var u := Alone(w, Writable(id, i));
            u.reqs == map[0 := Writable(id, i)] && id in u.heap && u.s == w.s && u.heap == w.heap && u.log == w.log
    ensures id in w.s.entries && w.heap[id] == w.s.entries[id]
  {
  }

  lemma ReadyEntry(w: World, i: Identity, id: Id, key: string, version: string)
    requires Ready(w, i, id, key, version)
    ensures id in w.s.blobs && id in w.heap && id in w.s.entries && w.heap[id] == w.s.entries[id]
  {
  }

  lemma PublishedEntry(w: World, j: Identity, id: Id, bytes: Bytes)
    requires Published(w, j, id, bytes)
    ensures id in w.s.entries && id in w.heap && w.heap[id] == w.s.entries[id] && w.s.entries[id].complete
  {
  }
}
