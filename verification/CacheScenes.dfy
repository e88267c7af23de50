/** Runs of the cache server with one request at a time, put together from their steps. */
module CacheScenes {
  import opened Wrappers
  import opened JobIdentity
  import opened CacheStore
  import opened CacheRuns
  import opened CacheSafety
  import opened CacheSteps

  lemma Extend(ws: seq<World>, steps: seq<Step>, s: Store, st: Step)
    requires Run(ws, steps, s) && |ws| > 0 && Enabled(ws[|ws| - 1], st)
    ensures Run(ws + [Do(ws[|ws| - 1], st)], steps + [st], s)
  {
    var vs, ts := ws + [Do(ws[|ws| - 1], st)], steps + [st];
    forall k | 0 <= k < |ts| ensures Enabled(vs[k], ts[k]) && vs[k + 1] == Do(vs[k], ts[k]) {
      if k < |steps| {
        assert Enabled(ws[k], steps[k]);
      }
    }
  }

  lemma Onward(ws: seq<World>, steps: seq<Step>, s: Store, st: Step, v: World) returns (vs: seq<World>, ts: seq<Step>)
    requires Run(ws, steps, s) && |ws| > 0 && Enabled(ws[|ws| - 1], st) && v == Do(ws[|ws| - 1], st)
    ensures Run(vs, ts, s) && |vs| > 0 && vs[|vs| - 1] == v
  {
    hide Run, Enabled, Do;
    Extend(ws, steps, s, st);
    vs, ts := ws + [v], steps + [st];
  }

  // --- one request by itself ---

  /** Request 0 is the only one. */
  function Alone(w: World, q: Req): World {
    Go(w, 0, q).(holder := if Holds(q) then map[q.id := 0] else map[])
  }

  predicate InHeap(w: World) {
    forall id :: id in w.s.entries ==> id in w.heap && w.heap[id] == w.s.entries[id]
  }

  /** Nothing is going on, and `id` is a reservation of `i`. */
  predicate Unused(w: World, i: Identity, id: Id) {
    && w.reqs == map[] && w.holder == map[] && id in w.s.entries && InHeap(w)
    && w.heap[id].sig == "" && !w.heap[id].complete && Owns(i, w.heap[id])
  }

  lemma FindOne(w: World, id: Id, put: bool)
    requires Keyed(w.s.entries) && w.reqs == map[] && w.holder == map[] && id in w.s.entries && w.s.entries[id].sig == ""
    ensures Enabled(w, DoFind(0, id, "", put)) && Do(w, DoFind(0, id, "", put)) == Alone(w, Found(id, put))
  {
    hide Keyed;
  }

  // The points of an upload before it writes.

  lemma AuthOne(w: World, i: Identity, id: Id)
    requires Keyed(w.s.entries) && Unused(w, i, id)
    ensures var u := Alone(w, Found(id, true)); Enabled(u, DoAuth(0, i)) && Do(u, DoAuth(0, i)) == Alone(w, Waiting(id, Upload))
  {
    hide IndexStep, WriteStep, StartStep, Keyed, Owns, MayDownload;
  }

  lemma LockOne(w: World, id: Id, what: Purpose)
    requires Keyed(w.s.entries) && w.reqs == map[] && w.holder == map[] && id in w.heap
    ensures var u := Alone(w, Waiting(id, what)); Enabled(u, DoLock(0)) && Do(u, DoLock(0)) == Alone(w, Holding(id, what))
  {
    hide IndexStep, WriteStep, StartStep, Keyed;
  }

  lemma OwnOne(w: World, i: Identity, id: Id)
    requires Keyed(w.s.entries) && Unused(w, i, id)
    ensures var u := Alone(w, Holding(id, Upload)); Enabled(u, DoOwn(0, i)) && Do(u, DoOwn(0, i)) == Alone(w, Owned(id, i))
  {
    hide IndexStep, WriteStep, StartStep, Keyed, Owns;
  }

  lemma FreshOne(w: World, i: Identity, id: Id)
    requires Keyed(w.s.entries) && Unused(w, i, id)
    ensures var u := Alone(w, Owned(id, i)); Enabled(u, DoFresh(0)) && Do(u, DoFresh(0)) == Alone(w, Writable(id, i))
  {
    hide IndexStep, WriteStep, StartStep, Keyed, Owns;
  }

  /** An upload of the owner's gets as far as it may write. */
  lemma UploadRun(ws: seq<World>, steps: seq<Step>, s: Store, i: Identity, id: Id) returns (vs: seq<World>, ts: seq<Step>)
    requires Run(ws, steps, s) && |ws| > 0 && Keyed(ws[|ws| - 1].s.entries) && Unused(ws[|ws| - 1], i, id)
    ensures Run(vs, ts, s) && |vs| > 0 && vs[|vs| - 1] == Alone(ws[|ws| - 1], Writable(id, i))
  {
    var w := ws[|ws| - 1];
    FindOne(w, id, true);
    assert w.reqs == map[] && w.holder == map[] && id in w.heap;
    hide Run, Enabled, Do, Alone, Keyed, Unused;
    vs, ts := Onward(ws, steps, s, DoFind(0, id, "", true), Alone(w, Found(id, true)));
    AuthOne(w, i, id);
    vs, ts := Onward(vs, ts, s, DoAuth(0, i), Alone(w, Waiting(id, Upload)));
    LockOne(w, id, Upload);
    vs, ts := Onward(vs, ts, s, DoLock(0), Alone(w, Holding(id, Upload)));
    OwnOne(w, i, id);
    vs, ts := Onward(vs, ts, s, DoOwn(0, i), Alone(w, Owned(id, i)));
    FreshOne(w, i, id);
    vs, ts := Onward(vs, ts, s, DoFresh(0), Alone(w, Writable(id, i)));
  }

  // --- writing ---

  function Writing(w: World, id: Id, who: Identity, sent: Bytes): World {
    w.(reqs := map[0 := Streaming(id, who, sent)], s := w.s.(blobs := w.s.blobs[id := sent]), last := w.last - {id})
  }

  lemma StartWriting(w: World, id: Id, who: Identity)
    requires Keyed(w.s.entries) && w.reqs == map[0 := Writable(id, who)] && id in w.heap
    ensures Enabled(w, DoOpen(0)) && Do(w, DoOpen(0)) == Writing(w, id, who, [])
  {
    hide Keyed, IndexStep, PointStep, StartStep;
  }

  lemma WriteOn(w: World, id: Id, who: Identity, bytes: Bytes)
    requires Keyed(w.s.entries) && id in w.heap && Fits(w.s, |bytes|)
    ensures var u := Writing(w, id, who, []);
            Enabled(u, DoChunk(0, bytes)) && Do(u, DoChunk(0, bytes)) == Writing(w, id, who, bytes)
  {
    var u := Writing(w, id, who, []);
    assert Enabled(u, DoChunk(0, bytes)) by {
      hide Keyed;
    }
    WrittenOn(u, id, who, bytes);
    assert u.s.blobs[id := bytes] == w.s.blobs[id := bytes];
    hide Enabled, Do, Keyed;
  }

  lemma WrittenOn(u: World, id: Id, who: Identity, bytes: Bytes)
    requires u.reqs == map[0 := Streaming(id, who, [])] && id in u.s.blobs && u.s.blobs[id] == [] && Enabled(u, DoChunk(0, bytes))
    ensures Do(u, DoChunk(0, bytes))
            == u.(reqs := map[0 := Streaming(id, who, bytes)], s := u.s.(blobs := u.s.blobs[id := bytes]))
  {
    hide Keyed, IndexStep, PointStep, StartStep;
    assert [] + bytes == bytes;
    assert u.reqs[0 := Streaming(id, who, bytes)] == map[0 := Streaming(id, who, bytes)];
  }

  /** The upload is over and logged. */
  function Written(w: World, id: Id, who: Identity, bytes: Bytes): World {
    w.(reqs := map[], holder := w.holder - {id}, log := w.log + {Whole(id, who, bytes)}, last := w.last[id := Put(bytes)],
       s := w.s.(blobs := w.s.blobs[id := bytes], staged := w.s.staged[id := |bytes|]))
  }

  lemma FinishWriting(w: World, id: Id, who: Identity, bytes: Bytes)
    requires Keyed(w.s.entries) && id in w.heap
    ensures var u := Writing(w, id, who, bytes);
            && Enabled(u, DoClose(0, true))
            && Do(u, DoClose(0, true)) == Written(w, id, who, bytes)
  {
    hide Keyed, IndexStep, PointStep, StartStep;
    assert map[0 := Streaming(id, who, bytes)] - {0} == map[];
    assert (w.last - {id})[id := Put(bytes)] == w.last[id := Put(bytes)];
  }

  lemma WriteRun(ws: seq<World>, steps: seq<Step>, s: Store, id: Id, who: Identity, bytes: Bytes)
    returns (vs: seq<World>, ts: seq<Step>)
    requires Run(ws, steps, s) && |ws| > 0
    requires var w := ws[|ws| - 1];
             Keyed(w.s.entries) && w.reqs == map[0 := Writable(id, who)] && id in w.heap && Fits(w.s, |bytes|)
    ensures Run(vs, ts, s) && |vs| > 0 && vs[|vs| - 1] == Written(ws[|ws| - 1], id, who, bytes)
  {
    var w := ws[|ws| - 1];
    StartWriting(w, id, who);
    WriteOn(w, id, who, bytes);
    FinishWriting(w, id, who, bytes);
    hide Run, Enabled, Do, Keyed, Writing, Written;
    vs, ts := Onward(ws, steps, s, DoOpen(0), Writing(w, id, who, []));
    vs, ts := Onward(vs, ts, s, DoChunk(0, bytes), Writing(w, id, who, bytes));
    vs, ts := Onward(vs, ts, s, DoClose(0, true), Written(w, id, who, bytes));
  }

  // --- sealing and serving what is there ---

  /** `id` is the one reservation of `i` for a key, with a blob. */
  ghost predicate Ready(w: World, i: Identity, id: Id, key: string, version: string) {
    && Keyed(w.s.entries) && Unused(w, i, id) && id in w.s.blobs
    && Newest(w.s.entries, Query(i.repository, i.writeRef, Lower(key), version, ReservedExact)) == Some(w.s.entries[id])
  }

  /** Nothing is going on, and `id` is a completed entry that `i` may read. */
  ghost predicate Published(w: World, i: Identity, id: Id, bytes: Bytes) {
    && Keyed(w.s.entries) && w.reqs == map[] && w.holder == map[]
    && id in w.s.entries && id in w.heap && w.heap[id] == w.s.entries[id] && w.heap[id].sig == ""
    && MayDownload(i, w.heap[id]) && id in w.s.blobs && w.s.blobs[id] == bytes && w.heap[id].size == |bytes|
  }

  lemma AskOne(w: World, i: Identity, id: Id, key: string, version: string)
    requires Ready(w, i, id, key, version)
    ensures Enabled(w, DoReserved(0, i, key, version)) && Do(w, DoReserved(0, i, key, version)) == Alone(w, Waiting(id, Sealing))
  {
    hide Newest, IndexStep, WriteStep, PointStep;
  }

  /** The request names no size, or the blob's. */
  predicate Wanted(want: Option<int>, bytes: Bytes) {
    want.None? || want.value == |bytes|
  }

  /** The entry is sealed and some others may go. */
  lemma SealShape(u: World, i: Identity, id: Id, want: Option<int>) returns (gone: set<Id>)
    requires Keyed(u.s.entries) && id in u.s.entries && id in u.s.blobs && !u.s.entries[id].complete && Owns(i, u.s.entries[id])
    requires Wanted(want, u.s.blobs[id])
    requires 0 in u.reqs && u.reqs[0].id == id && InHeap(u)
    ensures id !in gone && Sealed(u, 0, i, want, 0) == Over(Shrunk(SealedNow(u, id, 0), gone), 0)
  {
    hide Evict, Owns;
    var v := SealedNow(u, id, 0);
    assert Finalize(u.s, id, i, want, 0) == (Evict(v.s, id).0, Finalized);
    gone := EvictWithout(v.s, id);
    MergeSame(v.heap, Shrunk(v, gone).s.entries);
  }

  /** A reader of the owner's repository that may read the owner's ref. */
  predicate Reader(j: Identity, i: Identity) {
    j.repository == i.repository && CanRead(j, i.writeRef)
  }

  lemma OwnersReader(i: Identity, j: Identity, e: Entry, f: Entry)
    requires Owns(i, e) && Reader(j, i) && SameEntry(e, f) && f.complete
    ensures MayDownload(j, f)
  {
  }

  lemma SealedIsPublished(w: World, i: Identity, j: Identity, id: Id, gone: set<Id>, key: string, version: string)
    requires Ready(w, i, id, key, version) && Reader(j, i) && id !in gone
    ensures var v := Over(Shrunk(SealedNow(Alone(w, Holding(id, Sealing)), id, 0), gone), 0);
            && Published(v, j, id, w.s.blobs[id]) && v.log == w.log && v.last == w.last
            && SameEntry(w.heap[id], v.heap[id]) && v.s.entries.Keys <= w.s.entries.Keys
  {
    hide Newest, Owns, IndexStep, PointStep, WriteStep, StartStep;
    var u := Alone(w, Holding(id, Sealing));
    assert u.reqs - {0} == map[] && u.holder - {id} == map[];
    assert MayDownload(j, Done(w, id, 0)) by {
      OwnersReader(i, j, w.s.entries[id], Done(w, id, 0));
    }
    hide MayDownload;
  }

  lemma SealOne(w: World, i: Identity, j: Identity, id: Id, key: string, version: string, want: Option<int>)
    requires Ready(w, i, id, key, version) && Reader(j, i) && Wanted(want, w.s.blobs[id])
    ensures var u, st := Alone(w, Holding(id, Sealing)), DoFinalize(0, i, want, 0);
            && Enabled(u, st) && Published(Do(u, st), j, id, w.s.blobs[id])
            && Do(u, st).log == w.log && Do(u, st).last == w.last
            && SameEntry(w.heap[id], Do(u, st).heap[id]) && Do(u, st).s.entries.Keys <= w.s.entries.Keys
  {
    SealsIt(w, i, id, key, version, want);
    var gone := SealShape(Alone(w, Holding(id, Sealing)), i, id, want) by {
      hide Sealed, Newest, Owns;
    }
    SealedIsPublished(w, i, j, id, gone, key, version);
    hide *;
  }

  lemma SealsIt(w: World, i: Identity, id: Id, key: string, version: string, want: Option<int>)
    requires Ready(w, i, id, key, version)
    ensures var u, st := Alone(w, Holding(id, Sealing)), DoFinalize(0, i, want, 0);
            Keyed(u.s.entries) && 0 in u.reqs && Enabled(u, st) && Do(u, st) == Sealed(u, 0, i, want, 0)
  {
    hide Sealed, Newest, Owns, WriteStep, StartStep, PointStep;
  }

  lemma ReadOne(w: World, i: Identity, id: Id, bytes: Bytes)
    requires Published(w, i, id, bytes)
    ensures var u := Alone(w, Found(id, false)); Enabled(u, DoAuth(0, i)) && Do(u, DoAuth(0, i)) == Alone(w, Reading(id, i))
  {
    hide MayDownload, Keyed, IndexStep, WriteStep, StartStep;
  }

  lemma OpenOne(w: World, i: Identity, id: Id, bytes: Bytes)
    requires Published(w, i, id, bytes)
    ensures var u := Alone(w, Reading(id, i));
            Enabled(u, DoOpenBlob(0)) && Do(u, DoOpenBlob(0)) == Alone(w, Serving(id, i, bytes))
  {
    hide MayDownload, Keyed, IndexStep, WriteStep, StartStep;
  }

  lemma ServeOne(w: World, i: Identity, id: Id, bytes: Bytes)
    requires Published(w, i, id, bytes)
    ensures var u := Alone(w, Serving(id, i, bytes));
            Enabled(u, DoServe(0)) && Do(u, DoServe(0)) == w.(served := w.served + {Answered(i, id, bytes)})
  {
    hide MayDownload, Keyed, IndexStep, WriteStep, StartStep;
    var u := Alone(w, Serving(id, i, bytes));
    assert u.reqs - {0} == map[];
  }

  /** The reservation is sealed with the blob that is there, and a reader gets it. */
  lemma PublishRun(
    ws: seq<World>, steps: seq<Step>, s: Store, i: Identity, j: Identity, id: Id, key: string, version: string, want: Option<int>)
    returns (vs: seq<World>, ts: seq<Step>)
    requires Run(ws, steps, s) && |ws| > 0 && Ready(ws[|ws| - 1], i, id, key, version) && Reader(j, i)
    requires Wanted(want, ws[|ws| - 1].s.blobs[id])
    ensures Run(vs, ts, s) && |vs| > 0
    ensures var w, v := ws[|ws| - 1], vs[|vs| - 1];
            && id in w.s.blobs && id in w.heap && Answered(j, id, w.s.blobs[id]) in v.served && Published(v, j, id, w.s.blobs[id])
            && v.log == w.log && v.last == w.last && SameEntry(w.heap[id], v.heap[id]) && v.s.entries.Keys <= w.s.entries.Keys
  {
    var w := ws[|ws| - 1];
    var bytes := w.s.blobs[id];
    AskOne(w, i, id, key, version);
    LockOne(w, id, Sealing);
    SealOne(w, i, j, id, key, version, want);
    var v := Do(Alone(w, Holding(id, Sealing)), DoFinalize(0, i, want, 0));
    FindOne(v, id, false);
    ReadOne(v, j, id, bytes);
    OpenOne(v, j, id, bytes);
    ServeOne(v, j, id, bytes);
    var end := v.(served := v.served + {Answered(j, id, bytes)});
    assert Published(end, j, id, bytes);
    hide Run, Enabled, Do, Alone, Ready, Published, SameEntry;
    vs, ts := Onward(ws, steps, s, DoReserved(0, i, key, version), Alone(w, Waiting(id, Sealing)));
    vs, ts := Onward(vs, ts, s, DoLock(0), Alone(w, Holding(id, Sealing)));
    vs, ts := Onward(vs, ts, s, DoFinalize(0, i, want, 0), v);
    vs, ts := Onward(vs, ts, s, DoFind(0, id, "", false), Alone(v, Found(id, false)));
    vs, ts := Onward(vs, ts, s, DoAuth(0, j), Alone(v, Reading(id, j)));
    vs, ts := Onward(vs, ts, s, DoOpenBlob(0), Alone(v, Serving(id, j, bytes)));
    vs, ts := Onward(vs, ts, s, DoServe(0), end);
  }
}
