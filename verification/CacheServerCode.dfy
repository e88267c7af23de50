/**
 The cache server as the object it is: its index and counters under one mutex, and its files.
 Ranging over a map takes the keys in any order. Each method's contract ties the new fields to the
 section's function in CacheStore.
 */
module CacheServerCode {
  import opened Wrappers
  import opened JobIdentity
  import opened CacheStore
  import opened CacheLookup
  import opened CacheEviction
  import opened CacheMatch

  class Server {
    var entries: map<Id, Entry>
    var nextID: Id
    var maxSize: int
    var maxEntry: int
    var staged: map<Id, int>
    var blobs: map<Id, Bytes>
    var blocks: map<Id, map<string, Bytes>>

    ghost function Abs(): Store
      reads this
    {
      Store(entries, nextID, maxSize, maxEntry, staged, blobs, blocks)
    }

    /** Open a store on what is on disk; the next id follows the ids the index holds. */
    constructor (loaded: map<Id, Entry>, files: map<Id, Bytes>, parts: map<Id, map<string, Bytes>>)
      ensures entries == loaded && staged == map[] && blobs == files && blocks == parts && maxSize == 0 && maxEntry == 0
      ensures Follows(loaded, nextID)
    {
      staged, blobs, blocks, maxSize, maxEntry := map[], files, parts, 0, 0;
      var have: map<Id, Entry>, next: nat := map[], 1;
      var todo := loaded.Keys;
      while todo != {}
        invariant todo <= loaded.Keys && have == loaded - todo && Follows(have, next)
        decreases todo
      {
        var id: Id :| id in todo;
        todo := todo - {id};
        have := have[id := loaded[id]];
        if id >= next {
          next := id + 1;
        }
      }
      entries, nextID := have, next;
    }

    // --- matching ---

    method Search(q: Query) returns (best: Option<Entry>)
      requires Keyed(entries)
      ensures best == Newest(entries, q)
    {
      best := None;
      var todo := entries.Keys;
      while todo != {}
        invariant todo <= entries.Keys
        invariant IsNewest(entries - todo, q, best)
        decreases todo
      {
        var id: Id :| id in todo;
        var e := entries[id];
        SearchMore(entries, todo, id, q, best);
        todo := todo - {id};
        if Hits(q, e) && Newer(best, e) {
          best := Some(e);
        }
      }
      assert entries - {} == entries;
      NewestUnique(entries, q, best, Newest(entries, q));
    }

    method MatchRestoreKeys(repo: string, rf: string, restoreKeys: seq<string>, version: string) returns (r: Option<Entry>)
      requires Keyed(entries)
      ensures r == FirstHit(entries, RestoreQueries(repo, rf, restoreKeys, version))
    {
      var i := 0;
      while i < |restoreKeys|
        invariant 0 <= i <= |restoreKeys|
        invariant FirstHit(entries, RestoreQueries(repo, rf, restoreKeys, version))
                  == FirstHit(entries, RestoreQueries(repo, rf, restoreKeys[i..], version))
      {
        var rk := Lower(restoreKeys[i]);
        ghost var rest := restoreKeys[i..];
        assert rest[0] == restoreKeys[i] && rest[1..] == restoreKeys[i + 1..];
        ghost var two := [Query(repo, rf, rk, version, CompleteExact), Query(repo, rf, rk, version, CompletePrefix)];
        FirstHitConcat(entries, two, RestoreQueries(repo, rf, rest[1..], version));
        FirstOfTwo(entries, two[0], two[1]);
        var e := Search(Query(repo, rf, rk, version, CompleteExact));
        if e.Some? {
          return e;
        }
        e := Search(Query(repo, rf, rk, version, CompletePrefix));
        if e.Some? {
          return e;
        }
        i := i + 1;
      }
      return None;
    }

    method MatchScope(repo: string, rf: string, key: string, restoreKeys: seq<string>, version: string)
      returns (r: Option<Entry>)
      requires Keyed(entries)
      ensures r == FirstHit(entries, ScopeQueries(repo, rf, key, restoreKeys, version))
      ensures BestMatch(entries, repo, [rf], key, restoreKeys, version, r)
    {
      ScopeMeans(entries, repo, rf, key, restoreKeys, version);
      hide BestMatch;
      ghost var exact := [Query(repo, rf, key, version, CompleteExact)];
      ghost var prefix := if key != "" then [Query(repo, rf, key, version, CompletePrefix)] else [];
      ghost var rest := RestoreQueries(repo, rf, restoreKeys, version);
      FirstHitConcat(entries, exact + prefix, rest);
      FirstHitConcat(entries, exact, prefix);
      FirstOfOne(entries, exact[0]);
      r := Search(Query(repo, rf, key, version, CompleteExact));
      if r.Some? {
        return;
      }
      if key != "" {
        FirstOfOne(entries, Query(repo, rf, key, version, CompletePrefix));
        r := Search(Query(repo, rf, key, version, CompletePrefix));
        if r.Some? {
          return;
        }
      }
      r := MatchRestoreKeys(repo, rf, restoreKeys, version);
    }

    method Match(repo: string, refs: seq<string>, key: string, restoreKeys: seq<string>, version: string)
      returns (r: Option<Entry>)
      requires Keyed(entries)
      ensures r == FirstHit(entries, Queries(repo, refs, key, restoreKeys, version))
      ensures BestMatch(entries, repo, refs, key, restoreKeys, version, r)
    {
      MatchMeans(entries, repo, refs, key, restoreKeys, version);
      hide BestMatch;
      var i := 0;
      while i < |refs|
        invariant 0 <= i <= |refs|
        invariant FirstHit(entries, Queries(repo, refs, key, restoreKeys, version))
                  == FirstHit(entries, Queries(repo, refs[i..], key, restoreKeys, version))
      {
        assert refs[i..][1..] == refs[i + 1..];
        FirstHitConcat(entries, ScopeQueries(repo, refs[i], key, restoreKeys, version),
                       Queries(repo, refs[i + 1..], key, restoreKeys, version));
        r := MatchScope(repo, refs[i], key, restoreKeys, version);
        if r.Some? {
          return;
        }
        i := i + 1;
      }
      return None;
    }

    // --- reserving ---

    method CreateEntry(i: Identity, key: string, version: string, sig: string, now: int, saved: bool)
      returns (r: CreateResult)
      requires Keyed(entries)
      modifies this
      ensures (Abs(), r) == Create(old(Abs()), i, key, version, sig, now, saved)
    {
      if i.writeRef == "" {
        return Refused(NoScope);
      }
      var e := Search(Query(i.repository, i.writeRef, key, version, AnyExact));
      if e.Some? {
        if e.value.complete {
          return Refused(Exists);
        }
        if e.value.usedAt >= now - MAX_INCOMPLETE_AGE {
          return Refused(BeingCreated);
        }
        RemoveEntry(e.value.id);
      }
      var id := nextID;
      nextID := nextID + 1;
      ghost var had := entries;
      entries := entries[id := Entry(id, sig, i.repository, i.writeRef, i.generation, i.jobID, i.runID, key, version,
                                     -1, false, now, now)];
      if !saved {
        assert entries - {id} == had - {id};
        entries := entries - {id};
        return Refused(SaveFailed);
      }
      return Reserved(id);
    }

    // --- eviction ---

    method TotalBytes() returns (total: int)
      ensures total == CompletedBytes(entries) + StagedBytes(staged)
    {
      total := 0;
      var todo := entries.Keys;
      assert CompleteIds(entries) * todo == CompleteIds(entries);
      while todo != {}
        invariant todo <= entries.Keys
        invariant total + Sum(CompleteIds(entries) * todo, Sizes(entries)) == CompletedBytes(entries)
        decreases todo
      {
        var id: Id :| id in todo;
        CompleteMore(entries, todo, id);
        if entries[id].complete {
          total := total + entries[id].size;
        }
        todo := todo - {id};
      }
      todo := staged.Keys;
      while todo != {}
        invariant todo <= staged.Keys
        invariant total + Sum(todo, staged) == CompletedBytes(entries) + StagedBytes(staged)
        decreases todo
      {
        var id: Id :| id in todo;
        SumPick(todo, staged, id);
        total := total + staged[id];
        todo := todo - {id};
      }
    }

    method FindVictim(keep: Id) returns (victim: Option<Entry>)
      requires Keyed(entries)
      ensures victim == Victim(entries, keep)
    {
      victim := None;
      var todo := entries.Keys;
      while todo != {}
        invariant todo <= entries.Keys
        invariant IsVictim(entries - todo, keep, victim)
        decreases todo
      {
        var id: Id :| id in todo;
        var e := entries[id];
        VictimMore(entries, todo, id, keep, victim);
        todo := todo - {id};
        if !e.complete || e.id == keep {
          continue;
        }
        if victim.None? || LessRecentlyUsed(e, victim.value) {
          victim := Some(e);
        }
      }
      assert entries - {} == entries;
      VictimUnique(entries, keep, victim, Victim(entries, keep));
    }

    /** An entry's blob, staged blocks and record go together. */
    method RemoveEntry(id: Id)
      modifies this
      ensures Abs() == Forget(old(Abs()), id)
    {
      blobs := blobs - {id};
      blocks := blocks - {id};
      entries := entries - {id};
      staged := staged - {id};
    }

    method EvictLRU(keep: Id) returns (evicted: nat)
      requires Keyed(entries)
      modifies this
      ensures (Abs(), evicted) == Evict(old(Abs()), keep)
    {
      hide EvictFrom, Victim, IsVictim, Keyed, Forget, CompletedBytes, StagedBytes, Sum, Evictable;
      evicted := 0;
      if maxSize <= 0 {
        return;
      }
      var total := TotalBytes();
      ghost var s0, total0 := Abs(), total;
      while total > maxSize
        invariant Keyed(Abs().entries)
        invariant EvictFrom(s0, total0, keep).0 == EvictFrom(Abs(), total, keep).0
        invariant EvictFrom(s0, total0, keep).1 == evicted + EvictFrom(Abs(), total, keep).1
        decreases |Abs().entries|
      {
        var victim := FindVictim(keep);
        if victim.None? {
          NoneLeft(Abs(), total, keep);
          return;
        }
        VictimHere(Abs(), keep, victim.value);
        VictimFirst(Abs(), total, keep, victim.value);
        total := total - victim.value.size;
        RemoveEntry(victim.value.id);
        evicted := evicted + 1;
      }
      NoneLeft(Abs(), total, keep);
    }

    // --- finalizing and reclaiming ---

    method FinalizeEntry(id: Id, i: Identity, want: Option<int>, now: int) returns (r: FinalizeResult)
      requires Keyed(entries)
      modifies this
      ensures (Abs(), r) == Finalize(old(Abs()), id, i, want, now)
    {
      if id !in entries || entries[id].complete || !Owns(i, entries[id]) {
        return Expired;
      }
      if id !in blobs {
        return NotUploaded;
      }
      if want.Some? && want.value >= 0 && want.value != |blobs[id]| {
        return SizeMismatch;
      }
      entries := entries[id := entries[id].(size := |blobs[id]|, complete := true, usedAt := now)];
      staged := staged - {id};
      var evicted := EvictLRU(id);
      return Finalized;
    }

    method Reclaim(now: int)
      modifies this
      ensures Abs() == Gc(old(Abs()), now)
    {
      var cutoff := now - MAX_INCOMPLETE_AGE;
      var todo := entries.Keys;
      ghost var s0 := Abs();
      ghost var done: set<Id> := {};
      while todo != {}
        invariant done + todo == s0.entries.Keys && done !! todo
        invariant Abs() == Without(s0, AbandonedIds(s0.entries, cutoff) * done)
        decreases todo
      {
        var id: Id :| id in todo;
        var e := entries[id];
        todo := todo - {id};
        ghost var before := AbandonedIds(s0.entries, cutoff) * done;
        done := done + {id};
        if !e.complete && e.usedAt < cutoff {
          assert AbandonedIds(s0.entries, cutoff) * done == before + {id};
          TakenOneByOne(s0, before, id);
          RemoveEntry(id);
        } else {
          assert AbandonedIds(s0.entries, cutoff) * done == before;
        }
      }
      assert AbandonedIds(s0.entries, cutoff) * done == AbandonedIds(s0.entries, cutoff);
    }

    // --- uploading ---

    /** Truncate the blob and append a body as it arrives, up to the per-entry cap. */
    method WriteBlob(id: Id, chunks: seq<Bytes>) returns (ok: bool)
      modifies this`blobs
      ensures id in blobs && blobs == old(blobs)[id := blobs[id]]
      ensures ok <==> Fits(Abs(), |Flatten(chunks)|) || chunks == []
      ensures ok ==> blobs[id] == Flatten(chunks)
    {
      blobs := blobs[id := []];
      var i := 0;
      while i < |chunks|
        invariant 0 <= i <= |chunks|
        invariant id in blobs && blobs == old(blobs)[id := blobs[id]]
        invariant blobs[id] + Flatten(chunks[i..]) == Flatten(chunks)
        invariant 0 < i ==> Fits(Abs(), |blobs[id]|)
      {
        assert chunks[i..][1..] == chunks[i + 1..];
        assert blobs[id] + chunks[i] + Flatten(chunks[i + 1..]) == Flatten(chunks);
        if maxEntry > 0 && |blobs[id]| + |chunks[i]| > maxEntry {
          return false;
        }
        blobs := blobs[id := blobs[id] + chunks[i]];
        i := i + 1;
      }
      assert blobs[id] + [] == blobs[id];
      return true;
    }

    /** A PUT's body as it arrives, `broken` if it ends in an error. */
    method UploadSingle(id: Id, chunks: seq<Bytes>, broken: bool) returns (ok: bool)
      modifies this
      ensures (Abs(), ok) == PutBlob(old(Abs()), id, if broken then None else Some(Flatten(chunks)))
    {
      ok := WriteBlob(id, chunks);
      assert blobs - {id} == old(blobs) - {id};
      if !ok || broken {
        blobs := blobs - {id};
        staged := staged - {id};
        return false;
      }
      staged := staged[id := |blobs[id]|];
    }

    /** Blocks concatenated into a file of their own, which takes the blob's name only when it is whole. */
    method CommitBlockList(id: Id, list: seq<string>, f: Fault) returns (r: CommitResult)
      modifies this
      ensures (Abs(), r) == CommitBlocks(old(Abs()), id, list, f)
    {
      if list == [] {
        return EmptyList;
      }
      if f.AtOpen? {
        return Broken;
      }
      var left := f;
      var dir := if id in blocks then blocks[id] else map[];
      var out: Bytes := [];
      var i := 0;
      while i < |list|
        invariant 0 <= i <= |list|
        invariant Abs() == old(Abs()) && dir == BlocksOf(old(Abs()), id)
        invariant Assemble(dir, list, maxEntry, [], f) == Assemble(dir, list[i..], maxEntry, out, left)
      {
        assert list[i..][0] == list[i] && list[i..][1..] == list[i + 1..];
        if list[i] !in dir {
          return MissingBlock;
        }
        if left == After(0) {
          return Broken;
        }
        out := out + dir[list[i]];
        if maxEntry > 0 && |out| > maxEntry {
          blocks := blocks - {id};
          staged := staged - {id};
          return TooLarge;
        }
        i, left := i + 1, NextFault(left);
      }
      if !left.Fine? {
        return Broken;
      }
      blobs := blobs[id := out];
      blocks := blocks - {id};
      staged := staged[id := |out|];
      return Committed;
    }

    method UploadBlock(id: Id, block: string, body: Option<Bytes>) returns (ok: bool)
      modifies this
      ensures (Abs(), ok) == PutBlock(old(Abs()), id, block, body)
    {
      if block == "" {
        return false;
      }
      var dir := if id in blocks then blocks[id] else map[];
      var used := if id in staged then staged[id] else 0;
      var remaining := maxEntry - used;
      if remaining < 0 {
        remaining := 0;
      }
      if body.None? || (maxEntry > 0 && |body.value| > remaining) {
        blocks := blocks[id := dir - {block}];
        return false;
      }
      blocks := blocks[id := dir[block := body.value]];
      staged := staged[id := used + |body.value|];
      return true;
    }
  }

  lemma SearchMore(entries: map<Id, Entry>, todo: set<Id>, id: Id, q: Query, best: Option<Entry>)
    requires Keyed(entries) && id in todo && todo <= entries.Keys && IsNewest(entries - todo, q, best)
    ensures var e := entries[id];
            IsNewest(entries - (todo - {id}), q, if Hits(q, e) && Newer(best, e) then Some(e) else best)
  {
    var more := entries - (todo - {id});
    assert forall k :: k in more <==> k in entries - todo || k == id;
  }

  lemma VictimMore(entries: map<Id, Entry>, todo: set<Id>, id: Id, keep: Id, v: Option<Entry>)
    requires Keyed(entries) && id in todo && todo <= entries.Keys && IsVictim(entries - todo, keep, v)
    ensures var e := entries[id];
            IsVictim(entries - (todo - {id}), keep,
                     if Evictable(e, keep) && (v.None? || LessRecentlyUsed(e, v.value)) then Some(e) else v)
  {
    var more := entries - (todo - {id});
    assert forall k :: k in more <==> k in entries - todo || k == id;
  }

  lemma CompleteMore(entries: map<Id, Entry>, todo: set<Id>, id: Id)
    requires id in todo && todo <= entries.Keys
    ensures Sum(CompleteIds(entries) * todo, Sizes(entries))
            == (if entries[id].complete then entries[id].size else 0) + Sum(CompleteIds(entries) * (todo - {id}), Sizes(entries))
  {
    if entries[id].complete {
      SumPick(CompleteIds(entries) * todo, Sizes(entries), id);
      assert CompleteIds(entries) * (todo - {id}) == CompleteIds(entries) * todo - {id};
    } else {
      assert CompleteIds(entries) * (todo - {id}) == CompleteIds(entries) * todo;
    }
  }

  lemma NoneLeft(s: Store, total: int, keep: Id)
    requires Keyed(s.entries) && (total <= s.maxSize || Victim(s.entries, keep).None?)
    ensures EvictFrom(s, total, keep) == (s, 0)
  {
  }

  lemma TakenOneByOne(s: Store, gone: set<Id>, id: Id)
    ensures Forget(Without(s, gone), id) == Without(s, gone + {id})
  {
    assert s.entries - gone - {id} == s.entries - (gone + {id});
    assert s.staged - gone - {id} == s.staged - (gone + {id});
    assert s.blobs - gone - {id} == s.blobs - (gone + {id});
    assert s.blocks - gone - {id} == s.blocks - (gone + {id});
  }

  lemma FirstOfOne(entries: map<Id, Entry>, q: Query)
    requires Keyed(entries)
    ensures FirstHit(entries, [q]) == Newest(entries, q)
  {
    assert FirstHit(entries, [q][1..]) == None;
  }

  lemma FirstOfTwo(entries: map<Id, Entry>, q: Query, p: Query)
    requires Keyed(entries)
    ensures FirstHit(entries, [q, p]) == if Newest(entries, q).Some? then Newest(entries, q) else Newest(entries, p)
  {
    assert [q, p][1..] == [p];
    FirstOfOne(entries, p);
  }
}
