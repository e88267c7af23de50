/** Eviction under the size cap removes the least recently used completed entries, and no more of them than it must. */
module CacheEviction {
  import opened Wrappers
  import opened CacheStore

  lemma {:induction false} SumPick(s: set<Id>, f: map<Id, int>, x: Id)
    requires s <= f.Keys && x in s
    ensures Sum(s, f) == f[x] + Sum(s - {x}, f)
    decreases |s|
  {
    var y :| y in s && Sum(s, f) == f[y] + Sum(s - {y}, f);
    if y != x {
      SumPick(s - {y}, f, x);
      SumPick(s - {x}, f, y);
      assert s - {y} - {x} == s - {x} - {y};
    }
  }

  lemma {:induction false} SumSame(s: set<Id>, f: map<Id, int>, g: map<Id, int>)
    requires s <= f.Keys && s <= g.Keys && forall x :: x in s ==> f[x] == g[x]
    ensures Sum(s, f) == Sum(s, g)
    decreases |s|
  {
    if s != {} {
      var x :| x in s;
      SumPick(s, f, x);
      SumPick(s, g, x);
      SumSame(s - {x}, f, g);
    }
  }

  lemma {:induction false} SumNat(s: set<Id>, f: map<Id, int>)
    requires s <= f.Keys && forall x :: x in s ==> 0 <= f[x]
    ensures 0 <= Sum(s, f)
    decreases |s|
  {
    if s != {} {
      var x :| x in s;
      SumPick(s, f, x);
      SumNat(s - {x}, f);
    }
  }

  /** Removing one entry takes its size off the completed bytes. */
  lemma ForgetBytes(entries: map<Id, Entry>, id: Id)
    requires Keyed(entries) && id in entries && entries[id].complete
    ensures CompletedBytes(entries - {id}) == CompletedBytes(entries) - entries[id].size
  {
    var rest := entries - {id};
    assert CompleteIds(rest) == CompleteIds(entries) - {id};
    SumPick(CompleteIds(entries), Sizes(entries), id);
    SumSame(CompleteIds(rest), Sizes(rest), Sizes(entries));
  }

  // --- what an eviction should take ---

  /** Only evictable entries, and a prefix of those in the order of last use. */
  ghost predicate LeastRecent(entries: map<Id, Entry>, keep: Id, gone: set<Id>) {
    && gone <= entries.Keys
    && (forall id :: id in gone ==> Evictable(entries[id], keep))
    && (forall id, k :: id in gone && k in entries && k !in gone && Evictable(entries[k], keep) ==>
                          LessRecentlyUsed(entries[id], entries[k]))
  }

  /** What is left fits the cap, or nothing evictable is left. */
  ghost predicate Enough(entries: map<Id, Entry>, total: int, cap: int, keep: Id, gone: set<Id>)
    requires gone <= entries.Keys
  {
    total - Sum(gone, Sizes(entries)) <= cap
    || forall k :: k in entries && k !in gone ==> !Evictable(entries[k], keep)
  }

  predicate IsLast(entries: map<Id, Entry>, gone: set<Id>, id: Id)
    requires gone <= entries.Keys
  {
    id in gone && forall k :: k in gone && k != id ==> LessRecentlyUsed(entries[k], entries[id])
  }

  /** Without the last one taken the total was still over the cap. */
  ghost predicate NoMore(entries: map<Id, Entry>, total: int, cap: int, gone: set<Id>)
    requires gone <= entries.Keys
  {
    forall id :: IsLast(entries, gone, id) ==> total - Sum(gone - {id}, Sizes(entries)) > cap
  }

  ghost predicate Exact(entries: map<Id, Entry>, total: int, cap: int, keep: Id, gone: set<Id>) {
    LeastRecent(entries, keep, gone) && Enough(entries, total, cap, keep, gone) && NoMore(entries, total, cap, gone)
  }

  /** Every trace of some entries removed. */
  function Without(s: Store, gone: set<Id>): Store {
    s.(entries := s.entries - gone, staged := s.staged - gone, blobs := s.blobs - gone, blocks := s.blocks - gone)
  }

  lemma WithoutMore(s: Store, id: Id, later: set<Id>)
    ensures Without(Forget(s, id), later) == Without(s, later + {id})
  {
    assert s.entries - {id} - later == s.entries - (later + {id});
    assert s.staged - {id} - later == s.staged - (later + {id});
    assert s.blobs - {id} - later == s.blobs - (later + {id});
    assert s.blocks - {id} - later == s.blocks - (later + {id});
  }

  lemma WithoutNone(s: Store)
    ensures Without(s, {}) == s
  {
    assert s.entries - {} == s.entries && s.staged - {} == s.staged && s.blobs - {} == s.blobs && s.blocks - {} == s.blocks;
  }

  // --- one victim before the rest ---

  lemma OneMoreRecent(entries: map<Id, Entry>, keep: Id, v: Entry, later: set<Id>)
    requires Keyed(entries) && IsVictim(entries, keep, Some(v)) && LeastRecent(entries - {v.id}, keep, later)
    ensures LeastRecent(entries, keep, later + {v.id})
  {
    var rest := entries - {v.id};
    assert rest.Keys == entries.Keys - {v.id};
    forall id, k | id in later + {v.id} && k in entries && k !in later + {v.id} && Evictable(entries[k], keep)
      ensures LessRecentlyUsed(entries[id], entries[k])
    {
      assert k in rest;
    }
  }

  lemma OneMoreSum(entries: map<Id, Entry>, id: Id, later: set<Id>)
    requires id in entries && later <= entries.Keys - {id}
    ensures Sum(later + {id}, Sizes(entries)) == entries[id].size + Sum(later, Sizes(entries - {id}))
  {
    SumPick(later + {id}, Sizes(entries), id);
    assert later + {id} - {id} == later;
    SumSame(later, Sizes(entries), Sizes(entries - {id}));
  }

  lemma OneMoreEnough(entries: map<Id, Entry>, total: int, cap: int, keep: Id, v: Entry, later: set<Id>)
    requires Keyed(entries) && IsVictim(entries, keep, Some(v)) && later <= entries.Keys - {v.id}
    requires Enough(entries - {v.id}, total - v.size, cap, keep, later)
    ensures Enough(entries, total, cap, keep, later + {v.id})
  {
    OneMoreSum(entries, v.id, later);
  }

  lemma OneMoreNoMore(entries: map<Id, Entry>, total: int, cap: int, keep: Id, v: Entry, later: set<Id>, id: Id)
    requires Keyed(entries) && IsVictim(entries, keep, Some(v)) && LeastRecent(entries - {v.id}, keep, later)
    requires NoMore(entries - {v.id}, total - v.size, cap, later) && total > cap
    requires IsLast(entries, later + {v.id}, id)
    ensures total - Sum(later + {v.id} - {id}, Sizes(entries)) > cap
  {
    var rest := entries - {v.id};
    if id == v.id {
      assert later == {} by {
        if k :| k in later {
          assert false;
        }
      }
      assert later + {v.id} - {id} == {};
    } else {
      assert IsLast(rest, later, id) by {
        forall k | k in later && k != id ensures LessRecentlyUsed(rest[k], rest[id]) {
          assert k in later + {v.id};
        }
      }
      OneMoreSum(entries, v.id, later - {id});
      assert later + {v.id} - {id} == later - {id} + {v.id};
    }
  }

  lemma OneMoreExact(entries: map<Id, Entry>, total: int, cap: int, keep: Id, v: Entry, later: set<Id>)
    requires Keyed(entries) && IsVictim(entries, keep, Some(v)) && total > cap
    requires Exact(entries - {v.id}, total - v.size, cap, keep, later)
    ensures Exact(entries, total, cap, keep, later + {v.id})
  {
    hide LeastRecent, Enough, IsVictim, Evictable, LessRecentlyUsed, Sum;
    assert later <= (entries - {v.id}).Keys <= entries.Keys - {v.id} by {
      LaterKeys(entries, keep, v.id, later);
    }
    OneMoreRecent(entries, keep, v, later);
    OneMoreEnough(entries, total, cap, keep, v, later);
    forall id | IsLast(entries, later + {v.id}, id)
      ensures total - Sum(later + {v.id} - {id}, Sizes(entries)) > cap
    {
      OneMoreNoMore(entries, total, cap, keep, v, later, id);
    }
  }

  lemma LaterKeys(entries: map<Id, Entry>, keep: Id, id: Id, later: set<Id>)
    requires LeastRecent(entries - {id}, keep, later)
    ensures later <= (entries - {id}).Keys <= entries.Keys - {id}
  {
  }

  lemma NothingExact(entries: map<Id, Entry>, total: int, cap: int, keep: Id)
    requires Keyed(entries) && (total <= cap || Victim(entries, keep).None?)
    ensures Exact(entries, total, cap, keep, {})
  {
    assert Sum({}, Sizes(entries)) == 0;
    var v := Victim(entries, keep);
    assert IsVictim(entries, keep, v);
  }

  lemma VictimHere(s: Store, keep: Id, v: Entry)
    requires Keyed(s.entries) && Victim(s.entries, keep) == Some(v)
    ensures IsVictim(s.entries, keep, Some(v)) && v.id in s.entries
    ensures var u := Forget(s, v.id);
            u.entries == s.entries - {v.id} && u.maxSize == s.maxSize && Keyed(u.entries) && |u.entries| < |s.entries|
  {
    assert (s.entries - {v.id}).Keys == s.entries.Keys - {v.id};
  }

  lemma VictimFirst(s: Store, total: int, keep: Id, v: Entry)
    requires Keyed(s.entries) && total > s.maxSize && Victim(s.entries, keep) == Some(v)
    requires Keyed(s.entries - {v.id})
    ensures var r := EvictFrom(Forget(s, v.id), total - v.size, keep); EvictFrom(s, total, keep) == (r.0, r.1 + 1)
  {
    hide Victim, IsVictim, Keyed;
  }

  lemma NoVictim(s: Store, total: int, keep: Id)
    requires Keyed(s.entries) && (total <= s.maxSize || Victim(s.entries, keep).None?)
    ensures Exact(s.entries, total, s.maxSize, keep, {}) && EvictFrom(s, total, keep) == (Without(s, {}), 0)
  {
    NothingExact(s.entries, total, s.maxSize, keep);
    WithoutNone(s);
  }

  lemma EvictOneMore(s: Store, total: int, keep: Id, v: Entry, later: set<Id>)
    requires Keyed(s.entries) && total > s.maxSize && Victim(s.entries, keep) == Some(v)
    requires Keyed(s.entries - {v.id})
    requires Exact(s.entries - {v.id}, total - v.size, s.maxSize, keep, later)
    requires EvictFrom(Forget(s, v.id), total - v.size, keep) == (Without(Forget(s, v.id), later), |later|)
    ensures Exact(s.entries, total, s.maxSize, keep, later + {v.id})
    ensures EvictFrom(s, total, keep) == (Without(s, later + {v.id}), |later + {v.id}|)
  {
    hide Exact, IsVictim, Without, EvictFrom, Victim, Keyed, Forget;
    VictimHere(s, keep, v);
    VictimFirst(s, total, keep, v);
    OneMoreExact(s.entries, total, s.maxSize, keep, v, later);
    WithoutMore(s, v.id, later);
    ExactKeys(s.entries - {v.id}, total - v.size, s.maxSize, keep, later);
  }

  /** What the eviction loop takes is exact. */
  lemma {:induction false} EvictFromExact(s: Store, total: int, keep: Id) returns (gone: set<Id>)
    requires Keyed(s.entries)
    ensures Exact(s.entries, total, s.maxSize, keep, gone)
    ensures EvictFrom(s, total, keep) == (Without(s, gone), |gone|)
    decreases |s.entries|
  {
    hide Exact, IsVictim, Without, EvictFrom, Victim, Keyed, Forget;
    var v := Victim(s.entries, keep);
    if total <= s.maxSize || v.None? {
      gone := {};
      NoVictim(s, total, keep);
    } else {
      VictimHere(s, keep, v.value);
      var later := EvictFromExact(Forget(s, v.value.id), total - v.value.size, keep);
      EvictOneMore(s, total, keep, v.value, later);
      gone := later + {v.value.id};
    }
  }

  lemma ExactKeys(entries: map<Id, Entry>, total: int, cap: int, keep: Id, gone: set<Id>)
    requires Exact(entries, total, cap, keep, gone)
    ensures gone <= entries.Keys && forall id :: id in gone ==> entries[id].complete && entries[id].id != keep
  {
  }

  /**
   An eviction ends with the completed and staged bytes within the cap, or with nothing evictable;
   it took exactly the least recently used prefix that had to go, never the kept entry.
   */
  lemma EvictionExact(s: Store, keep: Id) returns (gone: set<Id>)
    requires Keyed(s.entries) && 0 < s.maxSize
    requires forall id :: id in s.staged ==> 0 <= s.staged[id]
    ensures Exact(s.entries, CompletedBytes(s.entries) + StagedBytes(s.staged), s.maxSize, keep, gone)
    ensures Evict(s, keep) == (Without(s, gone), |gone|) && keep !in gone
    ensures var t := Evict(s, keep).0;
            CompletedBytes(t.entries) + StagedBytes(t.staged) <= s.maxSize
            || forall k :: k in t.entries ==> !Evictable(t.entries[k], keep)
  {
    hide Sum, Sizes, CompleteIds, NoMore, LeastRecent, EvictFrom;
    var total := CompletedBytes(s.entries) + StagedBytes(s.staged);
    gone := EvictFromExact(s, total, keep);
    ExactKeys(s.entries, total, s.maxSize, keep, gone);
    GoneBytes(s.entries, gone);
    StagedShrinks(s.staged, gone);
  }

  lemma {:induction false} GoneBytes(entries: map<Id, Entry>, gone: set<Id>)
    requires Keyed(entries) && forall id :: id in gone ==> id in entries && entries[id].complete
    ensures CompletedBytes(entries - gone) == CompletedBytes(entries) - Sum(gone, Sizes(entries))
    decreases |gone|
  {
    if gone == {} {
      assert entries - gone == entries;
    } else {
      var id :| id in gone;
      var rest := entries - {id};
      ForgetBytes(entries, id);
      GoneBytes(rest, gone - {id});
      assert rest - (gone - {id}) == entries - gone;
      SumPick(gone, Sizes(entries), id);
      SumSame(gone - {id}, Sizes(rest), Sizes(entries));
    }
  }

  lemma StagedShrinks(staged: map<Id, int>, gone: set<Id>)
    requires forall id :: id in staged ==> 0 <= staged[id]
    ensures StagedBytes(staged - gone) <= StagedBytes(staged)
  {
    var rest := staged - gone;
    SumSame(rest.Keys, rest, staged);
    SumMore(rest.Keys, staged.Keys, staged);
  }

  /**
   What is evicted does not depend on the order the index is walked in: the least recently used
   prefix that is enough, and no more than enough, is the only one.
   */
  lemma EvictionUnique(entries: map<Id, Entry>, total: int, cap: int, keep: Id, a: set<Id>, b: set<Id>)
    requires Keyed(entries) && Exact(entries, total, cap, keep, a) && Exact(entries, total, cap, keep, b)
    requires forall id :: id in entries && entries[id].complete ==> 0 <= entries[id].size
    ensures a == b
  {
    EvictionNested(entries, total, cap, keep, a, b);
    EvictionNested(entries, total, cap, keep, b, a);
  }

  /** Of two such prefixes one holds the other. */
  lemma PrefixesNest(entries: map<Id, Entry>, keep: Id, a: set<Id>, b: set<Id>, x: Id)
    requires Keyed(entries) && LeastRecent(entries, keep, a) && LeastRecent(entries, keep, b) && x in b && x !in a
    ensures a <= b
  {
    forall y | y in a ensures y in b {
      if y !in b {
        assert false;
      }
    }
  }

  lemma EvictionNested(entries: map<Id, Entry>, total: int, cap: int, keep: Id, a: set<Id>, b: set<Id>)
    requires Keyed(entries) && Exact(entries, total, cap, keep, a) && Exact(entries, total, cap, keep, b)
    requires forall id :: id in entries && entries[id].complete ==> 0 <= entries[id].size
    ensures b <= a
  {
    if x :| x in b && x !in a {
      PrefixesNest(entries, keep, a, b, x);
      var last := LastUsed(entries, b);
      LastLeft(entries, keep, a, b, x, last);
      ExactKeys(entries, total, cap, keep, b);
      hide LeastRecent, Keyed, Sum, Evictable, LessRecentlyUsed;
      SumMore(a, b - {last}, Sizes(entries));
      NotEnough(entries, total, cap, keep, a, b, x);
      assert false;
    }
  }

  lemma LastLeft(entries: map<Id, Entry>, keep: Id, a: set<Id>, b: set<Id>, x: Id, last: Id)
    requires Keyed(entries) && LeastRecent(entries, keep, a) && LeastRecent(entries, keep, b)
    requires x in b && x !in a && IsLast(entries, b, last)
    ensures last !in a
  {
    if last in a {
      assert false;
    }
  }

  lemma NotEnough(entries: map<Id, Entry>, total: int, cap: int, keep: Id, a: set<Id>, b: set<Id>, x: Id)
    requires LeastRecent(entries, keep, b) && a <= entries.Keys && Enough(entries, total, cap, keep, a) && x in b && x !in a
    ensures total - Sum(a, Sizes(entries)) <= cap
  {
    assert Evictable(entries[x], keep);
  }

  lemma {:induction false} SumMore(a: set<Id>, b: set<Id>, f: map<Id, int>)
    requires a <= b <= f.Keys && forall x :: x in b ==> 0 <= f[x]
    ensures Sum(a, f) <= Sum(b, f)
    decreases |b|
  {
    if a != b {
      var x :| x in b && x !in a;
      SumPick(b, f, x);
      SumMore(a, b - {x}, f);
    }
  }

  lemma {:induction false} LastUsed(entries: map<Id, Entry>, ids: set<Id>) returns (last: Id)
    requires Keyed(entries) && ids != {} && ids <= entries.Keys
    ensures IsLast(entries, ids, last)
    decreases |ids|
  {
    var x :| x in ids;
    last := x;
    if ids - {x} == {} {
      assert ids == {x};
    } else {
      var y := LastUsed(entries, ids - {x});
      if LessRecentlyUsed(entries[x], entries[y]) {
        last := y;
      }
      assert IsLast(entries, ids - {x} + {x}, last);
      assert ids - {x} + {x} == ids;
    }
  }
}
