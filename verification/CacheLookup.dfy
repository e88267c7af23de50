/** What a cache lookup finds: an order of searches, and the newest hit of the first that has one. */
module CacheLookup {
  import opened Wrappers
  import opened JobIdentity
  import opened CacheStore

  /** The searches for one restore key after another, exact before prefix. */
  function RestoreQueries(repo: string, rf: string, restoreKeys: seq<string>, version: string): seq<Query> {
    if restoreKeys == [] then []
    else
      var rk := Lower(restoreKeys[0]);
      [Query(repo, rf, rk, version, CompleteExact), Query(repo, rf, rk, version, CompletePrefix)]
      + RestoreQueries(repo, rf, restoreKeys[1..], version)
  }

  function ScopeQueries(repo: string, rf: string, key: string, restoreKeys: seq<string>, version: string): seq<Query> {
    [Query(repo, rf, key, version, CompleteExact)]
    + (if key != "" then [Query(repo, rf, key, version, CompletePrefix)] else [])
    + RestoreQueries(repo, rf, restoreKeys, version)
  }

  /** Every search of a lookup: each readable ref is exhausted before the next. */
  function Queries(repo: string, refs: seq<string>, key: string, restoreKeys: seq<string>, version: string): seq<Query> {
    if refs == [] then []
    else ScopeQueries(repo, refs[0], key, restoreKeys, version) + Queries(repo, refs[1..], key, restoreKeys, version)
  }

  ghost function FirstHit(entries: map<Id, Entry>, qs: seq<Query>): Option<Entry>
    requires Keyed(entries)
  {
    if qs == [] then None
    else
      var r := Newest(entries, qs[0]);
      if r.Some? then r else FirstHit(entries, qs[1..])
  }

  lemma {:induction false} FirstHitConcat(entries: map<Id, Entry>, a: seq<Query>, b: seq<Query>)
    requires Keyed(entries)
    ensures FirstHit(entries, a + b) ==
            if FirstHit(entries, a).Some? then FirstHit(entries, a) else FirstHit(entries, b)
  {
    if a == [] {
      assert a + b == b;
    } else {
      assert (a + b)[1..] == a[1..] + b;
      FirstHitConcat(entries, a[1..], b);
    }
  }

  /** A miss means no entry hits any search; a match is the newest hit of the first search that has any. */
  lemma {:induction false} FirstHitMeans(entries: map<Id, Entry>, qs: seq<Query>)
    requires Keyed(entries)
    ensures var r := FirstHit(entries, qs);
            match r
            case None => forall j, id :: 0 <= j < |qs| && id in entries ==> !Hits(qs[j], entries[id])
            case Some(e) => exists k :: 0 <= k < |qs| && IsNewest(entries, qs[k], r)
                                         && forall j, id :: 0 <= j < k && id in entries ==> !Hits(qs[j], entries[id])
  {
    if qs != [] {
      var r := Newest(entries, qs[0]);
      if r.Some? {
        assert IsNewest(entries, qs[0], r);
      } else {
        FirstHitMeans(entries, qs[1..]);
        var t := FirstHit(entries, qs[1..]);
        if t.Some? {
          var k :| 0 <= k < |qs[1..]| && IsNewest(entries, qs[1..][k], t)
                   && forall j, id :: 0 <= j < k && id in entries ==> !Hits(qs[1..][j], entries[id]);
          forall j, id | 0 <= j < k + 1 && id in entries ensures !Hits(qs[j], entries[id]) {
            if j > 0 {
              assert qs[1..][j - 1] == qs[j];
            }
          }
          assert IsNewest(entries, qs[k + 1], t);
        } else {
          forall j, id | 0 <= j < |qs| && id in entries ensures !Hits(qs[j], entries[id]) {
            if j > 0 {
              assert qs[1..][j - 1] == qs[j];
            }
          }
        }
      }
    }
  }

  /** What a lookup can see at all. */
  predicate Visible(repo: string, refs: seq<string>, version: string, e: Entry) {
    e.complete && e.repo == repo && e.rf != "" && e.rf in refs && e.version == version
  }

  lemma {:induction false} QueriesVisible(
    repo: string, refs: seq<string>, key: string, restoreKeys: seq<string>, version: string, j: nat, e: Entry)
    requires j < |Queries(repo, refs, key, restoreKeys, version)|
    requires Hits(Queries(repo, refs, key, restoreKeys, version)[j], e)
    ensures Visible(repo, refs, version, e)
  {
    var scope := ScopeQueries(repo, refs[0], key, restoreKeys, version);
    if j < |scope| {
      ScopeVisible(repo, refs[0], key, restoreKeys, version, j);
    } else {
      assert Queries(repo, refs, key, restoreKeys, version)[j]
             == Queries(repo, refs[1..], key, restoreKeys, version)[j - |scope|];
      QueriesVisible(repo, refs[1..], key, restoreKeys, version, j - |scope|, e);
    }
  }

  lemma {:induction false} RestoreVisible(repo: string, rf: string, restoreKeys: seq<string>, version: string, j: nat)
    requires j < |RestoreQueries(repo, rf, restoreKeys, version)|
    ensures var q := RestoreQueries(repo, rf, restoreKeys, version)[j];
            q.repo == repo && q.rf == rf && q.version == version && (q.which.CompleteExact? || q.which.CompletePrefix?)
  {
    if j >= 2 {
      RestoreVisible(repo, rf, restoreKeys[1..], version, j - 2);
    }
  }

  lemma ScopeVisible(repo: string, rf: string, key: string, restoreKeys: seq<string>, version: string, j: nat)
    requires j < |ScopeQueries(repo, rf, key, restoreKeys, version)|
    ensures var q := ScopeQueries(repo, rf, key, restoreKeys, version)[j];
            q.repo == repo && q.rf == rf && q.version == version && (q.which.CompleteExact? || q.which.CompletePrefix?)
  {
    var own := if key != "" then 2 else 1;
    if j >= own {
      RestoreVisible(repo, rf, restoreKeys, version, j - own);
    }
  }

  /** The same index as far as the lookup can see it. */
  ghost predicate SameVisible(
    entries: map<Id, Entry>, others: map<Id, Entry>, repo: string, refs: seq<string>, version: string) {
    forall id ::
      (id in entries && Visible(repo, refs, version, entries[id])) || (id in others && Visible(repo, refs, version, others[id]))
      ==> id in entries && id in others && entries[id] == others[id]
  }

  lemma {:induction false} SameHits(
    entries: map<Id, Entry>, others: map<Id, Entry>, repo: string, refs: seq<string>, version: string, qs: seq<Query>)
    requires Keyed(entries) && Keyed(others) && SameVisible(entries, others, repo, refs, version)
    requires forall j, e :: 0 <= j < |qs| && Hits(qs[j], e) ==> Visible(repo, refs, version, e)
    ensures FirstHit(entries, qs) == FirstHit(others, qs)
  {
    if qs != [] {
      var r := Newest(entries, qs[0]);
      assert IsNewest(others, qs[0], r);
      NewestUnique(others, qs[0], r, Newest(others, qs[0]));
      forall j, e | 0 <= j < |qs[1..]| && Hits(qs[1..][j], e) ensures Visible(repo, refs, version, e) {
        assert Hits(qs[j + 1], e);
      }
      SameHits(entries, others, repo, refs, version, qs[1..]);
    }
  }

  /**
   A lookup answers from completed entries of the caller's repository and readable refs alone: two
   indexes that agree on those give the same answer, whatever else they hold.
   */
  lemma LookupSeesOnlyItsScope(
    entries: map<Id, Entry>, others: map<Id, Entry>,
    repo: string, refs: seq<string>, key: string, restoreKeys: seq<string>, version: string)
    requires Keyed(entries) && Keyed(others) && SameVisible(entries, others, repo, refs, version)
    ensures var qs := Queries(repo, refs, key, restoreKeys, version); FirstHit(entries, qs) == FirstHit(others, qs)
    ensures var r := FirstHit(entries, Queries(repo, refs, key, restoreKeys, version));
            r.Some? ==> Visible(repo, refs, version, r.value)
  {
    var qs := Queries(repo, refs, key, restoreKeys, version);
    forall j, e | 0 <= j < |qs| && Hits(qs[j], e) ensures Visible(repo, refs, version, e) {
      QueriesVisible(repo, refs, key, restoreKeys, version, j, e);
    }
    SameHits(entries, others, repo, refs, version, qs);
    FirstHitMeans(entries, qs);
  }
}
