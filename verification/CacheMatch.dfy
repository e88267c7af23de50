/**
 Which entry a lookup gives, said of the entries alone: the refs in order, within one the key itself, then
 what the key prefixes, then each restore key in order, itself before what it prefixes, and of several the
 newest.
 */
module CacheMatch {
  import opened Wrappers
  import opened JobIdentity
  import opened CacheStore
  import opened CacheLookup

  /** A completed entry of the repository and ref, of the version asked for. */
  predicate Visible(e: Entry, repo: string, rf: string, version: string) {
    e.complete && rf != "" && e.repo == repo && e.rf == rf && e.version == version
  }

  /** How many ways a key can be asked for: itself, what it prefixes, and the same for each restore key. */
  function Ways(restoreKeys: seq<string>): nat {
    2 + 2 * |restoreKeys|
  }

  /** Whether a stored key answers the request in the way numbered t, the better the smaller. */
  predicate Suits(stored: string, key: string, restoreKeys: seq<string>, t: nat)
    requires t < Ways(restoreKeys)
  {
    if t == 0 then stored == key
    else if t == 1 then key != "" && key <= stored
    else SuitsRestore(stored, restoreKeys, t - 2)
  }

  predicate SuitsRestore(stored: string, restoreKeys: seq<string>, t: nat)
    requires t < 2 * |restoreKeys|
  {
    var rk := Lower(restoreKeys[t / 2]);
    if t % 2 == 0 then stored == rk else rk <= stored
  }

  predicate Older(a: Entry, b: Entry) {
    a.createdAt < b.createdAt || (a.createdAt == b.createdAt && a.id < b.id)
  }

  /** The entry is one the request asks for in ref number i, in way number t. */
  predicate FoundAt(e: Entry, repo: string, refs: seq<string>, key: string, rks: seq<string>, version: string, i: int, t: int) {
    0 <= i < |refs| && 0 <= t < Ways(rks) && Visible(e, repo, refs[i], version) && Suits(e.key, key, rks, t)
  }

  /** Ref number i and way number t come no later than j and u, and of two found there e is the newer. */
  predicate Beats(e: Entry, i: int, t: int, f: Entry, j: int, u: int) {
    i < j || (i == j && t < u) || (i == j && t == u && (f == e || Older(f, e)))
  }

  /** What a lookup is to give: nothing if nothing is found, or what beats all that is. */
  ghost predicate BestMatch(
    entries: map<Id, Entry>, repo: string, refs: seq<string>, key: string, rks: seq<string>, version: string, r: Option<Entry>) {
    match r
    case None => forall id, j, u :: id in entries ==> !FoundAt(entries[id], repo, refs, key, rks, version, j, u)
    case Some(e) =>
      && e.id in entries && entries[e.id] == e
      && exists i, t :: FoundAt(e, repo, refs, key, rks, version, i, t) && BeatsAll(entries, repo, refs, key, rks, version, e, i, t)
  }

  ghost predicate BeatsAll(
    entries: map<Id, Entry>, repo: string, refs: seq<string>, key: string, rks: seq<string>, version: string,
    e: Entry, i: int, t: int) {
    forall id, j, u :: id in entries && FoundAt(entries[id], repo, refs, key, rks, version, j, u) ==> Beats(e, i, t, entries[id], j, u)
  }

  /** Two answers that are best are the same. */
  lemma BestMatchUnique(
    entries: map<Id, Entry>, repo: string, refs: seq<string>, key: string, rks: seq<string>, version: string,
    r: Option<Entry>, q: Option<Entry>)
    requires BestMatch(entries, repo, refs, key, rks, version, r) && BestMatch(entries, repo, refs, key, rks, version, q)
    ensures r == q
  {
    hide FoundAt;
    if r.Some? && q.Some? {
      var i, t :| FoundAt(r.value, repo, refs, key, rks, version, i, t)
                  && BeatsAll(entries, repo, refs, key, rks, version, r.value, i, t);
      var j, u :| FoundAt(q.value, repo, refs, key, rks, version, j, u)
                  && BeatsAll(entries, repo, refs, key, rks, version, q.value, j, u);
      assert Beats(r.value, i, t, entries[q.value.id], j, u) && Beats(q.value, j, u, entries[r.value.id], i, t);
    }
  }

  // --- the searches within one ref ---

  /** The search for way number t; where the key is empty nothing is searched by its prefix. */
  function QueryAt(repo: string, rf: string, key: string, rks: seq<string>, version: string, t: nat): Query
    requires t < Ways(rks)
  {
    if t == 0 then Query(repo, rf, key, version, CompleteExact)
    else if t == 1 then Query(repo, if key != "" then rf else "", key, version, CompletePrefix)
    else Query(repo, rf, Lower(rks[(t - 2) / 2]), version, if t % 2 == 0 then CompleteExact else CompletePrefix)
  }

  function AllWays(repo: string, rf: string, key: string, rks: seq<string>, version: string): (qs: seq<Query>)
    ensures |qs| == Ways(rks)
  {
    seq(Ways(rks), t requires 0 <= t < Ways(rks) => QueryAt(repo, rf, key, rks, version, t))
  }

  lemma WayHits(repo: string, rf: string, key: string, rks: seq<string>, version: string, t: nat, e: Entry)
    requires t < Ways(rks)
    ensures Hits(AllWays(repo, rf, key, rks, version)[t], e) <==> Visible(e, repo, rf, version) && Suits(e.key, key, rks, t)
  {
  }

  lemma {:induction false} RestoreAt(repo: string, rf: string, rks: seq<string>, version: string, t: nat)
    ensures |RestoreQueries(repo, rf, rks, version)| == 2 * |rks|
    ensures t < 2 * |rks| ==>
              RestoreQueries(repo, rf, rks, version)[t]
              == Query(repo, rf, Lower(rks[t / 2]), version, if t % 2 == 0 then CompleteExact else CompletePrefix)
  {
    if rks != [] {
      RestoreAt(repo, rf, rks[1..], version, if t < 2 then 0 else t - 2);
      if t >= 2 {
        assert (t - 2) / 2 == t / 2 - 1 && (t - 2) % 2 == t % 2;
      }
    }
  }

  lemma NoneHits(entries: map<Id, Entry>, q: Query)
    requires Keyed(entries) && q.rf == ""
    ensures FirstHit(entries, [q]) == None
  {
    assert forall id :: id in entries ==> !Hits(q, entries[id]);
    assert IsNewest(entries, q, None);
    assert FirstHit(entries, [q][1..]) == None;
  }

  lemma WaysSplit(repo: string, rf: string, key: string, rks: seq<string>, version: string)
    ensures var all := AllWays(repo, rf, key, rks, version);
            all == [all[0]] + [all[1]] + RestoreQueries(repo, rf, rks, version)
  {
    var all, rest := AllWays(repo, rf, key, rks, version), RestoreQueries(repo, rf, rks, version);
    RestoreAt(repo, rf, rks, version, 0);
    forall t | 2 <= t < |all| ensures all[t] == rest[t - 2] {
      RestoreAt(repo, rf, rks, version, t - 2);
      assert (t - 2) % 2 == t % 2;
    }
  }

  /** Searching every way in order gives what the lookup's own searches give. */
  lemma SameSearches(entries: map<Id, Entry>, repo: string, rf: string, key: string, rks: seq<string>, version: string)
    requires Keyed(entries)
    ensures FirstHit(entries, AllWays(repo, rf, key, rks, version)) == FirstHit(entries, ScopeQueries(repo, rf, key, rks, version))
  {
    var all, rest := AllWays(repo, rf, key, rks, version), RestoreQueries(repo, rf, rks, version);
    WaysSplit(repo, rf, key, rks, version);
    var exact, prefix := [all[0]], if key != "" then [all[1]] else [];
    FirstHitConcat(entries, exact + [all[1]], rest);
    FirstHitConcat(entries, exact, [all[1]]);
    FirstHitConcat(entries, exact + prefix, rest);
    FirstHitConcat(entries, exact, prefix);
    if key == "" {
      NoneHits(entries, all[1]);
      assert FirstHit(entries, []) == None;
    }
    assert ScopeQueries(repo, rf, key, rks, version) == exact + prefix + rest;
  }

  // --- ref after ref ---

  /** Found in ref number 0 alone. */
  lemma ScopeMeans(entries: map<Id, Entry>, repo: string, rf: string, key: string, rks: seq<string>, version: string)
    requires Keyed(entries)
    ensures BestMatch(entries, repo, [rf], key, rks, version, FirstHit(entries, ScopeQueries(repo, rf, key, rks, version)))
  {
    var qs := AllWays(repo, rf, key, rks, version);
    var r := FirstHit(entries, qs);
    SameSearches(entries, repo, rf, key, rks, version);
    FirstHitMeans(entries, qs);
    forall e: Entry, u | 0 <= u < |qs| ensures Hits(qs[u], e) <==> FoundAt(e, repo, [rf], key, rks, version, 0, u) {
      WayHits(repo, rf, key, rks, version, u, e);
    }
    hide Hits, AllWays, Suits, Visible, FirstHit, Ways;
    if r.Some? {
      var k :| 0 <= k < |qs| && IsNewest(entries, qs[k], r)
               && forall j, id :: 0 <= j < k && id in entries ==> !Hits(qs[j], entries[id]);
      assert FoundAt(r.value, repo, [rf], key, rks, version, 0, k);
      forall id, j, u | id in entries && FoundAt(entries[id], repo, [rf], key, rks, version, j, u)
        ensures Beats(r.value, 0, k, entries[id], j, u)
      {
        assert Hits(qs[u], entries[id]);
      }
      assert BeatsAll(entries, repo, [rf], key, rks, version, r.value, 0, k);
    }
  }

  lemma Shift(e: Entry, repo: string, refs: seq<string>, key: string, rks: seq<string>, version: string, i: int, t: int)
    requires refs != []
    ensures i > 0 ==> (FoundAt(e, repo, refs, key, rks, version, i, t) <==> FoundAt(e, repo, refs[1..], key, rks, version, i - 1, t))
    ensures i == 0 ==> (FoundAt(e, repo, refs, key, rks, version, 0, t) <==> FoundAt(e, repo, [refs[0]], key, rks, version, 0, t))
  {
  }

  /** With nothing in the first ref, what is best in the others is best. */
  lemma LaterRef(
    entries: map<Id, Entry>, repo: string, refs: seq<string>, key: string, rks: seq<string>, version: string, r: Option<Entry>)
    requires refs != [] && BestMatch(entries, repo, [refs[0]], key, rks, version, None)
    requires BestMatch(entries, repo, refs[1..], key, rks, version, r)
    ensures BestMatch(entries, repo, refs, key, rks, version, r)
  {
    forall id, j, u | id in entries && FoundAt(entries[id], repo, refs, key, rks, version, j, u)
      ensures FoundAt(entries[id], repo, refs[1..], key, rks, version, j - 1, u)
    {
      Shift(entries[id], repo, refs, key, rks, version, j, u);
    }
    if r.Some? {
      var i, t :| FoundAt(r.value, repo, refs[1..], key, rks, version, i, t)
                  && BeatsAll(entries, repo, refs[1..], key, rks, version, r.value, i, t);
      Shift(r.value, repo, refs, key, rks, version, i + 1, t);
      hide FoundAt;
      assert BeatsAll(entries, repo, refs, key, rks, version, r.value, i + 1, t);
    }
  }

  /** What is best in the first ref is best. */
  lemma FirstRef(
    entries: map<Id, Entry>, repo: string, refs: seq<string>, key: string, rks: seq<string>, version: string, r: Option<Entry>)
    requires refs != [] && r.Some? && BestMatch(entries, repo, [refs[0]], key, rks, version, r)
    ensures BestMatch(entries, repo, refs, key, rks, version, r)
  {
    var i, t :| FoundAt(r.value, repo, [refs[0]], key, rks, version, i, t)
                && BeatsAll(entries, repo, [refs[0]], key, rks, version, r.value, i, t);
    Shift(r.value, repo, refs, key, rks, version, i, t);
    forall id, j, u | id in entries && FoundAt(entries[id], repo, refs, key, rks, version, j, u)
      ensures Beats(r.value, i, t, entries[id], j, u)
    {
      Shift(entries[id], repo, refs, key, rks, version, j, u);
    }
    assert BeatsAll(entries, repo, refs, key, rks, version, r.value, i, t);
  }

  /** A lookup gives the best match. */
  lemma {:induction false} MatchMeans(
    entries: map<Id, Entry>, repo: string, refs: seq<string>, key: string, rks: seq<string>, version: string)
    requires Keyed(entries)
    ensures BestMatch(entries, repo, refs, key, rks, version, FirstHit(entries, Queries(repo, refs, key, rks, version)))
  {
    hide BestMatch, ScopeQueries, FirstHit, Keyed;
    if refs == [] {
      NothingAsked(entries, repo, key, rks, version);
    } else {
      var qs, rest := ScopeQueries(repo, refs[0], key, rks, version), Queries(repo, refs[1..], key, rks, version);
      FirstHitConcat(entries, qs, rest);
      ScopeMeans(entries, repo, refs[0], key, rks, version);
      MatchMeans(entries, repo, refs[1..], key, rks, version);
      if FirstHit(entries, qs).Some? {
        FirstRef(entries, repo, refs, key, rks, version, FirstHit(entries, qs));
      } else {
        LaterRef(entries, repo, refs, key, rks, version, FirstHit(entries, rest));
      }
    }
  }

  lemma NothingAsked(entries: map<Id, Entry>, repo: string, key: string, rks: seq<string>, version: string)
    requires Keyed(entries)
    ensures BestMatch(entries, repo, [], key, rks, version, FirstHit(entries, Queries(repo, [], key, rks, version)))
  {
  }
}
