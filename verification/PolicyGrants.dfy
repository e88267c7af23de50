/** When a job gets an identity, and exactly which refs it then reads and writes. */
module PolicyGrants {
  import opened Wrappers
  import opened Decimal
  import opened JobIdentity
  import opened Policy

  /** GitHub's answers identify the job's run and its repository. */
  predicate Identified(f: Facts, j: Job) {
    && ValidRepository(j.repository) && j.runID > 0 && j.jobID != ""
    && f.run.Some? && f.run.value.id == j.runID && f.run.value.event == j.event && f.run.value.headSHA != ""
    && Lower(f.run.value.repository) == Lower(j.repository)
    && f.fullName.Some? && Lower(f.fullName.value) == Lower(j.repository)
    && ValidRef("refs/heads/" + f.defaultBranch)
  }

  // --- the pull request a run belongs to ---

  ghost predicate Listed(cs: seq<PullRef>, n: int) {
    exists k :: 0 <= k < |cs| && cs[k].number == n
  }

  /** n is listed, and GitHub says that pull request is from the run's branch to this repository. */
  ghost predicate Belongs(f: Facts, run: RunInfo, fullName: string, cs: seq<PullRef>, n: int) {
    && 0 < n && Listed(cs, n) && n in f.pulls
    && f.pulls[n].number == n && f.pulls[n].headRef == run.headBranch
    && Lower(f.pulls[n].headRepo) == Lower(run.headRepository) && Lower(f.pulls[n].baseRepo) == Lower(fullName)
  }

  /** Every listed pull request could be looked up. */
  ghost predicate AllAnswered(f: Facts, cs: seq<PullRef>) {
    forall n | Listed(cs, n) && 0 < n :: n in f.pulls
  }

  ghost predicate OnlyOne(f: Facts, run: RunInfo, fullName: string, cs: seq<PullRef>, n: int) {
    Belongs(f, run, fullName, cs, n) && forall m | Belongs(f, run, fullName, cs, m) :: m == n
  }

  lemma ListedRest(cs: seq<PullRef>, n: int)
    requires cs != []
    ensures Listed(cs, n) <==> n == cs[0].number || Listed(cs[1..], n)
  {
    if Listed(cs, n) && n != cs[0].number {
      var k :| 0 <= k < |cs| && cs[k].number == n;
      assert cs[1..][k - 1].number == n;
    }
    if Listed(cs[1..], n) {
      var k :| 0 <= k < |cs[1..]| && cs[1..][k].number == n;
      assert cs[k + 1].number == n;
    }
  }

  ghost predicate InPulls(ps: seq<Pull>, n: int) {
    exists k :: 0 <= k < |ps| && ps[k].number == n
  }

  lemma InMore(ps: seq<Pull>, p: Pull, n: int)
    ensures InPulls(ps + [p], n) <==> InPulls(ps, n) || n == p.number
  {
    assert (ps + [p])[|ps|] == p;
    if InPulls(ps, n) {
      var k :| 0 <= k < |ps| && ps[k].number == n;
      assert (ps + [p])[k].number == n;
    }
  }

  /** What was collected so far: each number once, as GitHub describes it. */
  ghost predicate Collected(f: Facts, seen: set<int>, out: seq<Pull>) {
    && (forall k :: 0 <= k < |out| ==> 0 < out[k].number && out[k].number in seen)
    && (forall k :: 0 <= k < |out| ==> out[k].number in f.pulls && out[k] == f.pulls[out[k].number])
    && (forall j, k :: 0 <= j < k < |out| ==> out[j].number != out[k].number)
  }

  /** What looking at the candidates `cs` makes of what was collected. */
  ghost predicate Adds(f: Facts, run: RunInfo, fullName: string, cs: seq<PullRef>, seen: set<int>, out: seq<Pull>, m: Matched) {
    && (m.Found? <==> forall n | Listed(cs, n) && 0 < n && n !in seen :: n in f.pulls)
    && (m.Found? ==> exists all: set<int> :: Collected(f, all, m.pulls))
    && (m.Found? ==> forall n :: InPulls(m.pulls, n) <==> InPulls(out, n) || (n !in seen && Belongs(f, run, fullName, cs, n)))
  }

  lemma SkipAdds(f: Facts, run: RunInfo, fullName: string, cs: seq<PullRef>, seen: set<int>, out: seq<Pull>, m: Matched)
    requires cs != [] && (cs[0].number <= 0 || cs[0].number in seen) && Adds(f, run, fullName, cs[1..], seen, out, m)
    ensures Adds(f, run, fullName, cs, seen, out, m)
  {
    forall n ensures Listed(cs, n) <==> n == cs[0].number || Listed(cs[1..], n) {
      ListedRest(cs, n);
    }
    hide Listed, Collected, InPulls, Lower;
  }

  lemma TakeAdds(f: Facts, run: RunInfo, fullName: string, cs: seq<PullRef>, seen: set<int>, out: seq<Pull>, m: Matched)
    requires cs != [] && cs[0].number > 0 && cs[0].number !in seen && cs[0].number in f.pulls
    requires var p := f.pulls[cs[0].number];
             Adds(f, run, fullName, cs[1..], seen + {cs[0].number}, if Matches(run, fullName, cs[0], p) then out + [p] else out, m)
    ensures Adds(f, run, fullName, cs, seen, out, m)
  {
    var c := cs[0];
    var p := f.pulls[c.number];
    forall n ensures Listed(cs, n) <==> n == c.number || Listed(cs[1..], n) {
      ListedRest(cs, n);
    }
    forall n ensures InPulls(out + [p], n) <==> InPulls(out, n) || n == p.number {
      InMore(out, p, n);
    }
    hide Listed, Collected, InPulls, Lower;
  }

  /** The candidates still to look at add the unseen ones that belong to the run. */
  lemma {:induction false} MatchAdds(f: Facts, run: RunInfo, fullName: string, cs: seq<PullRef>, seen: set<int>, out: seq<Pull>)
    requires Collected(f, seen, out)
    ensures Adds(f, run, fullName, cs, seen, out, MatchFrom(f, run, fullName, cs, seen, out))
    decreases |cs|
  {
    if cs != [] {
      var c, m := cs[0], MatchFrom(f, run, fullName, cs, seen, out);
      if c.number <= 0 || c.number in seen {
        MatchAdds(f, run, fullName, cs[1..], seen, out);
        SkipAdds(f, run, fullName, cs, seen, out, m);
        hide Adds;
      } else if c.number in f.pulls {
        var p := f.pulls[c.number];
        MatchAdds(f, run, fullName, cs[1..], seen + {c.number}, if Matches(run, fullName, c, p) then out + [p] else out);
        TakeAdds(f, run, fullName, cs, seen, out, m);
        hide Adds;
      } else {
        assert Listed(cs, c.number);
      }
    } else {
      assert Collected(f, seen, out);
    }
  }

  lemma Two(f: Facts, seen: set<int>, ps: seq<Pull>)
    requires Collected(f, seen, ps) && |ps| > 1
    ensures ps[0].number != ps[1].number
  {
  }

  /** A run's candidates settle on one pull request exactly if all could be looked up and just one belongs to it. */
  lemma MatchMeans(f: Facts, run: RunInfo, fullName: string, cs: seq<PullRef>)
    ensures var m := MatchFrom(f, run, fullName, cs, {}, []);
            && (m.Found? && |m.pulls| == 1 <==> AllAnswered(f, cs) && exists n :: OnlyOne(f, run, fullName, cs, n))
            && (m.Found? && |m.pulls| == 1 ==>
                  && OnlyOne(f, run, fullName, cs, m.pulls[0].number)
                  && m.pulls[0] == f.pulls[m.pulls[0].number])
  {
    MatchAdds(f, run, fullName, cs, {}, []);
    var m := MatchFrom(f, run, fullName, cs, {}, []);
    hide MatchFrom, Listed, Lower;
    if m.Found? {
      var all: set<int> :| Collected(f, all, m.pulls);
      var ps := m.pulls;
      assert forall n :: Belongs(f, run, fullName, cs, n) <==> InPulls(ps, n);
      hide Belongs;
      if |ps| == 1 {
        assert InPulls(ps, ps[0].number);
        assert OnlyOne(f, run, fullName, cs, ps[0].number);
      }
      if n :| OnlyOne(f, run, fullName, cs, n) {
        forall k | 0 <= k < |ps| ensures ps[k].number == n {
          assert InPulls(ps, ps[k].number);
        }
        assert InPulls(ps, n);
        if |ps| > 1 {
          Two(f, all, ps);
        }
      }
    }
  }

  /** The run itself names this base for the pull request, wherever it lists it. */
  ghost predicate NamesBase(run: RunInfo, p: Pull) {
    && Listed(run.pulls, p.number)
    && (forall k :: 0 <= k < |run.pulls| && run.pulls[k].number == p.number ==> run.pulls[k].base == p.baseRef)
  }

  lemma {:induction false} BaseMeans(pulls: seq<PullRef>, p: Pull, base: string)
    ensures var b, ref := BaseOf(pulls, p, base), "refs/heads/" + p.baseRef;
            b == (if (exists k :: 0 <= k < |pulls| && pulls[k].number == p.number && pulls[k].base != p.baseRef) then ""
                  else if Listed(pulls, p.number) then ref else base)
    decreases |pulls|
  {
    if pulls != [] {
      var c, rest := pulls[0], pulls[1..];
      ListedRest(pulls, p.number);
      BaseMeans(rest, p, if c.number == p.number then "refs/heads/" + c.base else base);
      assert forall k :: 0 < k < |pulls| ==> pulls[k] == rest[k - 1];
      if k :| 0 <= k < |pulls| && pulls[k].number == p.number && pulls[k].base != p.baseRef {
        assert k > 0 ==> rest[k - 1].number == p.number && rest[k - 1].base != p.baseRef;
      }
      if k :| 0 <= k < |rest| && rest[k].number == p.number && rest[k].base != p.baseRef {
        assert pulls[k + 1].number == p.number && pulls[k + 1].base != p.baseRef;
      }
    }
  }

  /** The pull requests the run lists, or if it lists none those GitHub finds for its commit. */
  function Candidates(f: Facts, run: RunInfo): Option<seq<PullRef>> {
    if run.pulls != [] then Some(run.pulls) else f.commitPulls
  }

  /** The run belongs to pull request n and to no other, and n's base is a branch. */
  ghost predicate TheOne(f: Facts, run: RunInfo, fullName: string, n: int) {
    && Candidates(f, run).Some? && 1 <= |Candidates(f, run).value| <= 8 && AllAnswered(f, Candidates(f, run).value)
    && OnlyOne(f, run, fullName, Candidates(f, run).value, n)
    && ValidRef("refs/heads/" + f.pulls[n].baseRef)
  }

  /**
   The rights of a run of pull request n: it writes n's merge ref, and reads it, its base if the run vouches
   for it, and the default branch.
   */
  ghost predicate PullRights(f: Facts, run: RunInfo, def: string, n: int, i: Identity) {
    && 0 < n && n in f.pulls
    && (var own, base := "refs/pull/" + Digits(n) + "/merge", "refs/heads/" + f.pulls[n].baseRef;
        && i.writeRef == own
        && i.readRefs == [own] + (if NamesBase(run, f.pulls[n]) && base != def then [base] else []) + [def])
  }

  lemma RefsAre(own: string, base: string, def: string)
    requires own != "" && def != "" && own != base && own != def
    ensures Refs(own, base, def) == [own] + (if base != "" && base != def then [base] else []) + [def]
  {
  }

  lemma Apart(n: nat, branch: string)
    ensures PullMergeRef(n) != "refs/heads/" + branch
  {
    assert PullMergeRef(n)[5] == 'p' && ("refs/heads/" + branch)[5] == 'h';
  }

  lemma PullCase(f: Facts, run: RunInfo, fullName: string, branch: string, i: Identity)
    ensures var got, def := ForPull(f, run, fullName, "refs/heads/" + branch, i), "refs/heads/" + branch;
            && (got.Some? <==> exists n :: TheOne(f, run, fullName, n))
            && (got.Some? ==> exists n :: TheOne(f, run, fullName, n) && PullRights(f, run, def, n, got.value)
                                          && got.value == i.(writeRef := got.value.writeRef, readRefs := got.value.readRefs))
  {
    hide ValidRef, AllAnswered, OnlyOne, MatchFrom, BaseOf;
    var cs := Candidates(f, run);
    if cs.Some? && 1 <= |cs.value| <= 8 {
      MatchMeans(f, run, fullName, cs.value);
      var m := MatchFrom(f, run, fullName, cs.value, {}, []);
      if m.Found? && |m.pulls| == 1 {
        var p := m.pulls[0];
        TheOneIs(f, run, fullName, cs.value, p.number);
        RightsAre(f, run, p, branch);
        assert TheOne(f, run, fullName, p.number) <==> ValidRef("refs/heads/" + p.baseRef);
      }
    }
  }

  lemma TheOneIs(f: Facts, run: RunInfo, fullName: string, cs: seq<PullRef>, n: int)
    requires OnlyOne(f, run, fullName, cs, n)
    ensures forall m :: OnlyOne(f, run, fullName, cs, m) ==> m == n
    ensures 0 < n && n in f.pulls
  {
  }

  lemma RightsAre(f: Facts, run: RunInfo, p: Pull, branch: string)
    requires 0 < p.number
    ensures var own, base, def := PullMergeRef(p.number), "refs/heads/" + p.baseRef, "refs/heads/" + branch;
            Refs(own, BaseOf(run.pulls, p, ""), def) == [own] + (if NamesBase(run, p) && base != def then [base] else []) + [def]
  {
    BaseMeans(run.pulls, p, "");
    Apart(p.number, p.baseRef);
    Apart(p.number, branch);
    hide BaseOf;
    RefsAre(PullMergeRef(p.number), BaseOf(run.pulls, p, ""), "refs/heads/" + branch);
    hide Refs;
  }

  // --- a run of a branch ---

  /** A run of the repository's own branch, whose name no tag shares, and whose commit could be looked for on it. */
  predicate OfBranch(f: Facts, run: RunInfo, fullName: string) {
    && Lower(run.headRepository) == Lower(fullName) && ValidRef("refs/heads/" + run.headBranch)
    && f.tags.Some? && "refs/tags/" + run.headBranch !in f.tags.value
    && f.branch.Some? && f.branch.value.rf == "refs/heads/" + run.headBranch && f.onBranch.Some?
  }

  /** It writes its branch exactly if its commit was found on it, and reads it and the default branch. */
  predicate BranchRights(f: Facts, run: RunInfo, def: string, i: Identity) {
    var own := "refs/heads/" + run.headBranch;
    if f.onBranch == Some(true) then i.writeRef == own && i.readRefs == (if own == def then [own] else [own, def])
    else i.writeRef == "" && i.readRefs == [def]
  }

  /** The identity a decision starts from. */
  function Plain(f: Facts, j: Job): Identity
    requires f.run.Some? && f.fullName.Some?
  {
    NoIdentity.(repository := Lower(f.fullName.value), event := f.run.value.event, runID := j.runID, jobID := j.jobID,
                readRefs := ["refs/heads/" + f.defaultBranch], fork := Lower(f.run.value.headRepository) != Lower(f.fullName.value))
  }

  lemma BranchCase(f: Facts, run: RunInfo, fullName: string, branch: string, i: Identity)
    requires i.fork == (Lower(run.headRepository) != Lower(fullName)) && i.writeRef == "" && i.readRefs == ["refs/heads/" + branch]
    ensures var got, def := ForBranch(f, run, "refs/heads/" + branch, i), "refs/heads/" + branch;
            && (got.Some? <==> OfBranch(f, run, fullName))
            && (got.Some? ==> BranchRights(f, run, def, got.value)
                              && got.value == i.(writeRef := got.value.writeRef, readRefs := got.value.readRefs))
  {
    hide ValidRef, Lower;
  }

  // --- the whole decision ---

  predicate ByBranch(event: string) {
    event in ["push", "workflow_dispatch", "schedule", "repository_dispatch"]
  }

  /** What a run's event asks for besides. */
  ghost predicate Attributed(f: Facts, run: RunInfo, fullName: string) {
    if run.event == "pull_request" then exists n :: TheOne(f, run, fullName, n)
    else ByBranch(run.event) ==> OfBranch(f, run, fullName)
  }

  /** The rights its event gives a run. */
  ghost predicate Rights(f: Facts, run: RunInfo, fullName: string, def: string, i: Identity) {
    if run.event == "pull_request" then exists n :: TheOne(f, run, fullName, n) && PullRights(f, run, def, n, i)
    else if ByBranch(run.event) then BranchRights(f, run, def, i)
    else i.writeRef == "" && i.readRefs == [def]
  }

  /**
   A job gets an identity exactly if GitHub identifies its run and repository and the run can be
   attributed: a pull_request run to exactly one of its candidates, a run of a branch to that branch of
   this very repository; every other event needs nothing more. And then these, no others and in this
   order, are its rights.
   */
  lemma DecidesExactly(f: Facts, j: Job)
    ensures Decide(f, j).Some? <==> Identified(f, j) && Attributed(f, f.run.value, f.fullName.value)
    ensures Decide(f, j).Some? ==>
              var i, run := Decide(f, j).value, f.run.value;
              && Rights(f, run, f.fullName.value, "refs/heads/" + f.defaultBranch, i)
              && (i.fork <==> Lower(run.headRepository) != Lower(f.fullName.value))
              && i.repository == Lower(j.repository) && i.event == j.event && i.runID == j.runID && i.jobID == j.jobID && !i.unresolved
  {
    DecideIs(f, j);
    if Identified(f, j) {
      PullCase(f, f.run.value, f.fullName.value, f.defaultBranch, Plain(f, j));
      BranchCase(f, f.run.value, f.fullName.value, f.defaultBranch, Plain(f, j));
    }
    hide Decide, ForPull, ForBranch, TheOne, PullRights, OfBranch, BranchRights, ValidRef, ValidRepository, Lower;
  }

  lemma DecideIs(f: Facts, j: Job)
    ensures if !Identified(f, j) then Decide(f, j) == None
            else
              var run, fullName, def := f.run.value, f.fullName.value, "refs/heads/" + f.defaultBranch;
              Decide(f, j) == (if run.event == "pull_request" then ForPull(f, run, fullName, def, Plain(f, j))
                               else if ByBranch(run.event) then ForBranch(f, run, def, Plain(f, j)) else Some(Plain(f, j)))
  {
    hide ForPull, ForBranch, ValidRef, ValidRepository, Lower;
  }
}
