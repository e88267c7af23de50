/** Which refs a job may read and write, decided from what GitHub says of its run. */
module Policy {
  import opened Wrappers
  import opened Decimal
  import opened JobIdentity
  import opened Leases

  type Int64 = n: int | -0x8000_0000_0000_0000 <= n < 0x8000_0000_0000_0000

  /** A pull request as a run lists it. */
  datatype PullRef = PullRef(number: Int64, base: string)

  /** A pull request as GitHub describes it by number. */
  datatype Pull = Pull(number: Int64, headRef: string, headRepo: string, baseRef: string, baseRepo: string)

  datatype RunInfo = RunInfo(
    id: int, event: string, headBranch: string, headSHA: string, repository: string, headRepository: string,
    pulls: seq<PullRef>)

  datatype Branch = Branch(rf: string, sha: string)

  /** GitHub's answers to the requests a resolution may make; None is a failed request. */
  datatype Facts = Facts(
    run: Option<RunInfo>,
    fullName: Option<string>,
    defaultBranch: string,
    commitPulls: Option<seq<PullRef>>,
    pulls: map<int, Pull>,
    tags: Option<seq<string>>,
    branch: Option<Branch>,
    onBranch: Option<bool>)

  const MAX_NUMBER := 0x8000_0000_0000_0000

  predicate SameFold(a: string, b: string) {
    Lower(a) == Lower(b)
  }

  // --- the refs a job may read ---

  function AddRef(out: seq<string>, r: string): seq<string> {
    if r == "" || r in out then out else out + [r]
  }

  function Refs(own: string, base: string, def: string): seq<string> {
    AddRef(AddRef(AddRef([], own), base), def)
  }

  method RefsOf(own: string, base: string, def: string) returns (out: seq<string>)
    ensures out == Refs(own, base, def)
  {
    out := [];
    var all := [own, base, def];
    var i := 0;
    while i < 3
      invariant 0 <= i <= 3
      invariant out == (if i == 0 then [] else if i == 1 then AddRef([], own)
                        else if i == 2 then AddRef(AddRef([], own), base) else Refs(own, base, def))
    {
      var r := all[i];
      i := i + 1;
      if r == "" {
        continue;
      }
      var seen := false;
      var k := 0;
      while k < |out|
        invariant 0 <= k <= |out| && (seen <==> r in out[..k])
      {
        if out[k] == r {
          seen := true;
        }
        k := k + 1;
      }
      assert out[..k] == out;
      if !seen {
        out := out + [r];
      }
    }
  }

  /** Each nonempty ref once, the own ref first. */
  lemma RefsMean(own: string, base: string, def: string)
    ensures var out := Refs(own, base, def);
            && (forall r :: r in out <==> r != "" && r in {own, base, def})
            && (forall i, j :: 0 <= i < j < |out| ==> out[i] != out[j])
            && (own != "" ==> |out| > 0 && out[0] == own) && |out| <= 3
  {
  }

  // --- pull requests ---

  predicate Matches(run: RunInfo, fullName: string, c: PullRef, p: Pull) {
    && p.number == c.number && p.headRef == run.headBranch && SameFold(p.headRepo, run.headRepository)
    && SameFold(p.baseRepo, fullName)
  }

  datatype Matched = NoAnswer | Found(pulls: seq<Pull>)

  /** The candidates, each number once, that are the run's own; a failed request fails them all. */
  function MatchFrom(f: Facts, run: RunInfo, fullName: string, cs: seq<PullRef>, seen: set<int>, out: seq<Pull>)
    : (m: Matched)
    requires forall k :: 0 <= k < |out| ==> 0 < out[k].number
    ensures m.Found? ==> forall k :: 0 <= k < |m.pulls| ==> 0 < m.pulls[k].number
  {
    if cs == [] then Found(out)
    else
      var c := cs[0];
      if c.number <= 0 || c.number in seen then MatchFrom(f, run, fullName, cs[1..], seen, out)
      else if c.number !in f.pulls then NoAnswer
      else
        var p := f.pulls[c.number];
        MatchFrom(f, run, fullName, cs[1..], seen + {c.number}, if Matches(run, fullName, c, p) then out + [p] else out)
  }

  method MatchPulls(f: Facts, run: RunInfo, fullName: string, cs: seq<PullRef>) returns (m: Matched)
    ensures m == MatchFrom(f, run, fullName, cs, {}, [])
  {
    var seen: set<int> := {};
    var out: seq<Pull> := [];
    var i := 0;
    while i < |cs|
      invariant 0 <= i <= |cs| && forall k :: 0 <= k < |out| ==> 0 < out[k].number
      invariant MatchFrom(f, run, fullName, cs, {}, []) == MatchFrom(f, run, fullName, cs[i..], seen, out)
    {
      var c := cs[i];
      assert cs[i..][0] == c && cs[i..][1..] == cs[i + 1..];
      i := i + 1;
      if c.number <= 0 || c.number in seen {
        continue;
      }
      seen := seen + {c.number};
      if c.number !in f.pulls {
        return NoAnswer;
      }
      var p := f.pulls[c.number];
      if Matches(run, fullName, c, p) {
        out := out + [p];
      }
    }
    return Found(out);
  }

  /** The base the run itself names for this pull request, if all it names agree with the pull's. */
  function BaseOf(pulls: seq<PullRef>, p: Pull, base: string): string {
    if pulls == [] then base
    else if pulls[0].number != p.number then BaseOf(pulls[1..], p, base)
    else if pulls[0].base != p.baseRef then ""
    else BaseOf(pulls[1..], p, "refs/heads/" + pulls[0].base)
  }

  function PullMergeRef(n: nat): string {
    "refs/pull/" + Digits(n) + "/merge"
  }

  // --- the decision ---

  function ForPull(f: Facts, run: RunInfo, fullName: string, def: string, i: Identity): Option<Identity> {
    if run.pulls == [] && f.commitPulls.None? then None
    else
      var cs := if run.pulls == [] then f.commitPulls.value else run.pulls;
      if cs == [] || |cs| > 8 then None
      else
        var m := MatchFrom(f, run, fullName, cs, {}, []);
        if m.NoAnswer? || |m.pulls| != 1 then None
        else
          var p := m.pulls[0];
          if !ValidRef("refs/heads/" + p.baseRef) then None
          else
            var own := PullMergeRef(p.number);
            Some(i.(writeRef := own, readRefs := Refs(own, BaseOf(run.pulls, p, ""), def)))
  }

  function ForBranch(f: Facts, run: RunInfo, def: string, i: Identity): Option<Identity> {
    var own := "refs/heads/" + run.headBranch;
    if i.fork || !ValidRef(own) || f.tags.None? || "refs/tags/" + run.headBranch in f.tags.value then None
    else if f.branch.None? || f.branch.value.rf != own || f.onBranch.None? then None
    else if !f.onBranch.value then Some(i)
    else Some(i.(writeRef := own, readRefs := Refs(own, "", def)))
  }

  predicate BranchEvent(event: string) {
    event == "push" || event == "workflow_dispatch" || event == "schedule" || event == "repository_dispatch"
  }

  function Decide(f: Facts, j: Job): Option<Identity> {
    if !ValidRepository(j.repository) || j.runID <= 0 || j.jobID == "" || f.run.None? then None
    else
      var run := f.run.value;
      if run.id != j.runID || run.event != j.event || !SameFold(run.repository, j.repository) || run.headSHA == ""
         || f.fullName.None? then None
      else
        var fullName, def := f.fullName.value, "refs/heads/" + f.defaultBranch;
        if !SameFold(fullName, j.repository) || !ValidRef(def) then None
        else
          var i := NoIdentity.(repository := Lower(fullName), event := run.event, runID := j.runID, jobID := j.jobID,
                               readRefs := [def], fork := !SameFold(run.headRepository, fullName));
          if run.event == "pull_request" then ForPull(f, run, fullName, def, i)
          else if BranchEvent(run.event) then ForBranch(f, run, def, i)
          else Some(i)
  }

  // --- what is granted ---

  lemma {:induction false} DigitsShort(n: nat, k: nat)
    requires n < Pow10(k) && k > 0
    ensures |Digits(n)| <= k
  {
    if n >= 10 && k > 1 {
      DigitsShort(n / 10, k - 1);
    }
  }

  function Pow10(k: nat): nat {
    if k == 0 then 1 else 10 * Pow10(k - 1)
  }

  lemma NumbersShort(n: nat)
    requires n < MAX_NUMBER
    ensures |Digits(n)| <= 19
  {
    assert Pow10(3) == 1000;
    assert Pow10(6) == 1000 * Pow10(3);
    assert Pow10(9) == 1000 * Pow10(6);
    assert Pow10(12) == 1000 * Pow10(9);
    assert Pow10(15) == 1000 * Pow10(12);
    assert Pow10(18) == 1000 * Pow10(15);
    assert Pow10(19) == 10 * Pow10(18);
    DigitsShort(n, 19);
  }

  /** A pull request's merge ref is a valid ref whatever its number. */
  lemma MergeRefValid(n: nat)
    requires n < MAX_NUMBER
    ensures ValidRef(PullMergeRef(n))
  {
    var r, d := PullMergeRef(n), Digits(n);
    NumbersShort(n);
    assert r[..10] == "refs/pull/" && r[10..10 + |d|] == d && r[10 + |d|..] == "/merge";
    MergeRefAt(n, |r| - 1);
    assert !HasSuffix(r, "/") by {
      assert r[|r| - 1..][0] == r[|r| - 1];
    }
    forall i | 0 <= i < |r| ensures r[i] !in RefForbidden && r[i] != '.' && r[i] != '@' {
      MergeRefChar(n, i);
    }
    forall i ensures !OccursAt(r, "//", i) && !OccursAt(r, "..", i) && !OccursAt(r, "@{", i) {
      Pair(r, "//", i);
      Pair(r, "..", i);
      Pair(r, "@{", i);
      if OccursAt(r, "//", i) {
        MergeRefSlash(n, i);
        MergeRefSlash(n, i + 1);
        assert false;
      }
    }
  }

  lemma Pair(s: string, p: string, i: int)
    requires |p| == 2
    ensures OccursAt(s, p, i) ==> 0 <= i < |s| - 1 && s[i] == p[0] && s[i + 1] == p[1]
  {
    if OccursAt(s, p, i) {
      assert s[i..i + 2][0] == s[i] && s[i..i + 2][1] == s[i + 1];
    }
  }

  lemma MergeRefAt(n: nat, i: nat)
    requires i < |PullMergeRef(n)|
    ensures var d := Digits(n);
            PullMergeRef(n)[i] == (if i < 10 then "refs/pull/"[i] else if i < 10 + |d| then d[i - 10] else "/merge"[i - 10 - |d|])
  {
  }

  lemma MergeRefChar(n: nat, i: nat)
    requires i < |PullMergeRef(n)|
    ensures var c := PullMergeRef(n)[i]; c !in RefForbidden && c != '.' && c != '@'
  {
    MergeRefAt(n, i);
  }

  lemma MergeRefSlash(n: nat, i: nat)
    requires i < |PullMergeRef(n)| && PullMergeRef(n)[i] == '/'
    ensures i == 4 || i == 9 || i == 10 + |Digits(n)|
  {
    MergeRefAt(n, i);
  }

  lemma {:induction false} BaseIsPulls(pulls: seq<PullRef>, p: Pull, base: string)
    requires base == "" || base == "refs/heads/" + p.baseRef
    ensures var b := BaseOf(pulls, p, base); b == "" || b == "refs/heads/" + p.baseRef
  {
    if pulls != [] {
      BaseIsPulls(pulls[1..], p, base);
      BaseIsPulls(pulls[1..], p, "refs/heads/" + p.baseRef);
    }
  }

  /** Rights as a record needs them: one to three valid refs to read, the one to write first among them. */
  predicate SoundRights(i: Identity) {
    && 1 <= |i.readRefs| <= 3 && (forall k :: 0 <= k < |i.readRefs| ==> ValidRef(i.readRefs[k]))
    && (i.writeRef != "" ==> ValidRef(i.writeRef) && i.readRefs[0] == i.writeRef)
  }

  lemma PullSound(f: Facts, run: RunInfo, fullName: string, def: string, i: Identity)
    requires ValidRef(def) && ForPull(f, run, fullName, def, i).Some?
    ensures var r := ForPull(f, run, fullName, def, i).value;
            SoundRights(r) && def in r.readRefs && r == i.(writeRef := r.writeRef, readRefs := r.readRefs)
  {
    var cs := if run.pulls == [] then f.commitPulls.value else run.pulls;
    var p := MatchFrom(f, run, fullName, cs, {}, []).pulls[0];
    var base := BaseOf(run.pulls, p, "");
    BaseIsPulls(run.pulls, p, "");
    MergeRefValid(p.number);
    RefsMean(PullMergeRef(p.number), base, def);
    hide ValidRef;
    NotEmpty(def);
    var refs := Refs(PullMergeRef(p.number), base, def);
    forall k | 0 <= k < |refs| ensures ValidRef(refs[k]) {
      assert refs[k] in refs;
    }
  }

  lemma NotEmpty(r: string)
    requires ValidRef(r)
    ensures r != ""
  {
  }

  lemma BranchSound(f: Facts, run: RunInfo, def: string, i: Identity)
    requires ValidRef(def) && ForBranch(f, run, def, i).Some? && i.readRefs == [def] && i.writeRef == ""
    ensures var r := ForBranch(f, run, def, i).value;
            && SoundRights(r) && def in r.readRefs && r == i.(writeRef := r.writeRef, readRefs := r.readRefs)
            && (r.writeRef != "" ==> !i.fork)
  {
    var own := "refs/heads/" + run.headBranch;
    RefsMean(own, "", def);
    hide ValidRef;
    NotEmpty(def);
    var refs := Refs(own, "", def);
    forall k | 0 <= k < |refs| && ValidRef(own) ensures ValidRef(refs[k]) {
      assert refs[k] in refs;
    }
  }

  /**
   Whatever is decided is for the job asked about, and its rights are sound: once a lease takes it on,
   the record is valid, so a successful resolution is never published as unresolved. It always reads
   the default branch.
   */
  lemma DecisionSound(f: Facts, j: Job, l: Identity, runner: string, now: int)
    requires Decide(f, j).Some? && runner != "" && l.generation != ""
    ensures var i := Decide(f, j).value;
            && AnswerFor(j, i) && Valid(Granted(l, runner, i, now), now)
            && "refs/heads/" + f.defaultBranch in i.readRefs
  {
    var run, fullName, def := f.run.value, f.fullName.value, "refs/heads/" + f.defaultBranch;
    var i := NoIdentity.(repository := Lower(fullName), event := run.event, runID := j.runID, jobID := j.jobID,
                         readRefs := [def], fork := !SameFold(run.headRepository, fullName));
    LowerValid(j.repository);
    hide ValidRef, ValidRepository, ForPull, ForBranch, Lower;
    if run.event == "pull_request" {
      PullSound(f, run, fullName, def, i);
    } else if BranchEvent(run.event) {
      BranchSound(f, run, def, i);
    } else {
      assert SoundRights(i);
    }
  }

  ghost predicate AllOwn(run: RunInfo, fullName: string, ps: seq<Pull>) {
    forall k :: 0 <= k < |ps| ==> 0 < ps[k].number && Own(run, fullName, ps[k])
  }

  lemma {:induction false} MatchedOwn(f: Facts, run: RunInfo, fullName: string, cs: seq<PullRef>, seen: set<int>, out: seq<Pull>)
    requires AllOwn(run, fullName, out)
    ensures var m := MatchFrom(f, run, fullName, cs, seen, out); m.Found? ==> AllOwn(run, fullName, m.pulls)
    decreases |cs|
  {
    if cs != [] {
      var c := cs[0];
      if c.number <= 0 || c.number in seen {
        MatchedOwn(f, run, fullName, cs[1..], seen, out);
      } else if c.number in f.pulls {
        var p := f.pulls[c.number];
        MatchedOwn(f, run, fullName, cs[1..], seen + {c.number}, if Matches(run, fullName, c, p) then out + [p] else out);
      }
    }
  }

  /** The pull request is of the run's own branch and of this repository. */
  predicate Own(run: RunInfo, fullName: string, p: Pull) {
    p.headRef == run.headBranch && SameFold(p.headRepo, run.headRepository) && SameFold(p.baseRepo, fullName)
  }

  /**
   A job may write one of two refs: the merge ref of the one pull request its run belongs to, or, for a
   run of the repository's own branch that no tag shares a name with and whose commit is on it, that
   branch. So no pull request ever writes what a branch reads as its own, nor what another one does.
   */
  lemma WritesOwnScope(f: Facts, j: Job, g: Facts, k: Job)
    requires Decide(f, j).Some? && Decide(g, k).Some?
    requires Decide(f, j).value.writeRef != "" && Decide(f, j).value.writeRef == Decide(g, k).value.writeRef
    ensures j.event == "pull_request" <==> k.event == "pull_request"
    ensures j.event == "pull_request" ==>
              exists p: Pull, q: Pull ::
                && 0 < p.number == q.number && Decide(f, j).value.writeRef == PullMergeRef(p.number)
                && Own(f.run.value, f.fullName.value, p) && Own(g.run.value, g.fullName.value, q)
    ensures j.event != "pull_request" ==>
              && f.run.value.headBranch == g.run.value.headBranch && BranchEvent(j.event) && BranchEvent(k.event)
              && !Decide(f, j).value.fork && f.onBranch == Some(true)
              && f.tags.Some? && "refs/tags/" + f.run.value.headBranch !in f.tags.value
  {
    hide Decide;
    var w := Decide(f, j).value.writeRef;
    assert j.event != "pull_request" ==> w[5] == 'h' by {
      if j.event != "pull_request" {
        BranchWrites(f, j);
      }
    }
    assert k.event != "pull_request" ==> w[5] == 'h' by {
      if k.event != "pull_request" {
        BranchWrites(g, k);
      }
    }
    if j.event == "pull_request" {
      var p := PullWrites(f, j);
      assert w[5] == 'p';
      var q := PullWrites(g, k);
      MergeRefInjective(p.number, q.number);
    } else {
      if k.event == "pull_request" {
        var q := PullWrites(g, k);
        MergeRefAt(q.number, 5);
        assert false;
      }
      BranchWrites(f, j);
      BranchWrites(g, k);
      assert w[11..] == f.run.value.headBranch;
    }
  }

  lemma MergeRefInjective(m: nat, n: nat)
    requires PullMergeRef(m) == PullMergeRef(n)
    ensures m == n
  {
    var a, b := PullMergeRef(m), PullMergeRef(n);
    assert a[10..|a| - 6] == Digits(m) && b[10..|b| - 6] == Digits(n);
    DigitsInjective(m, n);
  }

  lemma PullWrites(f: Facts, j: Job) returns (p: Pull)
    requires Decide(f, j).Some? && j.event == "pull_request"
    ensures 0 < p.number && Own(f.run.value, f.fullName.value, p) && Decide(f, j).value.writeRef == PullMergeRef(p.number)
  {
    hide ValidRef, ValidRepository, Lower, PullMergeRef, SameFold;
    var run, fullName := f.run.value, f.fullName.value;
    var cs := if run.pulls == [] then f.commitPulls.value else run.pulls;
    MatchedOwn(f, run, fullName, cs, {}, []);
    p := MatchFrom(f, run, fullName, cs, {}, []).pulls[0];
  }

  lemma BranchWrites(f: Facts, j: Job)
    requires Decide(f, j).Some? && j.event != "pull_request" && Decide(f, j).value.writeRef != ""
    ensures f.run.Some? && Decide(f, j).value.writeRef == "refs/heads/" + f.run.value.headBranch
    ensures BranchEvent(j.event) && !Decide(f, j).value.fork && f.onBranch == Some(true)
    ensures f.tags.Some? && "refs/tags/" + f.run.value.headBranch !in f.tags.value
  {
    hide ValidRef, ValidRepository, Lower;
  }

  // --- a repository's lower-case form ---

  lemma LowerCons(c: char, s: string)
    ensures Lower([c] + s) == [LowerChar(c)] + Lower(s)
  {
  }

  ghost predicate LowerParts(p: seq<string>, q: seq<string>) {
    |p| == |q| && forall k :: 0 <= k < |p| ==> q[k] == Lower(p[k])
  }

  lemma {:induction false} LowerSplit(s: string, c: char)
    requires LowerChar(c) == c && !('a' <= c <= 'z')
    ensures LowerParts(Split(s, c), Split(Lower(s), c))
  {
    if s == "" {
      assert Lower(s) == "";
    } else {
      LowerSplit(s[1..], c);
      var rest, t := Split(s[1..], c), Lower(s);
      assert t[1..] == Lower(s[1..]) && t[0] == LowerChar(s[0]);
      assert (t[0] == c) == (s[0] == c);
      hide Lower, LowerChar;
      if s[0] == c {
        assert Lower("") == "" by {
          LowerEmpty();
        }
      } else {
        LowerCons(s[0], rest[0]);
      }
    }
  }

  lemma LowerEmpty()
    ensures Lower("") == ""
  {
  }

  lemma LowerName(s: string)
    requires ValidName(s)
    ensures ValidName(Lower(s))
  {
    var t := Lower(s);
    forall k | 0 <= k < |s| ensures RepositoryChar(t[k]) && (t[k] == '.' <==> s[k] == '.') {
      assert t[k] == LowerChar(s[k]);
    }
    assert t == "." <==> |t| == 1 && t[0] == '.';
    assert t == ".." <==> |t| == 2 && t[0] == '.' && t[1] == '.';
    assert s != "." && |s| == 1 ==> s[0] != '.';
    assert s != ".." && |s| == 2 ==> s[0] != '.' || s[1] != '.';
  }

  lemma LowerValid(repo: string)
    requires ValidRepository(repo)
    ensures ValidRepository(Lower(repo))
  {
    LowerSplit(repo, '/');
    var p := Split(repo, '/');
    LowerName(p[0]);
    LowerName(p[1]);
  }
}
