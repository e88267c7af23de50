/** Resolving a job's identity: one resolution at a time for each run, and a bounded memo of policies. */
module Resolver {
  import opened Wrappers
  import opened Counting
  import opened Decimal
  import opened JobIdentity

  const MEMO := 1024
  const MEMO_TTL := 120

  type Key = string

  function RunKey(j: Job): Key
    requires 0 <= j.runID
  {
    Lower(j.repository) + "/" + Digits(j.runID) + "/" + j.event
  }

  predicate Resolvable(j: Job) {
    ValidRepository(j.repository) && j.runID > 0 && j.jobID != ""
  }

  // --- the key ---

  lemma {:induction false} SplitJoins(s: string, c: char)
    ensures var p := Split(s, c);
            && (forall i :: 0 <= i < |p| ==> c !in p[i])
            && (|p| == 1 ==> s == p[0])
            && (|p| == 2 ==> s == p[0] + [c] + p[1])
  {
    if s != "" {
      SplitJoins(s[1..], c);
      assert s == [s[0]] + s[1..];
    }
  }

  lemma LowerConcat(a: string, b: string)
    ensures Lower(a + b) == Lower(a) + Lower(b)
  {
  }

  lemma LowerSlash(a: string)
    requires '/' !in a
    ensures '/' !in Lower(a)
  {
    forall k | 0 <= k < |a| ensures Lower(a)[k] != '/' {
      assert a[k] in a;
    }
  }

  /** A valid repository is two parts without a slash of their own. */
  lemma RepositoryParts(repo: string) returns (owner: string, name: string)
    requires ValidRepository(repo)
    ensures Lower(repo) == Lower(owner) + ['/'] + Lower(name)
    ensures '/' !in Lower(owner) && '/' !in Lower(name)
  {
    SplitJoins(repo, '/');
    var p := Split(repo, '/');
    owner, name := p[0], p[1];
    LowerConcat(owner + ['/'], name);
    LowerConcat(owner, ['/']);
    LowerSlash(owner);
    LowerSlash(name);
  }

  lemma DigitsNoSlash(n: nat)
    ensures '/' !in Digits(n)
  {
  }

  /** The key tells runs and events apart: on valid repositories it is injective up to letter case. */
  lemma KeyInjective(i: Job, j: Job)
    requires ValidRepository(i.repository) && ValidRepository(j.repository) && 0 <= i.runID && 0 <= j.runID
    ensures RunKey(i) == RunKey(j) <==>
            Lower(i.repository) == Lower(j.repository) && i.runID == j.runID && i.event == j.event
  {
    if RunKey(i) == RunKey(j) {
      var a, x := RepositoryParts(i.repository);
      var b, y := RepositoryParts(j.repository);
      var u := Lower(x) + ['/'] + (Digits(i.runID) + ['/'] + i.event);
      var v := Lower(y) + ['/'] + (Digits(j.runID) + ['/'] + j.event);
      assert RunKey(i) == Lower(a) + ['/'] + u;
      assert RunKey(j) == Lower(b) + ['/'] + v;
      SplitsOnce(Lower(a), Lower(b), u, v, '/');
      SplitsOnce(Lower(x), Lower(y), Digits(i.runID) + ['/'] + i.event, Digits(j.runID) + ['/'] + j.event, '/');
      DigitsNoSlash(i.runID);
      DigitsNoSlash(j.runID);
      SplitsOnce(Digits(i.runID), Digits(j.runID), i.event, j.event, '/');
      DigitsInjective(i.runID, j.runID);
    }
  }

  // --- the memo ---

  datatype Saved = Saved(identity: Identity, expiry: int)

  /** Under one lock: what is memoized, and for which keys a resolution is going on. */
  datatype State = State(runs: map<Key, Saved>, pending: set<Key>)

  datatype Look = Cached(identity: Identity) | Wait | Resolve

  /** The first locked section: answer from the memo, wait for the resolution going on, or start one. */
  function LookUp(s: State, j: Job, now: int): (State, Look)
    requires Resolvable(j)
  {
    var key := RunKey(j);
    if key in s.runs && now < s.runs[key].expiry then (s, Cached(s.runs[key].identity.(jobID := j.jobID)))
    else if key in s.pending then (s, Wait)
    else (s.(pending := s.pending + {key}), Resolve)
  }

  /** The second: memoize a success, dropping some entry of a full memo, and let the others go on. */
  function Finish(s: State, j: Job, r: Option<Identity>, now: int, drop: Key): State
    requires Resolvable(j)
  {
    var key := RunKey(j);
    var runs :=
      if r.None? then s.runs
      else
        var kept := if |s.runs| >= MEMO then s.runs - {drop} else s.runs;
        kept[key := Saved(r.value.(jobID := ""), now + MEMO_TTL)];
    State(runs, s.pending - {key})
  }

  class Memo {
    var runs: map<Key, Saved>
    var pending: set<Key>

    ghost function Abs(): State
      reads this
    {
      State(runs, pending)
    }

    constructor ()
      ensures Abs() == State(map[], {})
    {
      runs, pending := map[], {};
    }

    method Begin(j: Job, now: int) returns (look: Look)
      requires Resolvable(j)
      modifies this
      ensures (Abs(), look) == LookUp(old(Abs()), j, now)
    {
      var key := RunKey(j);
      if key in runs && now < runs[key].expiry {
        return Cached(runs[key].identity.(jobID := j.jobID));
      }
      if key in pending {
        return Wait;
      }
      pending := pending + {key};
      return Resolve;
    }

    method Done(j: Job, r: Option<Identity>, now: int) returns (ghost drop: Key)
      requires Resolvable(j)
      modifies this
      ensures Abs() == Finish(old(Abs()), j, r, now, drop)
      ensures |old(runs)| >= MEMO ==> drop in old(runs)
    {
      var key := RunKey(j);
      drop := key;
      if |runs| >= MEMO {
        // the range over the map stops at the first key it gives
        var k :| k in runs.Keys;
        drop := k;
        if r.Some? {
          runs := runs - {k};
        }
      }
      if r.Some? {
        runs := runs[key := Saved(r.value.(jobID := ""), now + MEMO_TTL)];
      }
      pending := pending - {key};
    }
  }

  // --- every interleaving of callers ---

  type Caller = nat

  datatype Pc = Asking(job: Job) | Resolving(job: Job)

  datatype Answered = Answered(job: Job, identity: Identity)

  datatype World = World(s: State, callers: map<Caller, Pc>, answers: set<Answered>)

  datatype Step =
    | DoAsk(c: Caller, job: Job)
    | DoLook(c: Caller, now: int)
    | DoFinish(c: Caller, r: Option<Identity>, now: int, drop: Key)
    | DoLeave(c: Caller)

  predicate Enabled(w: World, st: Step) {
    match st
    case DoAsk(c, job) => c !in w.callers && Resolvable(job)
    case DoLook(c, _) => c in w.callers && w.callers[c].Asking? && Resolvable(w.callers[c].job)
    case DoFinish(c, r, _, drop) =>
      && c in w.callers && w.callers[c].Resolving? && Resolvable(w.callers[c].job)
      && (r.Some? ==> AnswerFor(w.callers[c].job, r.value)) && (|w.s.runs| >= MEMO ==> drop in w.s.runs)
    case DoLeave(c) => c in w.callers && w.callers[c].Asking?
  }

  function Do(w: World, st: Step): World
    requires Enabled(w, st)
  {
    match st
    case DoAsk(c, job) => w.(callers := w.callers[c := Asking(job)])
    case DoLook(c, now) =>
      var j := w.callers[c].job;
      var (s, look) := LookUp(w.s, j, now);
      (match look
       case Cached(i) => w.(s := s, callers := w.callers - {c}, answers := w.answers + {Answered(j, i)})
       case Wait => w
       case Resolve => w.(s := s, callers := w.callers[c := Resolving(j)]))
    case DoFinish(c, r, now, drop) =>
      var j := w.callers[c].job;
      w.(s := Finish(w.s, j, r, now, drop), callers := w.callers - {c},
         answers := if r.Some? then w.answers + {Answered(j, r.value)} else w.answers)
    case DoLeave(c) => w.(callers := w.callers - {c})
  }

  const Start := World(State(map[], {}), map[], {})

  ghost predicate Run(ws: seq<World>, steps: seq<Step>) {
    && |ws| == |steps| + 1 && ws[0] == Start
    && forall k :: 0 <= k < |steps| ==> Enabled(ws[k], steps[k]) && ws[k + 1] == Do(ws[k], steps[k])
  }

  /** A memoized policy is that of every valid job with its key, up to the job's own id. */
  ghost predicate SavedOk(key: Key, i: Identity) {
    i.jobID == "" && exists j :: Resolvable(j) && RunKey(j) == key && AnswerFor(j, i.(jobID := j.jobID))
  }

  ghost predicate MemoOk(w: World) {
    |w.s.runs| <= MEMO && forall key :: key in w.s.runs ==> SavedOk(key, w.s.runs[key].identity)
  }

  /** Each resolution going on is marked under its key, and no two under one. */
  ghost predicate FlightsOk(w: World) {
    && (forall c :: c in w.callers ==> Resolvable(w.callers[c].job))
    && (forall c :: c in w.callers && w.callers[c].Resolving? ==> RunKey(w.callers[c].job) in w.s.pending)
    && (forall c, d :: c in w.callers && d in w.callers && c != d && w.callers[c].Resolving? && w.callers[d].Resolving? ==>
                         RunKey(w.callers[c].job) != RunKey(w.callers[d].job))
  }

  ghost predicate AnswersOk(w: World) {
    forall x :: x in w.answers ==> AnswerFor(x.job, x.identity)
  }

  ghost predicate Inv(w: World) {
    MemoOk(w) && FlightsOk(w) && AnswersOk(w)
  }

  lemma CachedIsOwn(key: Key, i: Identity, j: Job)
    requires SavedOk(key, i) && Resolvable(j) && RunKey(j) == key
    ensures AnswerFor(j, i.(jobID := j.jobID))
  {
    var k :| Resolvable(k) && RunKey(k) == key && AnswerFor(k, i.(jobID := k.jobID));
    KeyInjective(j, k);
  }

  lemma FlightsStep(w: World, st: Step)
    requires FlightsOk(w) && Enabled(w, st)
    ensures FlightsOk(Do(w, st))
  {
    hide ValidRepository, RunKey, AnswerFor;
  }

  lemma LookInv(w: World, st: Step)
    requires MemoOk(w) && AnswersOk(w) && Enabled(w, st) && st.DoLook?
    ensures MemoOk(Do(w, st)) && AnswersOk(Do(w, st))
  {
    hide ValidRepository, RunKey, SavedOk;
    var j := w.callers[st.c].job;
    if LookUp(w.s, j, st.now).1.Cached? {
      CachedIsOwn(RunKey(j), w.s.runs[RunKey(j)].identity, j);
    }
  }

  lemma MemoBounded(s: State, j: Job, r: Option<Identity>, now: int, drop: Key)
    requires Resolvable(j) && |s.runs| <= MEMO && (|s.runs| >= MEMO ==> drop in s.runs)
    ensures |Finish(s, j, r, now, drop).runs| <= MEMO
  {
    if r.Some? {
      var kept := if |s.runs| >= MEMO then s.runs - {drop} else s.runs;
      KeysCard(s.runs, drop, Saved(r.value, 0));
      KeysCard(kept, RunKey(j), Saved(r.value.(jobID := ""), now + MEMO_TTL));
    }
  }

  lemma FinishInv(w: World, st: Step)
    requires MemoOk(w) && AnswersOk(w) && Enabled(w, st) && st.DoFinish?
    ensures MemoOk(Do(w, st)) && AnswersOk(Do(w, st))
  {
    hide ValidRepository, RunKey, SavedOk;
    var j, v := w.callers[st.c].job, Do(w, st);
    MemoBounded(w.s, j, st.r, st.now, st.drop);
    if st.r.Some? {
      NewIsOk(j, st.r.value);
    }
  }

  lemma NewIsOk(j: Job, a: Identity)
    requires Resolvable(j) && AnswerFor(j, a)
    ensures SavedOk(RunKey(j), a.(jobID := ""))
  {
    hide RunKey, ValidRepository;
    var i := a.(jobID := "");
    assert AnswerFor(j, i.(jobID := j.jobID));
  }

  lemma InvStep(w: World, st: Step)
    requires Inv(w) && Enabled(w, st)
    ensures Inv(Do(w, st))
  {
    hide MemoOk, FlightsOk, AnswersOk, Finish, LookUp, AnswerFor;
    FlightsStep(w, st);
    match st
    case DoLook(_, _) => LookInv(w, st);
    case DoFinish(_, _, _, _) => FinishInv(w, st);
    case _ => SameMemo(w, Do(w, st));
  }

  lemma SameMemo(w: World, v: World)
    requires MemoOk(w) && AnswersOk(w) && v.s == w.s && v.answers == w.answers
    ensures MemoOk(v) && AnswersOk(v)
  {
  }

  lemma {:induction false} Reachable(ws: seq<World>, steps: seq<Step>, k: nat)
    requires Run(ws, steps) && k < |ws|
    ensures Inv(ws[k])
  {
    hide Inv, Enabled, Do;
    if k == 0 {
      StartOk();
    } else {
      Reachable(ws, steps, k - 1);
      assert Enabled(ws[k - 1], steps[k - 1]) && ws[k] == Do(ws[k - 1], steps[k - 1]);
      InvStep(ws[k - 1], steps[k - 1]);
    }
  }

  lemma StartOk()
    ensures Inv(Start)
  {
  }

  /**
   At any time at most one caller resolves for a repository, run and event; the memo is bounded; and
   every caller is answered for its own job, whichever path answers it.
   */
  lemma SingleFlight(ws: seq<World>, steps: seq<Step>, k: nat)
    requires Run(ws, steps) && k < |ws|
    ensures var w := ws[k];
            && (forall c, d :: c in w.callers && d in w.callers && c != d && w.callers[c].Resolving? && w.callers[d].Resolving? ==>
                                 Different(w.callers[c].job, w.callers[d].job))
            && |w.s.runs| <= MEMO
            && (forall x :: x in w.answers ==> AnswerFor(x.job, x.identity))
  {
    Reachable(ws, steps, k);
    var w := ws[k];
    forall c, d | c in w.callers && d in w.callers && c != d && w.callers[c].Resolving? && w.callers[d].Resolving?
      ensures Different(w.callers[c].job, w.callers[d].job)
    {
      KeyInjective(w.callers[c].job, w.callers[d].job);
    }
  }

  predicate Different(i: Job, j: Job) {
    Lower(i.repository) != Lower(j.repository) || i.runID != j.runID || i.event != j.event
  }

  // --- who waits, who resolves, and who is answered from the memo ---

  /** Some caller is resolving under the key. */
  ghost predicate InFlight(w: World, key: Key) {
    exists c :: c in w.callers && w.callers[c].Resolving? && Resolvable(w.callers[c].job) && RunKey(w.callers[c].job) == key
  }

  /** Every mark has its resolution: nobody waits for one that is over. */
  ghost predicate MarksOk(w: World) {
    forall key :: key in w.s.pending ==> InFlight(w, key)
  }

  lemma StillInFlight(w: World, v: World, key: Key, c: Caller)
    requires InFlight(w, key) && (forall d :: d in w.callers && d != c ==> d in v.callers && v.callers[d] == w.callers[d])
    requires c in w.callers && w.callers[c].Resolving? && Resolvable(w.callers[c].job) ==> RunKey(w.callers[c].job) != key
    ensures InFlight(v, key)
  {
    hide ValidRepository, RunKey;
    var d :| d in w.callers && w.callers[d].Resolving? && Resolvable(w.callers[d].job) && RunKey(w.callers[d].job) == key;
    assert v.callers[d] == w.callers[d];
  }

  lemma MarksStep(w: World, st: Step)
    requires MarksOk(w) && Enabled(w, st)
    ensures MarksOk(Do(w, st))
  {
    var v := Do(w, st);
    hide ValidRepository, RunKey, AnswerFor;
    forall key | key in v.s.pending ensures InFlight(v, key) {
      if key in w.s.pending {
        StillInFlight(w, v, key, st.c);
      } else {
        assert v.callers[st.c] == Resolving(w.callers[st.c].job);
      }
    }
  }

  lemma {:induction false} Marked(ws: seq<World>, steps: seq<Step>, k: nat)
    requires Run(ws, steps) && k < |ws|
    ensures MarksOk(ws[k])
  {
    hide MarksOk, Enabled, Do;
    if k == 0 {
      assert MarksOk(Start) by {
        NoMarks();
      }
    } else {
      Marked(ws, steps, k - 1);
      assert Enabled(ws[k - 1], steps[k - 1]) && ws[k] == Do(ws[k - 1], steps[k - 1]);
      MarksStep(ws[k - 1], steps[k - 1]);
    }
  }

  lemma NoMarks()
    ensures MarksOk(Start)
  {
  }

  /** A policy memoized for the job's run, event and repository that has not run out. */
  predicate Fresh(w: World, j: Job, now: int)
    requires Resolvable(j)
  {
    RunKey(j) in w.s.runs && now < w.s.runs[RunKey(j)].expiry
  }

  /**
   Answered from the memo if a policy is fresh; waiting exactly while another caller resolves the same run;
   else resolving.
   */
  ghost predicate Looked(w: World, v: World, c: Caller, now: int) {
    c in w.callers && w.callers[c].Asking? && Resolvable(w.callers[c].job) && v.s.runs == w.s.runs &&
    var j := w.callers[c].job;
    if Fresh(w, j, now) then
      v == w.(callers := w.callers - {c}, answers := w.answers + {Answered(j, w.s.runs[RunKey(j)].identity.(jobID := j.jobID))})
    else if InFlight(w, RunKey(j)) then v == w
    else v == w.(s := v.s, callers := w.callers[c := Resolving(j)])
  }

  lemma LookMeans(ws: seq<World>, steps: seq<Step>, k: nat)
    requires Run(ws, steps) && k < |steps| && steps[k].DoLook?
    ensures Looked(ws[k], ws[k + 1], steps[k].c, steps[k].now)
  {
    Marked(ws, steps, k);
    Reachable(ws, steps, k);
    assert Enabled(ws[k], steps[k]) && ws[k + 1] == Do(ws[k], steps[k]);
    hide Run;
    LookOne(ws[k], steps[k]);
    hide Inv, MarksOk, Enabled, Do, Looked;
  }

  lemma LookOne(w: World, st: Step)
    requires Inv(w) && MarksOk(w) && Enabled(w, st) && st.DoLook?
    ensures Looked(w, Do(w, st), st.c, st.now)
  {
    FlightMarked(w, RunKey(w.callers[st.c].job));
    hide Resolvable, RunKey, InFlight, Inv, MarksOk;
  }

  lemma FlightMarked(w: World, key: Key)
    requires Inv(w) && MarksOk(w)
    ensures InFlight(w, key) <==> key in w.s.pending
  {
    hide ValidRepository, RunKey, MemoOk, AnswersOk;
  }

  /**
   A resolution that failed leaves the memo as it was; one that succeeded is in it for two minutes, for
   whichever job of the run.
   */
  ghost predicate Finished(w: World, v: World, st: Step) {
    st.DoFinish? && st.c in w.callers && Resolvable(w.callers[st.c].job) && v.callers == w.callers - {st.c} &&
    var j := w.callers[st.c].job;
    && !InFlight(v, RunKey(j))
    && (if st.r.Some? then
          && v.answers == w.answers + {Answered(j, st.r.value)}
          && RunKey(j) in v.s.runs && v.s.runs[RunKey(j)] == Saved(st.r.value.(jobID := ""), st.now + 120)
          && (forall key :: key in w.s.runs && key != RunKey(j) && (|w.s.runs| < 1024 || key != st.drop) ==>
                              key in v.s.runs && v.s.runs[key] == w.s.runs[key])
        else v.s.runs == w.s.runs && v.answers == w.answers)
  }

  lemma FinishMeans(ws: seq<World>, steps: seq<Step>, k: nat)
    requires Run(ws, steps) && k < |steps| && steps[k].DoFinish?
    ensures Finished(ws[k], ws[k + 1], steps[k])
  {
    Reachable(ws, steps, k);
    Reachable(ws, steps, k + 1);
    assert Enabled(ws[k], steps[k]) && ws[k + 1] == Do(ws[k], steps[k]);
    hide Run;
    FinishOne(ws[k], steps[k]);
    hide Inv, Enabled, Do, Finished;
  }

  lemma FinishOne(w: World, st: Step)
    requires Inv(w) && Enabled(w, st) && Inv(Do(w, st)) && st.DoFinish?
    ensures Finished(w, Do(w, st), st)
  {
    hide ValidRepository, RunKey, MemoOk, AnswersOk, AnswerFor;
  }

  /**
   So one resolution answers the other jobs of its run: whoever asks next, within two minutes, gets the same
   policy under its own job's id.
   */
  lemma MemoServes(ws: seq<World>, steps: seq<Step>, k: nat, j: Job)
    requires Run(ws, steps) && k + 1 < |steps| && steps[k].DoFinish? && steps[k].r.Some? && steps[k + 1].DoLook?
    requires steps[k + 1].c in ws[k + 1].callers && ws[k + 1].callers[steps[k + 1].c].job == j && steps[k + 1].now < steps[k].now + 120
    requires steps[k].c in ws[k].callers && !Different(ws[k].callers[steps[k].c].job, j)
    ensures Answered(j, steps[k].r.value.(jobID := j.jobID)) in ws[k + 2].answers && steps[k + 1].c !in ws[k + 2].callers
  {
    FinishMeans(ws, steps, k);
    LookMeans(ws, steps, k + 1);
    hide Run, InFlight;
    KeyInjective(ws[k].callers[steps[k].c].job, j);
    hide RunKey;
  }
}
