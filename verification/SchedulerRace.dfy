/**
 When the promise that no job is cancelled holds: with a remover, or where nothing can run at all.
 Otherwise, for every limit and minimum, some run cancels a runner in the moments between GitHub
 assigning it a job and its guest saying so.
 */
module SchedulerRace {
  import opened Scheduling
  import opened SchedulerRuns
  import opened SchedulerTheorems

  /** One launch, nobody cancelled. */
  ghost predicate Lone(w: World, p: Phase) {
    w.launches == map[0 := p] && CancelledNames(w.s.active) == {} && !w.ctxDone && w.s.max >= 1 && w.s.min == 0 && !w.s.hasRemover
  }

  ghost predicate Untroubled(s: Sched) {
    s.running == 1 && s.backingOff == 0 && s.removeQ == [] && !s.draining && !s.removerActive
  }

  lemma LaunchingPass(s: Sched)
    requires 1 <= s.max && s == New(s.max, 0, false)
    ensures Reconcile(s, 1, []) == Pass(Commit(Asked(s, 1), 1), 1, 0, 0, false)
  {
    assert GoneNames(s.active) == {};
    assert Live(Asked(s, 1)) == 0 && Reclaim(Asked(s, 1), 1) == (Asked(s, 1), 0);
  }

  /** A pass of the plan as a step, whatever it decides. */
  lemma Planning(w: World, jobs: int, order: seq<Name>, p: Pass) returns (v: World)
    requires Enumerates(order, w.s.active.Keys) && p == Reconcile(w.s, jobs, order)
    ensures Next(w, DoReconcile(jobs, order), v)
    ensures v.s == p.s && v.launches == Spawn(w, p.s, p.launched).launches && v.gh == w.gh && v.ctxDone == w.ctxDone
  {
    v := Do(w, DoReconcile(jobs, order));
  }

  /** Asked for one job, the idle tier commits a launch. */
  lemma Launching(w: World) returns (v: World)
    requires 1 <= w.s.max && w == Start(w.s.max, 0, false)
    ensures Next(w, DoReconcile(1, []), v) && Lone(v, Committed) && Untroubled(v.s)
    ensures v.s.active == map[] && v.gh == w.gh
  {
    var c := Commit(Asked(w.s, 1), 1);
    LaunchingPass(w.s);
    SpawnOne(w, c);
    hide Next, Reconcile, Spawn;
    v := Planning(w, 1, [], Pass(c, 1, 0, 0, false));
    assert CancelledNames(v.s.active) == {};
  }

  lemma SpawnOne(w: World, s: Sched)
    requires w.launches == map[] && w.next == 0
    ensures Spawn(w, s, 1) == w.(s := s, launches := map[0 := Committed], next := 1)
  {
    assert AddLaunches(w.launches, 0, 0) == w.launches;
  }

  /** The launch goes on to its next phase. */
  lemma Moving(w: World, p: Phase, st: Step) returns (v: World)
    requires Lone(w, p) && Untroubled(w.s) && Moves(st) && MoveEnabled(w, st) && st.l == 0
    ensures Next(w, st, v) && Lone(v, NextPhase(p, st)) && (!st.DoBackoff? && !st.DoWake? ==> Untroubled(v.s))
    ensures v.s.active == MovedSched(w.s, st).active && v.gh == MoveStep(w, st).gh
  {
    v := Do(w, st);
    assert CancelledNames(MovedSched(w.s, st).active) == {};
    assert w.launches[0 := NextPhase(p, st)] == map[0 := NextPhase(p, st)];
  }

  /** GitHub assigns the runner a job; nothing here has heard of it yet. */
  lemma Assigning(w: World) returns (v: World)
    requires Lone(w, Tracked) && Untroubled(w.s) && 0 in w.gh.registered
    ensures Next(w, DoAssign(0), v) && Lone(v, Tracked) && Untroubled(v.s) && v.s.active == w.s.active
    ensures 0 in v.gh.working
  {
    v := Do(w, DoAssign(0));
  }

  lemma CancellingPass(s: Sched)
    requires s.max >= 1 && s.min == 0 && !s.hasRemover && Untroubled(s)
    requires s.active == map[0 := Handle(false, false, false, false, 0)]
    ensures Reconcile(s, 0, [0]) == Pass(Cancel(Asked(s, 0), 0), 0, 0, 1, false)
  {
    var a := Asked(s, 0);
    assert GoneNames(a.active) == {};
    assert Live(a) == 1 && Reclaim(a, -1) == (a, 0) && Commit(a, 0) == a;
    var t := Pick(a, 0);
    assert PickMany(t, [], 0) == (t, 0);
    assert [0][1..] == [];
    assert PickMany(a, [0], 1) == (t, 1);
  }

  /** The count falls to none before the guest reports the job: scale-down cancels the runner. */
  lemma Cancelling(w: World) returns (v: World)
    requires Lone(w, Tracked) && Untroubled(w.s) && w.s.active == map[0 := Handle(false, false, false, false, 0)]
    ensures Next(w, DoReconcile(0, [0]), v)
    ensures 0 in v.s.active && v.s.active[0].cancelled && !v.ctxDone && v.gh == w.gh
  {
    CancellingPass(w.s);
    hide Next, Reconcile, Spawn;
    v := Planning(w, 0, [0], Pass(Cancel(Asked(w.s, 0), 0), 0, 0, 1, false));
  }

  /** The launch enters and is tracked. */
  lemma Boarding(w1: World) returns (w2: World, w3: World, w4: World, w5: World)
    requires Lone(w1, Committed) && Untroubled(w1.s) && w1.s.active == map[]
    ensures Next(w1, DoGenerate(0, true, true), w2) && Next(w2, DoEnter(0), w3)
    ensures Next(w3, DoEntered(0), w4) && Next(w4, DoTrack(0), w5)
    ensures Lone(w5, Tracked) && Untroubled(w5.s) && 0 in w5.gh.registered
    ensures w5.s.active == map[0 := Handle(false, false, false, false, 0)]
  {
    hide Next;
    w2 := Moving(w1, Committed, DoGenerate(0, true, true));
    w3 := Moving(w2, Leaving(ToTrack), DoEnter(0));
    w4 := Moving(w3, HalfEntered(ToTrack), DoEntered(0));
    w5 := Moving(w4, Entered(ToTrack), DoTrack(0));
  }

  /** Before any count is known, a new minimum is only stored. */
  lemma Lowering(max: nat, min: int)
    ensures Next(Start(max, min, false), DoSetMin(0, []), Start(max, 0, false))
  {
    var w := Start(max, min, false);
    assert CancelledNames(w.s.active) == {};
  }

  /** For every limit that lets anything run and every minimum. */
  lemma JobCancelledWithoutRemover(max: nat, min: int) returns (ws: seq<World>, steps: seq<Step>, n: Name)
    requires 1 <= max
    ensures Run(ws, steps, max, min, false) && |ws| == 9
    ensures !ws[8].ctxDone && n in ws[8].s.active && ws[8].s.active[n].cancelled && n in ws[8].gh.working
  {
    hide Next, Run;
    Lowering(max, min);
    var w0 := Start(max, 0, false);
    var w1 := Launching(w0);
    var w2, w3, w4, w5 := Boarding(w1);
    var w6 := Assigning(w5);
    var w7 := Cancelling(w6);
    ws := [Start(max, min, false), w0, w1, w2, w3, w4, w5, w6, w7];
    steps := [DoSetMin(0, []), DoReconcile(1, []), DoGenerate(0, true, true), DoEnter(0), DoEntered(0), DoTrack(0),
              DoAssign(0), DoReconcile(0, [0])];
    IsRun(ws, steps, max, min);
    n := 0;
  }

  lemma IsRun(ws: seq<World>, steps: seq<Step>, max: nat, min: int)
    requires |ws| == 9 && |steps| == 8 && ws[0] == Start(max, min, false)
    requires Next(ws[0], steps[0], ws[1]) && Next(ws[1], steps[1], ws[2]) && Next(ws[2], steps[2], ws[3])
    requires Next(ws[3], steps[3], ws[4]) && Next(ws[4], steps[4], ws[5]) && Next(ws[5], steps[5], ws[6])
    requires Next(ws[6], steps[6], ws[7]) && Next(ws[7], steps[7], ws[8])
    ensures Run(ws, steps, max, min, false)
  {
    hide Next;
    forall i | 0 <= i < 8 ensures Next(ws[i], steps[i], ws[i + 1]) {
    }
  }

  /** No runner is cancelled at a moment when GitHub has it working. */
  ghost predicate SparesJobs(w: World) {
    forall n :: n in w.s.active && w.s.active[n].cancelled ==> n !in w.gh.working
  }

  /** No run of such a tier cancels a working runner before shutdown. */
  ghost predicate NeverCancelsAJob(max: nat, min: int, hasRemover: bool) {
    forall ws: seq<World>, steps: seq<Step>, i: nat ::
      Run(ws, steps, max, min, hasRemover) && i < |ws| && !ws[i].ctxDone ==> SparesJobs(ws[i])
  }

  lemma NothingRuns(ws: seq<World>, steps: seq<Step>, min: int, r: bool, i: nat)
    requires Run(ws, steps, 0, min, r) && i < |ws|
    ensures ws[i].s.active == map[]
  {
    hide Run, Live;
    CountersAgree(ws, steps, 0, min, r, i);
    assert ws[i].launches.Keys == {};
    assert ws[i].s.active.Keys == {};
  }

  /**
   Before shutdown no run cancels a runner with a job exactly when there is a remover, or the limit
   is zero and there is nothing to cancel.
   */
  lemma NoJobIsCancelledExactly(max: nat, min: int, hasRemover: bool)
    ensures NeverCancelsAJob(max, min, hasRemover) <==> hasRemover || max == 0
  {
    hide Run, SparesJobs;
    if hasRemover || max == 0 {
      forall ws: seq<World>, steps: seq<Step>, i: nat | Run(ws, steps, max, min, hasRemover) && i < |ws| && !ws[i].ctxDone
        ensures SparesJobs(ws[i])
      {
        Spared(ws, steps, max, min, hasRemover, i);
      }
    } else {
      var ws, steps, n := JobCancelledWithoutRemover(max, min);
      var i: nat := 8;
      assert !SparesJobs(ws[i]) by {
        NotSpared(ws[i], n);
      }
    }
  }

  lemma NotSpared(w: World, n: Name)
    requires n in w.s.active && w.s.active[n].cancelled && n in w.gh.working
    ensures !SparesJobs(w)
  {
  }

  lemma Spared(ws: seq<World>, steps: seq<Step>, max: nat, min: int, r: bool, i: nat)
    requires Run(ws, steps, max, min, r) && i < |ws| && !ws[i].ctxDone && (r || max == 0)
    ensures SparesJobs(ws[i])
  {
    hide Run;
    forall n | n in ws[i].s.active && ws[i].s.active[n].cancelled ensures n !in ws[i].gh.working {
      if r {
        NoJobIsCancelled(ws, steps, max, min, i, i, n);
      } else {
        NothingRuns(ws, steps, min, r, i);
      }
    }
  }
}
