/** The scheduler's promises over whole runs. */
module SchedulerTheorems {
  import opened Wrappers
  import opened Counting
  import opened Scheduling
  import opened SchedulerFacts
  import opened SchedulerPass
  import opened SchedulerRuns
  import opened SchedulerSafety

  // --- no job is cancelled ---

  lemma {:induction false} RecordsGrow(ws: seq<World>, steps: seq<Step>, max: int, min: int, r: bool, i: nat, j: nat)
    requires Run(ws, steps, max, min, r) && 0 <= max && i <= j < |ws|
    ensures ws[i].stopped <= ws[j].stopped
  {
    hide Inv, Next;
    if i < j {
      RecordsGrow(ws, steps, max, min, r, i, j - 1);
      Reachable(ws, steps, max, min, r, j - 1);
      RecordStep(ws, steps, max, min, r, j - 1);
    }
  }

  lemma RecordStep(ws: seq<World>, steps: seq<Step>, max: int, min: int, r: bool, i: nat)
    requires Run(ws, steps, max, min, r) && i < |steps| && Inv(ws[i])
    ensures ws[i].stopped <= ws[i + 1].stopped
  {
    assert Next(ws[i], steps[i], ws[i + 1]);
    StepRecords(ws[i], steps[i]);
    hide Raw, Enabled, Inv;
  }

  /**
   With a remover and before shutdown, a runner whose VM was cancelled has no job then and never
   gets one: GitHub knows it no more.
   */
  lemma NoJobIsCancelled(ws: seq<World>, steps: seq<Step>, max: int, min: int, i: nat, j: nat, n: Name)
    requires Run(ws, steps, max, min, true) && 0 <= max && i <= j < |ws|
    requires !ws[i].ctxDone && n in ws[i].s.active && ws[i].s.active[n].cancelled
    ensures n !in ws[j].gh.working && n !in ws[j].gh.registered
  {
    Reachable(ws, steps, max, min, true, i);
    Reachable(ws, steps, max, min, true, j);
    RecordsGrow(ws, steps, max, min, true, i, j);
    assert n in CancelledNames(ws[i].s.active);
  }

  /** Even once shutdown has begun, scale-down and the lost-runner check cancel only runners without a job. */
  lemma OnlyTheWatcherMayRace(ws: seq<World>, steps: seq<Step>, max: int, min: int, i: nat, n: Name)
    requires Run(ws, steps, max, min, true) && 0 <= max && i < |ws|
    requires n in ws[i].s.active && ws[i].s.active[n].cancelled && n in ws[i].gh.working
    ensures n in ws[i].reaped && n !in ws[i].stopped && ws[i].ctxDone
  {
    Reachable(ws, steps, max, min, true, i);
    assert n in CancelledNames(ws[i].s.active);
  }

  // --- the counters ---

  /**
   Every counter is what it stands for, the tier never exceeds its limit, and no launch is
   discounted twice: the launches still pending are all among the live ones.
   */
  lemma CountersAgree(ws: seq<World>, steps: seq<Step>, max: int, min: int, r: bool, i: nat)
    requires Run(ws, steps, max, min, r) && 0 <= max && i < |ws|
    ensures var w := ws[i];
            && w.s.running == |w.launches| && 0 <= w.s.running <= max
            && w.s.pending == |Where(w.launches, IsPending)|
            && w.s.backingOff == |Where(w.launches, IsBacking)|
            && w.s.active.Keys == Where(w.launches, IsTracked)
            && w.s.pending <= Live(w.s) <= w.s.running
            && Max(0, Live(w.s) - w.s.pending) == Live(w.s) - w.s.pending
  {
    Reachable(ws, steps, max, min, r, i);
    LiveCoversPending(ws[i]);
  }

  lemma LiveCoversPending(w: World)
    requires Counts(w)
    ensures 0 <= w.s.pending <= Live(w.s) <= w.s.running
  {
    var P, B, T := Where(w.launches, IsPending), Where(w.launches, IsBacking), Where(w.launches, IsTracked);
    assert P !! B && (P + B) !! T;
    assert |P + B + T| == |P| + |B| + |T|;
    SubsetCard(P + B + T, w.launches.Keys);
    SubsetCard(GoneNames(w.s.active), T);
    SubsetCard(B + GoneNames(w.s.active), w.launches.Keys);
  }

  /** Still draining, and no more in flight than before. */
  ghost predicate Shrinks(s: Sched, t: Sched) {
    t.draining && t.running <= s.running
  }

  lemma DrainFinish(w: World, s: Sched, jobDone: bool)
    requires s.draining
    ensures Shrinks(s, Finish(s, jobDone, w.ctxDone).0)
  {
  }

  lemma DrainReconcile(w: World, jobs: int, order: seq<Name>)
    requires Queue(w) && w.s.draining
    ensures Shrinks(w.s, Reconcile(w.s, jobs, order).s)
  {
    PassFacts(Asked(w.s, jobs), order, Inflight(w.loop), !w.ctxDone);
  }

  lemma DrainSetMin(w: World, floor: int, order: seq<Name>)
    requires Queue(w) && w.s.draining
    ensures Shrinks(w.s, SetMin(w.s, floor, w.ctxDone, order).s)
  {
    PassFacts(w.s.(min := floor), order, Inflight(w.loop), !w.ctxDone);
  }

  lemma DrainPlans(w: World, st: Step)
    requires Queue(w) && Plans(st) && PlanEnabled(w, st) && w.s.draining
    ensures Shrinks(w.s, PlanStep(w, st).s)
  {
    match st
    case DoReconcile(jobs, order) => DrainReconcile(w, jobs, order);
    case DoSetMin(floor, order) => DrainSetMin(w, floor, order);
    case DoTopUp =>
    case DoExit(l, launchErr) => DrainFinish(w, Untrack(w.s, l), JobDone(w.s, l));
    case DoFinish(l) => DrainFinish(w, w.s, JobDoneOf(w.launches[l]));
  }

  lemma DrainRemoves(w: World, st: Step)
    requires Removes(st) && RemoveEnabled(w, st) && w.s.draining
    ensures Shrinks(w.s, RemoveStep(w, st).s)
  {
    hide NextRemoval;
    if st.DoTop? {
      NextRemovalSame(w.s);
    }
  }

  lemma DrainOthers(w: World, st: Step)
    requires w.s.draining && !Plans(st) && !Removes(st)
    ensures Moves(st) ==> Shrinks(w.s, MovedSched(w.s, st))
    ensures !Moves(st) ==> Shrinks(w.s, SignalSched(w.s, st))
  {
  }

  lemma DrainStep(w: World, st: Step)
    requires Inv(w) && Enabled(w, st) && w.s.draining
    ensures Shrinks(w.s, Do(w, st).s)
  {
    hide PlanStep, RemoveStep, MovedSched, SignalSched, Names, Counts, Queue, Cancels, Marks, Shrinks, SignalGitHub, NextPhase;
    assert Do(w, st).s == Raw(w, st).s;
    if Plans(st) {
      DrainPlans(w, st);
    } else if Removes(st) {
      DrainRemoves(w, st);
    } else {
      DrainOthers(w, st);
    }
  }

  /** From the moment a drain begins, the number of in-flight launches never rises again. */
  lemma {:induction false} DrainNeverGrows(
    ws: seq<World>, steps: seq<Step>, max: int, min: int, r: bool, i: nat, j: nat)
    requires Run(ws, steps, max, min, r) && 0 <= max && i <= j < |ws| && ws[i].s.draining
    ensures ws[j].s.draining && ws[j].s.running <= ws[i].s.running
  {
    hide Inv, Do, Enabled;
    if i < j {
      DrainNeverGrows(ws, steps, max, min, r, i, j - 1);
      Reachable(ws, steps, max, min, r, j - 1);
      assert Next(ws[j - 1], steps[j - 1], ws[j]);
      DrainStep(ws[j - 1], steps[j - 1]);
    }
  }

  // --- the removal queue ---

  /**
   Queued names are distinct, the one being removed is not queued, a queue always has its one remove
   loop, and until shutdown nothing is left marked removing without being queued or in flight.
   */
  lemma RemovalDiscipline(ws: seq<World>, steps: seq<Step>, max: int, min: int, r: bool, i: nat)
    requires Run(ws, steps, max, min, r) && 0 <= max && i < |ws|
    ensures var w := ws[i];
            && Distinct(w.s.removeQ)
            && (forall n :: n in w.s.removeQ ==> n !in Inflight(w.loop))
            && (w.s.removeQ != [] ==> !w.loop.NoLoop?) && (w.s.removerActive <==> !w.loop.NoLoop?)
            && (!w.ctxDone ==> forall n :: n in w.s.active && w.s.active[n].removing && !w.s.active[n].cancelled ==>
                                             n in w.s.removeQ || n in Inflight(w.loop))
  {
    Reachable(ws, steps, max, min, r, i);
  }

  /** The locked pass a step makes: for a count, or for a new minimum. */
  function PassOf(w: World, st: Step): Pass
    requires st.DoReconcile? || st.DoSetMin?
  {
    match st
    case DoReconcile(jobs, order) => Reconcile(w.s, jobs, order)
    case DoSetMin(floor, order) => SetMin(w.s, floor, w.ctxDone, order)
  }

  lemma StartsAlone(w: World, s: Sched, order: seq<Name>)
    requires Queue(w) && s.active == w.s.active && s.removeQ == w.s.removeQ && s.removerActive == w.s.removerActive
    requires ReconcileLocked(s, order).start
    ensures w.loop.NoLoop?
  {
    hide QueueOk, ReconcileLocked;
    assert QueueOk(s, Inflight(w.loop), !w.ctxDone) by {
      SameQueue(w.s, s, Inflight(w.loop), !w.ctxDone);
    }
    PassFacts(s, order, Inflight(w.loop), !w.ctxDone);
  }

  lemma SameQueue(s: Sched, t: Sched, inflight: set<Name>, strict: bool)
    requires QueueOk(s, inflight, strict) && t.active == s.active && t.removeQ == s.removeQ
    ensures QueueOk(t, inflight, strict)
  {
  }

  /** In every run a pass starts a remove loop only when none runs, whatever asked for it, so there are never two. */
  lemma OneLoop(ws: seq<World>, steps: seq<Step>, max: int, min: int, r: bool, k: nat)
    requires Run(ws, steps, max, min, r) && 0 <= max && k < |steps|
    requires (steps[k].DoReconcile? || steps[k].DoSetMin?) && PassOf(ws[k], steps[k]).start
    ensures ws[k].loop.NoLoop?
  {
    hide Queue, Counts, Names, ReconcileLocked, Next;
    Reachable(ws, steps, max, min, r, k);
    var w := ws[k];
    match steps[k]
    case DoReconcile(jobs, order) => StartsAlone(w, Asked(w.s, jobs), order);
    case DoSetMin(floor, order) => StartsAlone(w, w.s.(min := floor), order);
  }

  // --- exits that re-plan ---

  lemma ReplanLive(s: Sched, ctxDone: bool)
    requires CompletedBusy(s) && 0 <= s.lastJobs
    ensures var (t, n) := Replan(s, ctxDone);
            && Live(s) <= Live(t) <= Max(Live(s), Desired(s))
            && 0 <= n <= 1 && t.running == s.running + n
            && (n == 1 ==> s.running < s.max && s.hasDesired && !s.draining && !ctxDone)
  {
    var r := Reclaimed(s);
    assert Live(Commit(r, 1)) == Live(r) + 1;
    assert Commit(r, 0) == r;
  }

  lemma GoneWithout(s: Sched, l: Name)
    requires l in s.active
    ensures Live(Untrack(s, l)) == Live(s) + One(Gone(s.active[l]))
  {
    assert GoneNames(s.active - {l}) == Put(GoneNames(s.active), l, false) by {
      forall k ensures k in GoneNames(s.active - {l}) <==> k in Put(GoneNames(s.active), l, false) {
      }
    }
    PutCard(GoneNames(s.active), l, false);
  }

  /** Leaving running, with or without a re-plan. */
  lemma FinishLive(s: Sched, jobDone: bool, ctxDone: bool)
    requires CompletedBusy(s) && 0 <= s.lastJobs
    ensures var (t, n) := Finish(s, jobDone, ctxDone);
            && 0 <= n <= 1 && t.running == s.running - 1 + n && Live(t) <= Max(Live(s) - 1, Desired(s))
            && (n == 1 ==> jobDone && s.hasDesired && !s.draining && !ctxDone)
  {
    var u := s.(running := s.running - 1);
    assert Live(u) == Live(s) - 1;
    assert CompletedBusy(u);
    ReplanLive(u, ctxDone);
  }

  /**
   An exit commits a launch only if the completion was reported and a count came in since; then at
   most one, and never more in flight than before the exit. The exit leaves no more live than were
   live before or are asked for, unless it failed (a failed launch keeps its place, to back off).
   */
  lemma ExitReplans(w: World, l: Name, launchErr: bool)
    requires Inv(w) && At(w, l, Tracked) && 0 <= w.s.lastJobs
    ensures var e := ExitVM(w.s, l, launchErr, w.ctxDone);
            && 0 <= e.launched <= 1 && e.s.running <= w.s.running
            && (!e.failed ==> Live(e.s) <= Max(Live(w.s), Desired(w.s)))
            && (e.launched > 0 ==> w.s.active[l].completed && w.s.reconciles > w.s.active[l].completedAt
                                   && !w.s.draining && !w.ctxDone)
  {
    assert l in w.s.active;
    GoneWithout(w.s, l);
    FinishLive(Untrack(w.s, l), JobDone(w.s, l), w.ctxDone);
  }

  /** Over a whole run, re-planned launches never outnumber the exits of runners whose job was done. */
  lemma ReplansBounded(ws: seq<World>, steps: seq<Step>, max: int, min: int, r: bool, i: nat)
    requires Run(ws, steps, max, min, r) && 0 <= max && i < |ws|
    ensures ws[i].replanned <= ws[i].doneExits
  {
    Reachable(ws, steps, max, min, r, i);
  }
}
