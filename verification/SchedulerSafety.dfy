/** What every reachable state of one tier's scheduler satisfies, whatever interleaves. */
module SchedulerSafety {
  import opened Counting
  import opened Scheduling
  import opened SchedulerFacts
  import opened SchedulerRuns

  // --- the counters ---

  predicate IsPending(p: Phase) {
    p.Committed? || p.Leaving?
  }

  predicate IsHalf(p: Phase) {
    p.HalfEntered?
  }

  predicate IsTracked(p: Phase) {
    p.Tracked?
  }

  predicate IsBacking(p: Phase) {
    p.BackingOff?
  }

  /** The launches in a phase. */
  function Where(ls: map<Name, Phase>, f: Phase -> bool): set<Name> {
    set l | l in ls && f(ls[l])
  }

  /** Every counter is the number of launches it stands for. */
  ghost predicate Counts(w: World) {
    && w.s.running == |w.launches| <= w.s.max
    && w.s.pending == |Where(w.launches, IsPending)|
    && w.s.backingOff == |Where(w.launches, IsBacking)|
    && w.s.active.Keys == Where(w.launches, IsTracked)
    && (forall l :: l in w.launches ==> l < w.next)
  }

  // --- names, GitHub and cancellations ---

  function Inflight(loop: Loop): set<Name> {
    match loop
    case NoLoop => {}
    case AtTop => {}
    case _ => {loop.name}
  }

  /** Runners GitHub was told of and knows no more; it can give them nothing ever again. */
  function Dead(g: GitHub): set<Name> {
    g.known - g.registered
  }

  predicate OnRoute(p: Phase, route: Route) {
    (p.Leaving? || p.HalfEntered? || p.Entered?) && p.route == route
  }

  predicate Untracked(p: Phase) {
    p.Committed? || p.Leaving? || p.HalfEntered? || p.Entered?
  }

  ghost predicate Names(w: World) {
    && w.gh.working <= w.gh.registered <= w.gh.known
    && (forall n :: n in w.gh.known ==> n < w.next)
    && w.s.active.Keys <= w.tracked <= w.gh.known
    && (forall l :: l in w.launches && w.launches[l].Committed? ==> l !in w.gh.known)
    && (forall l :: l in w.launches && Untracked(w.launches[l]) ==> l !in w.tracked)
    && (forall l :: l in w.launches && OnRoute(w.launches[l], ToTrack) ==> l in w.gh.known)
    && w.listed <= w.tracked && w.lost <= Dead(w.gh)
    && Inflight(w.loop) <= w.tracked
    && (forall n :: n in w.s.removeQ ==> n in w.tracked)
    && (w.loop.Answered? && w.loop.answer == Removed ==> w.loop.name in Dead(w.gh))
  }

  ghost predicate Cancels(w: World) {
    && CancelledNames(w.s.active) <= w.stopped + w.reaped
    && (w.reaped != {} ==> w.ctxDone)
    && (w.s.hasRemover ==> w.stopped <= Dead(w.gh))
  }

  ghost predicate Queue(w: World) {
    && QueueOk(w.s, Inflight(w.loop), !w.ctxDone)
    && (w.s.removeQ != [] ==> w.s.removerActive)
    && (w.s.removerActive <==> !w.loop.NoLoop?)
  }

  ghost predicate Marks(w: World) {
    && CompletedBusy(w.s)
    && w.replanned <= w.doneExits
  }

  ghost predicate Inv(w: World) {
    Counts(w) && Names(w) && Cancels(w) && Queue(w) && Marks(w)
  }

  // --- how the sets of launches change ---

  lemma PutWhere(ls: map<Name, Phase>, l: Name, p: Phase, f: Phase -> bool)
    ensures Where(ls[l := p], f) == Put(Where(ls, f), l, f(p))
    ensures Where(ls - {l}, f) == Put(Where(ls, f), l, false)
    ensures l in Where(ls, f) <==> l in ls && f(ls[l])
  {
    forall k ensures k in Where(ls[l := p], f) <==> k in Put(Where(ls, f), l, f(p)) {
    }
    forall k ensures k in Where(ls - {l}, f) <==> k in Put(Where(ls, f), l, false) {
    }
  }

  lemma PutWhereCard(ls: map<Name, Phase>, l: Name, p: Phase, f: Phase -> bool)
    ensures |Where(ls[l := p], f)| == |Where(ls, f)| - One(l in ls && f(ls[l])) + One(f(p))
    ensures |Where(ls - {l}, f)| == |Where(ls, f)| - One(l in ls && f(ls[l]))
  {
    PutWhere(ls, l, p, f);
    PutCard(Where(ls, f), l, f(p));
    PutCard(Where(ls, f), l, false);
  }

  /** How the counted sets change when launch l takes phase p, or is over. */
  lemma PutCounts(ls: map<Name, Phase>, l: Name, p: Phase)
    ensures |ls[l := p]| == |ls| + One(l !in ls) && |ls - {l}| == |ls| - One(l in ls)
    ensures |Where(ls[l := p], IsPending)| == |Where(ls, IsPending)| - One(l in ls && IsPending(ls[l])) + One(IsPending(p))
    ensures |Where(ls[l := p], IsBacking)| == |Where(ls, IsBacking)| - One(l in ls && IsBacking(ls[l])) + One(IsBacking(p))
    ensures Where(ls[l := p], IsTracked) == Put(Where(ls, IsTracked), l, IsTracked(p))
    ensures |Where(ls - {l}, IsPending)| == |Where(ls, IsPending)| - One(l in ls && IsPending(ls[l]))
    ensures |Where(ls - {l}, IsBacking)| == |Where(ls, IsBacking)| - One(l in ls && IsBacking(ls[l]))
    ensures Where(ls - {l}, IsTracked) == Put(Where(ls, IsTracked), l, false)
  {
    KeysCard(ls, l, p);
    PutWhereCard(ls, l, p, IsPending);
    PutWhereCard(ls, l, p, IsBacking);
    PutWhere(ls, l, p, IsTracked);
  }

  lemma AddOne(ls: map<Name, Phase>, l: Name)
    requires l !in ls
    ensures var ms := ls[l := Committed];
            && |ms| == |ls| + 1
            && |Where(ms, IsPending)| == |Where(ls, IsPending)| + 1
            && |Where(ms, IsBacking)| == |Where(ls, IsBacking)|
            && Where(ms, IsTracked) == Where(ls, IsTracked)
  {
    PutCounts(ls, l, Committed);
    assert Put(Where(ls, IsTracked), l, false) == Where(ls, IsTracked);
  }

  lemma {:induction false} SpawnedNames(ls: map<Name, Phase>, next: nat, n: nat)
    ensures var ms := AddLaunches(ls, next, n);
            && (forall l :: l in ms <==> l in ls || next <= l < next + n)
            && (forall l :: l in ms ==> ms[l] == if next <= l < next + n then Committed else ls[l])
  {
    if n > 0 {
      SpawnedNames(ls, next, n - 1);
      var some, ms := AddLaunches(ls, next, n - 1), AddLaunches(ls, next, n);
      assert ms == some[next + n - 1 := Committed];
      forall l ensures l in ms <==> l in ls || next <= l < next + n {
        assert l in ms <==> l in some || l == next + n - 1;
      }
    }
  }

  lemma {:induction false} SpawnSets(ls: map<Name, Phase>, next: nat, n: nat)
    requires forall l :: l in ls ==> l < next
    ensures var ms := AddLaunches(ls, next, n);
            && |ms| == |ls| + n
            && |Where(ms, IsPending)| == |Where(ls, IsPending)| + n
            && |Where(ms, IsBacking)| == |Where(ls, IsBacking)|
            && Where(ms, IsTracked) == Where(ls, IsTracked)
  {
    hide Where;
    if n > 0 {
      var some, l := AddLaunches(ls, next, n - 1), next + n - 1;
      SpawnSets(ls, next, n - 1);
      assert l !in some by {
        SpawnedNames(ls, next, n - 1);
      }
      AddOne(some, l);
      assert AddLaunches(ls, next, n) == some[l := Committed];
      hide AddLaunches;
    }
  }

  // --- the counters, step by step ---

  lemma SpawnCounts(w: World, s: Sched, n: int)
    requires forall l :: l in w.launches ==> l < w.next
    requires 0 <= n && s.running == |w.launches| + n <= s.max
    requires s.pending == |Where(w.launches, IsPending)| + n && s.backingOff == |Where(w.launches, IsBacking)|
    requires s.active.Keys == Where(w.launches, IsTracked)
    ensures Counts(Spawn(w, s, n))
  {
    SpawnSets(w.launches, w.next, n);
    SpawnedNames(w.launches, w.next, n);
  }

  lemma PassCounts(w: World, s: Sched, order: seq<Name>)
    requires Counts(w) && QueueOk(s, Inflight(w.loop), !w.ctxDone)
    requires s.running == w.s.running && s.pending == w.s.pending && s.backingOff == w.s.backingOff
    requires s.active == w.s.active && s.max == w.s.max
    ensures var p := ReconcileLocked(s, order); Counts(Act(w, p))
  {
    PassFacts(s, order, Inflight(w.loop), !w.ctxDone);
    var p := ReconcileLocked(s, order);
    SpawnCounts(w, p.s, p.launched);
  }

  lemma FinishCounts(w: World, s: Sched, jobDone: bool)
    requires forall l :: l in w.launches ==> l < w.next
    requires QueueOk(s, Inflight(w.loop), !w.ctxDone)
    requires s.running - 1 == |w.launches| && s.running <= s.max
    requires s.pending == |Where(w.launches, IsPending)| && s.backingOff == |Where(w.launches, IsBacking)|
    requires s.active.Keys == Where(w.launches, IsTracked)
    ensures var (t, n) := Finish(s, jobDone, w.ctxDone); Counts(Spawn(w, t, n))
  {
    var s1 := s.(running := s.running - 1);
    ReplanFacts(s1, w.ctxDone, Inflight(w.loop), !w.ctxDone);
    var (t, n) := Finish(s, jobDone, w.ctxDone);
    SpawnCounts(w, t, n);
  }

  lemma ExitCounts(w: World, l: Name, launchErr: bool)
    requires Counts(w) && Queue(w) && At(w, l, Tracked)
    ensures Counts(Exiting(w, l, launchErr))
  {
    hide Where, Finish, QueueOk, JobDone;
    var s1 := Untrack(w.s, l);
    assert s1.active.Keys == w.s.active.Keys - {l};
    UntrackQueue(w.s, l, Inflight(w.loop), !w.ctxDone);
    var e := ExitVM(w.s, l, launchErr, w.ctxDone);
    if e.failed {
      MoveCounts(w, l, ExitFailed(e.jobDone), s1);
    } else {
      PutCounts(w.launches, l, Committed);
      FinishCounts(Leave(w, l), s1, e.jobDone);
    }
  }

  lemma LeaveCounts(w: World, l: Name)
    requires Counts(w) && Queue(w) && l in w.launches && w.launches[l].Finishing?
    ensures Counts(Finished(w, l))
  {
    PutCounts(w.launches, l, Committed);
    FinishCounts(Leave(w, l), w.s, JobDoneOf(w.launches[l]));
  }

  /** A launch goes on to its next phase, and the counters with it. */
  lemma MoveCounts(w: World, l: Name, p: Phase, s: Sched)
    requires Counts(w) && l in w.launches
    requires s.running == w.s.running && s.max == w.s.max
    requires s.pending == w.s.pending - One(IsPending(w.launches[l])) + One(IsPending(p))
    requires s.backingOff == w.s.backingOff - One(IsBacking(w.launches[l])) + One(IsBacking(p))
    requires s.active.Keys == w.s.active.Keys - {l} + (if p.Tracked? then {l} else {})
    ensures Counts(Go(w, l, p).(s := s))
  {
    PutCounts(w.launches, l, p);
    hide Where;
  }

  lemma MovesCounts(w: World, st: Step)
    requires Counts(w) && Moves(st) && MoveEnabled(w, st)
    ensures Counts(MoveStep(w, st))
  {
    assert st.l in w.s.active <==> w.launches[st.l].Tracked?;
    MoveCounts(w, st.l, NextPhase(w.launches[st.l], st), MovedSched(w.s, st));
  }

  lemma TopKeeps(s: Sched, ctxDone: bool)
    ensures var t := RemoveTop(s, ctxDone).0; SameCounts(s, t) && t.active.Keys == s.active.Keys
  {
    NextRemovalSame(s);
    hide NextRemoval;
  }

  lemma SettleKeeps(s: Sched, n: Name, answer: Answer)
    ensures var t := Settle(s, n, answer).0; SameCounts(s, t) && t.active.Keys == s.active.Keys
  {
  }

  lemma RemovesCounts(w: World, st: Step)
    requires Counts(w) && Removes(st) && RemoveEnabled(w, st)
    ensures Counts(RemoveStep(w, st))
  {
    hide RemoveTop, Settle, Where;
    if st.DoTop? {
      TopKeeps(w.s, w.ctxDone);
    } else if st.DoSettle? {
      SettleKeeps(w.s, w.loop.name, w.loop.answer);
    }
  }

  lemma SignalsCounts(w: World, st: Step)
    requires Counts(w) && !Plans(st) && !Moves(st) && !Removes(st) && SignalEnabled(w, st)
    ensures Counts(SignalStep(w, st))
  {
    assert SignalSched(w.s, st).active.Keys == w.s.active.Keys;
  }

  lemma ReconcileCounts(w: World, jobs: int, order: seq<Name>)
    requires Counts(w) && Queue(w)
    ensures Counts(Act(w, Reconcile(w.s, jobs, order)))
  {
    PassCounts(w, Asked(w.s, jobs), order);
  }

  lemma SetMinCounts(w: World, floor: int, order: seq<Name>)
    requires Counts(w) && Queue(w)
    ensures Counts(Act(w, SetMin(w.s, floor, w.ctxDone, order)))
  {
    PassCounts(w, w.s.(min := floor), order);
  }

  lemma PlansCounts(w: World, st: Step)
    requires Counts(w) && Queue(w) && Plans(st) && PlanEnabled(w, st)
    ensures Counts(PlanStep(w, st))
  {
    match st
    case DoReconcile(jobs, order) => ReconcileCounts(w, jobs, order);
    case DoSetMin(floor, order) => SetMinCounts(w, floor, order);
    case DoTopUp =>
      var (s, n) := MaintainMinimum(w.s);
      SpawnCounts(w.(toppingUp := w.toppingUp - 1), s, n);
    case DoExit(l, launchErr) => ExitCounts(w, l, launchErr);
    case DoFinish(l) => LeaveCounts(w, l);
  }

  lemma RecordCounts(w: World, st: Step)
    requires Enabled(w, st) && Counts(Raw(w, st))
    ensures Counts(Do(w, st))
  {
    hide Raw, Enabled, Where;
  }

  lemma CountsStep(w: World, st: Step)
    requires Counts(w) && Queue(w) && Enabled(w, st)
    ensures Counts(Do(w, st))
  {
    hide Counts, Queue, PlanStep, MoveStep, RemoveStep, SignalStep;
    if Plans(st) {
      PlansCounts(w, st);
    } else if Moves(st) {
      MovesCounts(w, st);
    } else if Removes(st) {
      RemovesCounts(w, st);
    } else {
      SignalsCounts(w, st);
    }
    RecordCounts(w, st);
  }

  // --- the removal queue, step by step ---

  lemma PassQueue(w: World, s: Sched, order: seq<Name>)
    requires Queue(w)
    requires s.active == w.s.active && s.removeQ == w.s.removeQ && s.removerActive == w.s.removerActive
    ensures Queue(Act(w, ReconcileLocked(s, order)))
  {
    PassFacts(s, order, Inflight(w.loop), !w.ctxDone);
  }

  lemma FinishQueue(w: World, s: Sched, jobDone: bool)
    requires Queue(w.(s := s))
    ensures var (t, n) := Finish(s, jobDone, w.ctxDone); Queue(Spawn(w, t, n))
  {
    var s1 := s.(running := s.running - 1);
    ReplanFacts(s1, w.ctxDone, Inflight(w.loop), !w.ctxDone);
  }

  lemma ExitQueue(w: World, l: Name, launchErr: bool)
    requires Queue(w) && At(w, l, Tracked)
    ensures Queue(Exiting(w, l, launchErr))
  {
    UntrackQueue(w.s, l, Inflight(w.loop), !w.ctxDone);
    FinishQueue(Leave(w, l), Untrack(w.s, l), JobDone(w.s, l));
  }

  lemma UntrackQueue(s: Sched, name: Name, inflight: set<Name>, strict: bool)
    requires QueueOk(s, inflight, strict)
    ensures QueueOk(Untrack(s, name), inflight, strict)
  {
  }

  lemma ReconcileQueue(w: World, jobs: int, order: seq<Name>)
    requires Queue(w)
    ensures Queue(Act(w, Reconcile(w.s, jobs, order)))
  {
    PassQueue(w, Asked(w.s, jobs), order);
  }

  lemma SetMinQueue(w: World, floor: int, order: seq<Name>)
    requires Queue(w)
    ensures Queue(Act(w, SetMin(w.s, floor, w.ctxDone, order)))
  {
    PassQueue(w, w.s.(min := floor), order);
  }

  lemma TopUpQueue(w: World)
    requires Queue(w) && w.toppingUp > 0
    ensures var (s, n) := MaintainMinimum(w.s); Queue(Spawn(w.(toppingUp := w.toppingUp - 1), s, n))
  {
  }

  lemma PlansQueue(w: World, st: Step)
    requires Queue(w) && Plans(st) && PlanEnabled(w, st)
    ensures Queue(PlanStep(w, st))
  {
    match st
    case DoReconcile(jobs, order) => ReconcileQueue(w, jobs, order);
    case DoSetMin(floor, order) => SetMinQueue(w, floor, order);
    case DoTopUp => TopUpQueue(w);
    case DoExit(l, launchErr) => ExitQueue(w, l, launchErr);
    case DoFinish(l) => FinishQueue(Leave(w, l), w.s, JobDoneOf(w.launches[l]));
  }

  lemma RequeueQueue(s: Sched, name: Name, strict: bool)
    requires QueueOk(s, {name}, strict)
    ensures name in s.active ==> QueueOk(s.(removeQ := s.removeQ + [name]), {}, strict)
  {
    var q := s.removeQ + [name];
    forall n ensures n in q <==> n in s.removeQ || n == name {
      assert q[|s.removeQ|] == name;
    }
  }

  lemma SettleQueue(s: Sched, name: Name, answer: Answer, strict: bool)
    requires QueueOk(s, {name}, strict)
    ensures QueueOk(Settle(s, name, answer).0, {}, strict)
  {
    RequeueQueue(s, name, strict);
  }

  lemma RemovesQueue(w: World, st: Step)
    requires Queue(w) && Removes(st) && RemoveEnabled(w, st)
    ensures Queue(RemoveStep(w, st))
  {
    match st
    case DoTop =>
      NextRemovalFacts(w.s, !w.ctxDone);
      NextRemovalSame(w.s);
    case DoSettle =>
      SettleQueue(w.s, w.loop.name, w.loop.answer, !w.ctxDone);
    case _ =>
  }

  lemma MovesQueue(w: World, st: Step)
    requires Names(w) && Counts(w) && Queue(w) && Moves(st) && MoveEnabled(w, st)
    ensures Queue(MoveStep(w, st))
  {
    assert st.DoTrack? ==> st.l !in w.tracked;
  }

  lemma SignalsQueue(w: World, st: Step)
    requires Queue(w) && !Plans(st) && !Moves(st) && !Removes(st) && SignalEnabled(w, st)
    ensures Queue(SignalStep(w, st))
  {
  }

  lemma RecordQueue(w: World, st: Step)
    requires Enabled(w, st) && Queue(Raw(w, st))
    ensures Queue(Do(w, st))
  {
    hide Raw, Enabled, QueueOk;
  }

  lemma QueueStep(w: World, st: Step)
    requires Names(w) && Counts(w) && Queue(w) && Enabled(w, st)
    ensures Queue(Do(w, st))
  {
    hide Names, Counts, Queue, PlanStep, MoveStep, RemoveStep, SignalStep;
    if Plans(st) {
      PlansQueue(w, st);
    } else if Moves(st) {
      MovesQueue(w, st);
    } else if Removes(st) {
      RemovesQueue(w, st);
    } else {
      SignalsQueue(w, st);
    }
    RecordQueue(w, st);
  }

  // --- names, GitHub and cancellations, step by step ---

  /** Launching keeps the names apart: the new ones are known to nobody. */
  lemma SpawnNames(w: World, s: Sched, n: int)
    requires Names(w) && (forall l :: l in w.launches ==> l < w.next)
    requires s.active.Keys <= w.s.active.Keys && forall m :: m in s.removeQ ==> m in w.tracked
    ensures Names(Spawn(w, s, n))
  {
    if n > 0 {
      SpawnedNames(w.launches, w.next, n);
    }
  }

  lemma PassNames(w: World, s: Sched, order: seq<Name>)
    requires Names(w) && Counts(w) && Queue(w)
    requires s.active == w.s.active && s.removeQ == w.s.removeQ && s.removerActive == w.s.removerActive
    ensures Names(Act(w, ReconcileLocked(s, order)))
  {
    PassFacts(s, order, Inflight(w.loop), !w.ctxDone);
    var p := ReconcileLocked(s, order);
    SpawnNames(w, p.s, p.launched);
  }

  lemma FinishNames(w: World, s: Sched, jobDone: bool)
    requires Names(w) && (forall l :: l in w.launches ==> l < w.next) && Queue(w.(s := s))
    requires s.active.Keys <= w.s.active.Keys && s.removeQ == w.s.removeQ
    ensures var (t, n) := Finish(s, jobDone, w.ctxDone); Names(Spawn(w, t, n))
  {
    var s1 := s.(running := s.running - 1);
    ReplanFacts(s1, w.ctxDone, Inflight(w.loop), !w.ctxDone);
    var (t, n) := Finish(s, jobDone, w.ctxDone);
    SpawnNames(w, t, n);
  }

  lemma LeaveNames(w: World, l: Name)
    requires Names(w)
    ensures Names(Leave(w, l))
  {
  }

  lemma FailNames(w: World, l: Name, jobDone: bool)
    requires Names(w) && At(w, l, Tracked)
    ensures Names(Go(w, l, ExitFailed(jobDone)).(s := Untrack(w.s, l)))
  {
  }

  lemma ExitNames(w: World, l: Name, launchErr: bool)
    requires Names(w) && Counts(w) && Queue(w) && At(w, l, Tracked)
    ensures Names(Exiting(w, l, launchErr))
  {
    var e := ExitVM(w.s, l, launchErr, w.ctxDone);
    if e.failed {
      FailNames(w, l, e.jobDone);
    } else {
      UntrackQueue(w.s, l, Inflight(w.loop), !w.ctxDone);
      LeaveNames(w, l);
      FinishNames(Leave(w, l), Untrack(w.s, l), e.jobDone);
    }
  }

  lemma FinishedNames(w: World, l: Name)
    requires Names(w) && Counts(w) && Queue(w) && l in w.launches && w.launches[l].Finishing?
    ensures Names(Finished(w, l))
  {
    LeaveNames(w, l);
    FinishNames(Leave(w, l), w.s, JobDoneOf(w.launches[l]));
  }

  lemma ReconcileNames(w: World, jobs: int, order: seq<Name>)
    requires Names(w) && Counts(w) && Queue(w)
    ensures Names(Act(w, Reconcile(w.s, jobs, order)))
  {
    PassNames(w, Asked(w.s, jobs), order);
  }

  lemma SetMinNames(w: World, floor: int, order: seq<Name>)
    requires Names(w) && Counts(w) && Queue(w)
    ensures Names(Act(w, SetMin(w.s, floor, w.ctxDone, order)))
  {
    PassNames(w, w.s.(min := floor), order);
  }

  lemma TopUpNames(w: World)
    requires Names(w) && Counts(w) && w.toppingUp > 0
    ensures var (s, n) := MaintainMinimum(w.s); Names(Spawn(w.(toppingUp := w.toppingUp - 1), s, n))
  {
    var (s, n) := MaintainMinimum(w.s);
    hide Where;
    SpawnNames(w.(toppingUp := w.toppingUp - 1), s, n);
  }

  lemma PlansNames(w: World, st: Step)
    requires Names(w) && Counts(w) && Queue(w) && Plans(st) && PlanEnabled(w, st)
    ensures Names(PlanStep(w, st))
  {
    hide Names, Counts, Queue, Act, Exiting, Finished, Spawn, MaintainMinimum, Reconcile, SetMin;
    match st
    case DoReconcile(jobs, order) => ReconcileNames(w, jobs, order);
    case DoSetMin(floor, order) => SetMinNames(w, floor, order);
    case DoTopUp => TopUpNames(w);
    case DoExit(l, launchErr) => ExitNames(w, l, launchErr);
    case DoFinish(l) => FinishedNames(w, l);
  }

  lemma GenerateNames(w: World, st: Step)
    requires Names(w) && Counts(w) && st.DoGenerate? && MoveEnabled(w, st)
    ensures Names(MoveStep(w, st))
  {
    hide Where, MovedSched;
    assert MovedSched(w.s, st) == w.s by {
      TheSame(w.s, st);
    }
  }

  lemma TheSame(s: Sched, st: Step)
    requires st.DoGenerate?
    ensures MovedSched(s, st) == s
  {
  }

  lemma TrackNames(w: World, l: Name)
    requires Names(w) && MoveEnabled(w, DoTrack(l))
    ensures Names(MoveStep(w, DoTrack(l)))
  {
    assert Track(w.s, l).active.Keys == w.s.active.Keys + {l};
  }

  lemma MovesNames(w: World, st: Step)
    requires Names(w) && Counts(w) && Moves(st) && MoveEnabled(w, st)
    ensures Names(MoveStep(w, st))
  {
    hide Names, MoveStep, Counts;
    if st.DoGenerate? {
      GenerateNames(w, st);
    } else if st.DoTrack? {
      TrackNames(w, st.l);
    } else {
      OnNames(w, st);
    }
  }

  /** Moving on within the same names. */
  lemma OnNames(w: World, st: Step)
    requires Names(w) && Moves(st) && MoveEnabled(w, st) && !st.DoGenerate? && !st.DoTrack?
    ensures Names(MoveStep(w, st))
  {
    assert MovedSched(w.s, st).removeQ == w.s.removeQ && MovedSched(w.s, st).active == w.s.active;
    hide MovedSched;
  }

  lemma TopInflight(w: World)
    requires Queue(w)
    ensures var next := RemoveTop(w.s, w.ctxDone).1; next.Some? ==> next.value in w.s.removeQ
  {
    hide QueueOk;
    NextRemovalAnswer(w.s);
  }

  lemma {:induction false} NextRemovalAnswer(s: Sched)
    ensures var next := NextRemoval(s).1; next.Some? ==> next.value in s.removeQ
    decreases |s.removeQ|
  {
    if s.removeQ != [] {
      var name := s.removeQ[0];
      var popped := s.(removeQ := s.removeQ[1..]);
      NextRemovalAnswer(popped);
      if Recallable(popped, name) {
        NextRemovalAnswer(Unmark(popped, name));
      }
    }
  }

  lemma TopNames(w: World)
    requires Names(w) && Queue(w) && w.loop.AtTop?
    ensures Names(RemoveStep(w, DoTop))
  {
    hide NextRemoval, QueueOk, Settle;
    NextRemovalSame(w.s);
    TopInflight(w);
  }

  lemma SettleNames(w: World)
    requires Names(w) && w.loop.Answered?
    ensures Names(RemoveStep(w, DoSettle))
  {
    hide RemoveTop;
    assert Settle(w.s, w.loop.name, w.loop.answer).0.active.Keys == w.s.active.Keys;
  }

  lemma DeregisterNames(w: World, n: Name)
    requires Names(w)
    ensures Names(w.(gh := Deregister(w.gh, n))) && n !in Deregister(w.gh, n).registered
  {
  }

  lemma AnswerNames(w: World, loop: Loop)
    requires Names(w) && Inflight(loop) <= w.tracked
    requires loop.Answered? && loop.answer == Removed ==> loop.name !in w.gh.registered
    ensures Names(w.(loop := loop))
  {
  }

  /** Asking GitHub: an answer that the runner is removed means it is dead there. */
  lemma AskNames(w: World, st: Step)
    requires Names(w) && Removes(st) && RemoveEnabled(w, st) && !st.DoTop? && !st.DoSettle?
    ensures Names(RemoveStep(w, st))
  {
    var v := RemoveStep(w, st);
    assert Inflight(v.loop) == Inflight(w.loop) && Inflight(w.loop) <= w.tracked;
    DeregisterNames(w, w.loop.name);
    hide Names, RemoveTop, Settle;
    if v.gh == w.gh {
      AnswerNames(w, v.loop);
    } else {
      AnswerNames(w.(gh := Deregister(w.gh, w.loop.name)), v.loop);
    }
  }

  lemma RemovesNames(w: World, st: Step)
    requires Names(w) && Queue(w) && Removes(st) && RemoveEnabled(w, st)
    ensures Names(RemoveStep(w, st))
  {
    hide Names, Queue, RemoveStep;
    if st.DoTop? {
      TopNames(w);
    } else if st.DoSettle? {
      SettleNames(w);
    } else {
      AskNames(w, st);
    }
  }

  lemma SignalsNames(w: World, st: Step)
    requires Names(w) && !Plans(st) && !Moves(st) && !Removes(st) && SignalEnabled(w, st)
    ensures Names(SignalStep(w, st))
  {
    assert SignalSched(w.s, st).active.Keys == w.s.active.Keys;
  }

  lemma RecordNames(w: World, st: Step)
    requires Enabled(w, st) && Names(Raw(w, st))
    ensures Names(Do(w, st))
  {
    hide Raw, Enabled;
  }

  lemma NamesStep(w: World, st: Step)
    requires Names(w) && Counts(w) && Queue(w) && Enabled(w, st)
    ensures Names(Do(w, st))
  {
    hide Names, Counts, Queue, PlanStep, MoveStep, RemoveStep, SignalStep;
    if Plans(st) {
      PlansNames(w, st);
    } else if Moves(st) {
      MovesNames(w, st);
    } else if Removes(st) {
      RemovesNames(w, st);
    } else {
      SignalsNames(w, st);
    }
    RecordNames(w, st);
  }

  /** From s to t: the settings stay, completed runners stay busy, and with a remover only `may` are cancelled. */
  ghost predicate Follows(s: Sched, t: Sched, may: set<Name>) {
    && t.max == s.max && t.hasRemover == s.hasRemover
    && (CompletedBusy(s) ==> CompletedBusy(t))
    && (s.hasRemover ==> forall n :: n in t.active && t.active[n].cancelled ==>
                                       (n in s.active && s.active[n].cancelled) || n in may)
  }

  lemma SameFollows(s: Sched, t: Sched)
    requires SameRunners(s, t) && t.max == s.max && t.hasRemover == s.hasRemover
    ensures Follows(s, t, {})
  {
  }

  lemma PassFollows(w: World, s: Sched, order: seq<Name>)
    requires Queue(w)
    requires s.active == w.s.active && s.removeQ == w.s.removeQ && s.hasRemover == w.s.hasRemover && s.max == w.s.max
    ensures Follows(w.s, ReconcileLocked(s, order).s, {})
  {
    PassFacts(s, order, Inflight(w.loop), !w.ctxDone);
    SameFollows(w.s, ReconcileLocked(s, order).s);
  }

  lemma FinishFollows(w: World, s: Sched, jobDone: bool)
    requires Queue(w.(s := s))
    ensures var (t, n) := Finish(s, jobDone, w.ctxDone); Follows(s, t, {}) && 0 <= n <= 1
  {
    var s1 := s.(running := s.running - 1);
    ReplanFacts(s1, w.ctxDone, Inflight(w.loop), !w.ctxDone);
    SameFollows(s, Finish(s, jobDone, w.ctxDone).0);
  }

  lemma ExitFollows(w: World, l: Name, launchErr: bool)
    requires Queue(w) && At(w, l, Tracked)
    ensures var v := Exiting(w, l, launchErr);
            Follows(w.s, v.s, {}) && v.replanned - w.replanned <= v.doneExits - w.doneExits
  {
    UntrackQueue(w.s, l, Inflight(w.loop), !w.ctxDone);
    FinishFollows(w, Untrack(w.s, l), JobDone(w.s, l));
  }

  lemma ReconcileFollows(w: World, jobs: int, order: seq<Name>)
    requires Queue(w)
    ensures Follows(w.s, Act(w, Reconcile(w.s, jobs, order)).s, {})
  {
    PassFollows(w, Asked(w.s, jobs), order);
  }

  lemma SetMinFollows(w: World, floor: int, order: seq<Name>)
    requires Queue(w)
    ensures Follows(w.s, Act(w, SetMin(w.s, floor, w.ctxDone, order)).s, {})
  {
    PassFollows(w, w.s.(min := floor), order);
  }

  lemma TopUpFollows(w: World)
    requires w.toppingUp > 0
    ensures var (s, n) := MaintainMinimum(w.s);
            var v := Spawn(w.(toppingUp := w.toppingUp - 1), s, n);
            Follows(w.s, v.s, {}) && v.replanned == w.replanned && v.doneExits == w.doneExits
  {
  }

  lemma FinishedFollows(w: World, l: Name)
    requires Queue(w) && l in w.launches && w.launches[l].Finishing?
    ensures var v := Finished(w, l);
            Follows(w.s, v.s, {}) && v.replanned - w.replanned <= v.doneExits - w.doneExits
  {
    hide Queue, Follows, Finish;
    FinishFollows(w, w.s, JobDoneOf(w.launches[l]));
  }

  lemma PlansFollow(w: World, st: Step)
    requires Queue(w) && Plans(st) && PlanEnabled(w, st)
    ensures var v := PlanStep(w, st);
            Follows(w.s, v.s, {}) && v.replanned - w.replanned <= v.doneExits - w.doneExits
  {
    hide Queue, Follows, Exiting, Finished, MaintainMinimum, Reconcile, SetMin;
    match st
    case DoReconcile(jobs, order) => ReconcileFollows(w, jobs, order);
    case DoSetMin(floor, order) => SetMinFollows(w, floor, order);
    case DoTopUp => TopUpFollows(w);
    case DoExit(l, launchErr) => ExitFollows(w, l, launchErr);
    case DoFinish(l) => FinishedFollows(w, l);
  }

  lemma MovesFollow(w: World, st: Step)
    requires Moves(st) && MoveEnabled(w, st)
    ensures Follows(w.s, MoveStep(w, st).s, {})
  {
  }

  lemma TopFollows(s: Sched, ctxDone: bool)
    ensures Follows(s, RemoveTop(s, ctxDone).0, {})
  {
    NextRemovalSame(s);
    hide NextRemoval;
    SameFollows(s, RemoveTop(s, ctxDone).0);
  }

  lemma SettleFollows(s: Sched, n: Name, answer: Answer)
    ensures Follows(s, Settle(s, n, answer).0, if answer == Removed then {n} else {})
  {
  }

  /** The remove loop cancels a runner only on the answer that GitHub has removed it. */
  lemma RemovesFollow(w: World, st: Step)
    requires Names(w) && Removes(st) && RemoveEnabled(w, st)
    ensures Follows(w.s, RemoveStep(w, st).s, Dead(w.gh))
  {
    hide Follows, Settle, RemoveTop;
    if st.DoTop? {
      TopFollows(w.s, w.ctxDone);
      FollowsMore(w.s, RemoveTop(w.s, w.ctxDone).0, {}, Dead(w.gh));
    } else if st.DoSettle? {
      var t := Settle(w.s, w.loop.name, w.loop.answer).0;
      SettleFollows(w.s, w.loop.name, w.loop.answer);
      FollowsMore(w.s, t, if w.loop.answer == Removed then {w.loop.name} else {}, Dead(w.gh));
    } else {
      SameSched(w.s, Dead(w.gh));
    }
  }

  lemma SameSched(s: Sched, may: set<Name>)
    ensures Follows(s, s, may)
  {
  }

  lemma SignalsFollow(w: World, st: Step)
    requires Names(w) && !Plans(st) && !Moves(st) && !Removes(st) && SignalEnabled(w, st)
    ensures Follows(w.s, SignalStep(w, st).s, Dead(w.gh) + (if st.DoCancelIdle? then {st.n} else {}))
  {
  }

  lemma PlansKeepGitHub(w: World, st: Step)
    requires Plans(st) && PlanEnabled(w, st)
    ensures PlanStep(w, st).gh == w.gh
  {
    hide Reconcile, SetMin, ExitVM, Finish, MaintainMinimum;
  }

  lemma MovesDead(w: World, st: Step)
    requires Names(w) && Moves(st) && MoveEnabled(w, st)
    ensures Dead(w.gh) <= Dead(MoveStep(w, st).gh)
  {
    hide MovedSched, NextPhase;
  }

  lemma RemovesDead(w: World, st: Step)
    requires Removes(st) && RemoveEnabled(w, st)
    ensures Dead(w.gh) <= Dead(RemoveStep(w, st).gh)
  {
    hide RemoveTop, Settle;
  }

  /** Who is dead at GitHub stays dead: a name is registered once. */
  lemma DeadGrows(w: World, st: Step)
    requires Names(w) && Enabled(w, st)
    ensures Dead(w.gh) <= Dead(Raw(w, st).gh)
  {
    hide PlanStep, MoveStep, RemoveStep, SignalSched, Names;
    if Moves(st) {
      MovesDead(w, st);
    } else if Removes(st) {
      RemovesDead(w, st);
    } else if Plans(st) {
      PlansKeepGitHub(w, st);
    } else {
      assert Dead(w.gh) <= Dead(SignalGitHub(w.gh, st));
    }
  }

  lemma FollowsMore(s: Sched, t: Sched, some: set<Name>, more: set<Name>)
    requires Follows(s, t, some) && some <= more
    ensures Follows(s, t, more)
  {
  }

  function MayCancel(w: World, st: Step, v: World): set<Name> {
    Dead(v.gh) + (if st.DoCancelIdle? then {st.n} else {})
  }

  /** Everything one step does to marks and cancellations. */
  lemma StepFollows(w: World, st: Step)
    requires Queue(w) && Names(w) && Enabled(w, st)
    ensures var v := Raw(w, st); Follows(w.s, v.s, MayCancel(w, st, v))
  {
    var v := Raw(w, st);
    var may := MayCancel(w, st, v);
    DeadGrows(w, st);
    if Plans(st) {
      PlansFollow(w, st);
      FollowsMore(w.s, v.s, {}, may);
    } else if Moves(st) {
      MovesFollow(w, st);
      FollowsMore(w.s, v.s, {}, may);
    } else if Removes(st) {
      RemovesFollow(w, st);
      FollowsMore(w.s, v.s, Dead(w.gh), may);
    } else {
      SignalsFollow(w, st);
      FollowsMore(w.s, v.s, Dead(w.gh) + (if st.DoCancelIdle? then {st.n} else {}), may);
    }
  }

  lemma PlansRecord(w: World, st: Step)
    requires Queue(w) && Plans(st) && PlanEnabled(w, st)
    ensures var v := PlanStep(w, st); v.replanned - w.replanned <= v.doneExits - w.doneExits
  {
    PlansFollow(w, st);
    hide Queue, Follows, Reconcile, SetMin, MaintainMinimum, ExitVM, Finish;
  }

  lemma PlansCancelNobody(w: World, st: Step)
    requires Plans(st) && PlanEnabled(w, st)
    ensures var v := PlanStep(w, st); v.stopped == w.stopped && v.reaped == w.reaped && v.ctxDone == w.ctxDone
  {
    hide Reconcile, SetMin, MaintainMinimum, ExitVM, Finish;
  }

  lemma StepRecords(w: World, st: Step)
    requires Queue(w) && Enabled(w, st)
    ensures var v := Raw(w, st);
            && v.replanned - w.replanned <= v.doneExits - w.doneExits
            && v.stopped == w.stopped && v.reaped == w.reaped && (w.ctxDone ==> v.ctxDone)
            && (st.DoCancelIdle? ==> w.ctxDone)
  {
    hide Queue, Follows, SignalSched, MovedSched, RemoveTop, Settle, NextPhase, SignalGitHub, MoveEnabled;
    if Plans(st) {
      PlansRecord(w, st);
      PlansCancelNobody(w, st);
    }
  }

  /** Recording who was cancelled by whom. */
  lemma RecordCancels(w: World, v: World, byWatcher: bool, n: Name)
    requires Cancels(w) && Follows(w.s, v.s, Dead(v.gh) + (if byWatcher then {n} else {}))
    requires v.stopped == w.stopped && v.reaped == w.reaped && Dead(w.gh) <= Dead(v.gh)
    requires (w.ctxDone ==> v.ctxDone) && (byWatcher ==> w.ctxDone)
    ensures var newly := CancelledNames(v.s.active) - CancelledNames(w.s.active);
            if byWatcher then Cancels(v.(reaped := v.reaped + newly)) else Cancels(v.(stopped := v.stopped + newly))
  {
  }

  lemma CancelsStep(w: World, st: Step)
    requires Inv(w) && Enabled(w, st)
    ensures Cancels(Do(w, st)) && Marks(Do(w, st))
    ensures Do(w, st).s.max == w.s.max && Do(w, st).s.hasRemover == w.s.hasRemover
  {
    StepFollows(w, st);
    StepRecords(w, st);
    DeadGrows(w, st);
    RecordCancels(w, Raw(w, st), st.DoCancelIdle?, if st.DoCancelIdle? then st.n else 0);
    assert CompletedBusy(w.s) && CompletedBusy(Raw(w, st).s);
  }

  lemma StartInv(max: int, min: int, hasRemover: bool)
    requires 0 <= max
    ensures var w := Start(max, min, hasRemover); Inv(w) && w.s.max == max && w.s.hasRemover == hasRemover
  {
  }

  /** The invariant holds of every world a run reaches. */
  lemma {:induction false} Reachable(ws: seq<World>, steps: seq<Step>, max: int, min: int, hasRemover: bool, i: nat)
    requires Run(ws, steps, max, min, hasRemover) && 0 <= max && i < |ws|
    ensures Inv(ws[i])
    ensures ws[i].s.max == max && ws[i].s.hasRemover == hasRemover
  {
    hide Inv, Do, Enabled, Start;
    if i == 0 {
      StartInv(max, min, hasRemover);
    } else {
      Reachable(ws, steps, max, min, hasRemover, i - 1);
      assert Next(ws[i - 1], steps[i - 1], ws[i]);
      InvStep(ws[i - 1], steps[i - 1]);
    }
  }

  lemma InvStep(w: World, st: Step)
    requires Inv(w) && Enabled(w, st)
    ensures Inv(Do(w, st))
    ensures Do(w, st).s.max == w.s.max && Do(w, st).s.hasRemover == w.s.hasRemover
  {
    hide Do, Enabled, Counts, Names, Queue, Cancels, Marks;
    CountsStep(w, st);
    NamesStep(w, st);
    QueueStep(w, st);
    CancelsStep(w, st);
  }
}
