/**
 A second pass right after the first can change something: a completed runner in the removal queue is
 counted as given back though it takes no job. A run that gets there is spelled out.
 */
module SchedulerSecondPass {
  import opened Scheduling
  import opened SchedulerFacts
  import opened SchedulerPass
  import opened SchedulerRuns

  const FRESH := Handle(false, false, false, false, 0)

  /** Nobody asked GitHub anything but to register, and nothing was cancelled. */
  function At(s: Sched, launches: map<Name, Phase>, known: set<Name>, tracked: set<Name>, loop: Loop): World {
    World(s, launches, 2, GitHub(known, known, {}), loop, {}, {}, false, 0, tracked, {}, {}, 0, 0)
  }

  lemma Uncancelling(w: World, st: Step, v: World)
    requires Enabled(w, st) && v == Raw(w, st) && CancelledNames(v.s.active) == CancelledNames(w.s.active)
    ensures Next(w, st, v)
  {
    hide Raw, Enabled;
    assert v.stopped + {} == v.stopped && v.reaped + {} == v.reaped;
  }

  // --- two runners are launched ---

  /** Two jobs were asked for, and `p` of the two launches are still pending. */
  function Two(p: int): Sched {
    New(2, 0, true).(running := 2, pending := p, lastJobs := 2, hasDesired := true, reconciles := 1)
  }

  lemma LaunchTwo()
    ensures Next(Start(2, 0, true), DoReconcile(2, []), At(Two(2), map[0 := Committed, 1 := Committed], {}, {}, NoLoop))
  {
    var w, v := Start(2, 0, true), At(Two(2), map[0 := Committed, 1 := Committed], {}, {}, NoLoop);
    var s := Asked(w.s, 2);
    assert GoneNames(s.active) == {};
    assert Live(s) == 0 && Reclaim(s, 2) == (s, 0);
    assert Reconcile(w.s, 2, []) == Pass(Two(2), 2, 0, 0, false);
    AddTwo();
    assert Raw(w, DoReconcile(2, [])) == v by {
      hide Reconcile, AddLaunches;
    }
    hide Raw;
    Uncancelling(w, DoReconcile(2, []), v);
  }

  lemma AddTwo()
    ensures AddLaunches(map[], 0, 2) == map[0 := Committed, 1 := Committed]
  {
    var none: map<Name, Phase> := map[];
    assert AddLaunches(none, 0, 0) == none;
    assert AddLaunches(none, 0, 1) == none[0 := Committed];
    assert AddLaunches(none, 0, 2) == none[0 := Committed][1 := Committed];
  }

  // --- one of them gets to where it is tracked ---

  predicate Waits(s: Sched, ls: map<Name, Phase>, l: Name, p: Phase) {
    l in ls && ls[l] == p && CancelledNames(s.active) == {} && l !in s.active
  }

  lemma OneMove(s: Sched, ls: map<Name, Phase>, known: set<Name>, tracked: set<Name>, st: Step, v: World)
    requires Moves(st) && Waits(s, ls, st.l, if st.l in ls then ls[st.l] else Committed)
    requires MoveEnabled(At(s, ls, known, tracked, NoLoop), st) && v == MoveStep(At(s, ls, known, tracked, NoLoop), st)
    ensures Next(At(s, ls, known, tracked, NoLoop), st, v)
  {
    assert CancelledNames(MovedSched(s, st).active) == {};
    hide PlanStep, RemoveStep, SignalStep, NextPhase;
    Uncancelling(At(s, ls, known, tracked, NoLoop), st, v);
  }

  lemma Generated(s: Sched, ls: map<Name, Phase>, names: set<Name>, l: Name)
    requires Waits(s, ls, l, Committed)
    ensures Next(At(s, ls, names, names, NoLoop), DoGenerate(l, true, true),
                 At(s, ls[l := Leaving(ToTrack)], names + {l}, names, NoLoop))
  {
    hide Next;
    OneMove(s, ls, names, names, DoGenerate(l, true, true), At(s, ls[l := Leaving(ToTrack)], names + {l}, names, NoLoop));
  }

  lemma HalfIn(s: Sched, ls: map<Name, Phase>, known: set<Name>, tracked: set<Name>, l: Name)
    requires Waits(s, ls, l, Leaving(ToTrack))
    ensures Next(At(s, ls, known, tracked, NoLoop), DoEnter(l),
                 At(Enter(s), ls[l := HalfEntered(ToTrack)], known, tracked, NoLoop))
  {
    hide Next;
    OneMove(s, ls, known, tracked, DoEnter(l), At(Enter(s), ls[l := HalfEntered(ToTrack)], known, tracked, NoLoop));
  }

  lemma WhollyIn(s: Sched, ls: map<Name, Phase>, known: set<Name>, tracked: set<Name>, l: Name)
    requires Waits(s, ls, l, HalfEntered(ToTrack))
    ensures Next(At(s, ls, known, tracked, NoLoop), DoEntered(l), At(s, ls[l := Entered(ToTrack)], known, tracked, NoLoop))
  {
    hide Next;
    OneMove(s, ls, known, tracked, DoEntered(l), At(s, ls[l := Entered(ToTrack)], known, tracked, NoLoop));
  }

  lemma NowTracked(s: Sched, ls: map<Name, Phase>, known: set<Name>, tracked: set<Name>, l: Name)
    requires Waits(s, ls, l, Entered(ToTrack))
    ensures Next(At(s, ls, known, tracked, NoLoop), DoTrack(l), At(Track(s, l), ls[l := Tracked], known, tracked + {l}, NoLoop))
  {
    hide Next;
    OneMove(s, ls, known, tracked, DoTrack(l), At(Track(s, l), ls[l := Tracked], known, tracked + {l}, NoLoop));
  }

  /** Launch l is generated, enters and is tracked. */
  lemma Board(s: Sched, ls: map<Name, Phase>, names: set<Name>, l: Name) returns (a: World, b: World, c: World)
    requires Waits(s, ls, l, Committed)
    ensures Next(At(s, ls, names, names, NoLoop), DoGenerate(l, true, true), a)
    ensures Next(a, DoEnter(l), b) && Next(b, DoEntered(l), c)
    ensures Next(c, DoTrack(l), At(Track(Enter(s), l), ls[l := Tracked], names + {l}, names + {l}, NoLoop))
  {
    var more, t := names + {l}, Enter(s);
    var ls1, ls2, ls3 := ls[l := Leaving(ToTrack)], ls[l := HalfEntered(ToTrack)], ls[l := Entered(ToTrack)];
    assert ls1[l := HalfEntered(ToTrack)] == ls2 && ls2[l := Entered(ToTrack)] == ls3 && ls3[l := Tracked] == ls[l := Tracked];
    a, b, c := At(s, ls1, more, names, NoLoop), At(t, ls2, more, names, NoLoop), At(t, ls3, more, names, NoLoop);
    assert Waits(s, ls1, l, Leaving(ToTrack)) && Waits(t, ls2, l, HalfEntered(ToTrack)) && Waits(t, ls3, l, Entered(ToTrack));
    hide Next, Waits, At, Track, Enter;
    Generated(s, ls, names, l);
    HalfIn(s, ls1, more, names, l);
    WhollyIn(t, ls2, more, names, l);
    NowTracked(t, ls3, more, names, l);
  }

  // --- both are to be removed, and one turns out to have run a job ---

  function Both(active: map<Name, Handle>): Sched {
    Two(0).(active := active, removeQ := [1, 0], removerActive := true, lastJobs := 0, reconciles := 2)
  }

  const RUNNERS := map[0 := Tracked, 1 := Tracked]
  const REMOVING := FRESH.(removing := true)
  const COMPLETED := Handle(true, false, true, true, 2)

  /** A pass that launches nothing, as a step. */
  lemma Passing(w: World, jobs: int, order: seq<Name>, p: Pass)
    requires Enumerates(order, w.s.active.Keys) && p == Reconcile(w.s, jobs, order) && p.launched == 0 && p.start
    requires CancelledNames(p.s.active) == CancelledNames(w.s.active)
    ensures Next(w, DoReconcile(jobs, order), w.(s := p.s, loop := AtTop))
  {
    hide Reconcile;
    Uncancelling(w, DoReconcile(jobs, order), w.(s := p.s, loop := AtTop));
  }

  lemma OneThenNone()
    ensures Enumerates([1, 0], {0, 1})
  {
    assert [1, 0][0] == 1 && [1, 0][1] == 0;
  }

  lemma NoneCancelled(active: map<Name, Handle>, a: Handle, b: Handle)
    requires active == map[0 := a, 1 := b] && !a.cancelled && !b.cancelled
    ensures CancelledNames(active) == {} && active.Keys == {0, 1}
  {
  }

  lemma DismissBoth()
    ensures Next(At(Two(0).(active := map[0 := FRESH, 1 := FRESH]), RUNNERS, {0, 1}, {0, 1}, NoLoop), DoReconcile(0, [1, 0]),
                 At(Both(map[0 := REMOVING, 1 := REMOVING]), RUNNERS, {0, 1}, {0, 1}, AtTop))
  {
    var s := Two(0).(active := map[0 := FRESH, 1 := FRESH]);
    var p := Pass(Both(map[0 := REMOVING, 1 := REMOVING]), 0, 0, 2, true);
    DismissPass(s);
    OneThenNone();
    NoneCancelled(s.active, FRESH, FRESH);
    NoneCancelled(p.s.active, REMOVING, REMOVING);
    hide Next, CancelledNames, Reconcile, Enumerates;
    Passing(At(s, RUNNERS, {0, 1}, {0, 1}, NoLoop), 0, [1, 0], p);
  }

  lemma DismissPass(s: Sched)
    requires s == Two(0).(active := map[0 := FRESH, 1 := FRESH])
    ensures Reconcile(s, 0, [1, 0]) == Pass(Both(map[0 := REMOVING, 1 := REMOVING]), 0, 0, 2, true)
  {
    var a := Asked(s, 0);
    assert GoneNames(a.active) == {};
    assert Live(a) == 2 && Reclaim(a, -2) == (a, 0) && Commit(a, 0) == a;
    var t := Pick(a, 1);
    var u := Pick(t, 0);
    assert [1, 0][1..] == [0] && [0][1..] == [];
    assert PickMany(u, [], 0) == (u, 0);
    assert PickMany(t, [0], 1) == (u, 1);
    assert PickMany(a, [1, 0], 2) == (u, 2);
    assert u.active == map[0 := REMOVING, 1 := REMOVING] && u.removeQ == [1, 0];
  }

  lemma CompleteOne()
    ensures Next(At(Both(map[0 := REMOVING, 1 := REMOVING]), RUNNERS, {0, 1}, {0, 1}, AtTop), DoCompleted(0),
                 At(Both(map[0 := COMPLETED, 1 := REMOVING]), RUNNERS, {0, 1}, {0, 1}, AtTop))
  {
    var w, v := At(Both(map[0 := REMOVING, 1 := REMOVING]), RUNNERS, {0, 1}, {0, 1}, AtTop),
                At(Both(map[0 := COMPLETED, 1 := REMOVING]), RUNNERS, {0, 1}, {0, 1}, AtTop);
    NoneCancelled(w.s.active, REMOVING, REMOVING);
    NoneCancelled(v.s.active, COMPLETED, REMOVING);
    hide PlanStep, MoveStep, RemoveStep, CancelledNames;
    Uncancelling(w, DoCompleted(0), v);
  }

  // --- one job is asked for ---

  lemma FirstPass(order: seq<Name>)
    ensures var s := Asked(Both(map[0 := COMPLETED, 1 := REMOVING]), 1);
            var p := ReconcileLocked(s, order);
            && p.s.removeQ == [1] && Live(p.s) == 0 && CompletedBusy(p.s) && Desired(p.s) == 1 && p.s.min == 0
  {
    var s := Asked(Both(map[0 := COMPLETED, 1 := REMOVING]), 1);
    assert s.active.Keys == {0, 1};
    assert GoneNames(s.active) == {0, 1};
    var popped := s.(removeQ := [1]);
    assert s.removeQ[..1] == [1];
    var r := Unmark(popped, 0);
    assert Reclaim(s, 1) == (r, 1);
    MarkLive(popped, 0, r.active[0]);
    assert Live(popped) == Live(s);
    assert Commit(r, 0) == r;
  }

  lemma LastPass(w: World, order: seq<Name>) returns (v: World)
    requires w == At(Both(map[0 := COMPLETED, 1 := REMOVING]), RUNNERS, {0, 1}, {0, 1}, AtTop) && Enumerates(order, {0, 1})
    ensures Next(w, DoReconcile(1, order), v) && v.s == ReconcileLocked(Asked(w.s, 1), order).s
  {
    hide ReconcileLocked;
    assert w.s.active.Keys == {0, 1};
    v := Do(w, DoReconcile(1, order));
  }

  /** The run as far as the last pass. */
  lemma BothTracked() returns (ws: seq<World>)
    ensures |ws| == 10 && ws[0] == Start(2, 0, true)
    ensures ws[9] == At(Two(0).(active := map[0 := FRESH, 1 := FRESH]), RUNNERS, {0, 1}, {0, 1}, NoLoop)
    ensures forall k :: 0 <= k < 9 ==> Next(ws[k], STEPS[k], ws[k + 1])
  {
    hide Next;
    LaunchTwo();
    var ls := map[0 := Committed, 1 := Committed];
    var s := Track(Enter(Two(2)), 0);
    var a, b, c := Board(Two(2), ls, {}, 0);
    var d, e, f := Board(s, ls[0 := Tracked], {} + {0}, 1);
    assert Track(Enter(s), 1).active == map[0 := FRESH, 1 := FRESH];
    assert ls[0 := Tracked][1 := Tracked] == RUNNERS && {} + {0} + {1} == {0, 1};
    ws := [Start(2, 0, true), At(Two(2), ls, {}, {}, NoLoop), a, b, c, At(s, ls[0 := Tracked], {} + {0}, {} + {0}, NoLoop),
           d, e, f, At(Track(Enter(s), 1), RUNNERS, {0, 1}, {0, 1}, NoLoop)];
    Nine(ws);
  }

  const STEPS := [DoReconcile(2, []), DoGenerate(0, true, true), DoEnter(0), DoEntered(0), DoTrack(0),
                  DoGenerate(1, true, true), DoEnter(1), DoEntered(1), DoTrack(1)]

  lemma Nine(ws: seq<World>)
    requires |ws| == 10 && Next(ws[0], STEPS[0], ws[1]) && Next(ws[1], STEPS[1], ws[2]) && Next(ws[2], STEPS[2], ws[3])
    requires Next(ws[3], STEPS[3], ws[4]) && Next(ws[4], STEPS[4], ws[5]) && Next(ws[5], STEPS[5], ws[6])
    requires Next(ws[6], STEPS[6], ws[7]) && Next(ws[7], STEPS[7], ws[8]) && Next(ws[8], STEPS[8], ws[9])
    ensures forall k :: 0 <= k < 9 ==> Next(ws[k], STEPS[k], ws[k + 1])
  {
    hide Next;
    forall k | 0 <= k < 9 ensures Next(ws[k], STEPS[k], ws[k + 1]) {
    }
  }

  /**
   A run whose last step is a pass for one job, and right after which another pass for the same count
   changes the state again.
   */
  lemma SecondPassMayChange(order: seq<Name>, again: seq<Name>) returns (ws: seq<World>, steps: seq<Step>)
    requires Enumerates(order, {0, 1})
    ensures Run(ws, steps, 2, 0, true) && |steps| == 12 && steps[11] == DoReconcile(1, order)
    ensures ReconcileLocked(ws[12].s, again).s != ws[12].s
  {
    hide Next, ReconcileLocked, Live;
    ws := BothTracked();
    DismissBoth();
    CompleteOne();
    var e, f := At(Both(map[0 := REMOVING, 1 := REMOVING]), RUNNERS, {0, 1}, {0, 1}, AtTop),
                At(Both(map[0 := COMPLETED, 1 := REMOVING]), RUNNERS, {0, 1}, {0, 1}, AtTop);
    var g := LastPass(f, order);
    FirstPass(order);
    ReclaimShort(g.s, again);
    var nine := ws;
    ws, steps := nine + [e, f, g], STEPS + [DoReconcile(0, [1, 0]), DoCompleted(0), DoReconcile(1, order)];
    forall k | 0 <= k < 12 ensures Next(ws[k], steps[k], ws[k + 1]) {
      if k < 9 {
        assert ws[k] == nine[k] && ws[k + 1] == nine[k + 1] && steps[k] == STEPS[k];
      }
    }
  }
}
