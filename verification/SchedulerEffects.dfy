/** What each step does, in every run: to the runner it is about, and to nobody else. */
module SchedulerEffects {
  import opened Wrappers
  import opened Scheduling
  import opened SchedulerFacts
  import opened SchedulerPass
  import opened SchedulerRuns
  import opened SchedulerSafety

  /** Every runner but n is as it was. */
  ghost predicate OthersSame(s: Sched, t: Sched, n: Name) {
    forall m :: m != n ==> (m in t.active <==> m in s.active) && (m in s.active ==> t.active[m] == s.active[m])
  }

  lemma Stepped(ws: seq<World>, steps: seq<Step>, max: int, min: int, r: bool, k: nat)
    requires Run(ws, steps, max, min, r) && 0 <= max && k < |steps|
    ensures k + 1 < |ws| && Inv(ws[k]) && Enabled(ws[k], steps[k]) && ws[k + 1] == Do(ws[k], steps[k]) && Inv(ws[k + 1])
  {
    hide Inv, Do, Enabled;
    Reachable(ws, steps, max, min, r, k);
    Reachable(ws, steps, max, min, r, k + 1);
    assert Next(ws[k], steps[k], ws[k + 1]);
  }

  /** Apart from the records of who was cancelled by whom. */
  lemma Core(w: World, st: Step)
    requires Enabled(w, st)
    ensures var v := Do(w, st); v == Raw(w, st).(stopped := v.stopped, reaped := v.reaped)
  {
    hide Raw;
  }

  // --- removing a runner ---

  /** What becomes of n and its handle h when GitHub's answer about it is `a`. */
  ghost predicate ActedOn(w: World, v: World, n: Name, a: Answer)
    requires n in w.s.active && n in v.s.active
  {
    var h, g := w.s.active[n], v.s.active[n];
    && (g.cancelled <==> a == Removed && !h.busy)
    && (g.busy <==> h.busy || a == Busy)
    && (a == Busy || a == StillThere || h.busy ==> !g.removing)
    && (n in v.s.removeQ && g.removing <==> a == Unknown && !h.busy)
    && (n in v.s.removeQ <==> a == Unknown && !h.busy)
    && g.completed == h.completed && g.completedAt == h.completedAt
  }

  lemma SettleOne(s: Sched, n: Name, a: Answer)
    requires QueueOk(s, {n}, false) && n in s.active && !s.active[n].cancelled
    ensures var t := Settle(s, n, a).0;
            && n in t.active && OthersSame(s, t, n)
            && (var h, g := s.active[n], t.active[n];
                && (g.cancelled <==> a == Removed && !h.busy) && (g.busy <==> h.busy || a == Busy)
                && (a == Busy || a == StillThere || h.busy ==> !g.removing) && (a == Unknown && !h.busy ==> g.removing)
                && g.completed == h.completed && g.completedAt == h.completedAt)
            && (n in t.removeQ <==> a == Unknown && !s.active[n].busy)
            && (forall m :: m != n ==> (m in t.removeQ <==> m in s.removeQ))
  {
    assert n !in s.removeQ;
    var q := s.removeQ + [n];
    assert q[|s.removeQ|] == n;
    forall m | m != n ensures m in q <==> m in s.removeQ {
    }
  }

  lemma SettleStep(w: World, n: Name, a: Answer)
    requires Queue(w) && w.loop == Answered(n, a) && n in w.s.active && !w.s.active[n].cancelled
    ensures var v := Do(w, DoSettle);
            && n in v.s.active && ActedOn(w, v, n, a) && OthersSame(w.s, v.s, n) && v.loop == AtTop && v.gh == w.gh
            && forall m :: m != n ==> (m in v.s.removeQ <==> m in w.s.removeQ)
  {
    Core(w, DoSettle);
    assert QueueOk(w.s, {n}, false);
    SettleOne(w.s, n, a);
    hide Do, Settle, RemoveTop, QueueOk, OthersSame;
  }

  /**
   What GitHub's answer does. A runner it has removed is cancelled unless it turned out busy; one it says
   is running a job is busy from now on; one still there, or busy, is no longer being removed; and only
   when nothing is known of an idle one is it queued again, still to be removed. Nobody else is touched.
   */
  lemma AnswerActedOn(ws: seq<World>, steps: seq<Step>, max: int, min: int, r: bool, k: nat, n: Name, a: Answer)
    requires Run(ws, steps, max, min, r) && 0 <= max && k < |steps| && steps[k].DoSettle?
    requires ws[k].loop == Answered(n, a) && n in ws[k].s.active && !ws[k].s.active[n].cancelled
    ensures n in ws[k + 1].s.active && ActedOn(ws[k], ws[k + 1], n, a) && OthersSame(ws[k].s, ws[k + 1].s, n)
    ensures ws[k + 1].loop == AtTop && ws[k + 1].gh == ws[k].gh
    ensures forall m :: m != n ==> (m in ws[k + 1].s.removeQ <==> m in ws[k].s.removeQ)
  {
    Stepped(ws, steps, max, min, r, k);
    SettleStep(ws[k], n, a);
    hide *;
  }

  /** What the loop takes GitHub's reply about n for. */
  ghost predicate Understood(w: World, st: Step, v: World, n: Name) {
    && (st.DoLookup? ==>
          v.loop == if !st.answers then Answered(n, StillThere)
                    else if n in w.gh.registered then Deleting(n) else Answered(n, Removed))
    && (st.DoDelete? ==>
          && (st.outcome == Deleted || st.outcome == NotFound ==> v.loop == Answered(n, Removed))
          && (st.outcome == StillRunning ==> v.loop == Answered(n, Busy))
          && (st.outcome.Failed? ==> v.loop == Verifying(n))
          && (n in v.gh.registered <==> n in w.gh.registered && st.outcome != Deleted && !(st.outcome.Failed? && st.outcome.took)))
    && (st.DoVerify? ==>
          v.loop == Answered(n, if !st.answers then Unknown else if n in w.gh.registered then StillThere else Removed))
  }

  lemma ReplyStep(w: World, st: Step, n: Name)
    requires Enabled(w, st) && (st.DoLookup? || st.DoDelete? || st.DoVerify?) && n in Inflight(w.loop)
    ensures Understood(w, st, Do(w, st), n)
  {
    Core(w, st);
    hide Do, RemoveTop, Settle, PlanStep, MoveStep, SignalStep;
  }

  /** What each of GitHub's replies is taken for: gone, running a job, still there, or unknown. */
  lemma AnswerMeans(ws: seq<World>, steps: seq<Step>, max: int, min: int, r: bool, k: nat, n: Name)
    requires Run(ws, steps, max, min, r) && 0 <= max && k < |steps| && n in Inflight(ws[k].loop)
    requires steps[k].DoLookup? || steps[k].DoDelete? || steps[k].DoVerify?
    ensures Understood(ws[k], steps[k], ws[k + 1], n)
  {
    Stepped(ws, steps, max, min, r, k);
    ReplyStep(ws[k], steps[k], n);
    hide *;
  }

  /** Tracked, to be removed, not cancelled and not busy. */
  predicate Takeable(s: Sched, n: Name) {
    n in s.active && s.active[n].removing && !s.active[n].cancelled && !s.active[n].busy
  }

  /** The first queued name that can be taken is at k. */
  ghost predicate FirstAt(s: Sched, q: seq<Name>, k: int) {
    0 <= k < |q| && Takeable(s, q[k]) && forall i :: 0 <= i < k ==> !Takeable(s, q[i])
  }

  /** With the first name skipped, the others can be taken as before. */
  lemma SameAhead(s: Sched, u: Sched)
    requires Distinct(s.removeQ) && s.removeQ != [] && u.removeQ == s.removeQ[1..] && OthersSame(s, u, s.removeQ[0])
    ensures forall i :: 0 <= i < |u.removeQ| ==> (Takeable(u, u.removeQ[i]) <==> Takeable(s, s.removeQ[i + 1]))
  {
    forall i | 0 < i < |s.removeQ| ensures s.removeQ[i] != s.removeQ[0] {
    }
  }

  lemma FirstLater(s: Sched, u: Sched, k: int)
    requires s.removeQ != [] && u.removeQ == s.removeQ[1..] && !Takeable(s, s.removeQ[0]) && FirstAt(u, u.removeQ, k)
    requires forall i :: 0 <= i < |u.removeQ| ==> (Takeable(u, u.removeQ[i]) <==> Takeable(s, s.removeQ[i + 1]))
    ensures FirstAt(s, s.removeQ, k + 1) && s.removeQ[k + 1] == u.removeQ[k] && s.removeQ[k + 2..] == u.removeQ[k + 1..]
  {
    forall i | 0 <= i < k + 1 ensures !Takeable(s, s.removeQ[i]) {
      if i > 0 {
        assert !Takeable(u, u.removeQ[i - 1]);
      }
    }
  }

  /** `next` is the first that can be taken, and what is queued behind it is left. */
  ghost predicate TakenInOrder(s: Sched, t: Sched, next: Option<Name>) {
    && (next.None? ==> t.removeQ == [] && forall i :: 0 <= i < |s.removeQ| ==> !Takeable(s, s.removeQ[i]))
    && (next.Some? ==> exists k :: FirstAt(s, s.removeQ, k) && s.removeQ[k] == next.value && t.removeQ == s.removeQ[k + 1..])
  }

  lemma SkippedInOrder(s: Sched, u: Sched, t: Sched, next: Option<Name>)
    requires Distinct(s.removeQ) && s.removeQ != [] && u.removeQ == s.removeQ[1..] && OthersSame(s, u, s.removeQ[0])
    requires !Takeable(s, s.removeQ[0]) && TakenInOrder(u, t, next)
    ensures TakenInOrder(s, t, next)
  {
    SameAhead(s, u);
    hide Takeable, FirstAt, OthersSame, Distinct;
    if next.Some? {
      var k :| FirstAt(u, u.removeQ, k) && AtIndex(u.removeQ, k, next.value) && t.removeQ == u.removeQ[k + 1..];
      FirstLater(s, u, k);
    } else {
      forall i | 0 <= i < |s.removeQ| ensures !Takeable(s, s.removeQ[i]) {
        if i > 0 {
          assert !Takeable(u, u.removeQ[i - 1]);
        }
      }
    }
  }

  /**
   The loop takes the first queued runner still to be removed and not busy, and leaves what is queued
   behind it; with none there the queue is used up.
   */
  lemma {:induction false} NextInOrder(s: Sched)
    requires Distinct(s.removeQ)
    ensures TakenInOrder(s, NextRemoval(s).0, NextRemoval(s).1)
    decreases |s.removeQ|
  {
    if s.removeQ != [] {
      var name := s.removeQ[0];
      var popped := s.(removeQ := s.removeQ[1..]);
      if Takeable(s, name) {
        assert FirstAt(s, s.removeQ, 0) && NextRemoval(s) == (popped, Some(name));
      } else {
        var u := if Recallable(popped, name) then Unmark(popped, name) else popped;
        assert NextRemoval(s) == NextRemoval(u) && OthersSame(s, u, name);
        assert Distinct(u.removeQ);
        hide OthersSame, TakenInOrder, Takeable, Unmark, Recallable;
        NextInOrder(u);
        SkippedInOrder(s, u, NextRemoval(u).0, NextRemoval(u).1);
      }
    }
  }

  predicate AtIndex(q: seq<Name>, k: int, n: Name) {
    0 <= k < |q| && q[k] == n
  }

  // --- signals ---

  lemma SignalCore(w: World, st: Step)
    requires Enabled(w, st)
    requires st.DoBusy? || st.DoCompleted? || st.DoCancelLost? || st.DoCancelIdle? || st.DoDrain? || st.DoHealthy?
    ensures var v := Do(w, st); v.s == SignalSched(w.s, st) && v.launches == w.launches && v.loop == w.loop
  {
    Core(w, st);
    hide Do, SignalSched, SignalGitHub;
  }

  /** What a busy or completion signal about n does. */
  ghost predicate Marked(s: Sched, t: Sched, n: Name, completed: bool) {
    && OthersSame(s, t, n) && (n in t.active <==> n in s.active)
    && (n in s.active ==>
          && t.active[n].busy && t.active[n].cancelled == s.active[n].cancelled && t.active[n].removing == s.active[n].removing
          && (t.active[n].completed <==> completed || s.active[n].completed)
          && t.active[n].completedAt == if completed then s.reconciles else s.active[n].completedAt)
  }

  /**
   A busy signal marks its runner busy, a completion marks it completed at the current count too; nobody
   else changes.
   */
  lemma JobSignals(ws: seq<World>, steps: seq<Step>, max: int, min: int, r: bool, k: nat)
    requires Run(ws, steps, max, min, r) && 0 <= max && k < |steps| && (steps[k].DoBusy? || steps[k].DoCompleted?)
    ensures Marked(ws[k].s, ws[k + 1].s, steps[k].n, steps[k].DoCompleted?)
  {
    Stepped(ws, steps, max, min, r, k);
    hide *;
    SignalCore(ws[k], steps[k]);
    MarkSignal(ws[k].s, steps[k]);
  }

  lemma MarkSignal(s: Sched, st: Step)
    requires st.DoBusy? || st.DoCompleted?
    ensures Marked(s, SignalSched(s, st), st.n, st.DoCompleted?)
  {
  }

  /** The handle of n, not cancelled before, is cancelled now exactly if `due`. */
  ghost predicate CancelledIf(s: Sched, t: Sched, n: Name, due: bool) {
    n in s.active && n in t.active && OthersSame(s, t, n)
    && t.active[n] == s.active[n].(cancelled := due)
  }

  /** The lost-runner check cancels the runner exactly if it is idle, the shutdown watcher exactly if it is not busy. */
  lemma CancelSignals(ws: seq<World>, steps: seq<Step>, max: int, min: int, r: bool, k: nat)
    requires Run(ws, steps, max, min, r) && 0 <= max && k < |steps| && (steps[k].DoCancelLost? || steps[k].DoCancelIdle?)
    requires steps[k].n in ws[k].s.active && !ws[k].s.active[steps[k].n].cancelled
    ensures var h := ws[k].s.active[steps[k].n];
            CancelledIf(ws[k].s, ws[k + 1].s, steps[k].n, !h.busy && (steps[k].DoCancelLost? ==> !h.removing))
  {
    Stepped(ws, steps, max, min, r, k);
    hide *;
    SignalCore(ws[k], steps[k]);
    CancelSignal(ws[k].s, steps[k]);
  }

  lemma CancelSignal(s: Sched, st: Step)
    requires (st.DoCancelLost? || st.DoCancelIdle?) && st.n in s.active && !s.active[st.n].cancelled
    ensures var h := s.active[st.n];
            CancelledIf(s, SignalSched(s, st), st.n, !h.busy && (st.DoCancelLost? ==> !h.removing))
  {
  }

  /** A drain is on from the moment it begins, and a healthy launch clears the failures. */
  lemma SwitchSignals(ws: seq<World>, steps: seq<Step>, max: int, min: int, r: bool, k: nat)
    requires Run(ws, steps, max, min, r) && 0 <= max && k < |steps|
    ensures steps[k].DoDrain? ==> ws[k + 1].s == ws[k].s.(draining := true)
    ensures steps[k].DoHealthy? ==> ws[k + 1].s == ws[k].s.(failures := 0)
  {
    Stepped(ws, steps, max, min, r, k);
    SwitchSignal(ws[k].s, steps[k]);
    hide *;
    if steps[k].DoDrain? || steps[k].DoHealthy? {
      SignalCore(ws[k], steps[k]);
    }
  }

  lemma SwitchSignal(s: Sched, st: Step)
    ensures st.DoDrain? ==> SignalSched(s, st) == s.(draining := true)
    ensures st.DoHealthy? ==> SignalSched(s, st) == s.(failures := 0)
  {
  }

  // --- a launch and its end ---

  lemma MoveCore(w: World, st: Step)
    requires Moves(st) && Enabled(w, st)
    ensures var v := Do(w, st); v.s == MovedSched(w.s, st) && v.launches == w.launches[st.l := NextPhase(w.launches[st.l], st)]
  {
    Core(w, st);
    hide Do, MovedSched, NextPhase;
  }

  /** A runner is first tracked idle, unmarked, and cancelled by nobody. */
  lemma TrackedIdle(ws: seq<World>, steps: seq<Step>, max: int, min: int, r: bool, k: nat)
    requires Run(ws, steps, max, min, r) && 0 <= max && k < |steps| && steps[k].DoTrack?
    ensures var l := steps[k].l;
            && l !in ws[k].s.active && l in ws[k + 1].s.active && OthersSame(ws[k].s, ws[k + 1].s, l)
            && Idle(ws[k + 1].s.active[l]) && !ws[k + 1].s.active[l].completed
  {
    Stepped(ws, steps, max, min, r, k);
    TrackStep(ws[k], steps[k].l);
    hide *;
  }

  lemma TrackStep(w: World, l: Name)
    requires Names(w) && Enabled(w, DoTrack(l))
    ensures var v := Do(w, DoTrack(l));
            && l !in w.s.active && l in v.s.active && OthersSame(w.s, v.s, l)
            && Idle(v.s.active[l]) && !v.s.active[l].completed
  {
    MoveCore(w, DoTrack(l));
    hide Do;
  }

  /** A failed launch is counted, so it backs off longer each time. */
  lemma FailureCounted(ws: seq<World>, steps: seq<Step>, max: int, min: int, r: bool, k: nat)
    requires Run(ws, steps, max, min, r) && 0 <= max && k < |steps| && steps[k].DoBackoff?
    ensures ws[k + 1].s.failures == ws[k].s.failures + 1 && ws[k + 1].s.active == ws[k].s.active
    ensures var l := steps[k].l;
            && l in ws[k].launches && l in ws[k + 1].launches
            && ws[k + 1].launches[l] == BackingOff(ws[k].launches[l] == ExitFailed(true))
  {
    Stepped(ws, steps, max, min, r, k);
    hide Inv, Do, Enabled, Run;
    MoveCore(ws[k], steps[k]);
  }

  /** What the end of the VM of launch l does. */
  ghost predicate Ended(w: World, v: World, l: Name, launchErr: bool) {
    && l in w.s.active && l !in v.s.active
    && (l in v.launches <==> launchErr && !w.s.active[l].cancelled)
    && (l in v.launches ==>
          && v.launches[l] == ExitFailed(w.s.active[l].completed && w.s.reconciles > w.s.active[l].completedAt)
          && v.s.running == w.s.running)
    && (l !in v.launches ==> w.s.running - 1 <= v.s.running <= w.s.running)
  }

  /**
   When a VM is over it is tracked no more; its launch goes on to back off exactly if it failed and nobody
   had cancelled it, and otherwise is over too.
   */
  lemma ExitMeans(ws: seq<World>, steps: seq<Step>, max: int, min: int, r: bool, k: nat)
    requires Run(ws, steps, max, min, r) && 0 <= max && k < |steps| && steps[k].DoExit?
    ensures Ended(ws[k], ws[k + 1], steps[k].l, steps[k].launchErr)
  {
    Stepped(ws, steps, max, min, r, k);
    ExitStep(ws[k], steps[k]);
    hide *;
  }

  lemma ExitStep(w: World, st: Step)
    requires Inv(w) && st.DoExit? && Enabled(w, st)
    ensures Ended(w, Do(w, st), st.l, st.launchErr)
  {
    Core(w, st);
    assert st.l in w.s.active;
    ExitOne(w, st.l, st.launchErr);
    hide Do, Exiting, Inv;
  }

  lemma ExitSched(w: World, l: Name, launchErr: bool)
    requires Queue(w) && l in w.s.active
    ensures var e := ExitVM(w.s, l, launchErr, w.ctxDone);
            && l !in e.s.active && (e.failed <==> launchErr && !w.s.active[l].cancelled)
            && e.jobDone == (w.s.active[l].completed && w.s.reconciles > w.s.active[l].completedAt)
            && (e.failed ==> e.s.running == w.s.running) && (!e.failed ==> w.s.running - 1 <= e.s.running <= w.s.running)
            && 0 <= e.launched
  {
    UntrackQueue(w.s, l, Inflight(w.loop), !w.ctxDone);
    var u := Untrack(w.s, l);
    ReplanFacts(u.(running := u.running - 1), w.ctxDone, Inflight(w.loop), !w.ctxDone);
    hide QueueOk, Replan;
  }

  lemma ExitOne(w: World, l: Name, launchErr: bool)
    requires Counts(w) && Queue(w) && At(w, l, Tracked) && l in w.s.active
    ensures Ended(w, Exiting(w, l, launchErr), l, launchErr)
  {
    ExitSched(w, l, launchErr);
    var e := ExitVM(w.s, l, launchErr, w.ctxDone);
    assert l < w.next;
    hide ExitVM, Counts, Queue;
    if !e.failed && e.launched > 0 {
      SpawnedNames(Leave(w, l).launches, w.next, e.launched);
    }
  }

  // --- keeping the minimum ---

  lemma {:induction false} MaxFixed(ws: seq<World>, steps: seq<Step>, max: int, min: int, r: bool, k: nat)
    requires Run(ws, steps, max, min, r) && 0 <= max && k < |ws|
    ensures ws[k].s.max == max
  {
    hide Inv, Next;
    if k > 0 {
      MaxFixed(ws, steps, max, min, r, k - 1);
      Reachable(ws, steps, max, min, r, k - 1);
      assert Next(ws[k - 1], steps[k - 1], ws[k]);
      MaxStep(ws[k - 1], steps[k - 1], ws[k]);
    }
  }

  lemma MaxStep(w: World, st: Step, v: World)
    requires Inv(w) && Next(w, st, v)
    ensures v.s.max == w.s.max
  {
    StepFollows(w, st);
    hide Raw, Enabled, Inv;
  }

  /** In flight are as many as the minimum asks for, or as the limit allows; never fewer than before. */
  ghost predicate ToppedUp(s: Sched, t: Sched) {
    && (s.draining || s.running >= s.min ==> t.running == s.running)
    && (!s.draining && s.running < s.min ==> t.running == s.min || t.running == s.max < s.min)
    && t.active == s.active && t.removeQ == s.removeQ
  }

  /**
   A top-up brings the launches in flight up to the minimum, or as near as the limit allows, and never
   beyond; while draining it launches nothing.
   */
  lemma MinimumKept(ws: seq<World>, steps: seq<Step>, max: int, min: int, r: bool, k: nat)
    requires Run(ws, steps, max, min, r) && 0 <= max && k < |steps| && steps[k].DoTopUp?
    ensures ToppedUp(ws[k].s, ws[k + 1].s) && ws[k].s.max == max && ws[k + 1].s.running == |ws[k + 1].launches|
  {
    Stepped(ws, steps, max, min, r, k);
    MaxFixed(ws, steps, max, min, r, k);
    Counted(ws[k]);
    Counted(ws[k + 1]);
    TopUpStep(ws[k], steps[k]);
    hide *;
  }

  lemma Counted(w: World)
    requires Inv(w)
    ensures 0 <= w.s.running == |w.launches| <= w.s.max
  {
    hide Names, Cancels, Marks, Queue, Where;
  }

  lemma TopUpStep(w: World, st: Step)
    requires 0 <= w.s.running <= w.s.max && st.DoTopUp? && Enabled(w, st)
    ensures ToppedUp(w.s, Do(w, st).s)
  {
    Core(w, st);
    TopUpSched(w.s);
    TopUpIs(w, st);
    hide *;
  }

  lemma TopUpIs(w: World, st: Step)
    requires st.DoTopUp? && Enabled(w, st)
    ensures Raw(w, st).s == MaintainMinimum(w.s).0
  {
    hide MaintainMinimum, MoveStep, RemoveStep, SignalStep;
  }

  lemma TopUpSched(s: Sched)
    requires 0 <= s.running <= s.max
    ensures ToppedUp(s, MaintainMinimum(s).0)
  {
  }

  // --- planning ---

  /** The count asked for is met: what PassMeets says of the plan, of the step. */
  ghost predicate CountMet(s: Sched, t: Sched, jobs: int, floor: int) {
    && t.lastJobs == jobs && t.min == floor && t.hasDesired && t.draining == s.draining
    && (t.draining || Live(t) >= jobs + floor || t.running == t.max)
    && (Live(t) > jobs + floor ==> NoneIdle(t) && (t.removeQ != [] ==> t.removerActive))
    && Min(Live(s), jobs + floor) <= Live(t) <= Max(Live(s), jobs + floor)
    && t.active.Keys == s.active.Keys
    && (t.draining ==> t.running == s.running)
    && forall n :: n in s.active && s.active[n].busy ==> t.active[n].busy && t.active[n].cancelled == s.active[n].cancelled
  }

  /** What no pass changes. */
  lemma PassSettings(s: Sched, order: seq<Name>)
    ensures var t := ReconcileLocked(s, order).s;
            && t.lastJobs == s.lastJobs && t.min == s.min && t.max == s.max && t.hasDesired == s.hasDesired
            && t.reconciles == s.reconciles && t.draining == s.draining
  {
    var need := Max(Desired(s), s.min) - Live(s);
    ReclaimKeeps(s, need);
    var r := Reclaim(s, need).0;
    PickManyKeeps(Commit(r, 0), order, Live(r) - Max(Desired(s), s.min));
    hide Reclaim, PickMany, Live;
  }

  lemma PassMet(s: Sched, order: seq<Name>)
    requires CompletedBusy(s) && 0 <= s.lastJobs && s.running <= s.max && s.hasDesired && Enumerates(order, s.active.Keys)
    ensures CountMet(s, ReconcileLocked(s, order).s, s.lastJobs, s.min)
  {
    PassMeets(s, order);
    PassSettings(s, order);
    hide ReconcileLocked, Live, Enumerates, CompletedBusy, NoneIdle;
  }

  lemma SameLive(s: Sched, t: Sched, u: Sched)
    requires t.active == s.active && t.running == s.running && t.backingOff == s.backingOff && t.draining == s.draining
    requires CountMet(t, u, t.lastJobs, t.min)
    ensures CountMet(s, u, t.lastJobs, t.min)
  {
    hide NoneIdle;
  }

  lemma PlanStepIs(w: World, st: Step)
    requires Enabled(w, st) && (st.DoReconcile? || st.DoSetMin?)
    ensures st.DoReconcile? ==> Do(w, st).s == Reconcile(w.s, st.jobs, st.order).s && Enumerates(st.order, w.s.active.Keys)
    ensures st.DoSetMin? ==>
              Do(w, st).s == SetMin(w.s, st.floor, w.ctxDone, st.order).s && Enumerates(st.order, w.s.active.Keys)
  {
    Core(w, st);
    hide Do, Reconcile, SetMin, Enumerates;
  }

  /**
   In every run, once a count is reported the tier has that many live runners over its minimum, or is
   full, or draining; it has more only where nothing idle is left, and no busy runner was touched.
   */
  lemma CountIsMet(ws: seq<World>, steps: seq<Step>, max: int, min: int, r: bool, k: nat)
    requires Run(ws, steps, max, min, r) && 0 <= max && k < |steps| && steps[k].DoReconcile? && 0 <= steps[k].jobs
    ensures CountMet(ws[k].s, ws[k + 1].s, steps[k].jobs, ws[k].s.min) && ws[k + 1].s.reconciles == ws[k].s.reconciles + 1
  {
    Stepped(ws, steps, max, min, r, k);
    Counted(ws[k]);
    BusyMarks(ws[k]);
    PlanStepIs(ws[k], steps[k]);
    var s := ws[k].s;
    var a := Asked(s, steps[k].jobs);
    PassMet(a, steps[k].order);
    PassSettings(a, steps[k].order);
    hide Inv, Do, Enabled, Run, ReconcileLocked, CountMet, Live;
    SameLive(s, a, ReconcileLocked(a, steps[k].order).s);
  }

  lemma BusyMarks(w: World)
    requires Inv(w)
    ensures CompletedBusy(w.s)
  {
    hide Names, Cancels, Counts, Queue;
  }

  /** A new minimum is stored, and met at once when a count is known and the context is live. */
  lemma MinimumIsMet(ws: seq<World>, steps: seq<Step>, max: int, min: int, r: bool, k: nat)
    requires Run(ws, steps, max, min, r) && 0 <= max && k < |steps| && steps[k].DoSetMin? && 0 <= ws[k].s.lastJobs
    ensures ws[k + 1].s.min == steps[k].floor
    ensures steps[k].floor != ws[k].s.min && ws[k].s.hasDesired && !ws[k].ctxDone ==>
              CountMet(ws[k].s, ws[k + 1].s, ws[k].s.lastJobs, steps[k].floor)
    ensures steps[k].floor == ws[k].s.min || !ws[k].s.hasDesired || ws[k].ctxDone ==>
              ws[k + 1].s == ws[k].s.(min := steps[k].floor)
  {
    Stepped(ws, steps, max, min, r, k);
    Counted(ws[k]);
    BusyMarks(ws[k]);
    PlanStepIs(ws[k], steps[k]);
    var s := ws[k].s;
    var a := s.(min := steps[k].floor);
    hide Inv, Do, Enabled, Run, ReconcileLocked, CountMet, Live;
    if steps[k].floor != s.min && s.hasDesired && !ws[k].ctxDone {
      PassMet(a, steps[k].order);
      SameLive(s, a, ReconcileLocked(a, steps[k].order).s);
      MetMin(s, ReconcileLocked(a, steps[k].order).s, s.lastJobs, steps[k].floor);
    }
  }

  lemma MetMin(s: Sched, t: Sched, jobs: int, floor: int)
    requires CountMet(s, t, jobs, floor)
    ensures t.min == floor
  {
  }

  // --- a busy runner is safe ---

  /** Tracked once, and while it is still tracked busy and not cancelled. */
  ghost predicate SafeBusy(w: World, n: Name) {
    n in w.tracked && (n in w.s.active ==> w.s.active[n].busy && !w.s.active[n].cancelled)
  }

  /** Busy runners stay busy, and are not cancelled. */
  ghost predicate BusyKept(s: Sched, t: Sched) {
    forall n :: n in s.active && s.active[n].busy && n in t.active ==>
                  t.active[n].busy && (t.active[n].cancelled ==> s.active[n].cancelled)
  }

  lemma BusyKeptBy(s: Sched, t: Sched, u: Sched)
    requires BusyKept(s, t) && BusyKept(t, u) && u.active.Keys <= t.active.Keys
    ensures BusyKept(s, u)
  {
  }

  lemma ReclaimKeepsBusy(s: Sched, need: int)
    ensures BusyKept(s, Reclaim(s, need).0) && Reclaim(s, need).0.active.Keys == s.active.Keys
  {
    ReclaimUntouched(s, need);
  }

  lemma PickKeepsBusy(s: Sched, order: seq<Name>, excess: int)
    ensures BusyKept(s, PickMany(s, order, excess).0) && PickMany(s, order, excess).0.active.Keys == s.active.Keys
  {
    PickManyUntouched(s, order, excess);
  }

  lemma ScaleKeepsBusy(s: Sched, desired: int, order: seq<Name>)
    ensures BusyKept(s, ScaleDown(s, desired, order).0) && ScaleDown(s, desired, order).0.active.Keys == s.active.Keys
  {
    PickKeepsBusy(s, order, Live(s) - Max(desired, s.min));
    hide PickMany, Live;
  }

  lemma PassKeepsBusy(s: Sched, order: seq<Name>)
    ensures BusyKept(s, ReconcileLocked(s, order).s) && ReconcileLocked(s, order).s.active.Keys == s.active.Keys
  {
    ReclaimKeepsBusy(s, Max(Desired(s), s.min) - Live(s));
    var r := ReclaimQueued(s, Desired(s)).0;
    var c := Commit(r, if r.draining then 0 else Plan(Desired(s), Live(r), r.running, r.max));
    assert BusyKept(s, c) && c.active.Keys == s.active.Keys;
    ScaleKeepsBusy(c, Desired(s), order);
    hide ReclaimQueued, ScaleDown, Live, Plan;
    BusyKeptBy(s, c, ScaleDown(c, Desired(s), order).0);
  }

  lemma ReplanKeepsBusy(s: Sched, ctxDone: bool)
    ensures BusyKept(s, Replan(s, ctxDone).0) && Replan(s, ctxDone).0.active.Keys == s.active.Keys
  {
    ReclaimKeepsBusy(s, Max(Desired(s), s.min) - Live(s));
    hide Reclaim, Live;
  }

  lemma FinishKeepsBusy(s: Sched, jobDone: bool, ctxDone: bool)
    ensures BusyKept(s, Finish(s, jobDone, ctxDone).0) && Finish(s, jobDone, ctxDone).0.active.Keys == s.active.Keys
  {
    ReplanKeepsBusy(s.(running := s.running - 1), ctxDone);
    hide Replan;
  }

  lemma ExitKeepsBusy(s: Sched, l: Name, launchErr: bool, ctxDone: bool)
    ensures BusyKept(s, ExitVM(s, l, launchErr, ctxDone).s) && ExitVM(s, l, launchErr, ctxDone).s.active.Keys <= s.active.Keys
  {
    FinishKeepsBusy(Untrack(s, l), JobDone(s, l), ctxDone);
    hide Finish, JobDone;
    BusyKeptBy(s, Untrack(s, l), ExitVM(s, l, launchErr, ctxDone).s);
  }

  lemma MinKeepsBusy(s: Sched, floor: int, ctxDone: bool, order: seq<Name>)
    ensures BusyKept(s, SetMin(s, floor, ctxDone, order).s) && SetMin(s, floor, ctxDone, order).s.active.Keys == s.active.Keys
  {
    PassKeepsBusy(s.(min := floor), order);
    hide ReconcileLocked;
  }

  lemma CountKeepsBusy(s: Sched, jobs: int, order: seq<Name>)
    ensures BusyKept(s, Reconcile(s, jobs, order).s) && Reconcile(s, jobs, order).s.active.Keys == s.active.Keys
  {
    PassKeepsBusy(Asked(s, jobs), order);
    hide ReconcileLocked;
  }

  lemma TopUpKeepsBusy(w: World, st: Step)
    requires st.DoTopUp? && PlanEnabled(w, st)
    ensures BusyKept(w.s, PlanStep(w, st).s) && PlanStep(w, st).s.active.Keys <= w.s.active.Keys
    ensures PlanStep(w, st).tracked == w.tracked
  {
  }

  lemma PlanKeepsBusy(w: World, st: Step)
    requires Plans(st) && PlanEnabled(w, st)
    ensures BusyKept(w.s, PlanStep(w, st).s) && PlanStep(w, st).s.active.Keys <= w.s.active.Keys
    ensures PlanStep(w, st).tracked == w.tracked
  {
    hide Reconcile, SetMin, ExitVM, Finish, MaintainMinimum, BusyKept;
    match st
    case DoReconcile(jobs, order) => CountKeepsBusy(w.s, jobs, order);
    case DoSetMin(floor, order) => MinKeepsBusy(w.s, floor, w.ctxDone, order);
    case DoTopUp => TopUpKeepsBusy(w, st);
    case DoExit(l, launchErr) => ExitKeepsBusy(w.s, l, launchErr, w.ctxDone);
    case DoFinish(l) => FinishKeepsBusy(w.s, JobDoneOf(w.launches[l]), w.ctxDone);
  }

  lemma MoveKeepsBusy(w: World, st: Step, n: Name)
    requires Names(w) && Moves(st) && MoveEnabled(w, st) && SafeBusy(w, n)
    ensures SafeBusy(MoveStep(w, st), n)
  {
    hide NextPhase;
  }

  lemma {:induction false} NextKeepsBusy(s: Sched)
    ensures BusyKept(s, NextRemoval(s).0) && NextRemoval(s).0.active.Keys == s.active.Keys
    decreases |s.removeQ|
  {
    if s.removeQ != [] {
      var name := s.removeQ[0];
      var popped := s.(removeQ := s.removeQ[1..]);
      if !Recallable(popped, name) {
        NextKeepsBusy(popped);
      } else if popped.active[name].busy {
        NextKeepsBusy(Unmark(popped, name));
      }
    }
  }

  lemma TopKeepsBusy(s: Sched, ctxDone: bool)
    ensures BusyKept(s, RemoveTop(s, ctxDone).0) && RemoveTop(s, ctxDone).0.active.Keys == s.active.Keys
  {
    NextKeepsBusy(s);
    hide NextRemoval;
  }

  lemma SettleKeepsBusy(s: Sched, n: Name, a: Answer)
    ensures BusyKept(s, Settle(s, n, a).0) && Settle(s, n, a).0.active.Keys == s.active.Keys
  {
  }

  lemma RemoveKeepsBusy(w: World, st: Step)
    requires Removes(st) && RemoveEnabled(w, st)
    ensures BusyKept(w.s, RemoveStep(w, st).s) && RemoveStep(w, st).s.active.Keys == w.s.active.Keys
    ensures RemoveStep(w, st).tracked == w.tracked
  {
    hide RemoveTop, Settle;
    if st.DoTop? {
      TopKeepsBusy(w.s, w.ctxDone);
    } else if st.DoSettle? {
      SettleKeepsBusy(w.s, w.loop.name, w.loop.answer);
    }
  }

  lemma SignalKeepsBusy(s: Sched, st: Step)
    ensures BusyKept(s, SignalSched(s, st)) && SignalSched(s, st).active.Keys == s.active.Keys
  {
  }

  lemma SafeStep(w: World, st: Step, n: Name)
    requires Inv(w) && Enabled(w, st) && SafeBusy(w, n)
    ensures SafeBusy(Do(w, st), n)
  {
    Core(w, st);
    hide Do, PlanStep, MoveStep, RemoveStep, SignalSched, Counts, Queue, Cancels, Marks, Names, SignalGitHub;
    if Plans(st) {
      PlanKeepsBusy(w, st);
    } else if Moves(st) {
      MoveKeepsBusy(w, st, n);
    } else if Removes(st) {
      RemoveKeepsBusy(w, st);
    } else {
      SignalKeepsBusy(w.s, st);
    }
  }

  lemma {:induction false} SafeOn(ws: seq<World>, steps: seq<Step>, max: int, min: int, r: bool, j: nat, k: nat, n: Name)
    requires Run(ws, steps, max, min, r) && 0 <= max && j <= k < |ws| && SafeBusy(ws[j], n)
    ensures SafeBusy(ws[k], n)
  {
    hide Inv, Do, Enabled, SafeBusy;
    if j < k {
      SafeOn(ws, steps, max, min, r, j, k - 1, n);
      Stepped(ws, steps, max, min, r, k - 1);
      SafeStep(ws[k - 1], steps[k - 1], n);
    }
  }

  /**
   From the moment its guest or GitHub reports a job, a tracked runner not yet cancelled is never
   cancelled by anyone, with or without a remover, shutdown included: it stays busy until its VM is over.
   */
  lemma BusyIsSafe(ws: seq<World>, steps: seq<Step>, max: int, min: int, r: bool, j: nat, k: nat, n: Name)
    requires Run(ws, steps, max, min, r) && 0 <= max && j < |steps| && j < k < |ws|
    requires (steps[j].DoBusy? || steps[j].DoCompleted?) && steps[j].n == n
    requires n in ws[j].s.active && !ws[j].s.active[n].cancelled
    ensures n in ws[k].s.active ==> ws[k].s.active[n].busy && !ws[k].s.active[n].cancelled
  {
    Stepped(ws, steps, max, min, r, j);
    JobSignals(ws, steps, max, min, r, j);
    assert n in ws[j + 1].tracked by {
      EverTracked(ws[j + 1], n);
    }
    SafeOn(ws, steps, max, min, r, j + 1, k, n);
    hide Run, Inv, Do, Enabled;
  }

  lemma EverTracked(w: World, n: Name)
    requires Names(w) && n in w.s.active
    ensures n in w.tracked
  {
  }

  // --- re-planning after an exit ---

  /** A removal still to be recalled. */
  ghost predicate CanRecall(s: Sched) {
    exists n :: n in s.removeQ && Recallable(s, n)
  }

  // --- scaling down and taking it back ---

  /** The runners in `order` that scale-down may pick. */
  function IdleNames(s: Sched, order: seq<Name>): seq<Name> {
    if order == [] then []
    else (if order[0] in s.active && Idle(s.active[order[0]]) then [order[0]] else []) + IdleNames(s, order[1..])
  }

  lemma {:induction false} IdleSame(s: Sched, u: Sched, order: seq<Name>, n: Name)
    requires OthersSame(s, u, n) && n !in order
    ensures IdleNames(u, order) == IdleNames(s, order)
  {
    if order != [] {
      IdleSame(s, u, order[1..], n);
    }
  }

  lemma {:induction false} IdleListed(s: Sched, order: seq<Name>)
    ensures forall n :: n in IdleNames(s, order) ==> n in order && n in s.active && Idle(s.active[n])
  {
    if order != [] {
      IdleListed(s, order[1..]);
    }
  }

  /** Exactly `names` were picked: queued behind what was there, in that order, or cancelled for want of a remover. */
  ghost predicate Picked(s: Sched, t: Sched, names: seq<Name>) {
    && t.removeQ == (if s.hasRemover then s.removeQ + names else s.removeQ) && t.active.Keys == s.active.Keys
    && (forall n :: n in s.active ==>
          t.active[n] == (if n !in names then s.active[n]
                          else if s.hasRemover then s.active[n].(removing := true) else s.active[n].(cancelled := true)))
  }

  lemma PickedMore(s: Sched, t: Sched, n: Name, names: seq<Name>)
    requires n in s.active && n !in names && Picked(Pick(s, n), t, names)
    ensures Picked(s, t, [n] + names)
  {
    assert s.removeQ + [n] + names == s.removeQ + ([n] + names);
  }

  /** Going through `order` for `excess` runners picks the first idle ones, as many as there are. */
  ghost predicate FirstIdlePicked(s: Sched, order: seq<Name>, excess: int) {
    var (t, k) := PickMany(s, order, excess);
    k == Min(Max(excess, 0), |IdleNames(s, order)|) && Picked(s, t, IdleNames(s, order)[..k])
  }

  lemma PickFirst(s: Sched, order: seq<Name>, excess: int)
    requires excess > 0 && order != [] && order[0] in s.active && Idle(s.active[order[0]]) && order[0] !in order[1..]
    requires FirstIdlePicked(Pick(s, order[0]), order[1..], excess - 1)
    ensures FirstIdlePicked(s, order, excess)
  {
    var n, rest := order[0], order[1..];
    var k := PickMany(s, order, excess).1;
    IdleSame(s, Pick(s, n), rest, n);
    IdleListed(s, rest);
    hide Picked;
    var more := IdleNames(s, rest)[..k - 1];
    assert n !in more;
    assert IdleNames(s, order)[..k] == [n] + more;
    hide IdleNames;
    PickedMore(s, PickMany(s, order, excess).0, n, more);
  }

  /** Scale-down picks the first idle runners it comes to, as many as are too many, and no others. */
  lemma {:induction false} PicksIdle(s: Sched, order: seq<Name>, excess: int)
    requires Distinct(order)
    ensures FirstIdlePicked(s, order, excess)
    decreases |order|
  {
    if excess > 0 && order != [] {
      var n, rest := order[0], order[1..];
      assert Distinct(rest) && n !in rest;
      if n in s.active && Idle(s.active[n]) {
        PicksIdle(Pick(s, n), rest, excess - 1);
        PickFirst(s, order, excess);
        hide FirstIdlePicked;
      } else {
        PicksIdle(s, rest, excess);
        assert IdleNames(s, order) == IdleNames(s, rest);
        hide Picked;
      }
    }
  }

  /** Reclaiming gives back nothing exactly when nothing is needed or nothing queued can be recalled. */
  lemma {:induction false} ReclaimsNone(s: Sched, need: int)
    requires Distinct(s.removeQ)
    ensures Reclaim(s, need).1 == 0 <==> need <= 0 || !CanRecall(s)
    ensures Reclaim(s, need).1 == 0 ==> Reclaim(s, need).0.active == s.active
    decreases |s.removeQ|
  {
    if need > 0 && s.removeQ != [] {
      var last := |s.removeQ| - 1;
      var name := s.removeQ[last];
      var popped := s.(removeQ := s.removeQ[..last]);
      assert name in s.removeQ;
      if Recallable(popped, name) {
        assert Recallable(s, name) && CanRecall(s);
        assert Reclaim(s, need).1 == Reclaim(Unmark(popped, name), need - 1).1 + 1;
      } else {
        ReclaimsNone(popped, need);
        forall n | n in s.removeQ && n != name ensures n in popped.removeQ {
          var i :| 0 <= i < |s.removeQ| && s.removeQ[i] == n;
          assert popped.removeQ[i] == n;
        }
        assert CanRecall(popped) <==> CanRecall(s) by {
          if CanRecall(s) {
            var n :| n in s.removeQ && Recallable(s, n);
            assert n in popped.removeQ && Recallable(popped, n);
          }
          if CanRecall(popped) {
            var n :| n in popped.removeQ && Recallable(popped, n);
            assert n in s.removeQ && Recallable(s, n);
          }
        }
      }
    }
  }

  /**
   A re-plan launches one runner exactly when a count is known, nothing stops it, fewer are live than
   asked for, there is room, and no queued removal can be recalled instead.
   */
  lemma ReplanExactly(s: Sched, ctxDone: bool)
    requires Distinct(s.removeQ) && 0 <= s.lastJobs
    ensures var (t, n) := Replan(s, ctxDone);
            && 0 <= n <= 1 && t.running == s.running + n
            && (n == 1 <==> s.hasDesired && !s.draining && !ctxDone && Live(s) < s.lastJobs + s.min
                            && s.running < s.max && !CanRecall(s))
  {
    var need := Max(Desired(s), s.min) - Live(s);
    ReclaimsNone(s, need);
    ReclaimKeeps(s, need);
    hide Reclaim, CanRecall;
  }

  /** Some queued removal was recalled. */
  ghost predicate Recalls(s: Sched, t: Sched) {
    exists n :: n in s.removeQ && Recallable(s, n) && n in t.active && t.active[n] == s.active[n].(removing := false)
  }

  lemma {:induction false} ReclaimsSome(s: Sched, need: int)
    requires Distinct(s.removeQ) && need > 0 && CanRecall(s)
    ensures Recalls(s, Reclaim(s, need).0)
    decreases |s.removeQ|
  {
    var last := |s.removeQ| - 1;
    var name := s.removeQ[last];
    var popped := s.(removeQ := s.removeQ[..last]);
    if Recallable(popped, name) {
      var u := Unmark(popped, name);
      assert name !in u.removeQ;
      ReclaimsFromBack(u, need - 1);
      assert name in s.removeQ && Recallable(s, name);
    } else {
      var n :| n in s.removeQ && Recallable(s, n);
      assert n != name;
      assert n in popped.removeQ && Recallable(popped, n);
      ReclaimsSome(popped, need);
      RecallsMore(s, popped, Reclaim(popped, need).0);
      hide Recalls;
    }
  }

  lemma RecallsMore(s: Sched, u: Sched, t: Sched)
    requires u.active == s.active && (forall n :: n in u.removeQ ==> n in s.removeQ) && Recalls(u, t)
    ensures Recalls(s, t)
  {
    var m :| m in u.removeQ && Recallable(u, m) && m in t.active && t.active[m] == u.active[m].(removing := false);
    assert m in s.removeQ && Recallable(s, m);
  }

  /** What follows when a launch has left `gone`: `due` asks for another runner if its job was done and too few are live. */
  ghost predicate Replanned(gone: Sched, done: bool, ctxDone: bool, u: Sched) {
    var due := done && gone.hasDesired && !gone.draining && !ctxDone && Live(gone) < gone.lastJobs + gone.min;
    && u.running - gone.running == u.pending - gone.pending == (if due && !CanRecall(gone) && gone.running < gone.max then 1 else 0)
    && (due && CanRecall(gone) ==> Recalls(gone, u))
    && (!due ==> u == gone)
  }

  lemma FinishReplans(s: Sched, done: bool, ctxDone: bool)
    requires Distinct(s.removeQ) && 0 <= s.lastJobs
    ensures Replanned(s.(running := s.running - 1), done, ctxDone, Finish(s, done, ctxDone).0)
  {
    var gone := s.(running := s.running - 1);
    ReplanExactly(gone, ctxDone);
    var need := Max(Desired(gone), gone.min) - Live(gone);
    ReclaimKeeps(gone, need);
    if need > 0 && CanRecall(gone) {
      ReclaimsSome(gone, need);
      ReclaimsNone(gone, need);
    }
    hide Reclaim, CanRecall, Recalls;
  }

  /** What is left of the tier when the launch of l goes. */
  function GoneFrom(s: Sched, l: Name): Sched {
    s.(active := s.active - {l}, running := s.running - 1)
  }

  ghost predicate ExitedAndReplanned(w: World, v: World, l: Name) {
    && l in w.s.active
    && Replanned(GoneFrom(w.s, l), w.s.active[l].completed && w.s.reconciles > w.s.active[l].completedAt, w.ctxDone, v.s)
  }

  ghost predicate FinishedAndReplanned(w: World, v: World, l: Name) {
    && l in w.launches && w.launches[l].Finishing?
    && Replanned(w.s.(running := w.s.running - 1), w.launches[l] == Finishing(true), w.ctxDone, v.s)
  }

  /**
   A launch that goes for good gives its place up at once; if its job's completion was reported and a count
   came in since, and too few runners are left, a queued removal is recalled, or one more is launched.
   */
  lemma LeavingReplans(ws: seq<World>, steps: seq<Step>, max: int, min: int, r: bool, k: nat)
    requires Run(ws, steps, max, min, r) && 0 <= max && k < |steps| && 0 <= ws[k].s.lastJobs
    ensures steps[k].DoExit? && steps[k].l !in ws[k + 1].launches ==> ExitedAndReplanned(ws[k], ws[k + 1], steps[k].l)
    ensures steps[k].DoFinish? ==> FinishedAndReplanned(ws[k], ws[k + 1], steps[k].l)
  {
    Stepped(ws, steps, max, min, r, k);
    hide *;
    if steps[k].DoExit? {
      ExitReplanned(ws[k], steps[k]);
    } else if steps[k].DoFinish? {
      FinishReplanned(ws[k], steps[k]);
    }
  }

  lemma ExitReplanned(w: World, st: Step)
    requires Inv(w) && st.DoExit? && Enabled(w, st) && 0 <= w.s.lastJobs
    ensures st.l !in Do(w, st).launches ==> ExitedAndReplanned(w, Do(w, st), st.l)
  {
    Core(w, st);
    ExitStep(w, st);
    var l := st.l;
    assert l in w.s.active && Distinct(w.s.removeQ);
    hide Inv, Enabled, Replanned, Do;
    FinishReplans(Untrack(w.s, l), JobDone(w.s, l), w.ctxDone);
    hide Finish;
    assert GoneFrom(w.s, l) == Untrack(w.s, l).(running := w.s.running - 1);
  }

  lemma FinishReplanned(w: World, st: Step)
    requires Inv(w) && st.DoFinish? && Enabled(w, st) && 0 <= w.s.lastJobs
    ensures FinishedAndReplanned(w, Do(w, st), st.l)
  {
    Core(w, st);
    assert Distinct(w.s.removeQ);
    hide Inv, Replanned, Do;
    FinishReplans(w.s, w.launches[st.l] == Finishing(true), w.ctxDone);
    hide Finish;
  }

  // --- what live counts, and what is given back ---

  /** The launches that can still take a job: not backing off, and not cancelled, being removed or done. */
  function CanTake(w: World): set<Name> {
    set l | l in w.launches && !w.launches[l].BackingOff?
            && (l in w.s.active ==>
                  !w.s.active[l].cancelled && !w.s.active[l].removing && !w.s.active[l].completed)
  }

  /** In every run the live count is the number of launches that can still take a job. */
  lemma LiveIsCount(ws: seq<World>, steps: seq<Step>, max: int, min: int, r: bool, k: nat)
    requires Run(ws, steps, max, min, r) && 0 <= max && k < |ws|
    ensures Live(ws[k].s) == |CanTake(ws[k])|
  {
    hide Next;
    Reachable(ws, steps, max, min, r, k);
    LiveCounted(ws[k]);
  }

  /** Each launch is backing off, gone, or can take a job. */
  lemma OneOfThree(w: World, l: Name)
    requires Counts(w)
    ensures l in w.launches <==> l in Where(w.launches, IsBacking) || l in GoneNames(w.s.active) || l in CanTake(w)
    ensures l in CanTake(w) ==> l !in Where(w.launches, IsBacking) && l !in GoneNames(w.s.active)
    ensures l in GoneNames(w.s.active) ==> l !in Where(w.launches, IsBacking)
  {
    assert l in w.s.active <==> l in Where(w.launches, IsTracked);
  }

  lemma ThreeParts(all: set<Name>, a: set<Name>, b: set<Name>, c: set<Name>)
    requires forall l :: l in all <==> l in a || l in b || l in c
    requires (forall l :: l in c ==> l !in a && l !in b) && (forall l :: l in b ==> l !in a)
    ensures |all| == |a| + |b| + |c|
  {
    assert all == a + b + c;
    assert |a + b| == |a| + |b|;
    assert |a + b + c| == |a + b| + |c|;
  }

  lemma LiveCounted(w: World)
    requires Counts(w)
    ensures Live(w.s) == |CanTake(w)|
  {
    forall l
      ensures l in w.launches.Keys <==> l in Where(w.launches, IsBacking) || l in GoneNames(w.s.active) || l in CanTake(w)
      ensures l in CanTake(w) ==> l !in Where(w.launches, IsBacking) && l !in GoneNames(w.s.active)
      ensures l in GoneNames(w.s.active) ==> l !in Where(w.launches, IsBacking)
    {
      OneOfThree(w, l);
    }
    hide CanTake, Where, GoneNames;
    ThreeParts(w.launches.Keys, Where(w.launches, IsBacking), GoneNames(w.s.active), CanTake(w));
    assert |w.launches.Keys| == |w.launches|;
  }

  /** t is s with the back of the queue taken off, and what could be recalled there recalled. */
  ghost predicate GivenBack(s: Sched, t: Sched) {
    && |t.removeQ| <= |s.removeQ| && t.removeQ == s.removeQ[..|t.removeQ|] && t.active.Keys == s.active.Keys
    && (forall i :: |t.removeQ| <= i < |s.removeQ| && Recallable(s, s.removeQ[i]) ==>
                      t.active[s.removeQ[i]] == s.active[s.removeQ[i]].(removing := false))
    && (forall n :: n in s.active && (n !in s.removeQ[|t.removeQ|..] || !Recallable(s, n)) ==> t.active[n] == s.active[n])
  }

  lemma OneMoreBack(s: Sched, u: Sched, t: Sched)
    requires Distinct(s.removeQ) && s.removeQ != []
    requires var last := |s.removeQ| - 1;
             && u.removeQ == s.removeQ[..last] && OthersSame(s, u, s.removeQ[last])
             && (Recallable(s, s.removeQ[last]) ==>
                   s.removeQ[last] in u.active && u.active[s.removeQ[last]] == s.active[s.removeQ[last]].(removing := false))
             && (!Recallable(s, s.removeQ[last]) ==> u.active == s.active)
    requires GivenBack(u, t)
    ensures GivenBack(s, t)
  {
    var last := |s.removeQ| - 1;
    var name, k := s.removeQ[last], |t.removeQ|;
    assert name !in u.removeQ;
    assert s.removeQ[k..] == u.removeQ[k..] + [name];
    assert t.removeQ == u.removeQ[..k] == s.removeQ[..k];
    assert u.active.Keys == s.active.Keys;
    forall i | k <= i < |s.removeQ| && Recallable(s, s.removeQ[i])
      ensures t.active[s.removeQ[i]] == s.active[s.removeQ[i]].(removing := false)
    {
      if i < last {
        assert u.removeQ[i] == s.removeQ[i] && Recallable(u, u.removeQ[i]);
      }
    }
  }

  /** Recalled are the runners queued last; one still queued, or never queued, is as it was. */
  lemma {:induction false} ReclaimsFromBack(s: Sched, need: int)
    requires Distinct(s.removeQ)
    ensures GivenBack(s, Reclaim(s, need).0)
    decreases |s.removeQ|
  {
    if need > 0 && s.removeQ != [] {
      var last := |s.removeQ| - 1;
      var name := s.removeQ[last];
      var popped := s.(removeQ := s.removeQ[..last]);
      var u := if Recallable(popped, name) then Unmark(popped, name) else popped;
      ReclaimsFromBack(u, if Recallable(popped, name) then need - 1 else need);
      hide GivenBack;
      OneMoreBack(s, u, Reclaim(s, need).0);
    } else {
      assert s.removeQ == s.removeQ[..|s.removeQ|];
    }
  }
}
