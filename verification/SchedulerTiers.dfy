/** Any number of tiers on one host, sharing the count of pending launches and a pool of slots. */
module SchedulerTiers {
  import opened Wrappers
  import opened Counting
  import opened Scheduling
  import opened SchedulerFacts
  import opened SchedulerPass
  import opened SchedulerRuns
  import opened SchedulerSafety
  import opened SchedulerTheorems

  datatype Host = Host(tiers: seq<World>, shared: int)

  /** What a step adds to the shared count: the launches it commits; the second half of entering takes one off. */
  function SharedChange(w: World, st: Step): int
    requires Enabled(w, st)
  {
    Do(w, st).next - w.next - One(st.DoEntered?)
  }

  function HostStep(h: Host, i: nat, st: Step): Host
    requires i < |h.tiers| && Enabled(h.tiers[i], st)
  {
    Host(h.tiers[i := Do(h.tiers[i], st)], h.shared + SharedChange(h.tiers[i], st))
  }

  ghost predicate HostRun(hs: seq<Host>, who: seq<nat>, steps: seq<Step>) {
    && |hs| == |steps| + 1 && |who| == |steps|
    && hs[0].shared == 0
    && (forall i :: 0 <= i < |hs[0].tiers| ==>
                      exists max: nat, min, r :: hs[0].tiers[i] == Start(max, min, r))
    && forall k :: 0 <= k < |steps| ==>
                     who[k] < |hs[k].tiers| && Enabled(hs[k].tiers[who[k]], steps[k])
                     && hs[k + 1] == HostStep(hs[k], who[k], steps[k])
  }

  /** A tier's own pending launches and those between the two halves of entering. */
  function Spoken(w: World): int {
    |Where(w.launches, IsPending)| + |Where(w.launches, IsHalf)|
  }

  function Total(ws: seq<World>): int {
    if ws == [] then 0 else Spoken(ws[0]) + Total(ws[1..])
  }

  lemma {:induction false} TotalUpdate(ws: seq<World>, i: nat, w: World)
    requires i < |ws|
    ensures Total(ws[i := w]) == Total(ws) - Spoken(ws[i]) + Spoken(w)
  {
    if i > 0 {
      assert ws[i := w][1..] == ws[1..][i - 1 := w];
      TotalUpdate(ws[1..], i - 1, w);
    } else {
      assert ws[i := w][1..] == ws[1..];
    }
  }

  lemma {:induction false} TotalCovers(ws: seq<World>, i: nat)
    requires i < |ws|
    ensures Spoken(ws[i]) <= Total(ws)
  {
    if i > 0 {
      TotalCovers(ws[1..], i - 1);
    } else {
      TotalNat(ws[1..]);
    }
  }

  lemma {:induction false} TotalNat(ws: seq<World>)
    ensures 0 <= Total(ws)
  {
    if ws != [] {
      TotalNat(ws[1..]);
    }
  }

  // --- one step of one tier ---

  lemma {:induction false} SpawnSpoken(ls: map<Name, Phase>, next: nat, n: nat)
    requires forall l :: l in ls ==> l < next
    ensures var ms := AddLaunches(ls, next, n);
            |Where(ms, IsPending)| + |Where(ms, IsHalf)| == |Where(ls, IsPending)| + |Where(ls, IsHalf)| + n
  {
    if n > 0 {
      SpawnSpoken(ls, next, n - 1);
      SpawnedNames(ls, next, n - 1);
      var some := AddLaunches(ls, next, n - 1);
      PutWhereCard(some, next + n - 1, Committed, IsPending);
      PutWhereCard(some, next + n - 1, Committed, IsHalf);
    }
  }

  lemma SpawnedSpoken(w: World, s: Sched, n: int)
    requires forall l :: l in w.launches ==> l < w.next
    ensures Spoken(Spawn(w, s, n)) - Spoken(w) == Spawn(w, s, n).next - w.next
  {
    if n > 0 {
      SpawnSpoken(w.launches, w.next, n);
    }
  }

  lemma PutSpoken(ls: map<Name, Phase>, l: Name, p: Phase)
    requires l in ls
    ensures |Where(ls[l := p], IsPending)| + |Where(ls[l := p], IsHalf)|
            == |Where(ls, IsPending)| + |Where(ls, IsHalf)| - One(IsPending(ls[l]) || IsHalf(ls[l])) + One(IsPending(p) || IsHalf(p))
    ensures |Where(ls - {l}, IsPending)| + |Where(ls - {l}, IsHalf)|
            == |Where(ls, IsPending)| + |Where(ls, IsHalf)| - One(IsPending(ls[l]) || IsHalf(ls[l]))
  {
    PutWhereCard(ls, l, p, IsPending);
    PutWhereCard(ls, l, p, IsHalf);
  }

  lemma LeaveSpoken(w: World, l: Name)
    requires l in w.launches && !IsPending(w.launches[l]) && !IsHalf(w.launches[l])
    ensures Spoken(Leave(w, l)) == Spoken(w)
  {
    PutSpoken(w.launches, l, Tracked);
  }

  lemma PlansSpoken(w: World, st: Step)
    requires Counts(w) && Plans(st) && PlanEnabled(w, st)
    ensures Spoken(PlanStep(w, st)) - Spoken(w) == PlanStep(w, st).next - w.next
  {
    match st
    case DoReconcile(jobs, order) =>
      var p := Reconcile(w.s, jobs, order);
      SpawnedSpoken(w, p.s, p.launched);
    case DoSetMin(floor, order) =>
      var p := SetMin(w.s, floor, w.ctxDone, order);
      SpawnedSpoken(w, p.s, p.launched);
    case DoTopUp =>
      var (s, n) := MaintainMinimum(w.s);
      SpawnedSpoken(w.(toppingUp := w.toppingUp - 1), s, n);
    case DoExit(l, launchErr) =>
      var e := ExitVM(w.s, l, launchErr, w.ctxDone);
      if e.failed {
        PutSpoken(w.launches, l, ExitFailed(e.jobDone));
      } else {
        LeaveSpoken(w, l);
        SpawnedSpoken(Leave(w, l), e.s, e.launched);
      }
    case DoFinish(l) =>
      var (s, n) := Finish(w.s, JobDoneOf(w.launches[l]), w.ctxDone);
      LeaveSpoken(w, l);
      SpawnedSpoken(Leave(w, l), s, n);
  }

  lemma MovesSpoken(w: World, st: Step)
    requires Moves(st) && MoveEnabled(w, st)
    ensures Spoken(MoveStep(w, st)) - Spoken(w) == - One(st.DoEntered?)
  {
    PutSpoken(w.launches, st.l, NextPhase(w.launches[st.l], st));
  }

  lemma StepSpoken(w: World, st: Step)
    requires Counts(w) && Enabled(w, st)
    ensures Spoken(Do(w, st)) - Spoken(w) == SharedChange(w, st)
  {
    assert Do(w, st).launches == Raw(w, st).launches && Do(w, st).next == Raw(w, st).next;
    if Plans(st) {
      PlansSpoken(w, st);
    } else if Moves(st) {
      MovesSpoken(w, st);
    } else if Removes(st) {
      assert RemoveStep(w, st).launches == w.launches && RemoveStep(w, st).next == w.next;
    }
  }

  // --- whole runs ---

  ghost predicate HostInv(h: Host) {
    && (forall i :: 0 <= i < |h.tiers| ==> Inv(h.tiers[i]))
    && h.shared == Total(h.tiers)
  }

  lemma {:induction false} NoneSpoken(ws: seq<World>)
    requires forall i :: 0 <= i < |ws| ==> ws[i].launches == map[]
    ensures Total(ws) == 0
  {
    if ws != [] {
      NoneSpoken(ws[1..]);
      assert Where(ws[0].launches, IsPending) == {} && Where(ws[0].launches, IsHalf) == {};
    }
  }

  lemma HostStarts(h: Host)
    requires h.shared == 0 && forall i :: 0 <= i < |h.tiers| ==> exists max: nat, min, r :: h.tiers[i] == Start(max, min, r)
    ensures HostInv(h)
  {
    hide Inv;
    forall i | 0 <= i < |h.tiers| ensures Inv(h.tiers[i]) && h.tiers[i].launches == map[] {
      var max: nat, min, r :| h.tiers[i] == Start(max, min, r);
      Reachable([Start(max, min, r)], [], max, min, r, 0);
    }
    NoneSpoken(h.tiers);
  }

  lemma HostSteps(h: Host, i: nat, st: Step)
    requires HostInv(h) && i < |h.tiers| && Enabled(h.tiers[i], st)
    ensures HostInv(HostStep(h, i, st))
  {
    assert Counts(h.tiers[i]);
    hide Inv, Enabled, Do, Spoken, Total, SharedChange, Counts;
    InvStep(h.tiers[i], st);
    StepSpoken(h.tiers[i], st);
    TotalUpdate(h.tiers, i, Do(h.tiers[i], st));
  }

  lemma HostBegins(hs: seq<Host>, who: seq<nat>, steps: seq<Step>)
    requires HostRun(hs, who, steps)
    ensures |hs| > 0 && HostInv(hs[0])
  {
    HostStarts(hs[0]);
    hide *;
  }

  lemma HostStepped(hs: seq<Host>, who: seq<nat>, steps: seq<Step>, k: nat)
    requires HostRun(hs, who, steps) && k + 1 < |hs|
    ensures k < |who| && k < |steps| && who[k] < |hs[k].tiers| && Enabled(hs[k].tiers[who[k]], steps[k])
    ensures hs[k + 1] == HostStep(hs[k], who[k], steps[k])
  {
    hide Enabled, HostStep;
  }

  lemma {:induction false} HostReachable(hs: seq<Host>, who: seq<nat>, steps: seq<Step>, k: nat)
    requires HostRun(hs, who, steps) && k < |hs|
    ensures HostInv(hs[k])
  {
    hide *;
    if k == 0 {
      HostBegins(hs, who, steps);
    } else {
      HostReachable(hs, who, steps, k - 1);
      HostStepped(hs, who, steps, k - 1);
      HostSteps(hs[k - 1], who[k - 1], steps[k - 1]);
    }
  }

  /**
   In every reachable state of the host the shared count is the sum of every tier's pending launches
   and those between the two halves of entering, so no tier's own count ever exceeds it.
   */
  lemma SharedCountExact(hs: seq<Host>, who: seq<nat>, steps: seq<Step>, k: nat, i: nat)
    requires HostRun(hs, who, steps) && k < |hs| && i < |hs[k].tiers|
    ensures hs[k].shared == Total(hs[k].tiers) && 0 <= hs[k].tiers[i].s.pending <= hs[k].shared
  {
    HostReachable(hs, who, steps, k);
    TotalCovers(hs[k].tiers, i);
  }

  /**
   What a tier advertises never exceeds its limit, and never counts a free slot twice: the launches
   it expects to boot and those it could still make fit the free slots as read, for any number of tiers.
   */
  lemma CapacityHonest(hs: seq<Host>, who: seq<nat>, steps: seq<Step>, k: nat, i: nat, free: nat)
    requires HostRun(hs, who, steps) && k < |hs| && i < |hs[k].tiers|
    ensures var s, shared := hs[k].tiers[i].s, hs[k].shared;
            && 0 <= Capacity(s, Some(free), shared) <= Capacity(s, None, shared) <= s.max
            && Capacity(s, Some(free), shared) - (Live(s) - s.pending) <= free
  {
    hide HostRun, Total, Where, Live;
    SharedCountExact(hs, who, steps, k, i);
    HostReachable(hs, who, steps, k);
    LiveCoversPending(hs[k].tiers[i]);
  }

  /**
   c jobs can be served: by the runners that have left pending, by `own` of the tier's pending launches,
   each with a free slot, and by `more` new ones, within the limit and on free slots nobody speaks for.
   `free` is None where there is no slot pool, and `spoken` are the slots all tiers are yet to draw.
   */
  predicate ServesWith(s: Sched, free: Option<nat>, spoken: int, c: int, own: nat, more: nat) {
    && c <= Live(s) - s.pending + own + more
    && own <= s.pending && (free.Some? ==> own <= free.value)
    && s.running + more <= s.max && (free.Some? && more > 0 ==> more + spoken <= free.value)
  }

  ghost predicate Serves(s: Sched, free: Option<nat>, spoken: int, c: int) {
    exists own: nat, more: nat :: ServesWith(s, free, spoken, c, own, more)
  }

  function AsFree(free: Option<nat>): Option<int> {
    if free.Some? then Some(free.value) else None
  }

  lemma CapacityBest(s: Sched, free: Option<nat>, spoken: int, c: int)
    requires 0 <= s.pending <= Live(s) <= s.running <= s.max && s.pending <= spoken
    ensures c <= Capacity(s, AsFree(free), spoken) <==> Serves(s, free, spoken, c)
  {
    hide Live;
    var room := s.max - s.running;
    var own: nat := if free.Some? then Min(s.pending, free.value) else s.pending;
    var more: nat := if free.Some? then Max(0, Min(room, free.value - spoken)) else room;
    if c <= Capacity(s, AsFree(free), spoken) {
      assert ServesWith(s, free, spoken, c, own, more);
    }
    if Serves(s, free, spoken, c) {
      var o: nat, f: nat :| ServesWith(s, free, spoken, c, o, f);
      assert o <= own && f <= more;
    }
  }

  /**
   What a tier advertises is the largest count it can serve: never more, whatever the other tiers have
   under way, and never less while its limit and a free slot nobody speaks for allow one more.
   */
  lemma CapacityLargest(hs: seq<Host>, who: seq<nat>, steps: seq<Step>, k: nat, i: nat, free: Option<nat>, c: int)
    requires HostRun(hs, who, steps) && k < |hs| && i < |hs[k].tiers|
    ensures var s, spoken := hs[k].tiers[i].s, Total(hs[k].tiers);
            c <= Capacity(s, AsFree(free), hs[k].shared) <==> Serves(s, free, spoken, c)
  {
    hide HostRun, Total, Where, Live, Capacity, Serves;
    SharedCountExact(hs, who, steps, k, i);
    HostReachable(hs, who, steps, k);
    LiveCoversPending(hs[k].tiers[i]);
    CapacityBest(hs[k].tiers[i].s, free, hs[k].shared, c);
  }

  lemma CountServed(w: World, jobs: nat, order: seq<Name>, free: Option<nat>, shared: int)
    requires Inv(w) && !w.s.draining && Enumerates(order, w.s.active.Keys) && w.s.pending <= shared
    requires jobs + w.s.min <= Capacity(w.s, AsFree(free), shared)
    ensures var p := Reconcile(w.s, jobs, order);
            && Live(p.s) >= jobs + w.s.min
            && (free.Some? && p.launched > 0 ==> p.launched + shared <= free.value)
  {
    LiveCoversPending(w);
    var s := Asked(w.s, jobs);
    assert GoneNames(s.active) == GoneNames(w.s.active);
    assert CompletedBusy(s);
    PassFills(s, order);
    PassLaunches(s, order);
    hide Live, ReconcileLocked;
  }

  /** A pass launches no more than are missing. */
  lemma PassLaunches(s: Sched, order: seq<Name>)
    requires CompletedBusy(s) && 0 <= s.lastJobs
    ensures var p := ReconcileLocked(s, order); p.launched > 0 ==> p.launched <= Desired(s) - Live(s)
  {
    var r := Reclaimed(s);
    hide Live, ScaleDown;
  }

  /**
   What is advertised is served: a count within it leaves that many live runners after one pass, and what
   the pass launches fits the free slots nobody speaks for.
   */
  lemma CapacityServed(
    hs: seq<Host>, who: seq<nat>, steps: seq<Step>, k: nat, i: nat, free: Option<nat>, jobs: nat, order: seq<Name>)
    requires HostRun(hs, who, steps) && k < |hs| && i < |hs[k].tiers|
    requires var s := hs[k].tiers[i].s;
             !s.draining && Enumerates(order, s.active.Keys) && jobs + s.min <= Capacity(s, AsFree(free), hs[k].shared)
    ensures var s := hs[k].tiers[i].s;
            var p := Reconcile(s, jobs, order);
            && Live(p.s) >= jobs + s.min
            && (free.Some? && p.launched > 0 ==> p.launched + Total(hs[k].tiers) <= free.value)
  {
    hide HostRun, Total, Where, Live, Capacity, Reconcile, Enumerates;
    SharedCountExact(hs, who, steps, k, i);
    HostReachable(hs, who, steps, k);
    CountServed(hs[k].tiers[i], jobs, order, free, hs[k].shared);
  }

  lemma PassFills(s: Sched, order: seq<Name>)
    requires CompletedBusy(s) && !s.draining && 0 <= s.lastJobs && s.running <= s.max
    requires Enumerates(order, s.active.Keys) && Desired(s) <= Live(s) + s.max - s.running
    ensures Live(ReconcileLocked(s, order).s) >= Desired(s)
  {
    var r := Reclaimed(s);
    var n := Plan(Desired(s), Live(r), r.running, r.max);
    assert Live(Commit(r, n)) == Live(r) + n;
    ScaleDownMeets(Commit(r, n), Desired(s), order);
  }
}
