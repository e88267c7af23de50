/**
 The scheduler as the object it is: fields under one mutex, updated in place. Each method is one
 locked section, and its contract ties the new fields to the section's function in Scheduling.
 Calls into a context (cancel) and the log have no state here; a handle's `cancelled` flag stands
 for its cancelled context, since the two are set together.
 */
module SchedulerCode {
  import opened Wrappers
  import opened Counting
  import opened Scheduling

  /** Launches committed on the host but not yet entered, shared by every tier. */
  class PendingLaunches {
    var n: int

    constructor ()
      ensures n == 0
    {
      n := 0;
    }

    method Add(k: int)
      modifies this
      ensures n == old(n) + k
    {
      n := n + k;
    }

    method Done()
      modifies this
      ensures n == old(n) - 1
    {
      n := n - 1;
    }
  }

  class Scheduler {
    const max: int
    const hasRemover: bool
    const shared: PendingLaunches
    var min: int
    var running: int
    var pending: int
    var backingOff: int
    var failures: nat
    var active: map<Name, Handle>
    var removeQ: seq<Name>
    var removerActive: bool
    var lastJobs: int
    var hasDesired: bool
    var reconciles: nat
    var draining: bool

    ghost function Abs(): Sched
      reads this
    {
      Sched(max, min, hasRemover, running, pending, backingOff, failures, active, removeQ, removerActive,
            lastJobs, hasDesired, reconciles, draining)
    }

    constructor (max: int, min: int, hasRemover: bool, shared: PendingLaunches)
      ensures Abs() == New(max, min, hasRemover)
      ensures this.shared == shared
    {
      this.max, this.min, this.hasRemover, this.shared := max, min, hasRemover, shared;
      running, pending, backingOff, failures := 0, 0, 0, 0;
      active, removeQ, removerActive := map[], [], false;
      lastJobs, hasDesired, reconciles, draining := 0, false, 0, false;
    }

    method LiveCount() returns (n: int)
      ensures n == Live(Abs())
    {
      hide GoneNames, Gone;
      n := running - backingOff;
      var todo := active.Keys;
      ghost var seen: set<Name> := {};
      while todo != {}
        invariant seen + todo == active.Keys && seen !! todo
        invariant n == running - backingOff - |GoneNames(active) * seen|
        decreases todo
      {
        var name :| name in todo;
        var h := active[name];
        todo := todo - {name};
        CountOne(active, seen, name);
        GoneIs(h);
        seen := seen + {name};
        if h.cancelled || h.removing || h.completed {
          n := n - 1;
        }
      }
      AllCounted(active, seen);
    }

    method CommitLaunches(n: int)
      modifies this, shared
      ensures Abs() == Commit(old(Abs()), n)
      ensures shared.n == old(shared.n) + n
    {
      running := running + n;
      pending := pending + n;
      shared.Add(n);
    }

    method ReclaimFromQueue(desired: int) returns (reclaimed: nat)
      modifies this
      ensures (Abs(), reclaimed) == ReclaimQueued(old(Abs()), desired)
    {
      var live := LiveCount();
      var need := Max(desired, min) - live;
      ghost var start, need0 := Abs(), need;
      reclaimed := 0;
      while need > 0 && |removeQ| > 0
        invariant Reclaim(start, need0).0 == Reclaim(Abs(), need).0
        invariant Reclaim(start, need0).1 == reclaimed + Reclaim(Abs(), need).1
        decreases |removeQ|
      {
        var last := |removeQ| - 1;
        var name := removeQ[last];
        removeQ := removeQ[..last];
        if name in active && active[name].removing && !active[name].cancelled {
          active := active[name := active[name].(removing := false)];
          need := need - 1;
          reclaimed := reclaimed + 1;
        }
      }
    }

    method ScaleDownIdle(desired: int) returns (picked: nat, start: bool, ghost order: seq<Name>)
      modifies this
      ensures Enumerates(order, old(active.Keys))
      ensures (Abs(), picked, start) == ScaleDown(old(Abs()), desired, order)
    {
      var floor := desired;
      if floor < min {
        floor := min;
      }
      var live := LiveCount();
      var excess := live - floor;
      if excess <= 0 {
        order := SomeOrder(active.Keys);
        return 0, false, order;
      }
      picked, order := PickIdle(excess);
      start := |removeQ| > 0 && !removerActive;
      if start {
        removerActive := true;
      }
    }

    /** The loop over the active map. */
    method PickIdle(excess: int) returns (picked: nat, ghost order: seq<Name>)
      modifies this
      ensures Enumerates(order, old(active.Keys))
      ensures (Abs(), picked) == PickMany(old(Abs()), order, excess)
    {
      picked := 0;
      var left := excess;
      // The runtime ranges over the map in an order of its own; each name comes once.
      var todo: seq<Name> := RangeOrder(active.Keys);
      order := todo;
      hide Enumerates;
      ghost var s0 := Abs();
      assert forall n :: n in todo ==> n in active by {
        OrderNames(todo, active.Keys);
      }
      while |todo| > 0 && left > 0
        invariant forall n :: n in todo ==> n in active
        invariant PickMany(s0, order, excess).0 == PickMany(Abs(), todo, left).0
        invariant PickMany(s0, order, excess).1 == picked + PickMany(Abs(), todo, left).1
        decreases |todo|
      {
        var name := todo[0];
        todo := todo[1..];
        var h := active[name];
        if h.busy || h.cancelled || h.removing {
          continue;
        }
        if hasRemover {
          active := active[name := h.(removing := true)];
          removeQ := removeQ + [name];
        } else {
          active := active[name := h.(cancelled := true)];
        }
        picked := picked + 1;
        left := left - 1;
      }
    }

    method ReconcileSection() returns (n: int, reclaimed: nat, stopped: nat, start: bool, ghost order: seq<Name>)
      modifies this, shared
      ensures Enumerates(order, old(active.Keys))
      ensures Pass(Abs(), n, reclaimed, stopped, start) == ReconcileLocked(old(Abs()), order)
      ensures shared.n == old(shared.n) + n
    {
      var desired := lastJobs + min;
      reclaimed := ReclaimFromQueue(desired);
      ReclaimKeepsNames(old(Abs()), Max(desired, old(min)) - Live(old(Abs())));
      n := 0;
      if !draining {
        var live := LiveCount();
        n := Plan(desired, live, running, max);
      }
      CommitLaunches(n);
      stopped, start := 0, false;
      if n == 0 {
        stopped, start, order := ScaleDownIdle(desired);
      } else {
        order := SomeOrder(active.Keys);
      }
    }

    method ReconcileJobs(jobs: int) returns (n: int, start: bool, ghost order: seq<Name>)
      modifies this, shared
      ensures Enumerates(order, old(active.Keys))
      ensures var p := Reconcile(old(Abs()), jobs, order); Abs() == p.s && n == p.launched && start == p.start
      ensures shared.n == old(shared.n) + n
    {
      lastJobs, hasDesired := jobs, true;
      reconciles := reconciles + 1;
      var reclaimed, stopped;
      n, reclaimed, stopped, start, order := ReconcileSection();
    }

    method ChangeMin(n: int, ctxDone: bool) returns (launched: int, start: bool, ghost order: seq<Name>)
      modifies this, shared
      ensures Enumerates(order, old(active.Keys))
      ensures var p := SetMin(old(Abs()), n, ctxDone, order); Abs() == p.s && launched == p.launched && start == p.start
      ensures shared.n == old(shared.n) + launched
    {
      launched, start := 0, false;
      var was := min;
      if n == was {
        order := SomeOrder(active.Keys);
        return;
      }
      min := n;
      if hasDesired && !ctxDone {
        var reclaimed, stopped;
        launched, reclaimed, stopped, start, order := ReconcileSection();
      } else {
        order := SomeOrder(active.Keys);
      }
    }

    /** The locked part; the context was looked at before. */
    method TopUp() returns (n: int)
      modifies this, shared
      ensures (Abs(), n) == MaintainMinimum(old(Abs()))
      ensures shared.n == old(shared.n) + n
    {
      if min <= 0 {
        return 0;
      }
      n := 0;
      if !draining {
        n := Plan(min, running, running, max);
      }
      CommitLaunches(n);
    }

    method ReplanSection(ctxDone: bool) returns (n: int)
      modifies this, shared
      ensures (Abs(), n) == Replan(old(Abs()), ctxDone)
      ensures shared.n == old(shared.n) + n
    {
      if !hasDesired || draining || ctxDone {
        return 0;
      }
      var reclaimed := ReclaimFromQueue(lastJobs + min);
      if reclaimed > 0 {
        return 0;
      }
      var live := LiveCount();
      n := Min(1, Plan(lastJobs + min, live, running, max));
      CommitLaunches(n);
    }

    method EnterLocked()
      modifies this
      ensures Abs() == Enter(old(Abs()))
    {
      pending := pending - 1;
    }

    method TrackRunner(name: Name)
      modifies this
      ensures Abs() == Track(old(Abs()), name)
    {
      active := active[name := Handle(false, false, false, false, 0)];
    }

    method FinishLaunch(jobDone: bool, ctxDone: bool) returns (replanned: int)
      modifies this, shared
      ensures (Abs(), replanned) == Finish(old(Abs()), jobDone, ctxDone)
      ensures shared.n == old(shared.n) + replanned
    {
      running := running - 1;
      replanned := 0;
      if jobDone {
        replanned := ReplanSection(ctxDone);
      }
    }

    method LaunchReturned(name: Name, launchErr: bool, vmCancelled: bool, ctxDone: bool)
      returns (failed: bool, jobDone: bool, replanned: int)
      requires vmCancelled == (name in active && active[name].cancelled)
      modifies this, shared
      ensures Exit(Abs(), failed, jobDone, replanned) == ExitVM(old(Abs()), name, launchErr, ctxDone)
      ensures shared.n == old(shared.n) + replanned
    {
      jobDone := false;
      if name in active {
        jobDone := active[name].completed && reconciles > active[name].completedAt;
      }
      active := active - {name};
      failed := launchErr && !vmCancelled;
      replanned := 0;
      if !failed {
        replanned := FinishLaunch(jobDone, ctxDone);
      }
    }

    method StartBackoff() returns (n: nat)
      modifies this
      ensures Abs() == BackoffStart(old(Abs())) && n == failures
    {
      failures := failures + 1;
      backingOff := backingOff + 1;
      n := failures;
    }

    method EndBackoff()
      modifies this
      ensures Abs() == BackoffEnd(old(Abs()))
    {
      backingOff := backingOff - 1;
    }

    method HealthyLaunch()
      modifies this
      ensures Abs() == ResetBackoff(old(Abs()))
    {
      failures := 0;
    }

    method SetBusy(name: Name)
      modifies this
      ensures Abs() == MarkBusy(old(Abs()), name)
    {
      if name in active {
        active := active[name := active[name].(busy := true)];
      }
    }

    method SetCompleted(name: Name)
      modifies this
      ensures Abs() == MarkCompleted(old(Abs()), name)
    {
      if name in active {
        active := active[name := active[name].(busy := true, completed := true, completedAt := reconciles)];
      }
    }

    method CancelLostRunner(name: Name) returns (cancelled: bool)
      modifies this
      ensures (Abs(), cancelled) == CancelLost(old(Abs()), name)
    {
      if name !in active || active[name].busy || active[name].cancelled || active[name].removing {
        return false;
      }
      active := active[name := active[name].(cancelled := true)];
      return true;
    }

    method CancelIdle(name: Name)
      modifies this
      ensures Abs() == CancelIfIdle(old(Abs()), name)
    {
      if name !in active || active[name].busy || active[name].cancelled {
        return;
      }
      active := active[name := active[name].(cancelled := true)];
    }

    method NextQueued() returns (next: Option<Name>)
      modifies this
      ensures (Abs(), next) == NextRemoval(old(Abs()))
    {
      ghost var s0 := Abs();
      while |removeQ| > 0
        invariant NextRemoval(s0) == NextRemoval(Abs())
        decreases |removeQ|
      {
        var name := removeQ[0];
        removeQ := removeQ[1..];
        if name !in active || !active[name].removing || active[name].cancelled {
          continue;
        }
        if active[name].busy {
          active := active[name := active[name].(removing := false)];
          continue;
        }
        return Some(name);
      }
      return None;
    }

    method RemoveLoopTop(ctxDone: bool) returns (next: Option<Name>)
      modifies this
      ensures (Abs(), next) == RemoveTop(old(Abs()), ctxDone)
    {
      next := None;
      if !ctxDone {
        next := NextQueued();
      }
      if next.None? {
        removeQ := [];
        removerActive := false;
      }
    }

    method SettleRemoval(name: Name, answer: Answer) returns (requeued: bool)
      modifies this
      ensures (Abs(), requeued) == Settle(old(Abs()), name, answer)
    {
      if name !in active || active[name].cancelled {
        return false;
      }
      if answer == Unknown && !active[name].busy {
        removeQ := removeQ + [name];
        return true;
      }
      var h := active[name].(removing := false);
      if answer == Busy {
        h := h.(busy := true);
      } else if answer != Removed {
      } else if h.busy {
      } else {
        h := h.(cancelled := true);
      }
      active := active[name := h];
      return false;
    }

    method CapacityNow(free: Option<int>) returns (c: int)
      ensures c == Capacity(Abs(), free, shared.n)
    {
      var room := Max(0, max - running);
      var live := LiveCount();
      var committed := Max(0, live - pending);
      if free.None? {
        return committed + pending + room;
      }
      var willBoot := Min(pending, free.value);
      var headroom := Max(0, Min(room, free.value - shared.n));
      return committed + willBoot + headroom;
    }

    method BeginDrain()
      modifies this
      ensures Abs() == Drain(old(Abs()))
    {
      draining := true;
    }
  }

  lemma GoneIs(h: Handle)
    ensures Gone(h) <==> h.cancelled || h.removing || h.completed
  {
  }

  lemma AllCounted(active: map<Name, Handle>, seen: set<Name>)
    requires seen == active.Keys
    ensures GoneNames(active) * seen == GoneNames(active)
  {
  }

  lemma OrderNames(order: seq<Name>, names: set<Name>)
    requires Enumerates(order, names)
    ensures forall n :: n in order ==> n in names
  {
  }

  lemma CountOne(active: map<Name, Handle>, seen: set<Name>, name: Name)
    requires name in active && name !in seen
    ensures |GoneNames(active) * (seen + {name})| == |GoneNames(active) * seen| + One(Gone(active[name]))
  {
    var before := GoneNames(active) * seen;
    assert GoneNames(active) * (seen + {name}) == Put(before, name, Gone(active[name]));
    PutCard(before, name, Gone(active[name]));
  }

  lemma ReclaimKeepsNames(s: Sched, need: int)
    ensures Reclaim(s, need).0.active.Keys == s.active.Keys
    decreases |s.removeQ|
  {
  }

  /** Some order in which every name of a map comes once. */
  method RangeOrder(names: set<Name>) returns (order: seq<Name>)
    ensures Enumerates(order, names)
  {
    order := [];
    var todo := names;
    while todo != {}
      invariant todo <= names && Enumerates(order, names - todo)
      decreases todo
    {
      var n :| n in todo;
      todo := todo - {n};
      order := order + [n];
    }
  }

  lemma SomeOrder(names: set<Name>) returns (order: seq<Name>)
    ensures Enumerates(order, names)
  {
    if names == {} {
      order := [];
    } else {
      var n :| n in names;
      order := SomeOrder(names - {n});
      order := order + [n];
    }
  }

  const BACKOFF_BASE := 500
  const BACKOFF_MAX := 30000

  function Doubled(k: nat): nat {
    if k == 0 then BACKOFF_BASE else 2 * Doubled(k - 1)
  }

  /**
   The delay in milliseconds after the nth consecutive failure: the base doubled n-1 times, or the
   maximum once that passes it.
   */
  method BackoffDelay(failures: int) returns (d: nat)
    ensures d == Min(Doubled(Max(failures, 1) - 1), BACKOFF_MAX)
  {
    var n := if failures < 1 then 1 else failures;
    d := BACKOFF_BASE;
    var i := 1;
    while i < n && d < BACKOFF_MAX
      invariant 1 <= i <= n
      invariant d == Doubled(i - 1)
    {
      d := d * 2;
      i := i + 1;
    }
    DoubledGrows(i - 1, n - 1);
    if d > BACKOFF_MAX {
      d := BACKOFF_MAX;
    }
  }

  lemma DoubledGrows(i: nat, j: nat)
    requires i <= j
    ensures Doubled(i) <= Doubled(j)
  {
  }
}
