/** What the sections that mark and unmark removals keep, whatever order the map is ranged in. */
module SchedulerFacts {
  import opened Wrappers
  import opened Scheduling

  ghost predicate Distinct(q: seq<Name>) {
    forall i, j :: 0 <= i < j < |q| ==> q[i] != q[j]
  }

  /**
   The removal queue: names come once, the one being removed is not among them, every one still
   tracked is marked removing, and (while `strict`, until shutdown) nothing is marked removing
   that is neither queued nor being removed.
   */
  ghost predicate QueueOk(s: Sched, inflight: set<Name>, strict: bool) {
    && Distinct(s.removeQ)
    && (forall n :: n in s.removeQ ==> n !in inflight)
    && (forall n :: n in s.active && (n in s.removeQ || n in inflight) ==> s.active[n].removing)
    && (strict ==> forall n :: n in s.active && s.active[n].removing && !s.active[n].cancelled ==>
                                 n in s.removeQ || n in inflight)
  }

  /** Same runners with the same marks, but for `removing` (and `cancelled` without a remover). */
  ghost predicate SameRunners(s: Sched, t: Sched) {
    && t.active.Keys == s.active.Keys
    && (forall n :: n in s.active ==>
                      t.active[n].busy == s.active[n].busy && t.active[n].completed == s.active[n].completed)
    && (s.hasRemover ==> forall n :: n in s.active ==> t.active[n].cancelled == s.active[n].cancelled)
  }

  /** A completed runner is busy: it ran a job and takes no other. */
  ghost predicate CompletedBusy(s: Sched) {
    forall n :: n in s.active && s.active[n].completed ==> s.active[n].busy
  }

  /** Same counters and settings. */
  ghost predicate SameCounts(s: Sched, t: Sched) {
    && t.max == s.max && t.min == s.min && t.hasRemover == s.hasRemover
    && t.running == s.running && t.pending == s.pending && t.backingOff == s.backingOff
    && t.lastJobs == s.lastJobs && t.hasDesired == s.hasDesired && t.reconciles == s.reconciles
    && t.draining == s.draining
  }

  /** The queue without the name taken off one of its ends. */
  lemma PoppedQueue(all: seq<Name>, q: seq<Name>, name: Name)
    requires Distinct(all) && (all == q + [name] || all == [name] + q)
    ensures Distinct(q) && name !in q && forall n :: n in all <==> n in q || n == name
  {
    if all == q + [name] {
      assert q == all[..|q|] && all[|q|] == name;
    } else {
      assert q == all[1..] && all[0] == name;
    }
  }

  /** Taking one name off the queue: it becomes the one in hand, or is unmarked, or stood for nothing. */
  lemma PopFacts(s: Sched, q: seq<Name>, name: Name, inflight: set<Name>, strict: bool)
    requires QueueOk(s, inflight, strict)
    requires s.removeQ == q + [name] || s.removeQ == [name] + q
    ensures var popped := s.(removeQ := q);
            && QueueOk(popped, inflight + {name}, strict)
            && (if Recallable(popped, name) then QueueOk(Unmark(popped, name), inflight, strict)
                else QueueOk(popped, inflight, strict))
  {
    PoppedQueue(s.removeQ, q, name);
    hide Distinct;
  }

  lemma {:induction false} ReclaimFacts(s: Sched, need: int, inflight: set<Name>, strict: bool)
    requires QueueOk(s, inflight, strict)
    ensures var t := Reclaim(s, need).0; QueueOk(t, inflight, strict) && t.removeQ <= s.removeQ
    decreases |s.removeQ|
  {
    if need > 0 && s.removeQ != [] {
      var last := |s.removeQ| - 1;
      var name := s.removeQ[last];
      var popped := s.(removeQ := s.removeQ[..last]);
      PopFacts(s, s.removeQ[..last], name, inflight, strict);
      if Recallable(popped, name) {
        ReclaimFacts(Unmark(popped, name), need - 1, inflight, strict);
      } else {
        ReclaimFacts(popped, need, inflight, strict);
      }
    }
  }

  lemma UnmarkSame(s: Sched, q: seq<Name>, name: Name)
    ensures var popped := s.(removeQ := q);
            && SameRunners(s, popped) && SameCounts(s, popped)
            && (name in s.active ==> SameRunners(s, Unmark(popped, name)) && SameCounts(s, Unmark(popped, name)))
  {
  }

  lemma SameTrans(s: Sched, t: Sched, u: Sched)
    requires SameRunners(s, t) && SameCounts(s, t) && SameRunners(t, u) && SameCounts(t, u)
    ensures SameRunners(s, u) && SameCounts(s, u)
  {
  }

  lemma {:induction false} ReclaimSame(s: Sched, need: int)
    ensures var t := Reclaim(s, need).0;
            SameRunners(s, t) && SameCounts(s, t) && t.removerActive == s.removerActive
    decreases |s.removeQ|
  {
    var last := |s.removeQ| - 1;
    if need > 0 && s.removeQ != [] {
      var name := s.removeQ[last];
      var popped := s.(removeQ := s.removeQ[..last]);
      UnmarkSame(s, s.removeQ[..last], name);
      hide SameRunners, SameCounts;
      if Recallable(popped, name) {
        ReclaimSame(Unmark(popped, name), need - 1);
        SameTrans(s, Unmark(popped, name), Reclaim(s, need).0);
      } else {
        ReclaimSame(popped, need);
        SameTrans(s, popped, Reclaim(s, need).0);
      }
    }
  }

  lemma PickQueue(s: Sched, name: Name, inflight: set<Name>, strict: bool)
    requires QueueOk(s, inflight, strict) && name in s.active && Idle(s.active[name])
    ensures QueueOk(Pick(s, name), inflight, strict)
  {
    assert name !in s.removeQ && name !in inflight;
    var q := s.removeQ + [name];
    forall n ensures n in q <==> n in s.removeQ || n == name {
      assert q[|s.removeQ|] == name;
    }
  }

  lemma {:induction false} PickManyFacts(s: Sched, order: seq<Name>, excess: int, inflight: set<Name>, strict: bool)
    requires QueueOk(s, inflight, strict)
    ensures QueueOk(PickMany(s, order, excess).0, inflight, strict)
    decreases |order|
  {
    hide QueueOk;
    if excess > 0 && order != [] {
      if order[0] !in s.active || !Idle(s.active[order[0]]) {
        PickManyFacts(s, order[1..], excess, inflight, strict);
      } else {
        PickQueue(s, order[0], inflight, strict);
        PickManyFacts(Pick(s, order[0]), order[1..], excess - 1, inflight, strict);
      }
    }
  }

  lemma {:induction false} PickManySame(s: Sched, order: seq<Name>, excess: int)
    ensures var t := PickMany(s, order, excess).0;
            && SameRunners(s, t) && SameCounts(s, t) && t.removerActive == s.removerActive
            && (forall n :: n in t.removeQ ==> n in s.removeQ || n in s.active)
    decreases |order|
  {
    if excess > 0 && order != [] {
      if order[0] !in s.active || !Idle(s.active[order[0]]) {
        PickManySame(s, order[1..], excess);
      } else {
        PickManySame(Pick(s, order[0]), order[1..], excess - 1);
      }
    }
  }

  lemma {:induction false} NextRemovalFacts(s: Sched, strict: bool)
    requires QueueOk(s, {}, strict)
    ensures var (t, next) := NextRemoval(s);
            && (next.None? ==> t.removeQ == [] && QueueOk(t, {}, strict))
            && (next.Some? ==> next.value in s.removeQ && QueueOk(t, {next.value}, strict))
    decreases |s.removeQ|
  {
    if s.removeQ != [] {
      var name := s.removeQ[0];
      var popped := s.(removeQ := s.removeQ[1..]);
      PopFacts(s, s.removeQ[1..], name, {}, strict);
      assert {} + {name} == {name};
      if !Recallable(popped, name) {
        NextRemovalFacts(popped, strict);
      } else if popped.active[name].busy {
        NextRemovalFacts(Unmark(popped, name), strict);
      }
    }
  }

  lemma {:induction false} NextRemovalSame(s: Sched)
    ensures var (t, next) := NextRemoval(s);
            && SameRunners(s, t) && SameCounts(s, t) && t.removerActive == s.removerActive
            && (forall n :: n in t.removeQ ==> n in s.removeQ)
    decreases |s.removeQ|
  {
    if s.removeQ != [] {
      var name := s.removeQ[0];
      var popped := s.(removeQ := s.removeQ[1..]);
      UnmarkSame(s, s.removeQ[1..], name);
      hide SameRunners, SameCounts;
      if !Recallable(popped, name) {
        NextRemovalSame(popped);
        SameTrans(s, popped, NextRemoval(s).0);
      } else if popped.active[name].busy {
        NextRemovalSame(Unmark(popped, name));
        SameTrans(s, Unmark(popped, name), NextRemoval(s).0);
      }
    }
  }

  /** Scale-down's own part of the pass. */
  lemma ScaleDownFacts(s: Sched, desired: int, order: seq<Name>, inflight: set<Name>, strict: bool)
    requires QueueOk(s, inflight, strict)
    ensures var (t, k, start) := ScaleDown(s, desired, order);
            && QueueOk(t, inflight, strict) && SameRunners(s, t) && SameCounts(s, t)
            && (forall n :: n in t.removeQ ==> n in s.removeQ || n in s.active)
            && (start ==> !s.removerActive) && t.removerActive == (s.removerActive || start)
            && ((s.removeQ != [] ==> s.removerActive) ==> t.removeQ != [] ==> t.removerActive)
  {
    PickManyFacts(s, order, Live(s) - Max(desired, s.min), inflight, strict);
    PickManySame(s, order, Live(s) - Max(desired, s.min));
    hide PickMany, Live;
  }

  lemma CommitFacts(s: Sched, n: int, inflight: set<Name>, strict: bool)
    requires QueueOk(s, inflight, strict)
    ensures QueueOk(Commit(s, n), inflight, strict) && SameRunners(s, Commit(s, n))
  {
  }

  lemma RunnersTrans(s: Sched, t: Sched, u: Sched)
    requires SameRunners(s, t) && SameRunners(t, u) && t.hasRemover == s.hasRemover
    ensures SameRunners(s, u) && u.active.Keys == s.active.Keys
  {
  }

  /** One locked pass of the plan keeps the queue discipline and launches only within the limit. */
  lemma PassFacts(s: Sched, order: seq<Name>, inflight: set<Name>, strict: bool)
    requires QueueOk(s, inflight, strict)
    ensures var p := ReconcileLocked(s, order);
            && QueueOk(p.s, inflight, strict) && SameRunners(s, p.s)
            && SameCounts(Commit(s, p.launched), p.s)
            && 0 <= p.launched && (s.running <= s.max ==> p.s.running <= s.max) && (s.draining ==> p.launched == 0)
            && (forall n :: n in p.s.removeQ ==> n in s.removeQ || n in s.active)
            && (p.start ==> !s.removerActive) && p.s.removerActive == (s.removerActive || p.start)
            && ((s.removeQ != [] ==> s.removerActive) ==> p.s.removeQ != [] ==> p.s.removerActive)
  {
    hide QueueOk, SameRunners, ScaleDown, Reclaim, Live;
    var need := Max(Desired(s), s.min) - Live(s);
    ReclaimFacts(s, need, inflight, strict);
    ReclaimSame(s, need);
    var r := Reclaim(s, need).0;
    var n := if r.draining then 0 else Plan(Desired(s), Live(r), r.running, r.max);
    var c := Commit(r, n);
    CommitFacts(r, n, inflight, strict);
    RunnersTrans(s, r, c);
    ScaleDownFacts(c, Desired(s), order, inflight, strict);
    RunnersTrans(s, c, ScaleDown(c, Desired(s), order).0);
  }

  lemma ReplanFacts(s: Sched, ctxDone: bool, inflight: set<Name>, strict: bool)
    requires QueueOk(s, inflight, strict)
    ensures var (t, n) := Replan(s, ctxDone);
            && QueueOk(t, inflight, strict) && SameRunners(s, t)
            && SameCounts(Commit(s, n), t)
            && 0 <= n <= 1 && (n == 1 ==> s.running < s.max) && (s.draining ==> n == 0)
            && t.removeQ <= s.removeQ && t.removerActive == s.removerActive
  {
    var need := Max(Desired(s), s.min) - Live(s);
    ReclaimFacts(s, need, inflight, strict);
    ReclaimSame(s, need);
  }
}
