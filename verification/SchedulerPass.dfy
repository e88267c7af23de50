/** What one locked pass of the plan achieves, and when a second one has nothing left to do. */
module SchedulerPass {
  import opened Wrappers
  import opened Counting
  import opened Scheduling
  import opened SchedulerFacts

  ghost predicate NoQueuedCompleted(s: Sched) {
    forall n :: n in s.removeQ && n in s.active ==> !s.active[n].completed
  }

  ghost predicate NoneIdle(s: Sched) {
    forall n :: n in s.active ==> !Idle(s.active[n])
  }

  lemma MarkLive(s: Sched, n: Name, h: Handle)
    requires n in s.active
    ensures Live(s.(active := s.active[n := h])) == Live(s) + One(Gone(s.active[n])) - One(Gone(h))
  {
    var active := s.active[n := h];
    assert GoneNames(active) == Put(GoneNames(s.active), n, Gone(h)) by {
      forall k ensures k in GoneNames(active) <==> k in Put(GoneNames(s.active), n, Gone(h)) {
      }
    }
    PutCard(GoneNames(s.active), n, Gone(h));
  }

  /** Reclaiming raises live by at most what is needed, and stops short only on an empty queue. */
  lemma {:induction false} ReclaimLive(s: Sched, need: int)
    ensures var (t, k) := Reclaim(s, need);
            && Live(s) <= Live(t) <= Live(s) + k && k <= Max(need, 0)
            && (k < need ==> t.removeQ == [])
            && (NoQueuedCompleted(s) ==> Live(t) == Live(s) + k)
            && (need <= 0 || s.removeQ == [] ==> t == s)
            && (need > 0 && s.removeQ != [] ==> |t.removeQ| < |s.removeQ|)
    decreases |s.removeQ|
  {
    if need > 0 && s.removeQ != [] {
      var last := |s.removeQ| - 1;
      var name := s.removeQ[last];
      var popped := s.(removeQ := s.removeQ[..last]);
      assert NoQueuedCompleted(s) ==> NoQueuedCompleted(popped);
      if Recallable(popped, name) {
        MarkLive(popped, name, popped.active[name].(removing := false));
        ReclaimLive(Unmark(popped, name), need - 1);
      } else {
        ReclaimLive(popped, need);
      }
    }
  }

  lemma PickLive(s: Sched, n: Name)
    requires n in s.active && Idle(s.active[n]) && CompletedBusy(s)
    ensures Live(Pick(s, n)) == Live(s) - 1 && CompletedBusy(Pick(s, n))
  {
    MarkLive(s, n, Pick(s, n).active[n]);
  }

  /** Each pick lowers live by one; it stops above the floor only when nothing idle is left to range over. */
  lemma {:induction false} PickManyLive(s: Sched, order: seq<Name>, excess: int)
    requires CompletedBusy(s)
    ensures var (t, k) := PickMany(s, order, excess);
            && Live(t) == Live(s) - k && k <= Max(excess, 0)
            && (k < excess ==> forall n :: n in order && n in t.active ==> !Idle(t.active[n]))
    decreases |order|
  {
    if excess > 0 && order != [] {
      PickManyUntouched(s, order, excess);
      if order[0] !in s.active || !Idle(s.active[order[0]]) {
        PickManyLive(s, order[1..], excess);
        PickManyUntouched(s, order[1..], excess);
      } else {
        PickLive(s, order[0]);
        PickManyLive(Pick(s, order[0]), order[1..], excess - 1);
        PickManyUntouched(Pick(s, order[0]), order[1..], excess - 1);
      }
    }
  }

  /** A runner that is not idle (a busy one, say) is never picked; with none idle nothing changes at all. */
  lemma {:induction false} PickManyUntouched(s: Sched, order: seq<Name>, excess: int)
    ensures var (t, k) := PickMany(s, order, excess);
            && t.active.Keys == s.active.Keys
            && (forall n :: n in s.active && !Idle(s.active[n]) ==> t.active[n] == s.active[n])
            && (NoneIdle(s) ==> t == s && k == 0)
    decreases |order|
  {
    if excess > 0 && order != [] {
      if order[0] !in s.active || !Idle(s.active[order[0]]) {
        PickManyUntouched(s, order[1..], excess);
      } else {
        PickManyUntouched(Pick(s, order[0]), order[1..], excess - 1);
      }
    }
  }

  /** Reclaiming unmarks removals and touches nothing else about a runner. */
  lemma {:induction false} ReclaimUntouched(s: Sched, need: int)
    ensures var t := Reclaim(s, need).0;
            && t.active.Keys == s.active.Keys
            && (forall n :: n in s.active ==> t.active[n] == s.active[n] || t.active[n] == s.active[n].(removing := false))
            && (CompletedBusy(s) ==> CompletedBusy(t))
    decreases |s.removeQ|
  {
    if need > 0 && s.removeQ != [] {
      var last := |s.removeQ| - 1;
      var name := s.removeQ[last];
      var popped := s.(removeQ := s.removeQ[..last]);
      if Recallable(popped, name) {
        ReclaimUntouched(Unmark(popped, name), need - 1);
      } else {
        ReclaimUntouched(popped, need);
      }
    }
  }

  /** Scale-down ends at the floor, or above it with nothing idle left; it never goes below. */
  lemma ScaleDownMeets(s: Sched, desired: int, order: seq<Name>)
    requires CompletedBusy(s) && s.min <= desired && Enumerates(order, s.active.Keys)
    ensures var (t, k, start) := ScaleDown(s, desired, order);
            && Min(Live(s), desired) <= Live(t) <= Live(s)
            && (Live(t) > desired ==> NoneIdle(t) && (t.removeQ != [] ==> t.removerActive))
            && (Live(s) >= desired ==> Live(t) >= desired)
            && t.running == s.running && t.active.Keys == s.active.Keys
            && (forall n :: n in s.active && s.active[n].busy ==> t.active[n] == s.active[n])
  {
    var excess := Live(s) - desired;
    PickManyLive(s, order, excess);
    PickManyUntouched(s, order, excess);
    PickManyKeeps(s, order, excess);
    if excess > 0 {
      var (t, k, start) := ScaleDown(s, desired, order);
      var u := PickMany(s, order, excess).0;
      assert t.active == u.active && Live(t) == Live(u);
      assert forall m :: m in s.active ==> m in order;
    }
  }

  /** The state a pass plans from: what the queue could give back has been given back. */
  lemma Reclaimed(s: Sched) returns (r: Sched)
    requires CompletedBusy(s) && 0 <= s.lastJobs
    ensures r == ReclaimQueued(s, Desired(s)).0
    ensures CompletedBusy(r) && r == s.(active := r.active, removeQ := r.removeQ) && r.active.Keys == s.active.Keys
    ensures Live(s) <= Live(r) <= Max(Live(s), Desired(s))
    ensures NoQueuedCompleted(s) && Live(r) < Desired(s) ==> r.removeQ == []
    ensures forall n :: n in s.active ==> r.active[n] == s.active[n] || r.active[n] == s.active[n].(removing := false)
  {
    var need := Desired(s) - Live(s);
    ReclaimLive(s, need);
    ReclaimUntouched(s, need);
    ReclaimKeeps(s, need);
    r := ReclaimQueued(s, Desired(s)).0;
  }

  lemma {:induction false} ReclaimKeeps(s: Sched, need: int)
    ensures var t := Reclaim(s, need).0; t == s.(active := t.active, removeQ := t.removeQ)
    decreases |s.removeQ|
  {
    if need > 0 && s.removeQ != [] {
      var last := |s.removeQ| - 1;
      var name := s.removeQ[last];
      var popped := s.(removeQ := s.removeQ[..last]);
      if Recallable(popped, name) {
        ReclaimKeeps(Unmark(popped, name), need - 1);
      } else {
        ReclaimKeeps(popped, need);
      }
    }
  }

  /**
   One pass: it ends with enough live runners or a full tier, unless draining, when it launches nothing.
   It moves live only towards the desired count, never cancels or deregisters a busy runner, and ends
   above the count only when nothing idle is left and a remove loop runs for whatever is queued.
   */
  lemma PassMeets(s: Sched, order: seq<Name>)
    requires CompletedBusy(s) && 0 <= s.lastJobs && s.running <= s.max
    requires Enumerates(order, s.active.Keys)
    ensures var p := ReconcileLocked(s, order);
            && (s.draining || Live(p.s) >= Desired(s) || p.s.running == s.max)
            && (s.draining ==> p.launched == 0 && p.s.running == s.running)
            && Min(Live(s), Desired(s)) <= Live(p.s) <= Max(Live(s), Desired(s))
            && (p.launched > 0 ==> Live(p.s) <= Desired(s))
            && (Live(p.s) > Desired(s) ==> NoneIdle(p.s) && (p.s.removeQ != [] ==> p.s.removerActive))
            && p.s.active.Keys == s.active.Keys
            && (forall n :: n in s.active && s.active[n].busy ==>
                              p.s.active[n] == s.active[n] || p.s.active[n] == s.active[n].(removing := false))
  {
    var r := Reclaimed(s);
    var n := if r.draining then 0 else Plan(Desired(s), Live(r), r.running, r.max);
    var c := Commit(r, n);
    assert Live(c) == Live(r) + n;
    ScaleDownMeets(c, Desired(s), order);
  }

  /**
   If no queued runner had completed, the pass ends with the count met or the queue empty, and
   boots only once no removal is left to recall.
   */
  lemma PassSettles(s: Sched, order: seq<Name>)
    requires CompletedBusy(s) && !s.draining && 0 <= s.lastJobs && s.running <= s.max
    requires Enumerates(order, s.active.Keys) && NoQueuedCompleted(s)
    ensures var p := ReconcileLocked(s, order);
            && (Live(p.s) >= Desired(s) || p.s.removeQ == [])
            && (p.launched > 0 ==> p.s.removeQ == [])
  {
    var r := Reclaimed(s);
    var n := Plan(Desired(s), Live(r), r.running, r.max);
    var c := Commit(r, n);
    assert Live(c) == Live(r) + n;
    ScaleDownMeets(c, Desired(s), order);
  }

  /**
   With nothing in between, a second pass changes nothing exactly when the first one ended with the
   count met or the queue empty: what stops the reclaim loop.
   */
  lemma SecondPass(s: Sched, order: seq<Name>, again: seq<Name>)
    requires CompletedBusy(s) && !s.draining && 0 <= s.lastJobs && s.running <= s.max
    requires Enumerates(order, s.active.Keys) && Enumerates(again, s.active.Keys)
    ensures var p := ReconcileLocked(s, order).s;
            ReconcileLocked(p, again) == Pass(p, 0, 0, 0, false) <==> Live(p) >= Desired(p) || p.removeQ == []
  {
    PassMeets(s, order);
    PassKeeps(s, order);
    var p := ReconcileLocked(s, order).s;
    var need := Desired(p) - Live(p);
    ReclaimLive(p, need);
    if Live(p) >= Desired(p) || p.removeQ == [] {
      assert Reclaim(p, need) == (p, 0);
      assert Plan(Desired(p), Live(p), p.running, p.max) == 0;
      assert Commit(p, 0) == p;
      if Live(p) > Desired(p) {
        PickManyUntouched(p, again, Live(p) - Desired(p));
      }
    } else {
      ReclaimShort(p, again);
    }
  }

  lemma PassKeeps(s: Sched, order: seq<Name>)
    ensures var p := ReconcileLocked(s, order);
            p.s.draining == s.draining && p.s.max == s.max && Desired(p.s) == Desired(s) && p.s.min == s.min
  {
    var need := Max(Desired(s), s.min) - Live(s);
    ReclaimKeeps(s, need);
    var r := Reclaim(s, need).0;
    PickManyKeeps(Commit(r, 0), order, Live(r) - Max(Desired(s), s.min));
  }

  lemma {:induction false} PickManyKeeps(s: Sched, order: seq<Name>, excess: int)
    ensures var (t, k) := PickMany(s, order, excess);
            && t == s.(active := t.active, removeQ := t.removeQ)
            && |t.removeQ| == |s.removeQ| + (if s.hasRemover then k else 0)
    decreases |order|
  {
    if excess > 0 && order != [] {
      if order[0] !in s.active || !Idle(s.active[order[0]]) {
        PickManyKeeps(s, order[1..], excess);
      } else {
        PickManyKeeps(Pick(s, order[0]), order[1..], excess - 1);
      }
    }
  }

  /** Below the count with a queue left, another pass takes something off the queue. */
  lemma ReclaimShort(p: Sched, order: seq<Name>)
    requires Live(p) < Desired(p) && p.removeQ != [] && p.min <= Desired(p)
    ensures ReconcileLocked(p, order).s != p
  {
    var need := Desired(p) - Live(p);
    ReclaimLive(p, need);
    ReclaimKeeps(p, need);
    var r := Reclaim(p, need).0;
    var q := ReconcileLocked(p, order);
    assert Live(r) <= Desired(p);
    assert q.s.removeQ == r.removeQ;
  }
}
