/**
 The runner scheduler's mutex-held sections, each as a function on the fields it guards.
 A runner is named by the launch that made it: names are fresh, and a launch makes one runner.
 */
module Scheduling {
  import opened Wrappers

  type Name = nat

  /** The state of one in-flight microVM that scale-down and shutdown look at. */
  datatype Handle = Handle(busy: bool, cancelled: bool, removing: bool, completed: bool, completedAt: nat)

  datatype Sched = Sched(
    max: int,
    min: int,
    hasRemover: bool,
    running: int,
    pending: int,
    backingOff: int,
    failures: nat,
    active: map<Name, Handle>,
    removeQ: seq<Name>,
    removerActive: bool,
    lastJobs: int,
    hasDesired: bool,
    reconciles: nat,
    draining: bool
  )

  function New(max: int, min: int, hasRemover: bool): Sched {
    Sched(max, min, hasRemover, 0, 0, 0, 0, map[], [], false, 0, false, 0, false)
  }

  // --- counting ---

  predicate Gone(h: Handle) {
    h.cancelled || h.removing || h.completed
  }

  function GoneNames(active: map<Name, Handle>): set<Name> {
    set n | n in active && Gone(active[n])
  }

  /** How many in-flight microVMs can take a job. */
  function Live(s: Sched): int {
    s.running - s.backingOff - |GoneNames(s.active)|
  }

  function Desired(s: Sched): int {
    s.lastJobs + s.min
  }

  function Plan(desired: int, live: int, running: int, max: int): int {
    var want := if desired - live < 0 then 0 else desired - live;
    var avail := max - running;
    var capped := if want > avail then avail else want;
    if capped < 0 then 0 else capped
  }

  function Commit(s: Sched, n: int): Sched {
    s.(running := s.running + n, pending := s.pending + n)
  }

  // --- scale-down and its reversal ---

  /** Whether a queued name still stands for a removal that can be recalled. */
  predicate Recallable(s: Sched, name: Name) {
    name in s.active && s.active[name].removing && !s.active[name].cancelled
  }

  function Unmark(s: Sched, name: Name): Sched
    requires name in s.active
  {
    s.(active := s.active[name := s.active[name].(removing := false)])
  }

  function Reclaim(s: Sched, need: int): (Sched, nat)
    decreases |s.removeQ|
  {
    if need <= 0 || s.removeQ == [] then (s, 0)
    else
      var last := |s.removeQ| - 1;
      var name := s.removeQ[last];
      var popped := s.(removeQ := s.removeQ[..last]);
      if Recallable(popped, name) then
        var (t, k) := Reclaim(Unmark(popped, name), need - 1);
        (t, k + 1)
      else
        Reclaim(popped, need)
  }

  function ReclaimQueued(s: Sched, desired: int): (Sched, nat) {
    Reclaim(s, Max(desired, s.min) - Live(s))
  }

  /** A handle scale-down may pick. */
  predicate Idle(h: Handle) {
    !h.busy && !h.cancelled && !h.removing
  }

  function Pick(s: Sched, name: Name): Sched
    requires name in s.active
  {
    if s.hasRemover then
      s.(active := s.active[name := s.active[name].(removing := true)], removeQ := s.removeQ + [name])
    else
      s.(active := s.active[name := s.active[name].(cancelled := true)])
  }

  /** The body of the loop over the active map; `order` is the order the map is ranged over in. */
  function PickMany(s: Sched, order: seq<Name>, excess: int): (Sched, nat)
    decreases |order|
  {
    if excess <= 0 || order == [] then (s, 0)
    else if order[0] !in s.active || !Idle(s.active[order[0]]) then
      PickMany(s, order[1..], excess)
    else
      var (t, k) := PickMany(Pick(s, order[0]), order[1..], excess - 1);
      (t, k + 1)
  }

  ghost predicate Enumerates(order: seq<Name>, names: set<Name>) {
    && (forall i, j :: 0 <= i < j < |order| ==> order[i] != order[j])
    && (forall n :: n in order <==> n in names)
  }

  /** The state after scale-down, how many it picked, and whether a remove loop must be started. */
  function ScaleDown(s: Sched, desired: int, order: seq<Name>): (Sched, nat, bool) {
    var excess := Live(s) - Max(desired, s.min);
    if excess <= 0 then (s, 0, false)
    else
      var (t, picked) := PickMany(s, order, excess);
      var start := |t.removeQ| > 0 && !t.removerActive;
      (t.(removerActive := t.removerActive || start), picked, start)
  }

  // --- planning ---

  datatype Pass = Pass(s: Sched, launched: int, reclaimed: nat, picked: nat, start: bool)

  function ReconcileLocked(s: Sched, order: seq<Name>): Pass {
    var desired := Desired(s);
    var (r, reclaimed) := ReclaimQueued(s, desired);
    var n := if r.draining then 0 else Plan(desired, Live(r), r.running, r.max);
    var c := Commit(r, n);
    if n == 0 then
      var (d, picked, start) := ScaleDown(c, desired, order);
      Pass(d, n, reclaimed, picked, start)
    else
      Pass(c, n, reclaimed, 0, false)
  }

  /** A count has come in from GitHub. */
  function Asked(s: Sched, jobs: int): Sched {
    s.(lastJobs := jobs, hasDesired := true, reconciles := s.reconciles + 1)
  }

  function Reconcile(s: Sched, jobs: int, order: seq<Name>): Pass {
    ReconcileLocked(Asked(s, jobs), order)
  }

  function SetMin(s: Sched, n: int, ctxDone: bool, order: seq<Name>): Pass {
    if n == s.min then Pass(s, 0, 0, 0, false)
    else if s.hasDesired && !ctxDone then ReconcileLocked(s.(min := n), order)
    else Pass(s.(min := n), 0, 0, 0, false)
  }

  function MaintainMinimum(s: Sched): (Sched, int) {
    if s.min <= 0 then (s, 0)
    else
      var n := if s.draining then 0 else Plan(s.min, s.running, s.running, s.max);
      (Commit(s, n), n)
  }

  function Replan(s: Sched, ctxDone: bool): (Sched, int) {
    if !s.hasDesired || s.draining || ctxDone then (s, 0)
    else
      var (r, reclaimed) := ReclaimQueued(s, Desired(s));
      if reclaimed > 0 then (r, 0)
      else
        var n := Min(1, Plan(Desired(r), Live(r), r.running, r.max));
        (Commit(r, n), n)
  }

  // --- one launch ---

  function Enter(s: Sched): Sched {
    s.(pending := s.pending - 1)
  }

  function Track(s: Sched, name: Name): Sched {
    s.(active := s.active[name := Handle(false, false, false, false, 0)])
  }

  function Untrack(s: Sched, name: Name): Sched {
    s.(active := s.active - {name})
  }

  function Finish(s: Sched, jobDone: bool, ctxDone: bool): (Sched, int) {
    var t := s.(running := s.running - 1);
    if jobDone then Replan(t, ctxDone) else (t, 0)
  }

  datatype Exit = Exit(s: Sched, failed: bool, jobDone: bool, launched: int)

  /** Whether the completion of the runner's job was reported and a Reconcile ran since. */
  predicate JobDone(s: Sched, name: Name) {
    name in s.active && s.active[name].completed && s.reconciles > s.active[name].completedAt
  }

  function ExitVM(s: Sched, name: Name, launchErr: bool, ctxDone: bool): Exit {
    var jobDone := JobDone(s, name);
    var failed := launchErr && !(name in s.active && s.active[name].cancelled);
    var t := Untrack(s, name);
    if failed then Exit(t, true, jobDone, 0)
    else
      var (u, n) := Finish(t, jobDone, ctxDone);
      Exit(u, false, jobDone, n)
  }

  function BackoffStart(s: Sched): Sched {
    s.(failures := s.failures + 1, backingOff := s.backingOff + 1)
  }

  function BackoffEnd(s: Sched): Sched {
    s.(backingOff := s.backingOff - 1)
  }

  function ResetBackoff(s: Sched): Sched {
    s.(failures := 0)
  }

  // --- signals ---

  function MarkBusy(s: Sched, name: Name): Sched {
    if name in s.active then s.(active := s.active[name := s.active[name].(busy := true)]) else s
  }

  function MarkCompleted(s: Sched, name: Name): Sched {
    if name in s.active then
      s.(active := s.active[name := s.active[name].(busy := true, completed := true, completedAt := s.reconciles)])
    else s
  }

  function Cancel(s: Sched, name: Name): Sched
    requires name in s.active
  {
    s.(active := s.active[name := s.active[name].(cancelled := true)])
  }

  /** A runner GitHub no longer lists; the flag says whether it was cancelled. */
  function CancelLost(s: Sched, name: Name): (Sched, bool) {
    if name in s.active && Idle(s.active[name]) then (Cancel(s, name), true) else (s, false)
  }

  function CancelIfIdle(s: Sched, name: Name): Sched {
    if name in s.active && !s.active[name].busy && !s.active[name].cancelled then Cancel(s, name) else s
  }

  function Drain(s: Sched): Sched {
    s.(draining := true)
  }

  // --- the remove loop ---

  /** GitHub's answer to one removal, as RemoveRunner reports it. */
  datatype Answer = Removed | Busy | StillThere | Unknown

  function NextRemoval(s: Sched): (Sched, Option<Name>)
    decreases |s.removeQ|
  {
    if s.removeQ == [] then (s, None)
    else
      var name := s.removeQ[0];
      var popped := s.(removeQ := s.removeQ[1..]);
      if !Recallable(popped, name) then NextRemoval(popped)
      else if popped.active[name].busy then NextRemoval(Unmark(popped, name))
      else (popped, Some(name))
  }

  /** The locked section at the top of the remove loop; None ends the loop. */
  function RemoveTop(s: Sched, ctxDone: bool): (Sched, Option<Name>) {
    var (t, next) := if ctxDone then (s, None) else NextRemoval(s);
    if next.None? then (t.(removeQ := [], removerActive := false), None) else (t, next)
  }

  /** The state after the answer is acted on, and whether the name was requeued. */
  function Settle(s: Sched, name: Name, answer: Answer): (Sched, bool) {
    if name !in s.active || s.active[name].cancelled then (s, false)
    else if answer == Unknown && !s.active[name].busy then (s.(removeQ := s.removeQ + [name]), true)
    else
      var h := s.active[name].(removing := false);
      var h' := match answer {
        case Busy => h.(busy := true)
        case StillThere => h
        case Unknown => h
        case Removed => if h.busy then h else h.(cancelled := true)
      };
      (s.(active := s.active[name := h']), false)
  }

  // --- capacity ---

  /** `free` is None for a provisioner without a shared slot pool. */
  function Capacity(s: Sched, free: Option<int>, shared: int): int {
    var room := Max(0, s.max - s.running);
    var committed := Max(0, Live(s) - s.pending);
    match free
    case None => committed + s.pending + room
    case Some(f) => committed + Min(s.pending, f) + Max(0, Min(room, f - shared))
  }
}
