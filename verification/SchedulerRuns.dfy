/**
 Every interleaving of one tier's scheduler with its launch goroutines, its remove loop, the
 lost-runner check and GitHub. A locked section is one step; everything between two sections is
 where other steps may come in.
 */
module SchedulerRuns {
  import opened Scheduling

  /** Where a launch goes once it has stopped being pending. */
  datatype Route = ToTrack | ToBackoff | ToFinish

  /** Where a launch goroutine is. */
  datatype Phase =
    | Committed                     // in running and pending, nothing asked of GitHub yet
    | Leaving(route: Route)         // decided where to go, about to enter
    | HalfEntered(route: Route)     // out of the tier's pending count, still in the shared one
    | Entered(route: Route)
    | Tracked                       // in the active map, the VM booting or running
    | ExitFailed(jobDone: bool)     // out of the active map, not yet backing off
    | BackingOff(jobDone: bool)
    | Finishing(jobDone: bool)      // about to leave running

  /** The runners GitHub was ever told of, those it still knows, and those with a job. */
  datatype GitHub = GitHub(known: set<Name>, registered: set<Name>, working: set<Name>)

  datatype Loop =
    | NoLoop
    | AtTop
    | LookingUp(name: Name)
    | Deleting(name: Name)
    | Verifying(name: Name)
    | Answered(name: Name, answer: Answer)

  datatype World = World(
    s: Sched,
    launches: map<Name, Phase>,
    next: nat,
    gh: GitHub,
    loop: Loop,
    listed: set<Name>,          // idle runners the lost-runner check is going through
    lost: set<Name>,            // those GitHub answered it does not know
    ctxDone: bool,
    toppingUp: nat,             // top-ups that saw the context live and are yet to take the lock
    tracked: set<Name>,         // every name that ever was in the active map
    stopped: set<Name>,         // cancelled by scale-down or as lost
    reaped: set<Name>,          // cancelled by the shutdown watcher
    doneExits: nat,             // exits of VMs whose job was done
    replanned: nat              // launches those exits committed
  )

  /** What became of the DELETE request; a failed one took effect or never will. */
  datatype DeleteOutcome = Deleted | NotFound | StillRunning | Failed(took: bool)

  datatype Step =
    | DoReconcile(jobs: int, order: seq<Name>)
    | DoSetMin(floor: int, order: seq<Name>)
    | DoLookTopUp
    | DoTopUp
    | DoDrain
    | DoShutdown
    | DoStopEarly(l: Name)
    | DoGenerate(l: Name, ok: bool, registers: bool)
    | DoEnter(l: Name)
    | DoEntered(l: Name)
    | DoTrack(l: Name)
    | DoSkip(l: Name)
    | DoBackoff(l: Name)
    | DoWake(l: Name)
    | DoExit(l: Name, launchErr: bool)
    | DoFinish(l: Name)
    | DoHealthy
    | DoBusy(n: Name)
    | DoCompleted(n: Name)
    | DoList(names: set<Name>)
    | DoLookupLost(n: Name)
    | DoCancelLost(n: Name)
    | DoCancelIdle(n: Name)
    | DoTop
    | DoLookup(answers: bool)
    | DoDelete(outcome: DeleteOutcome)
    | DoVerify(answers: bool)
    | DoSettle
    | DoAssign(n: Name)
    | DoJobOver(n: Name)
    | DoForget(n: Name)

  // --- steps ---

  /** n more launches, named from `next` on. */
  function AddLaunches(ls: map<Name, Phase>, next: nat, n: nat): map<Name, Phase> {
    if n == 0 then ls else AddLaunches(ls, next, n - 1)[next + n - 1 := Committed]
  }

  function Spawn(w: World, s: Sched, n: int): World {
    if n <= 0 then w.(s := s)
    else w.(s := s, launches := AddLaunches(w.launches, w.next, n), next := w.next + n)
  }

  function Act(w: World, p: Pass): World {
    var v := Spawn(w, p.s, p.launched);
    if p.start then v.(loop := AtTop) else v
  }

  function Go(w: World, l: Name, p: Phase): World {
    w.(launches := w.launches[l := p])
  }

  function Leave(w: World, l: Name): World {
    w.(launches := w.launches - {l})
  }

  predicate At(w: World, l: Name, p: Phase) {
    l in w.launches && w.launches[l] == p
  }

  // A step belongs to planning, to a launch goroutine, to the remove loop, or is a signal.

  predicate Plans(st: Step) {
    st.DoReconcile? || st.DoSetMin? || st.DoTopUp? || st.DoExit? || st.DoFinish?
  }

  predicate Moves(st: Step) {
    st.DoStopEarly? || st.DoGenerate? || st.DoEnter? || st.DoEntered? || st.DoTrack? || st.DoSkip? || st.DoBackoff? || st.DoWake?
  }

  predicate Removes(st: Step) {
    st.DoTop? || st.DoLookup? || st.DoDelete? || st.DoVerify? || st.DoSettle?
  }

  ghost predicate PlanEnabled(w: World, st: Step)
    requires Plans(st)
  {
    match st
    case DoReconcile(_, order) => Enumerates(order, w.s.active.Keys)
    case DoSetMin(_, order) => Enumerates(order, w.s.active.Keys)
    case DoTopUp => w.toppingUp > 0
    case DoExit(l, _) => At(w, l, Tracked)
    case DoFinish(l) => l in w.launches && w.launches[l].Finishing?
  }

  predicate MoveEnabled(w: World, st: Step)
    requires Moves(st)
  {
    st.l in w.launches &&
    var p := w.launches[st.l];
    match st
    case DoStopEarly(_) => p.Committed? && w.ctxDone
    case DoGenerate(_, ok, registers) => p.Committed? && (ok ==> registers)
    case DoEnter(_) => p.Leaving?
    case DoEntered(_) => p.HalfEntered?
    case DoTrack(_) => p == Entered(ToTrack)
    case DoSkip(_) => p == Entered(ToFinish) || (w.ctxDone && (p == Entered(ToBackoff) || p.ExitFailed?))
    case DoBackoff(_) => p == Entered(ToBackoff) || p.ExitFailed?
    case DoWake(_) => p.BackingOff?
  }

  predicate RemoveEnabled(w: World, st: Step)
    requires Removes(st)
  {
    match st
    case DoTop => w.loop.AtTop?
    case DoLookup(_) => w.loop.LookingUp?
    case DoDelete(outcome) =>
      w.loop.Deleting? &&
      (match outcome
       case Deleted => w.loop.name !in w.gh.working
       case NotFound => w.loop.name !in w.gh.registered
       case StillRunning => w.loop.name in w.gh.working
       case Failed(took) => took ==> w.loop.name !in w.gh.working)
    case DoVerify(_) => w.loop.Verifying?
    case DoSettle => w.loop.Answered?
  }

  predicate SignalEnabled(w: World, st: Step)
    requires !Plans(st) && !Moves(st) && !Removes(st)
  {
    match st
    case DoLookTopUp => !w.ctxDone
    case DoList(names) => forall n :: n in names ==> n in w.s.active && Idle(w.s.active[n])
    case DoLookupLost(n) => n in w.listed && n !in w.gh.registered
    case DoCancelLost(n) => n in w.lost
    case DoCancelIdle(_) => w.ctxDone
    case DoAssign(n) => n in w.gh.registered
    case DoJobOver(n) => n in w.gh.working
    case DoForget(n) => n in w.gh.registered
    case _ => true
  }

  ghost predicate Enabled(w: World, st: Step) {
    if Plans(st) then PlanEnabled(w, st)
    else if Moves(st) then MoveEnabled(w, st)
    else if Removes(st) then RemoveEnabled(w, st)
    else SignalEnabled(w, st)
  }

  function Deregister(g: GitHub, n: Name): GitHub {
    g.(registered := g.registered - {n}, working := g.working - {n})
  }

  function JobDoneOf(p: Phase): bool {
    match p
    case ExitFailed(d) => d
    case BackingOff(d) => d
    case Finishing(d) => d
    case _ => false
  }

  function Exiting(w: World, l: Name, launchErr: bool): World
    requires l in w.launches
  {
    var e := ExitVM(w.s, l, launchErr, w.ctxDone);
    if e.failed then Go(w, l, ExitFailed(e.jobDone)).(s := e.s)
    else Counted(Spawn(Leave(w, l), e.s, e.launched), e.jobDone, e.launched)
  }

  function Finished(w: World, l: Name): World
    requires l in w.launches
  {
    var jobDone := JobDoneOf(w.launches[l]);
    var (s, n) := Finish(w.s, jobDone, w.ctxDone);
    Counted(Spawn(Leave(w, l), s, n), jobDone, n)
  }

  function Counted(w: World, jobDone: bool, launched: int): World {
    if jobDone then
      w.(doneExits := w.doneExits + 1, replanned := w.replanned + (if launched > 0 then launched else 0))
    else w
  }

  function PlanStep(w: World, st: Step): World
    requires Plans(st) && PlanEnabled(w, st)
  {
    match st
    case DoReconcile(jobs, order) => Act(w, Reconcile(w.s, jobs, order))
    case DoSetMin(floor, order) => Act(w, SetMin(w.s, floor, w.ctxDone, order))
    case DoTopUp => var (s, n) := MaintainMinimum(w.s); Spawn(w.(toppingUp := w.toppingUp - 1), s, n)
    case DoExit(l, launchErr) => Exiting(w, l, launchErr)
    case DoFinish(l) => Finished(w, l)
  }

  /** The phase a launch goroutine goes on to. */
  function NextPhase(p: Phase, st: Step): Phase
    requires Moves(st)
  {
    match st
    case DoStopEarly(_) => Leaving(ToFinish)
    case DoGenerate(_, ok, _) => Leaving(if ok then ToTrack else ToBackoff)
    case DoEnter(_) => HalfEntered(if p.Leaving? then p.route else ToFinish)
    case DoEntered(_) => Entered(if p.HalfEntered? then p.route else ToFinish)
    case DoTrack(_) => Tracked
    case DoSkip(_) => Finishing(JobDoneOf(p))
    case DoBackoff(_) => BackingOff(JobDoneOf(p))
    case DoWake(_) => Finishing(JobDoneOf(p))
  }

  function MovedSched(s: Sched, st: Step): Sched
    requires Moves(st)
  {
    match st
    case DoEnter(_) => Enter(s)
    case DoTrack(l) => Track(s, l)
    case DoBackoff(_) => BackoffStart(s)
    case DoWake(_) => BackoffEnd(s)
    case _ => s
  }

  function MoveStep(w: World, st: Step): World
    requires Moves(st) && MoveEnabled(w, st)
  {
    var l := st.l;
    var g := if st.DoGenerate? && st.registers
      then w.gh.(known := w.gh.known + {l}, registered := w.gh.registered + {l}) else w.gh;
    Go(w, l, NextPhase(w.launches[l], st)).(
      s := MovedSched(w.s, st), gh := g, tracked := if st.DoTrack? then w.tracked + {l} else w.tracked)
  }

  function RemoveStep(w: World, st: Step): World
    requires Removes(st) && RemoveEnabled(w, st)
  {
    match st
    case DoTop =>
      var (s, next) := RemoveTop(w.s, w.ctxDone);
      w.(s := s, loop := if next.Some? then LookingUp(next.value) else NoLoop)
    case DoLookup(answers) =>
      var n := w.loop.name;
      if !answers then w.(loop := Answered(n, StillThere))
      else if n in w.gh.registered then w.(loop := Deleting(n))
      else w.(loop := Answered(n, Removed))
    case DoDelete(outcome) =>
      var n := w.loop.name;
      (match outcome
       case Deleted => w.(gh := Deregister(w.gh, n), loop := Answered(n, Removed))
       case NotFound => w.(loop := Answered(n, Removed))
       case StillRunning => w.(loop := Answered(n, Busy))
       case Failed(took) => w.(gh := if took then Deregister(w.gh, n) else w.gh, loop := Verifying(n)))
    case DoVerify(answers) =>
      var n := w.loop.name;
      if !answers then w.(loop := Answered(n, Unknown))
      else if n in w.gh.registered then w.(loop := Answered(n, StillThere))
      else w.(loop := Answered(n, Removed))
    case DoSettle =>
      w.(s := Settle(w.s, w.loop.name, w.loop.answer).0, loop := AtTop)
  }

  function SignalSched(s: Sched, st: Step): Sched {
    match st
    case DoDrain => Drain(s)
    case DoHealthy => ResetBackoff(s)
    case DoBusy(n) => MarkBusy(s, n)
    case DoCompleted(n) => MarkCompleted(s, n)
    case DoCancelLost(n) => CancelLost(s, n).0
    case DoCancelIdle(n) => CancelIfIdle(s, n)
    case _ => s
  }

  function SignalGitHub(g: GitHub, st: Step): GitHub {
    match st
    case DoAssign(n) => g.(working := g.working + {n})
    case DoJobOver(n) => Deregister(g, n)
    case DoForget(n) => Deregister(g, n)
    case _ => g
  }

  function SignalStep(w: World, st: Step): World
    requires !Plans(st) && !Moves(st) && !Removes(st) && SignalEnabled(w, st)
  {
    w.(s := SignalSched(w.s, st), gh := SignalGitHub(w.gh, st),
       ctxDone := w.ctxDone || st.DoShutdown?,
       toppingUp := w.toppingUp + (if st.DoLookTopUp? then 1 else 0),
       listed := if st.DoList? then st.names else w.listed,
       lost := if st.DoLookupLost? then w.lost + {st.n} else if st.DoCancelLost? then w.lost - {st.n} else w.lost)
  }

  function Raw(w: World, st: Step): World
    requires Enabled(w, st)
  {
    if Plans(st) then PlanStep(w, st)
    else if Moves(st) then MoveStep(w, st)
    else if Removes(st) then RemoveStep(w, st)
    else SignalStep(w, st)
  }

  function CancelledNames(active: map<Name, Handle>): set<Name> {
    set n | n in active && active[n].cancelled
  }

  /** One step, with the names it cancelled recorded by who cancelled them. */
  function Do(w: World, st: Step): World
    requires Enabled(w, st)
  {
    var v := Raw(w, st);
    var newly := CancelledNames(v.s.active) - CancelledNames(w.s.active);
    if st.DoCancelIdle? then v.(reaped := v.reaped + newly) else v.(stopped := v.stopped + newly)
  }

  function Start(max: int, min: int, hasRemover: bool): World {
    World(New(max, min, hasRemover), map[], 0, GitHub({}, {}, {}), NoLoop, {}, {}, false, 0, {}, {}, {}, 0, 0)
  }

  ghost predicate Next(w: World, st: Step, v: World) {
    Enabled(w, st) && v == Do(w, st)
  }

  /** `ws` is a run: it starts a fresh scheduler and each world follows from the one before by a step. */
  ghost predicate Run(ws: seq<World>, steps: seq<Step>, max: int, min: int, hasRemover: bool) {
    && |ws| == |steps| + 1
    && ws[0] == Start(max, min, hasRemover)
    && forall i :: 0 <= i < |steps| ==> Next(ws[i], steps[i], ws[i + 1])
  }
}
