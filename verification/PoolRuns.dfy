/**
 Every interleaving of the pool's own loop, its resizing, the launches that claim from it, their
 waiters, cold launches and the reaper, with AWS answering each call late, with an error, or with an
 error after the call took effect.
 */
module PoolRuns {
  import opened Wrappers
  import opened Pool

  type Tid = nat

  /** Ending an instance: cancel its spot request, trying `left` more times after a failure, then terminate it. */
  datatype Stage = Cancel(left: nat) | Terminate

  datatype State = Stopped | Gone | Other

  /** What DescribeInstances said of an instance. */
  datatype Seen = Seen(inst: Pooled, state: State)

  /** The pool's own loop; it does one thing at a time. */
  datatype RunPc =
    | Boot
    | Idle
    | Discovering(list: seq<Seen>)
    | Refreshing(list: seq<Seen>)
    | Marking(inst: Pooled, list: seq<Seen>, first: bool)           // tagging it ready
    | Discarding(inst: Pooled, stage: Stage, list: seq<Seen>)       // overstayed
    | Checking(list: seq<Seen>)
    | Dropping(inst: Pooled, list: seq<Seen>)                       // gone: cancelling its request
    | Rewarming(inst: Pooled, list: seq<Seen>)
    | Trimming(inst: Pooled, stage: Stage)
    | Filling

  /** A launch, from its claim to the end of its instance. */
  datatype LaunchPc =
    | Looking
    | Preparing(inst: Pooled)
    | Following(inst: Pooled)                     // not stopped: back to warming
    | Ending(inst: Pooled, stage: Stage, given: bool)
    | Requeueing(inst: Pooled, tagged: bool)
    | Given(inst: Pooled)                         // prepared: the launch has it
    | Started(inst: Pooled)
    | Waiting(id: Inst, req: Req)                 // the waiter, with the request still to cancel
    | Stopping(id: Inst, req: Req, stage: Stage)

  datatype Ender = Ender(inst: Pooled, stage: Stage)

  /** Where the process keeps an instance. */
  datatype Owner = Unseen | InReady | InWarming | ByLoop | ByTrim(t: Tid) | ByClaim(t: Tid) | ForJob(t: Tid) | Nobody

  datatype World = World(
    pool: PoolState,
    loop: RunPc,
    trims: map<Tid, Ender>,
    launches: map<Tid, LaunchPc>,
    reaps: map<Tid, Ender>,
    reqOf: map<Inst, Req>,          // every instance's persistent request, "" for none
    open: set<Req>,
    owner: map<Inst, Owner>,
    claimed: set<(Tid, Inst)>,      // every instance a claim ever gave a launch
    terminated: set<(Inst, bool)>   // every TerminateInstances, and whether the request was still open
  )

  datatype Actor = TheLoop | ATrim(t: Tid) | ALaunch(t: Tid) | AReap(t: Tid)

  datatype Trouble = NotStopped | InstanceGone | Otherwise(tagged: bool)

  datatype LoopStep =
    | Discover(list: seq<Seen>)
    | NextFound(now: int)
    | Mark(ok: bool)
    | Refresh(list: seq<Seen>)
    | NextWarming(now: int)
    | Check(list: seq<Seen>)
    | NextReady
    | Drop(ok: bool, took: bool)
    | Rewarm(now: int)
    | Trim
    | Fill
    | Launched(id: Inst, req: Req, now: int)
    | LaunchFailed(now: int)
    | LaunchLost(id: Inst, req: Req, now: int)   // it took effect and still returned an error

  datatype LaunchStep =
    | Claim
    | Cold(id: Inst)
    | ColdLost(id: Inst)
    | GiveUp
    | Prepared
    | Fails(why: Trouble)
    | Follow(now: int)
    | Requeue(ok: bool)
    | Start(ok: bool)
    | Unlink(ok: bool, took: bool)
    | Stop
    | Over

  datatype Step =
    | OfLoop(l: LoopStep)
    | OfLaunch(t: Tid, c: LaunchStep)
    | SetTarget(n: int)
    | Resize(t: Tid)
    | Reap(t: Tid, inst: Pooled)
    | CancelOrphan(req: Req)
    | CancelCall(who: Actor, ok: bool, took: bool)
    | TerminateCall(who: Actor, ok: bool)

  /** A description of an instance names its request. */
  predicate Known(w: World, x: Pooled) {
    x.id in w.reqOf && w.reqOf[x.id] == x.spotReq
  }

  ghost predicate Described(w: World, list: seq<Seen>) {
    && (forall k :: 0 <= k < |list| ==> Known(w, list[k].inst))
    && (forall j, k :: 0 <= j < k < |list| ==> list[j].inst.id != list[k].inst.id)
  }

  /** What an actor is ending, if anything. */
  function Ends(w: World, who: Actor): Option<Ender> {
    match who
    case TheLoop =>
      (match w.loop
       case Discarding(x, stage, _) => Some(Ender(x, stage))
       case Trimming(x, stage) => Some(Ender(x, stage))
       case _ => None)
    case ATrim(t) => if t in w.trims then Some(w.trims[t]) else None
    case AReap(t) => if t in w.reaps then Some(w.reaps[t]) else None
    case ALaunch(t) =>
      if t !in w.launches then None
      else
        match w.launches[t]
        case Ending(x, stage, _) => Some(Ender(x, stage))
        case Stopping(id, req, stage) => Some(Ender(Pooled(id, "", req, ""), stage))
        case _ => None
  }

  /** A launch gets an instance and, for a persistent request, a request AWS never named before. */
  ghost predicate FreshInstance(w: World, id: Inst, req: Req) {
    id !in w.reqOf && id !in w.owner
    && (req != "" ==> req !in w.open && forall x :: x in w.reqOf ==> w.reqOf[x] != req)
  }

  ghost predicate LoopEnabled(w: World, l: LoopStep) {
    match (w.loop, l)
    case (Boot, Discover(list)) =>
      Described(w, list) && forall k :: 0 <= k < |list| ==> list[k].inst.id in w.owner && w.owner[list[k].inst.id].Unseen?
    case (Discovering(_), NextFound(_)) => true
    case (Marking(_, _, _), Mark(_)) => true
    case (Idle, Refresh(list)) => Described(w, list) && forall k :: 0 <= k < |list| ==> list[k].inst.id in w.pool.warming
    case (Refreshing(_), NextWarming(_)) => true
    case (Idle, Check(_)) => true
    case (Checking(_), NextReady) => true
    case (Dropping(_, _), Drop(ok, took)) => ok ==> took
    case (Rewarming(_, _), Rewarm(_)) => true
    case (Idle, Trim) => true
    case (Idle, Fill) => Short(w.pool) > 0
    case (Filling, Launched(id, req, _)) => FreshInstance(w, id, req)
    case (Filling, LaunchFailed(_)) => true
    case (Filling, LaunchLost(id, req, _)) => FreshInstance(w, id, req)
    case _ => false
  }

  /** A launch runs its own steps from its claim on; one that has an instance makes no other claim. */
  ghost predicate LaunchEnabled(w: World, t: Tid, c: LaunchStep) {
    if c.Claim? then (t !in w.launches || w.launches[t].Looking?) && w.pool.ready != []
    else if c.Cold? || c.ColdLost? then t !in w.launches && FreshInstance(w, c.id, "")
    else
      t in w.launches &&
      match (w.launches[t], c)
      case (Looking, GiveUp) => true
      case (Preparing(_), Prepared) => true
      case (Preparing(_), Fails(_)) => true
      case (Following(_), Follow(_)) => true
      case (Requeueing(_, _), Requeue(_)) => true
      case (Given(_), Start(_)) => true
      case (Started(_), Unlink(ok, took)) => ok ==> took
      case (Waiting(_, _), Stop) => true
      case (Waiting(_, _), Over) => true
      case _ => false
  }

  ghost predicate Enabled(w: World, st: Step) {
    match st
    case OfLoop(l) => LoopEnabled(w, l)
    case OfLaunch(t, c) => LaunchEnabled(w, t, c)
    case SetTarget(_) => true
    case Resize(t) => t !in w.trims
    case Reap(t, x) => t !in w.reaps && Known(w, x)
    case CancelOrphan(_) => true
    case CancelCall(who, ok, took) => Ends(w, who).Some? && Ends(w, who).value.stage.Cancel? && (ok ==> took)
    case TerminateCall(who, _) => Ends(w, who).Some? && Ends(w, who).value.stage.Terminate?
  }

  function FirstStage(req: Req, tries: nat): Stage {
    if req == "" then Terminate else Cancel(if tries > 0 then tries - 1 else 0)
  }

  const DISCARD_TRIES := 3

  function Own(w: World, id: Inst, o: Owner): (v: World)
    ensures v == w.(owner := v.owner)
  {
    w.(owner := w.owner[id := o])
  }

  // --- the loop ---

  function NextFoundDo(w: World, list: seq<Seen>, now: int): (v: World)
    ensures v == w.(loop := v.loop, pool := v.pool, owner := v.owner)
  {
    if list == [] then w.(loop := Idle)
    else
      var x, rest := list[0], list[1..];
      if x.state.Stopped? then w.(loop := Marking(x.inst, rest, true))
      else Own(w, x.inst.id, InWarming).(loop := Discovering(rest), pool := Pool.Rewarm(w.pool, x.inst.id, now))
  }

  function MarkDo(w: World, x: Pooled, list: seq<Seen>, first: bool, ok: bool): (v: World)
    ensures v == w.(loop := v.loop, pool := v.pool, owner := v.owner)
  {
    var next := if first then Discovering(list) else Refreshing(list);
    if ok then Own(w, x.id, InReady).(loop := next, pool := MarkReady(w.pool, x))
    else if first then Own(w, x.id, Nobody).(loop := next)
    else w.(loop := next)
  }

  function NextWarmingDo(w: World, list: seq<Seen>, now: int): (v: World)
    ensures v == w.(loop := v.loop, pool := v.pool, owner := v.owner)
  {
    if list == [] then w.(loop := Idle)
    else
      var x, rest := list[0], list[1..];
      match x.state
      case Stopped => w.(loop := Marking(x.inst, rest, false))
      case Gone => Own(w, x.inst.id, Nobody).(loop := Refreshing(rest), pool := DropWarming(w.pool, x.inst.id))
      case Other =>
        if Overstayed(w.pool, x.inst.id, now)
        then w.(loop := Discarding(x.inst, FirstStage(x.inst.spotReq, DISCARD_TRIES), rest))
        else w.(loop := Refreshing(rest))
  }

  function NextReadyDo(w: World, list: seq<Seen>): (v: World)
    ensures v == w.(loop := v.loop, pool := v.pool, owner := v.owner)
  {
    if list == [] then w.(loop := Idle)
    else
      var x, rest := list[0], list[1..];
      var (p, got) := TakeReady(w.pool, x.inst.id);
      if x.state.Stopped? || got.None? then w.(loop := Checking(rest))
      else if x.state.Other? then Own(w, got.value.id, ByLoop).(loop := Rewarming(got.value, rest), pool := p)
      else if got.value.spotReq == "" then Own(w, got.value.id, Nobody).(loop := Checking(rest), pool := p)
      else Own(w, got.value.id, ByLoop).(loop := Dropping(got.value, rest), pool := p)
  }

  function TrimDo(w: World): (v: World)
    ensures v == w.(loop := v.loop, pool := v.pool, owner := v.owner)
  {
    var (p, got) := TrimPop(w.pool);
    if got.None? then w
    else Own(w, got.value.id, ByLoop).(loop := Trimming(got.value, FirstStage(got.value.spotReq, DISCARD_TRIES)), pool := p)
  }

  function AddInstance(w: World, id: Inst, req: Req, o: Owner): (v: World)
    ensures v == w.(reqOf := v.reqOf, owner := v.owner, open := v.open)
  {
    w.(reqOf := w.reqOf[id := req], owner := w.owner[id := o], open := if req == "" then w.open else w.open + {req})
  }

  /** Going through descriptions, one at a time. */
  function LoopScans(w: World, l: LoopStep): World {
    match (w.loop, l)
    case (Boot, Discover(list)) => w.(loop := Discovering(list))
    case (Discovering(list), NextFound(now)) => NextFoundDo(w, list, now)
    case (Marking(x, list, first), Mark(ok)) => MarkDo(w, x, list, first, ok)
    case (Idle, Refresh(list)) => w.(loop := Refreshing(list))
    case (Refreshing(list), NextWarming(now)) => NextWarmingDo(w, list, now)
    case (Idle, Check(list)) => w.(loop := Checking(list))
    case (Checking(list), NextReady) => NextReadyDo(w, list)
    case _ => w
  }

  function LoopActs(w: World, l: LoopStep): World {
    match (w.loop, l)
    case (Dropping(x, list), Drop(ok, took)) =>
      Own(w, x.id, Nobody).(loop := Checking(list), open := if took then w.open - {x.spotReq} else w.open)
    case (Rewarming(x, list), Rewarm(now)) =>
      Own(w, x.id, InWarming).(loop := Checking(list), pool := Pool.Rewarm(w.pool, x.id, now))
    case (Idle, Trim) => TrimDo(w)
    case (Idle, Fill) => w.(loop := Filling)
    case (Filling, Launched(id, req, now)) =>
      AddInstance(w, id, req, InWarming).(loop := Idle, pool := Pool.Launched(w.pool, id, now))
    case (Filling, LaunchFailed(now)) => w.(loop := Idle, pool := Pool.LaunchFailed(w.pool, now))
    case (Filling, LaunchLost(id, req, now)) =>
      AddInstance(w, id, req, Unseen).(loop := Idle, pool := Pool.LaunchFailed(w.pool, now))
    case _ => w
  }

  predicate Scans(l: LoopStep) {
    l.Discover? || l.NextFound? || l.Mark? || l.Refresh? || l.NextWarming? || l.Check? || l.NextReady?
  }

  function LoopDo(w: World, l: LoopStep): World {
    if Scans(l) then LoopScans(w, l) else LoopActs(w, l)
  }

  // --- launches ---

  function To(w: World, t: Tid, c: LaunchPc): World {
    w.(launches := w.launches[t := c])
  }

  function ClaimDo(w: World, t: Tid): World {
    var (p, got) := ClaimPop(w.pool);
    if got.None? then w else Own(To(w, t, Preparing(got.value)), got.value.id, ByClaim(t)).(pool := p)
  }

  function FailsDo(w: World, t: Tid, x: Pooled, why: Trouble): World {
    match why
    case NotStopped => To(w, t, Following(x))
    case InstanceGone => To(w, t, Ending(x, FirstStage(x.spotReq, DISCARD_TRIES), false))
    case Otherwise(tagged) => To(w, t, Requeueing(x, tagged))
  }

  function LaunchNext(w: World, t: Tid, pc: LaunchPc, c: LaunchStep): World {
    match (pc, c)
    case (Looking, GiveUp) => w.(launches := w.launches - {t})
    case (Preparing(x), Prepared) => Own(To(w, t, Given(x)), x.id, ForJob(t)).(claimed := w.claimed + {(t, x.id)})
    case (Preparing(x), Fails(why)) => FailsDo(w, t, x, why)
    case (Following(x), Follow(now)) => Own(To(w, t, Looking), x.id, InWarming).(pool := Pool.Rewarm(w.pool, x.id, now))
    case (Requeueing(x, tagged), Requeue(ok)) =>
      if !tagged || ok then Own(w, x.id, InReady).(launches := w.launches - {t}, pool := PutFront(w.pool, x))
      else Own(w, x.id, Nobody).(launches := w.launches - {t})
    case (Given(x), Start(ok)) => To(w, t, if ok then Started(x) else Ending(x, FirstStage(x.spotReq, DISCARD_TRIES), true))
    case (Started(x), Unlink(ok, took)) =>
      To(w, t, Waiting(x.id, if ok then "" else x.spotReq)).(
        open := if took && x.spotReq != "" then w.open - {x.spotReq} else w.open)
    case (Waiting(id, req), Stop) => To(w, t, Stopping(id, req, FirstStage(req, 1)))
    case (Waiting(_, _), Over) => w.(launches := w.launches - {t})
    case _ => w
  }

  function LaunchDo(w: World, t: Tid, c: LaunchStep): World {
    if c.Claim? then ClaimDo(w, t)
    else if c.Cold? then AddInstance(To(w, t, Waiting(c.id, "")), c.id, "", ForJob(t))
    else if c.ColdLost? then AddInstance(w, c.id, "", Unseen)
    else if t in w.launches then LaunchNext(w, t, w.launches[t], c)
    else w
  }

  // --- ending an instance ---

  /** The actor's ending went on to another stage. */
  function StageTo(w: World, who: Actor, stage: Stage): World {
    match who
    case TheLoop =>
      (match w.loop
       case Discarding(x, _, list) => w.(loop := Discarding(x, stage, list))
       case Trimming(x, _) => w.(loop := Trimming(x, stage))
       case _ => w)
    case ATrim(t) => if t in w.trims then w.(trims := w.trims[t := w.trims[t].(stage := stage)]) else w
    case AReap(t) => if t in w.reaps then w.(reaps := w.reaps[t := w.reaps[t].(stage := stage)]) else w
    case ALaunch(t) =>
      if t !in w.launches then w
      else
        match w.launches[t]
        case Ending(x, _, given) => To(w, t, Ending(x, stage, given))
        case Stopping(id, req, _) => To(w, t, Stopping(id, if stage.Terminate? then "" else req, stage))
        case _ => w
  }

  /** An instance taken for ending is gone, or goes back to the pool's end. */
  function Settle(w: World, x: Pooled, did: bool): (v: World)
    ensures v == w.(owner := v.owner, pool := v.pool)
  {
    if did then Own(w, x.id, Nobody) else Own(w, x.id, InReady).(pool := PutBack(w.pool, x))
  }

  function LoopEnded(w: World, did: bool): (v: World)
    ensures v == w.(loop := v.loop, owner := v.owner, pool := v.pool)
  {
    match w.loop
    case Trimming(x, _) => Settle(w.(loop := Idle), x, did)
    case Discarding(x, _, list) =>
      if did then Own(w, x.id, Nobody).(loop := Refreshing(list), pool := DropWarming(w.pool, x.id))
      else w.(loop := Refreshing(list))
    case _ => w
  }

  function LaunchEnded(w: World, t: Tid): (v: World)
    ensures v == w.(launches := v.launches, owner := v.owner)
  {
    if t !in w.launches then w
    else
      match w.launches[t]
      case Ending(x, _, given) =>
        if given then w.(launches := w.launches - {t}) else Own(To(w, t, Looking), x.id, Nobody)
      case Stopping(id, req, _) => To(w, t, Waiting(id, req))
      case _ => w
  }

  function TrimEnded(w: World, t: Tid, did: bool): (v: World)
    ensures v == w.(trims := v.trims, owner := v.owner, pool := v.pool)
  {
    if t in w.trims then Settle(w.(trims := w.trims - {t}), w.trims[t].inst, did) else w
  }

  /** The actor is done ending: it terminated the instance (`did`) or gave up. */
  function Ended(w: World, who: Actor, did: bool): World {
    match who
    case TheLoop => LoopEnded(w, did)
    case ATrim(t) => TrimEnded(w, t, did)
    case AReap(t) => w.(reaps := w.reaps - {t})
    case ALaunch(t) => LaunchEnded(w, t)
  }

  function CancelDo(w: World, who: Actor, ok: bool, took: bool): World
    requires Ends(w, who).Some? && Ends(w, who).value.stage.Cancel?
  {
    var e := Ends(w, who).value;
    var v := w.(open := if took then w.open - {e.inst.spotReq} else w.open);
    if ok then StageTo(v, who, Terminate)
    else if e.stage.left > 0 then StageTo(v, who, Cancel(e.stage.left - 1))
    else Ended(v, who, false)
  }

  function TerminateDo(w: World, who: Actor, ok: bool): World
    requires Ends(w, who).Some?
  {
    var id := Ends(w, who).value.inst.id;
    var isOpen := id in w.reqOf && w.reqOf[id] in w.open;
    Ended(w.(terminated := w.terminated + {(id, isOpen)}), who, ok)
  }

  function Do(w: World, st: Step): World
    requires Enabled(w, st)
  {
    match st
    case OfLoop(l) => LoopDo(w, l)
    case OfLaunch(t, c) => LaunchDo(w, t, c)
    case SetTarget(n) => w.(pool := w.pool.(target := n))
    case Resize(t) => ResizeDo(w, t)
    case Reap(t, x) => w.(reaps := w.reaps[t := Ender(x, FirstStage(x.spotReq, 1))])
    case CancelOrphan(req) => w.(open := w.open - {req})
    case CancelCall(who, ok, took) => CancelDo(w, who, ok, took)
    case TerminateCall(who, ok) => TerminateDo(w, who, ok)
  }

  /** A resize trims on its own, beside the loop. */
  function ResizeDo(w: World, t: Tid): World {
    var (p, got) := TrimPop(w.pool);
    if got.None? then w
    else
      Own(w, got.value.id, ByTrim(t)).(
        trims := w.trims[t := Ender(got.value, FirstStage(got.value.spotReq, DISCARD_TRIES))], pool := p)
  }

  /** The process starts: some instances exist already, none of them its own yet. */
  function Begin(reqOf: map<Inst, Req>, open: set<Req>, target: int): World {
    World(PoolState([], map[], target, 0, 0), Boot, map[], map[], map[], reqOf, open - {""},
          map id | id in reqOf :: Unseen, {}, {})
  }

  ghost predicate Run(ws: seq<World>, steps: seq<Step>, reqOf: map<Inst, Req>, open: set<Req>, target: int) {
    && |ws| == |steps| + 1 && ws[0] == Begin(reqOf, open, target)
    && forall k :: 0 <= k < |steps| ==> Enabled(ws[k], steps[k]) && ws[k + 1] == Do(ws[k], steps[k])
  }
}
