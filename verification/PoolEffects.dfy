/** What each step of a pool does, in every run: which instance it moves, and where. */
module PoolEffects {
  import opened Wrappers
  import opened Pool
  import opened PoolRuns
  import opened PoolSafety
  import opened PoolOwners
  import opened PoolTheorems

  lemma Stepped(ws: seq<World>, steps: seq<Step>, reqOf: map<Inst, Req>, open: set<Req>, target: int, k: nat)
    requires Run(ws, steps, reqOf, open, target) && k < |steps|
    ensures k + 1 < |ws| && Enabled(ws[k], steps[k]) && ws[k + 1] == Do(ws[k], steps[k]) && Owners(ws[k]) && Owners(ws[k + 1])
  {
    hide Spots, Owners, Enabled, Do, Begin;
    Reachable(ws, steps, reqOf, open, target, k);
    Reachable(ws, steps, reqOf, open, target, k + 1);
  }

  ghost predicate IsReady(w: World, id: Inst) {
    exists k :: 0 <= k < |w.pool.ready| && w.pool.ready[k].id == id
  }

  /** x is out of the list; the others are as they were, in their order. */
  ghost predicate TakenOut(s: seq<Pooled>, t: seq<Pooled>, x: Pooled) {
    exists k :: 0 <= k < |s| && s[k] == x && t == s[..k] + s[k + 1..]
  }

  /** The step was the loop's own affair. */
  ghost predicate LoopOnly(w: World, v: World) {
    v == w.(loop := v.loop, pool := v.pool, owner := v.owner)
  }

  // --- checking the ready list ---

  /** What one description makes of a ready instance. */
  ghost predicate Checked(w: World, v: World) {
    w.loop.Checking? && LoopOnly(w, v) &&
    if w.loop.list == [] then v.pool == w.pool && v.loop == Idle
    else
      var x, rest := w.loop.list[0], w.loop.list[1..];
      if x.state == Stopped || !IsReady(w, x.inst.id) then v == w.(loop := Checking(rest))
      else
        exists y: Pooled :: y.id == x.inst.id && TakenOut(w.pool.ready, v.pool.ready, y)
          && v.pool == w.pool.(ready := v.pool.ready)
          && v.loop == (if x.state == Other then Rewarming(y, rest) else if y.spotReq != "" then Dropping(y, rest) else Checking(rest))
  }

  /**
   Checking the ready list goes through the descriptions in order: one that says stopped, or is of an
   instance that is not ready any more, moves nothing. Otherwise that instance alone leaves the list:
   to be followed as warming if it is not gone, and if it is, to have its request cancelled when it has one.
   */
  lemma CheckMoves(ws: seq<World>, steps: seq<Step>, reqOf: map<Inst, Req>, open: set<Req>, target: int, k: nat)
    requires Run(ws, steps, reqOf, open, target) && k < |steps| && steps[k] == OfLoop(NextReady)
    ensures Checked(ws[k], ws[k + 1])
  {
    Stepped(ws, steps, reqOf, open, target, k);
    hide *;
    CheckOne(ws[k]);
  }

  lemma CheckOne(w: World)
    requires Enabled(w, OfLoop(NextReady))
    ensures Checked(w, Do(w, OfLoop(NextReady)))
  {
    if w.loop.list != [] {
      TakeMeans(w, w.loop.list[0].inst.id);
      hide IsReady, TakenOut, TakeReady;
    }
  }

  lemma TakeMeans(w: World, id: Inst)
    ensures var (p, got) := TakeReady(w.pool, id);
            && p == w.pool.(ready := p.ready) && (got.Some? <==> IsReady(w, id)) && (got.None? ==> p == w.pool)
            && (got.Some? ==> got.value.id == id && TakenOut(w.pool.ready, p.ready, got.value))
  {
    var k := IndexOf(w.pool.ready, id);
    if k < |w.pool.ready| {
      assert w.pool.ready[k].id == id;
      assert TakenOut(w.pool.ready, TakeReady(w.pool, id).0.ready, w.pool.ready[k]);
    }
  }

  /** What checking does with the instance it took out. */
  ghost predicate FollowedUp(w: World, v: World, l: LoopStep) {
    match l
    case Check(list) => w.loop == Idle && v == w.(loop := Checking(list))
    case Rewarm(now) =>
      && w.loop.Rewarming? && LoopOnly(w, v) && v.loop == Checking(w.loop.list)
      && v.pool == w.pool.(warming := w.pool.warming[w.loop.inst.id := now])
    case Drop(ok, took) =>
      && w.loop.Dropping? && v == w.(loop := Checking(w.loop.list), owner := v.owner, open := v.open)
      && v.open == (if took then w.open - {w.loop.inst.spotReq} else w.open)
      && w.loop.inst.id in v.owner && v.owner[w.loop.inst.id] == Nobody
    case _ => true
  }

  /**
   One that runs again is warming from then on; one gone has had its request cancelled, if the call took
   effect, and is nobody's.
   */
  lemma CheckFollows(ws: seq<World>, steps: seq<Step>, reqOf: map<Inst, Req>, open: set<Req>, target: int, k: nat)
    requires Run(ws, steps, reqOf, open, target) && k < |steps| && steps[k].OfLoop?
    ensures FollowedUp(ws[k], ws[k + 1], steps[k].l)
  {
    Stepped(ws, steps, reqOf, open, target, k);
    hide *;
    FollowOne(ws[k], steps[k].l);
  }

  lemma FollowOne(w: World, l: LoopStep)
    requires Enabled(w, OfLoop(l))
    ensures FollowedUp(w, Do(w, OfLoop(l)), l)
  {
  }

  /** The loop is in the middle of checking the ready list. */
  predicate InCheck(pc: RunPc) {
    pc.Checking? || pc.Rewarming? || pc.Dropping?
  }

  /** The first description of an instance that does not say it is stopped. */
  function Finding(list: seq<Seen>, id: Inst): Option<State> {
    if list == [] then None
    else if list[0].inst.id == id && list[0].state != Stopped then Some(list[0].state)
    else Finding(list[1..], id)
  }

  lemma TakenReady(w: World, v: World, x: Pooled)
    requires Owners(w) && TakenOut(w.pool.ready, v.pool.ready, x)
    ensures IsReady(w, x.id) && !IsReady(v, x.id)
    ensures forall id :: id != x.id ==> (IsReady(v, id) <==> IsReady(w, id))
  {
    var s, t := w.pool.ready, v.pool.ready;
    var k :| 0 <= k < |s| && s[k] == x && t == s[..k] + s[k + 1..];
    assert ReadyOwned(w);
    hide Owners;
    forall id | id != x.id ensures IsReady(v, id) <==> IsReady(w, id) {
      LeftReady(w, v, k, id);
    }
  }

  lemma LeftReady(w: World, v: World, k: nat, id: Inst)
    requires k < |w.pool.ready| && w.pool.ready[k].id != id && v.pool.ready == w.pool.ready[..k] + w.pool.ready[k + 1..]
    ensures IsReady(v, id) <==> IsReady(w, id)
  {
    var s, t := w.pool.ready, v.pool.ready;
    if IsReady(w, id) {
      var i :| 0 <= i < |s| && s[i].id == id;
      assert t[if i < k then i else i - 1].id == id;
    }
    if IsReady(v, id) {
      var i :| 0 <= i < |t| && t[i].id == id;
      assert s[if i < k then i else i + 1].id == id;
    }
  }

  /** What is still to come of a check: whether it leaves an instance ready, and whether it leaves it warming. */
  ghost predicate StaysReady(w: World, id: Inst)
    requires InCheck(w.loop)
  {
    IsReady(w, id) && Finding(w.loop.list, id) == None
  }

  ghost predicate EndsWarming(w: World, id: Inst)
    requires InCheck(w.loop)
  {
    || id in w.pool.warming || (w.loop.Rewarming? && w.loop.inst.id == id)
    || (IsReady(w, id) && Finding(w.loop.list, id) == Some(Other))
  }

  lemma TakingKeeps(w: World, v: World, y: Pooled, id: Inst)
    requires Owners(w) && w.loop.Checking? && w.loop.list != [] && LoopOnly(w, v)
    requires var x := w.loop.list[0];
             && y.id == x.inst.id && x.state != Stopped && TakenOut(w.pool.ready, v.pool.ready, y)
             && v.pool == w.pool.(ready := v.pool.ready)
             && v.loop == (if x.state == Other then Rewarming(y, w.loop.list[1..])
                           else if y.spotReq != "" then Dropping(y, w.loop.list[1..]) else Checking(w.loop.list[1..]))
    ensures (StaysReady(v, id) <==> StaysReady(w, id)) && (EndsWarming(v, id) <==> EndsWarming(w, id))
  {
    TakenReady(w, v, y);
    hide Owners, TakenOut, IsReady;
  }

  /** What one step of the check by itself leaves: to a later step, or at the end. */
  ghost predicate SameOutcome(w: World, v: World, id: Inst)
    requires InCheck(w.loop)
  {
    if InCheck(v.loop) then (StaysReady(v, id) <==> StaysReady(w, id)) && (EndsWarming(v, id) <==> EndsWarming(w, id))
    else v.loop == Idle && (IsReady(v, id) <==> StaysReady(w, id)) && (id in v.pool.warming <==> EndsWarming(w, id))
  }

  lemma CheckedKeeps(w: World, v: World, id: Inst)
    requires Owners(w) && Checked(w, v)
    ensures SameOutcome(w, v, id)
  {
    hide Owners, TakenOut;
    if w.loop.list != [] && w.loop.list[0].state != Stopped && IsReady(w, w.loop.list[0].inst.id) {
      var x := w.loop.list[0];
      var y: Pooled :| y.id == x.inst.id && TakenOut(w.pool.ready, v.pool.ready, y)
        && v.pool == w.pool.(ready := v.pool.ready)
        && v.loop == (if x.state == Other then Rewarming(y, w.loop.list[1..])
                      else if y.spotReq != "" then Dropping(y, w.loop.list[1..]) else Checking(w.loop.list[1..]));
      TakingKeeps(w, v, y, id);
      hide IsReady, Finding, StaysReady, EndsWarming;
    }
  }

  lemma CheckKeeps(w: World, l: LoopStep, id: Inst)
    requires Owners(w) && InCheck(w.loop) && Enabled(w, OfLoop(l))
    ensures SameOutcome(w, Do(w, OfLoop(l)), id)
  {
    if w.loop.Checking? {
      assert l == NextReady;
      CheckOne(w);
      CheckedKeeps(w, Do(w, OfLoop(l)), id);
      hide *;
    } else {
      FollowOne(w, l);
      hide Owners, Do;
    }
  }

  /**
   A whole check with nothing in between: an instance is ready afterwards exactly if it was ready and
   no description said it was not stopped; and it is warming exactly if it already was, or it was
   ready and the first description to say it was not stopped did not say it was gone.
   */
  lemma {:induction false} CheckSorts(
    ws: seq<World>, steps: seq<Step>, reqOf: map<Inst, Req>, open: set<Req>, target: int, j: nat, k: nat, id: Inst)
    requires Run(ws, steps, reqOf, open, target) && j <= k < |steps|
    requires InCheck(ws[j].loop) && (forall i :: j <= i <= k ==> steps[i].OfLoop? && InCheck(ws[i].loop)) && ws[k + 1].loop == Idle
    ensures IsReady(ws[k + 1], id) <==> StaysReady(ws[j], id)
    ensures id in ws[k + 1].pool.warming <==> EndsWarming(ws[j], id)
    decreases k - j
  {
    Stepped(ws, steps, reqOf, open, target, j);
    CheckKeeps(ws[j], steps[j].l, id);
    if j < k {
      CheckSorts(ws, steps, reqOf, open, target, j + 1, k, id);
    }
    hide *;
    hide InCheck;
  }

  /**
   Whatever others do meanwhile, the check itself takes out no instance that no description left says is not
   stopped.
   */
  lemma StoppedStays(
    ws: seq<World>, steps: seq<Step>, reqOf: map<Inst, Req>, open: set<Req>, target: int, k: nat, id: Inst)
    requires Run(ws, steps, reqOf, open, target) && k < |steps| && InCheck(ws[k].loop) && steps[k].OfLoop?
    requires IsReady(ws[k], id) && Finding(ws[k].loop.list, id) == None
    ensures IsReady(ws[k + 1], id) && (InCheck(ws[k + 1].loop) ==> Finding(ws[k + 1].loop.list, id) == None)
  {
    Stepped(ws, steps, reqOf, open, target, k);
    CheckKeeps(ws[k], steps[k].l, id);
    hide *;
    hide Finding, IsReady;
  }

  // --- warming instances ---

  /** Warming for longer than ten minutes, since a known moment. */
  predicate TooLong(w: World, id: Inst, now: int) {
    id in w.pool.warming && w.pool.warming[id] != 0 && now - w.pool.warming[id] > 600
  }

  /** The calls that end an instance: with a request, up to three cancels first. */
  predicate Begun(stage: Stage, req: Req) {
    stage == if req == "" then Terminate else Cancel(2)
  }

  /** What one description makes of a warming instance. */
  ghost predicate Refreshed(w: World, v: World, now: int) {
    w.loop.Refreshing? && LoopOnly(w, v) &&
    if w.loop.list == [] then v.pool == w.pool && v.loop == Idle
    else
      var x, rest := w.loop.list[0], w.loop.list[1..];
      var id := x.inst.id;
      match x.state
      case Stopped => v == w.(loop := Marking(x.inst, rest, false))
      case Gone => v.pool == w.pool.(warming := w.pool.warming - {id}) && v.loop == Refreshing(rest)
      case Other =>
        if TooLong(w, id, now)
        then
          && v.pool == w.pool && v.loop.Discarding? && v.loop == Discarding(x.inst, v.loop.stage, rest)
          && Begun(v.loop.stage, x.inst.spotReq)
        else v == w.(loop := Refreshing(rest))
  }

  /**
   Refreshing goes through the descriptions of warming instances: a stopped one is tagged, one that is
   gone is followed no longer, one that has warmed too long is discarded, and any other goes on warming.
   */
  lemma RefreshMoves(ws: seq<World>, steps: seq<Step>, reqOf: map<Inst, Req>, open: set<Req>, target: int, k: nat)
    requires Run(ws, steps, reqOf, open, target) && k < |steps| && steps[k].OfLoop? && steps[k].l.NextWarming?
    ensures Refreshed(ws[k], ws[k + 1], steps[k].l.now)
  {
    Stepped(ws, steps, reqOf, open, target, k);
    hide *;
    RefreshOne(ws[k], steps[k].l);
  }

  lemma RefreshOne(w: World, l: LoopStep)
    requires l.NextWarming? && Enabled(w, OfLoop(l))
    ensures Refreshed(w, Do(w, OfLoop(l)), l.now)
  {
  }

  /** The loop starts to discard an instance. */
  predicate StartsDiscard(w: World, v: World, x: Pooled) {
    !w.loop.Discarding? && v.loop.Discarding? && v.loop.inst == x
  }

  /** Refreshing has come to a description of x that says neither stopped nor gone, and x has warmed too long. */
  predicate Overdue(w: World, st: Step, x: Pooled) {
    && w.loop.Refreshing? && w.loop.list != [] && w.loop.list[0].inst == x && w.loop.list[0].state == Other
    && st.OfLoop? && st.l.NextWarming? && TooLong(w, x.id, st.l.now)
  }

  /**
   In every run the pool discards an instance exactly when it is neither stopped nor gone and has warmed for
   more than 600 seconds.
   */
  lemma DiscardsExactly(
    ws: seq<World>, steps: seq<Step>, reqOf: map<Inst, Req>, open: set<Req>, target: int, k: nat, x: Pooled)
    requires Run(ws, steps, reqOf, open, target) && k < |steps|
    ensures StartsDiscard(ws[k], ws[k + 1], x) <==> Overdue(ws[k], steps[k], x)
  {
    Stepped(ws, steps, reqOf, open, target, k);
    hide *;
    DiscardOne(ws[k], steps[k], x);
  }

  lemma DiscardOne(w: World, st: Step, x: Pooled)
    requires Enabled(w, st)
    ensures StartsDiscard(w, Do(w, st), x) <==> Overdue(w, st, x)
  {
    match st
    case OfLoop(l) =>
      LoopDiscards(w, l, x);
      hide *;
      hide Do, Enabled;
    case OfLaunch(t, c) => LaunchKeepsLoop(w, t, c); hide Do, Enabled;
    case CancelCall(who, ok, took) => EndKeepsLoop(w, st); hide Do, Enabled;
    case TerminateCall(who, ok) => EndKeepsLoop(w, st); hide Do, Enabled;
    case _ => hide LoopDo, LaunchDo, CancelDo, TerminateDo;
  }

  lemma LoopDiscards(w: World, l: LoopStep, x: Pooled)
    requires Enabled(w, OfLoop(l))
    ensures StartsDiscard(w, Do(w, OfLoop(l)), x) <==> Overdue(w, OfLoop(l), x)
  {
    if l.NextWarming? {
      RefreshOne(w, l);
      hide Do, Enabled;
    } else if l.NextReady? {
      CheckOne(w);
      hide Do, Enabled;
    } else if Scans(l) {
      hide NextReadyDo, NextWarmingDo, LoopActs;
    } else {
      hide LoopScans;
    }
  }

  lemma LaunchKeepsLoop(w: World, t: Tid, c: LaunchStep)
    requires Enabled(w, OfLaunch(t, c))
    ensures Do(w, OfLaunch(t, c)).loop == w.loop
  {
  }

  lemma EndedLoops(w: World, who: Actor, did: bool)
    ensures Ended(w, who, did).loop.Discarding? ==> w.loop.Discarding?
  {
  }

  lemma StagedLoops(w: World, who: Actor, stage: Stage)
    ensures StageTo(w, who, stage).loop.Discarding? ==> w.loop.Discarding?
  {
  }

  lemma EndKeepsLoop(w: World, st: Step)
    requires Enabled(w, st) && (st.CancelCall? || st.TerminateCall?)
    ensures Do(w, st).loop.Discarding? ==> w.loop.Discarding?
  {
    forall u: World, did | u.loop == w.loop ensures Ended(u, st.who, did).loop.Discarding? ==> w.loop.Discarding? {
      EndedLoops(u, st.who, did);
    }
    forall u: World, stage | u.loop == w.loop ensures StageTo(u, st.who, stage).loop.Discarding? ==> w.loop.Discarding? {
      StagedLoops(u, st.who, stage);
    }
    hide Ended, StageTo, LoopDo, LaunchDo;
  }

  /**
   A stopped instance that is tagged goes from warming to the end of the ready list; one that could not be
   tagged stays where it was.
   */
  lemma MarkMoves(ws: seq<World>, steps: seq<Step>, reqOf: map<Inst, Req>, open: set<Req>, target: int, k: nat)
    requires Run(ws, steps, reqOf, open, target) && k < |steps| && steps[k].OfLoop? && steps[k].l.Mark?
    ensures var w, v := ws[k], ws[k + 1];
            && w.loop.Marking? && LoopOnly(w, v)
            && v.loop == (if w.loop.first then Discovering(w.loop.list) else Refreshing(w.loop.list))
            && v.pool == (if steps[k].l.ok
                          then w.pool.(warming := w.pool.warming - {w.loop.inst.id}, ready := w.pool.ready + [w.loop.inst])
                          else w.pool)
  {
    Stepped(ws, steps, reqOf, open, target, k);
    hide Owners;
  }

  /** Rediscovery: a stopped instance is tagged ready, and any other is followed as warming. */
  lemma DiscoverMoves(ws: seq<World>, steps: seq<Step>, reqOf: map<Inst, Req>, open: set<Req>, target: int, k: nat)
    requires Run(ws, steps, reqOf, open, target) && k < |steps| && steps[k].OfLoop? && steps[k].l.NextFound?
    ensures var w, v := ws[k], ws[k + 1];
            && w.loop.Discovering? && LoopOnly(w, v)
            && (if w.loop.list == [] then v.pool == w.pool && v.loop == Idle
                else
                  var x, rest := w.loop.list[0], w.loop.list[1..];
                  if x.state == Stopped then v == w.(loop := Marking(x.inst, rest, true))
                  else v.pool == w.pool.(warming := w.pool.warming[x.inst.id := steps[k].l.now]) && v.loop == Discovering(rest))
  {
    Stepped(ws, steps, reqOf, open, target, k);
    hide Owners;
  }

  // --- too many, or too few ---

  /** The last ready instance is taken, to be ended, exactly if more are ready than the target. */
  ghost predicate LastTaken(w: World, v: World, e: Option<Ender>) {
    var n := |w.pool.ready|;
    if n > 0 && n > w.pool.target then
      && v == w.(loop := v.loop, trims := v.trims, owner := v.owner, pool := v.pool)
      && v.pool == w.pool.(ready := w.pool.ready[..n - 1])
      && e.Some? && e.value.inst == w.pool.ready[n - 1] && Begun(e.value.stage, e.value.inst.spotReq)
    else v == w
  }

  /** A trim, by the loop or by a resize, takes the ready list's last instance while there are too many. */
  lemma TrimMoves(ws: seq<World>, steps: seq<Step>, reqOf: map<Inst, Req>, open: set<Req>, target: int, k: nat)
    requires Run(ws, steps, reqOf, open, target) && k < |steps|
    ensures steps[k] == OfLoop(Trim) ==>
              LastTaken(ws[k], ws[k + 1], if ws[k + 1].loop.Trimming? then Some(Ender(ws[k + 1].loop.inst, ws[k + 1].loop.stage)) else None)
    ensures steps[k].Resize? ==>
              LastTaken(ws[k], ws[k + 1], if steps[k].t in ws[k + 1].trims then Some(ws[k + 1].trims[steps[k].t]) else None)
    ensures steps[k].SetTarget? ==> ws[k + 1] == ws[k].(pool := ws[k].pool.(target := steps[k].n))
  {
    Stepped(ws, steps, reqOf, open, target, k);
    hide *;
    TrimOne(ws[k], steps[k]);
  }

  lemma TrimOne(w: World, st: Step)
    requires Enabled(w, st)
    ensures var v := Do(w, st);
            st == OfLoop(Trim) ==> LastTaken(w, v, if v.loop.Trimming? then Some(Ender(v.loop.inst, v.loop.stage)) else None)
    ensures var v := Do(w, st);
            st.Resize? ==> LastTaken(w, v, if st.t in v.trims then Some(v.trims[st.t]) else None)
    ensures st.SetTarget? ==> Do(w, st) == w.(pool := w.pool.(target := st.n))
  {
    hide LoopScans, LaunchDo, CancelDo, TerminateDo;
  }

  /** Seconds to wait after the n-th failure in a row. */
  function Pause(n: nat): nat {
    var first := [1, 2, 4, 8, 16, 32, 64, 128, 256];
    if n < |first| then first[n] else 300
  }

  /**
   Filling adds one warming instance per launch; after the n-th failure in a row it waits, 2, 4, 8, ... 256,
   then 300 seconds.
   */
  ghost predicate Filling(w: World, v: World, l: LoopStep) {
    match l
    case Launched(id, req, now) =>
      && v.pool == w.pool.(warming := w.pool.warming[id := now], failures := 0)
      && v.open == (if req == "" then w.open else w.open + {req})
    case LaunchFailed(now) => v.pool == w.pool.(failures := w.pool.failures + 1, retryAt := now + Pause(w.pool.failures + 1))
    case LaunchLost(id, req, now) => v.pool == w.pool.(failures := w.pool.failures + 1, retryAt := now + Pause(w.pool.failures + 1))
    case _ => true
  }

  lemma FillMoves(ws: seq<World>, steps: seq<Step>, reqOf: map<Inst, Req>, open: set<Req>, target: int, k: nat)
    requires Run(ws, steps, reqOf, open, target) && k < |steps| && steps[k].OfLoop?
    ensures Filling(ws[k], ws[k + 1], steps[k].l)
  {
    Stepped(ws, steps, reqOf, open, target, k);
    hide *;
    FillOne(ws[k], steps[k].l);
  }

  lemma FillOne(w: World, l: LoopStep)
    requires Enabled(w, OfLoop(l))
    ensures Filling(w, Do(w, OfLoop(l)), l)
  {
    if l.LaunchFailed? || l.LaunchLost? {
      PauseIs(w.pool.failures + 1);
    }
    hide LoopScans, Power, Pause;
  }

  lemma PauseIs(n: nat)
    ensures n > 0 ==> Pause(n) == Min(Power(Min(n, 10)), 300)
  {
    assert Power(1) == 2 && Power(2) == 4 && Power(3) == 8 && Power(4) == 16 && Power(5) == 32;
    assert Power(6) == 64 && Power(7) == 128 && Power(8) == 256 && Power(9) == 512 && Power(10) == 1024;
  }

  // --- ending an instance ---

  /** Where an actor leaves the instance it was ending, whether or not it ended it. */
  ghost predicate Left(w: World, v: World, who: Actor, did: bool) {
    match who
    case TheLoop =>
      (match w.loop
       case Trimming(x, _) => v.loop == Idle && v.pool == if did then w.pool else w.pool.(ready := w.pool.ready + [x])
       case Discarding(x, _, list) =>
         v.loop == Refreshing(list) && v.pool == if did then w.pool.(warming := w.pool.warming - {x.id}) else w.pool
       case _ => false)
    case ATrim(t) =>
      && t in w.trims && t !in v.trims
      && v.pool == if did then w.pool else w.pool.(ready := w.pool.ready + [w.trims[t].inst])
    case AReap(t) => t !in v.reaps && v.pool == w.pool
    case ALaunch(t) =>
      && t in w.launches && v.pool == w.pool
      && (match w.launches[t]
          case Ending(x, _, given) => if given then t !in v.launches else t in v.launches && v.launches[t] == Looking
          case Stopping(id, req, _) => t in v.launches && v.launches[t] == Waiting(id, req)
          case _ => false)
  }

  /** What a call to cancel or to terminate leads to. */
  ghost predicate EndingGoesOn(w: World, v: World, st: Step) {
    match st
    case CancelCall(who, ok, took) =>
      Ends(w, who).Some? && Ends(w, who).value.stage.Cancel? &&
      (var e := Ends(w, who).value;
       && v.open == (if took then w.open - {e.inst.spotReq} else w.open) && v.terminated == w.terminated
       && (if ok then
             && v.pool == w.pool && Ends(v, who).Some?
             && Ends(v, who).value.inst.id == e.inst.id && Ends(v, who).value.stage == Terminate
           else if e.stage.left > 0 then v.pool == w.pool && Ends(v, who) == Some(Ender(e.inst, Cancel(e.stage.left - 1)))
           else Left(w, v, who, false)))
    case TerminateCall(who, ok) =>
      Ends(w, who).Some? && Ends(w, who).value.stage.Terminate? && v.open == w.open && Left(w, v, who, ok)
    case _ => true
  }

  /**
   An instance is ended by a successful cancel of its request and then a terminate. A failed cancel is
   tried again while tries are left; after the last, or a failed terminate, the instance is left to its
   place: at the end of the ready list, still warming, or with nobody.
   */
  lemma EndingMoves(ws: seq<World>, steps: seq<Step>, reqOf: map<Inst, Req>, open: set<Req>, target: int, k: nat)
    requires Run(ws, steps, reqOf, open, target) && k < |steps|
    ensures EndingGoesOn(ws[k], ws[k + 1], steps[k])
  {
    Stepped(ws, steps, reqOf, open, target, k);
    hide *;
    EndingOne(ws[k], steps[k]);
  }

  lemma EndedLeft(u: World, w: World, who: Actor, did: bool)
    requires Ends(w, who).Some? && u == w.(open := u.open, terminated := u.terminated)
    ensures var v := Ended(u, who, did); Left(w, v, who, did) && v.open == u.open && v.terminated == u.terminated
  {
  }

  lemma LaunchStaged(u: World, w: World, t: Tid, stage: Stage)
    requires Ends(w, ALaunch(t)).Some? && u == w.(open := u.open)
    ensures var v := StageTo(u, ALaunch(t), stage);
            && v == u.(launches := v.launches)
            && Ends(v, ALaunch(t)).Some? && Ends(v, ALaunch(t)).value.stage == stage
            && Ends(v, ALaunch(t)).value.inst.id == Ends(w, ALaunch(t)).value.inst.id
            && (stage.Cancel? ==> Ends(v, ALaunch(t)).value.inst == Ends(w, ALaunch(t)).value.inst)
  {
    match w.launches[t]
    case Ending(x, s, given) =>
    case Stopping(id, req, s) =>
  }

  lemma LoopStaged(u: World, w: World, stage: Stage)
    requires Ends(w, TheLoop).Some? && u == w.(open := u.open)
    ensures var v := StageTo(u, TheLoop, stage);
            v == u.(loop := v.loop) && Ends(v, TheLoop) == Some(Ender(Ends(w, TheLoop).value.inst, stage))
  {
    match w.loop
    case Discarding(x, s, list) =>
    case Trimming(x, s) =>
  }

  lemma StagedEnds(u: World, w: World, who: Actor, stage: Stage)
    requires Ends(w, who).Some? && u == w.(open := u.open)
    ensures var v := StageTo(u, who, stage);
            && v.open == u.open && v.terminated == w.terminated && v.pool == w.pool
            && Ends(v, who).Some? && Ends(v, who).value.stage == stage && Ends(v, who).value.inst.id == Ends(w, who).value.inst.id
            && (stage.Cancel? ==> Ends(v, who).value.inst == Ends(w, who).value.inst)
  {
    match who
    case TheLoop =>
      LoopStaged(u, w, stage);
      hide Ends, StageTo;
    case ALaunch(t) =>
      LaunchStaged(u, w, t, stage);
      hide Ends, StageTo;
    case ATrim(t) =>
    case AReap(t) =>
  }

  lemma EndingOne(w: World, st: Step)
    requires Enabled(w, st)
    ensures EndingGoesOn(w, Do(w, st), st)
  {
    hide LoopDo, LaunchDo;
    match st
    case CancelCall(who, ok, took) =>
      var u := w.(open := if took then w.open - {Ends(w, who).value.inst.spotReq} else w.open);
      var left := Ends(w, who).value.stage.left;
      if ok {
        StagedEnds(u, w, who, Terminate);
      } else if left > 0 {
        StagedEnds(u, w, who, Cancel(left - 1));
      } else {
        EndedLeft(u, w, who, false);
      }
      hide StageTo, Ended, Left, Ends;
    case TerminateCall(who, ok) =>
      var id := Ends(w, who).value.inst.id;
      EndedLeft(w.(terminated := w.terminated + {(id, id in w.reqOf && w.reqOf[id] in w.open)}), w, who, ok);
      hide Ended, Left, Ends;
    case _ =>
  }

  /** The reaper and the waiters try one cancel before they terminate. */
  lemma ReaperMoves(ws: seq<World>, steps: seq<Step>, reqOf: map<Inst, Req>, open: set<Req>, target: int, k: nat)
    requires Run(ws, steps, reqOf, open, target) && k < |steps|
    ensures steps[k].Reap? ==>
              && steps[k].t in ws[k + 1].reaps && ws[k + 1] == ws[k].(reaps := ws[k + 1].reaps)
              && ws[k + 1].reaps[steps[k].t] == Ender(steps[k].inst, if steps[k].inst.spotReq == "" then Terminate else Cancel(0))
    ensures steps[k].CancelOrphan? ==> ws[k + 1] == ws[k].(open := ws[k].open - {steps[k].req})
  {
    Stepped(ws, steps, reqOf, open, target, k);
    hide Owners, LoopDo, LaunchDo, CancelDo, TerminateDo, ResizeDo;
  }

  // --- a launch claims ---

  ghost predicate OthersLaunch(w: World, v: World, t: Tid) {
    && (forall u :: u != t ==> (u in v.launches <==> u in w.launches) && (u in w.launches ==> v.launches[u] == w.launches[u]))
    && v == w.(launches := v.launches, pool := v.pool, owner := v.owner, claimed := v.claimed, open := v.open)
  }

  ghost predicate At(v: World, t: Tid, pc: LaunchPc) {
    t in v.launches && v.launches[t] == pc
  }

  /** Ending with the instance's own first call. */
  ghost predicate AtEnding(v: World, t: Tid, x: Pooled, given: bool) {
    && t in v.launches && v.launches[t].Ending? && v.launches[t] == Ending(x, v.launches[t].stage, given)
    && Begun(v.launches[t].stage, x.spotReq)
  }

  /** What a claim's steps do with the instance it took. */
  ghost predicate ClaimGoesOn(w: World, v: World, t: Tid, c: LaunchStep)
    requires c.Claim? || t in w.launches
  {
    if c.Claim? then
      w.pool.ready != [] && v.pool == w.pool.(ready := w.pool.ready[1..]) && At(v, t, Preparing(w.pool.ready[0]))
    else
      match (w.launches[t], c)
      case (Preparing(x), Prepared) => v.pool == w.pool && At(v, t, Given(x)) && v.claimed == w.claimed + {(t, x.id)}
      case (Preparing(x), Fails(why)) =>
        && v.pool == w.pool
        && (match why
            case NotStopped => At(v, t, Following(x))
            case InstanceGone => AtEnding(v, t, x, false)
            case Otherwise(tagged) => At(v, t, Requeueing(x, tagged)))
      case (Following(x), Follow(now)) => v.pool == w.pool.(warming := w.pool.warming[x.id := now]) && At(v, t, Looking)
      case (Requeueing(x, tagged), Requeue(ok)) =>
        && t !in v.launches
        && v.pool == (if tagged && !ok then w.pool else w.pool.(ready := [x] + w.pool.ready))
      case (Given(x), Start(ok)) => v.pool == w.pool && (if ok then At(v, t, Started(x)) else AtEnding(v, t, x, true))
      case (Started(x), Unlink(ok, took)) =>
        && v.pool == w.pool && At(v, t, Waiting(x.id, if ok then "" else x.spotReq))
        && v.open == (if took && x.spotReq != "" then w.open - {x.spotReq} else w.open)
      case (Waiting(id, req), Stop) => v.pool == w.pool && At(v, t, Stopping(id, req, if req == "" then Terminate else Cancel(0)))
      case _ => true
  }

  /**
   A claim takes the ready list's first instance. One that is not stopped goes back to warming and one
   that is gone is ended, and the claim tries the next; on any other error the instance goes back to
   the front, unless it was tagged claimed and could not be tagged ready.
   */
  lemma ClaimMoves(ws: seq<World>, steps: seq<Step>, reqOf: map<Inst, Req>, open: set<Req>, target: int, k: nat)
    requires Run(ws, steps, reqOf, open, target) && k < |steps| && steps[k].OfLaunch? && !steps[k].c.Cold? && !steps[k].c.ColdLost?
    ensures (steps[k].c.Claim? || steps[k].t in ws[k].launches) && ClaimGoesOn(ws[k], ws[k + 1], steps[k].t, steps[k].c)
    ensures OthersLaunch(ws[k], ws[k + 1], steps[k].t)
  {
    Stepped(ws, steps, reqOf, open, target, k);
    hide *;
    ClaimOne(ws[k], steps[k].t, steps[k].c);
  }

  lemma ClaimOne(w: World, t: Tid, c: LaunchStep)
    requires Enabled(w, OfLaunch(t, c)) && !c.Cold? && !c.ColdLost?
    ensures (c.Claim? || t in w.launches) && ClaimGoesOn(w, Do(w, OfLaunch(t, c)), t, c) && OthersLaunch(w, Do(w, OfLaunch(t, c)), t)
  {
  }

  /**
   A claim that fails for a reason other instances share gives back what it took: with nothing in between,
   the pool is as it was.
   */
  lemma ClaimUndone(
    ws: seq<World>, steps: seq<Step>, reqOf: map<Inst, Req>, open: set<Req>, target: int, k: nat, t: Tid, tagged: bool, ok: bool)
    requires Run(ws, steps, reqOf, open, target) && k + 2 < |steps| && (tagged ==> ok)
    requires steps[k] == OfLaunch(t, Claim) && steps[k + 1] == OfLaunch(t, Fails(Otherwise(tagged)))
    requires steps[k + 2] == OfLaunch(t, Requeue(ok))
    ensures ws[k + 3].pool == ws[k].pool && t !in ws[k + 3].launches
  {
    ClaimMoves(ws, steps, reqOf, open, target, k);
    ClaimMoves(ws, steps, reqOf, open, target, k + 1);
    ClaimMoves(ws, steps, reqOf, open, target, k + 2);
    hide Run, OthersLaunch;
    var ready := ws[k].pool.ready;
    assert ready == [ready[0]] + ready[1..];
  }

  /** So does a trim that cannot end its instance: three failed cancels leave the pool as it was. */
  lemma TrimUndone(ws: seq<World>, steps: seq<Step>, reqOf: map<Inst, Req>, open: set<Req>, target: int, k: nat)
    requires Run(ws, steps, reqOf, open, target) && k + 3 < |steps|
    requires var ready := ws[k].pool.ready; |ready| > 0 && |ready| > ws[k].pool.target && ready[|ready| - 1].spotReq != ""
    requires steps[k] == OfLoop(Trim) 
    requires forall i :: k < i <= k + 3 ==> steps[i].CancelCall? && steps[i].who == TheLoop && !steps[i].ok
    ensures ws[k + 4].pool == ws[k].pool && ws[k + 4].loop == Idle && ws[k + 4].terminated == ws[k].terminated
  {
    TrimMoves(ws, steps, reqOf, open, target, k);
    EndingMoves(ws, steps, reqOf, open, target, k + 1);
    EndingMoves(ws, steps, reqOf, open, target, k + 2);
    EndingMoves(ws, steps, reqOf, open, target, k + 3);
    hide Run;
  }
}
