/** What holds of every run of the pool with its launches, waiters and the reaper. */
module PoolTheorems {
  import opened Wrappers
  import opened Pool
  import opened PoolRuns
  import opened PoolSafety
  import opened PoolOwners

  lemma BeginOk(reqOf: map<Inst, Req>, open: set<Req>, target: int)
    ensures Spots(Begin(reqOf, open, target)) && Owners(Begin(reqOf, open, target))
  {
  }

  lemma {:induction false} Reachable(
    ws: seq<World>, steps: seq<Step>, reqOf: map<Inst, Req>, open: set<Req>, target: int, k: nat)
    requires Run(ws, steps, reqOf, open, target) && k < |ws|
    ensures Spots(ws[k]) && Owners(ws[k])
  {
    hide Spots, Owners, Enabled, Do, Begin, Later;
    if k == 0 {
      BeginOk(reqOf, open, target);
    } else {
      Reachable(ws, steps, reqOf, open, target, k - 1);
      assert Enabled(ws[k - 1], steps[k - 1]) && ws[k] == Do(ws[k - 1], steps[k - 1]);
      SpotsStep(ws[k - 1], steps[k - 1]);
      OwnersStep(ws[k - 1], steps[k - 1]);
    }
  }

  /**
   No TerminateInstances call, by the pool's loop, a resize, a launch, a waiter or the reaper, names
   an instance whose persistent spot request is still open, whichever calls fail and whatever the
   failed ones did.
   */
  lemma NeverTerminatesOpen(
    ws: seq<World>, steps: seq<Step>, reqOf: map<Inst, Req>, open: set<Req>, target: int, k: nat, id: Inst)
    requires Run(ws, steps, reqOf, open, target) && k < |ws|
    ensures (id, true) !in ws[k].terminated
  {
    Reachable(ws, steps, reqOf, open, target, k);
  }

  /** The instance a launch is claiming or has claimed, until it waits for it to end. */
  function Held(pc: LaunchPc): Option<Inst> {
    match pc
    case Preparing(x) => Some(x.id)
    case Following(x) => Some(x.id)
    case Requeueing(x, _) => Some(x.id)
    case Ending(x, _, _) => Some(x.id)
    case Given(x) => Some(x.id)
    case Started(x) => Some(x.id)
    case _ => None
  }

  lemma HeldOwned(w: World, t: Tid)
    requires Owners(w) && t in w.launches && Held(w.launches[t]).Some?
    ensures var id := Held(w.launches[t]).value;
            id in w.owner && (w.owner[id] == ByClaim(t) || w.owner[id] == ForJob(t))
  {
    assert LaunchOwned(w, t, w.launches[t]);
  }

  /** The instance the pool's own loop has taken out: to trim, to drop or to warm again. */
  function Looped(pc: RunPc): Option<Inst> {
    match pc
    case Dropping(x, _) => Some(x.id)
    case Rewarming(x, _) => Some(x.id)
    case Trimming(x, _) => Some(x.id)
    case _ => None
  }

  lemma LoopedOwned(w: World)
    requires Owners(w) && Looped(w.loop).Some?
    ensures Has(w, Looped(w.loop).value, ByLoop)
  {
  }

  /**
   Every instance is in at most one place: once in the ready list, or warming, or with one launch, or
   with one trim of a resize, or with the pool's own loop.
   */
  lemma OnePlaceOnly(ws: seq<World>, steps: seq<Step>, reqOf: map<Inst, Req>, open: set<Req>, target: int, k: nat)
    requires Run(ws, steps, reqOf, open, target) && k < |ws|
    ensures var w := ws[k]; var ready := w.pool.ready;
            && (forall i, j :: 0 <= i < j < |ready| ==> ready[i].id != ready[j].id)
            && (forall i :: 0 <= i < |ready| ==> ready[i].id !in w.pool.warming)
            && (forall t :: t in w.launches && Held(w.launches[t]).Some? ==> Elsewhere(w, Held(w.launches[t]).value))
            && (forall t, u :: t in w.launches && u in w.launches && t != u && Held(w.launches[t]).Some? ==>
                                 Held(w.launches[t]) != Held(w.launches[u]))
            && (forall t :: t in w.trims ==> Elsewhere(w, w.trims[t].inst.id))
            && (forall t, u :: t in w.trims && u in w.launches ==> Held(w.launches[u]) != Some(w.trims[t].inst.id))
            && (forall t, u :: t in w.trims && u in w.trims && t != u ==> w.trims[t].inst.id != w.trims[u].inst.id)
            && (Looped(w.loop).Some? ==> LoopsAlone(w, Looped(w.loop).value))
  {
    hide Spots, Run;
    Reachable(ws, steps, reqOf, open, target, k);
    var w := ws[k];
    forall t | t in w.launches && Held(w.launches[t]).Some?
      ensures var id := Held(w.launches[t]).value; id in w.owner && (w.owner[id] == ByClaim(t) || w.owner[id] == ForJob(t))
    {
      HeldOwned(w, t);
    }
    if Looped(w.loop).Some? {
      LoopedOwned(w);
    }
  }

  /** No list, launch or resize has the instance. */
  ghost predicate LoopsAlone(w: World, id: Inst) {
    && Elsewhere(w, id)
    && (forall t :: t in w.launches ==> Held(w.launches[t]) != Some(id))
    && (forall t :: t in w.trims ==> w.trims[t].inst.id != id)
  }

  /** Neither ready nor warming. */
  ghost predicate Elsewhere(w: World, id: Inst) {
    id !in w.pool.warming && forall i :: 0 <= i < |w.pool.ready| ==> w.pool.ready[i].id != id
  }

  lemma LaunchClaims(w: World, t: Tid, c: LaunchStep)
    ensures w.claimed <= LaunchDo(w, t, c).claimed
  {
    hide ClaimPop, AddInstance, Own, FirstStage;
  }

  lemma EndingClaims(w: World, st: Step)
    requires Enabled(w, st) && (st.CancelCall? || st.TerminateCall?)
    ensures w.claimed == Do(w, st).claimed
  {
    hide Ended, StageTo, Ends;
    match st
    case CancelCall(who, ok, took) =>
      var e := Ends(w, who).value;
      var v := w.(open := if took then w.open - {e.inst.spotReq} else w.open);
      StageLeaves(v, who, Terminate);
      EndedLeaves(v, who, false);
      if e.stage.left > 0 {
        StageLeaves(v, who, Cancel(e.stage.left - 1));
      }
    case TerminateCall(who, ok) =>
      var id := Ends(w, who).value.inst.id;
      EndedLeaves(w.(terminated := w.terminated + {(id, id in w.reqOf && w.reqOf[id] in w.open)}), who, ok);
  }

  lemma ClaimedGrows(w: World, st: Step)
    requires Enabled(w, st)
    ensures w.claimed <= Do(w, st).claimed
  {
    hide LoopDo, LaunchDo, CancelDo, TerminateDo, Own;
    match st
    case OfLoop(l) => LoopLeaves(w, l);
    case OfLaunch(t, c) => LaunchClaims(w, t, c);
    case CancelCall(_, _, _) => EndingClaims(w, st);
    case TerminateCall(_, _) => EndingClaims(w, st);
    case _ =>
  }

  lemma {:induction false} ClaimedOnRuns(
    ws: seq<World>, steps: seq<Step>, reqOf: map<Inst, Req>, open: set<Req>, target: int, j: nat, k: nat)
    requires Run(ws, steps, reqOf, open, target) && j <= k < |ws|
    ensures ws[j].claimed <= ws[k].claimed
  {
    hide Enabled, Do;
    if j < k {
      ClaimedOnRuns(ws, steps, reqOf, open, target, j, k - 1);
      assert Enabled(ws[k - 1], steps[k - 1]) && ws[k] == Do(ws[k - 1], steps[k - 1]);
      ClaimedGrows(ws[k - 1], steps[k - 1]);
    }
  }

  /** An instance given to one launch is never given to another, and never returns to the pool. */
  lemma GivenOnce(
    ws: seq<World>, steps: seq<Step>, reqOf: map<Inst, Req>, open: set<Req>, target: int, j: nat, k: nat,
    t: Tid, u: Tid, id: Inst)
    requires Run(ws, steps, reqOf, open, target) && j <= k < |ws| && (t, id) in ws[j].claimed
    ensures (u, id) in ws[k].claimed ==> u == t
    ensures Elsewhere(ws[k], id)
  {
    ClaimedOnRuns(ws, steps, reqOf, open, target, j, k);
    Reachable(ws, steps, reqOf, open, target, k);
    assert Has(ws[k], id, ForJob(t));
    if (u, id) in ws[k].claimed {
      assert Has(ws[k], id, ForJob(u));
    }
  }
}
