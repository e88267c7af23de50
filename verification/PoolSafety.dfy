/** No interleaving terminates an instance with its spot request open, or gives one instance to two launches. */
module PoolSafety {
  import opened Pool
  import opened PoolRuns

  // --- spot requests ---

  /** The instance has no persistent request, or none that is still open. */
  predicate Closed(w: World, id: Inst) {
    id in w.reqOf && w.reqOf[id] !in w.open
  }

  predicate EnderOk(w: World, x: Pooled, stage: Stage) {
    Known(w, x) && (stage.Terminate? ==> Closed(w, x.id))
  }

  predicate WaiterOk(w: World, id: Inst, req: Req) {
    id in w.reqOf && (req == w.reqOf[id] || (req == "" && Closed(w, id)))
  }

  predicate LaunchOk(w: World, pc: LaunchPc) {
    match pc
    case Looking => true
    case Preparing(x) => Known(w, x)
    case Following(x) => Known(w, x)
    case Ending(x, stage, _) => EnderOk(w, x, stage)
    case Requeueing(x, _) => Known(w, x)
    case Given(x) => Known(w, x)
    case Started(x) => Known(w, x)
    case Waiting(id, req) => WaiterOk(w, id, req)
    case Stopping(id, req, stage) => WaiterOk(w, id, req) && (if stage.Terminate? then Closed(w, id) else req == w.reqOf[id])
  }

  ghost predicate ListOk(w: World, list: seq<Seen>) {
    forall k :: 0 <= k < |list| ==> Known(w, list[k].inst)
  }

  ghost predicate LoopOk(w: World, pc: RunPc) {
    match pc
    case Discovering(list) => ListOk(w, list)
    case Refreshing(list) => ListOk(w, list)
    case Marking(x, list, _) => Known(w, x) && ListOk(w, list)
    case Discarding(x, stage, list) => EnderOk(w, x, stage) && ListOk(w, list)
    case Dropping(x, _) => Known(w, x)
    case Rewarming(x, _) => Known(w, x)
    case Trimming(x, stage) => EnderOk(w, x, stage)
    case _ => true
  }

  ghost predicate ReadyOk(w: World) {
    forall k :: 0 <= k < |w.pool.ready| ==> Known(w, w.pool.ready[k])
  }

  ghost predicate Spots(w: World) {
    LoopPart(w) && TrimsOk(w) && ReapsOk(w) && LaunchesOk(w) && NeverOpen(w)
  }

  /** Instances keep their requests, and a request once closed stays closed. */
  ghost predicate Later(w: World, v: World) {
    && (forall id :: id in w.reqOf ==> id in v.reqOf && v.reqOf[id] == w.reqOf[id])
    && (forall id :: id in w.reqOf && w.reqOf[id] !in w.open ==> w.reqOf[id] !in v.open)
  }

  lemma LaterPcs(w: World, v: World)
    requires Later(w, v)
    ensures forall pc :: LaunchOk(w, pc) ==> LaunchOk(v, pc)
    ensures forall x, stage :: EnderOk(w, x, stage) ==> EnderOk(v, x, stage)
    ensures forall x :: Known(w, x) ==> Known(v, x)
  {
    forall pc | LaunchOk(w, pc) ensures LaunchOk(v, pc) {
    }
  }

  lemma LaterLoop(w: World, v: World, pc: RunPc)
    requires Later(w, v) && LoopOk(w, pc)
    ensures LoopOk(v, pc)
  {
  }

  /** The parts a step of the loop touches, before and after. */
  ghost predicate LoopPart(w: World) {
    "" !in w.open && ReadyOk(w) && LoopOk(w, w.loop)
  }

  lemma LaterReady(w: World, v: World)
    requires Later(w, v) && ReadyOk(w) && v.pool.ready == w.pool.ready
    ensures ReadyOk(v)
  {
  }

  ghost predicate TrimsOk(w: World) {
    forall t :: t in w.trims ==> EnderOk(w, w.trims[t].inst, w.trims[t].stage)
  }

  ghost predicate ReapsOk(w: World) {
    forall t :: t in w.reaps ==> EnderOk(w, w.reaps[t].inst, w.reaps[t].stage)
  }

  ghost predicate LaunchesOk(w: World) {
    forall t :: t in w.launches ==> LaunchOk(w, w.launches[t])
  }

  ghost predicate NeverOpen(w: World) {
    forall x :: x in w.terminated ==> !x.1
  }

  lemma OthersLater(w: World, v: World)
    requires Later(w, v)
    ensures TrimsOk(w) && v.trims == w.trims ==> TrimsOk(v)
    ensures ReapsOk(w) && v.reaps == w.reaps ==> ReapsOk(v)
    ensures LaunchesOk(w) && v.launches == w.launches ==> LaunchesOk(v)
  {
    LaterPcs(w, v);
    hide EnderOk, LaunchOk, Later;
  }

  lemma StageOk(w: World, x: Pooled, tries: nat)
    requires Known(w, x) && "" !in w.open
    ensures EnderOk(w, x, FirstStage(x.spotReq, tries))
  {
  }

  // --- the loop ---

  lemma HeadAndTail(w: World, list: seq<Seen>)
    requires ListOk(w, list) && list != []
    ensures Known(w, list[0].inst) && ListOk(w, list[1..])
  {
  }

  /** Pool and owner changed, requests did not. */
  lemma SameRequests(w: World, v: World)
    requires v.reqOf == w.reqOf && v.open == w.open
    ensures Later(w, v)
    ensures forall x :: Known(w, x) == Known(v, x)
    ensures forall list :: ListOk(w, list) == ListOk(v, list)
    ensures forall x, stage :: EnderOk(w, x, stage) == EnderOk(v, x, stage)
  {
  }

  lemma NextFoundSpots(w: World, list: seq<Seen>, now: int)
    requires LoopPart(w) && ListOk(w, list)
    ensures var v := NextFoundDo(w, list, now); LoopPart(v) && Later(w, v)
  {
    hide ListOk, Known, EnderOk, Later;
    SameRequests(w, NextFoundDo(w, list, now));
    if list != [] {
      HeadAndTail(w, list);
    }
  }

  lemma MarkSpots(w: World, x: Pooled, list: seq<Seen>, first: bool, ok: bool)
    requires LoopPart(w) && ListOk(w, list) && Known(w, x)
    ensures var v := MarkDo(w, x, list, first, ok); LoopPart(v) && Later(w, v)
  {
  }

  lemma NextWarmingSpots(w: World, list: seq<Seen>, now: int)
    requires LoopPart(w) && ListOk(w, list)
    ensures var v := NextWarmingDo(w, list, now); LoopPart(v) && Later(w, v)
  {
    hide ListOk, Known, EnderOk, Later, FirstStage, Overstayed;
    SameRequests(w, NextWarmingDo(w, list, now));
    if list != [] {
      HeadAndTail(w, list);
      StageOk(w, list[0].inst, DISCARD_TRIES);
    }
  }

  lemma TakenKnown(w: World, id: Inst)
    requires ReadyOk(w)
    ensures var (p, got) := TakeReady(w.pool, id);
            (forall k :: 0 <= k < |p.ready| ==> Known(w, p.ready[k])) && (got.Some? ==> Known(w, got.value))
  {
  }

  lemma NextReadySpots(w: World, list: seq<Seen>)
    requires LoopPart(w)
    ensures var v := NextReadyDo(w, list); LoopPart(v) && Later(w, v)
  {
    hide ListOk, Known, EnderOk, Later, TakeReady;
    SameRequests(w, NextReadyDo(w, list));
    if list != [] {
      TakenKnown(w, list[0].inst.id);
      var v := NextReadyDo(w, list);
      var got := TakeReady(w.pool, list[0].inst.id).1;
      assert got.Some? ==> Known(v, got.value);
      assert v.loop == Checking(list[1..])
             || (got.Some? && (v.loop == Rewarming(got.value, list[1..]) || v.loop == Dropping(got.value, list[1..])));
    }
  }

  lemma TrimSpots(w: World)
    requires LoopPart(w)
    ensures var v := TrimDo(w); LoopPart(v) && Later(w, v)
  {
  }

  lemma LaunchedSpots(w: World, id: Inst, req: Req, now: int)
    requires LoopPart(w) && FreshInstance(w, id, req)
    ensures var v := AddInstance(w, id, req, InWarming).(loop := Idle, pool := Pool.Launched(w.pool, id, now));
            LoopPart(v) && Later(w, v)
  {
  }

  lemma LostSpots(w: World, id: Inst, req: Req, now: int)
    requires LoopPart(w) && FreshInstance(w, id, req)
    ensures var v := AddInstance(w, id, req, Unseen).(loop := Idle, pool := Pool.LaunchFailed(w.pool, now));
            LoopPart(v) && Later(w, v)
  {
  }

  lemma DropSpots(w: World, x: Pooled, list: seq<Seen>, took: bool)
    requires LoopPart(w)
    ensures var v := Own(w, x.id, Nobody).(loop := Checking(list), open := if took then w.open - {x.spotReq} else w.open);
            LoopPart(v) && Later(w, v)
  {
  }

  lemma ScanSpots(w: World, l: LoopStep)
    requires LoopPart(w) && LoopEnabled(w, l) && Scans(l)
    ensures LoopPart(LoopScans(w, l)) && Later(w, LoopScans(w, l))
  {
    hide NextFoundDo, MarkDo, NextWarmingDo, NextReadyDo, Known;
    match (w.loop, l)
    case (Discovering(list), NextFound(now)) => NextFoundSpots(w, list, now);
    case (Marking(x, list, first), Mark(ok)) => MarkSpots(w, x, list, first, ok);
    case (Refreshing(list), NextWarming(now)) => NextWarmingSpots(w, list, now);
    case (Checking(list), NextReady) => NextReadySpots(w, list);
    case _ => SameRequests(w, LoopScans(w, l));
  }

  lemma ActSpots(w: World, l: LoopStep)
    requires LoopPart(w) && LoopEnabled(w, l) && !Scans(l)
    ensures LoopPart(LoopActs(w, l)) && Later(w, LoopActs(w, l))
  {
    hide TrimDo, AddInstance, FreshInstance, Known;
    match (w.loop, l)
    case (Dropping(x, list), Drop(ok, took)) => DropSpots(w, x, list, took);
    case (Idle, Trim) => TrimSpots(w);
    case (Filling, Launched(id, req, now)) => LaunchedSpots(w, id, req, now);
    case (Filling, LaunchLost(id, req, now)) => LostSpots(w, id, req, now);
    case _ => SameRequests(w, LoopActs(w, l));
  }

  lemma LoopSpots(w: World, l: LoopStep)
    requires LoopPart(w) && LoopEnabled(w, l)
    ensures LoopPart(LoopDo(w, l)) && Later(w, LoopDo(w, l))
  {
    hide LoopPart, Later, LoopEnabled, LoopScans, LoopActs;
    if Scans(l) {
      ScanSpots(w, l);
    } else {
      ActSpots(w, l);
    }
  }

  // --- launches ---

  ghost predicate LaunchPart(w: World) {
    "" !in w.open && ReadyOk(w) && LaunchesOk(w)
  }

  /** One launch went on; the requests are as they were or more of them are closed. */
  lemma LaunchFrame(w: World, v: World, t: Tid)
    requires LaunchesOk(w) && Later(w, v)
    requires forall u :: u in v.launches && u != t ==> u in w.launches && v.launches[u] == w.launches[u]
    requires t in v.launches ==> LaunchOk(v, v.launches[t])
    ensures LaunchesOk(v)
  {
    LaterPcs(w, v);
    hide LaunchOk, Later;
  }

  lemma ReadyFrame(w: World, v: World)
    requires ReadyOk(w) && Later(w, v)
    requires forall k :: 0 <= k < |v.pool.ready| ==> v.pool.ready[k] in w.pool.ready || Known(v, v.pool.ready[k])
    ensures ReadyOk(v)
  {
    LaterPcs(w, v);
    hide Known, Later;
  }

  lemma ClaimSpots(w: World, t: Tid)
    requires LaunchPart(w)
    ensures var v := ClaimDo(w, t); LaunchPart(v) && Later(w, v)
  {
    var v := ClaimDo(w, t);
    SameRequests(w, v);
    assert w.pool.ready != [] ==> Known(v, w.pool.ready[0]);
    assert w.pool.ready == [] ==> t in v.launches ==> LaunchOk(v, v.launches[t]);
    hide Later, Known, EnderOk;
    ReadyFrame(w, v);
    LaunchFrame(w, v, t);
  }

  /** Where a launch goes next it may be. */
  lemma LaunchNextOk(w: World, t: Tid, pc: LaunchPc, c: LaunchStep)
    requires "" !in w.open && LaunchOk(w, pc) && t in w.launches && w.launches[t] == pc && LaunchEnabled(w, t, c)
    requires !c.Claim? && !c.Cold? && !c.ColdLost?
    ensures var v := LaunchNext(w, t, pc, c); Later(w, v) && "" !in v.open && (t in v.launches ==> LaunchOk(v, v.launches[t]))
  {
    if c.Unlink? {
      UnlinkOk(w, t, pc, c);
    } else {
      SameRequests(w, LaunchNext(w, t, pc, c));
      hide Later, PutFront, Pool.Rewarm;
    }
  }

  lemma UnlinkOk(w: World, t: Tid, pc: LaunchPc, c: LaunchStep)
    requires "" !in w.open && LaunchOk(w, pc) && t in w.launches && w.launches[t] == pc && LaunchEnabled(w, t, c) && c.Unlink?
    ensures var v := LaunchNext(w, t, pc, c); Later(w, v) && "" !in v.open && (t in v.launches ==> LaunchOk(v, v.launches[t]))
  {
  }

  lemma LaunchReady(w: World, t: Tid, pc: LaunchPc, c: LaunchStep)
    requires LaunchOk(w, pc)
    ensures var v := LaunchNext(w, t, pc, c);
            forall k :: 0 <= k < |v.pool.ready| ==> v.pool.ready[k] in w.pool.ready || Known(v, v.pool.ready[k])
  {
  }

  lemma ColdSpots(w: World, t: Tid, id: Inst)
    requires LaunchPart(w) && FreshInstance(w, id, "")
    ensures var v := AddInstance(To(w, t, Waiting(id, "")), id, "", ForJob(t)); LaunchPart(v) && Later(w, v)
  {
    var v := AddInstance(To(w, t, Waiting(id, "")), id, "", ForJob(t));
    assert Later(w, v);
    assert LaunchOk(v, v.launches[t]);
    hide Later, Known, LaunchOk;
    ReadyFrame(w, v);
    LaunchFrame(w, v, t);
  }

  lemma ColdLostSpots(w: World, t: Tid, id: Inst)
    requires LaunchPart(w) && FreshInstance(w, id, "")
    ensures var v := AddInstance(w, id, "", Unseen); LaunchPart(v) && Later(w, v)
  {
    var v := AddInstance(w, id, "", Unseen);
    assert Later(w, v);
    hide Later, Known, LaunchOk;
    ReadyFrame(w, v);
    OthersLater(w, v);
  }

  lemma LaunchSpots(w: World, t: Tid, c: LaunchStep)
    requires LaunchPart(w) && LaunchEnabled(w, t, c)
    ensures LaunchPart(LaunchDo(w, t, c)) && Later(w, LaunchDo(w, t, c))
  {
    if c.Claim? {
      ClaimSpots(w, t);
    } else if c.Cold? {
      ColdSpots(w, t, c.id);
    } else if c.ColdLost? {
      ColdLostSpots(w, t, c.id);
    } else {
      var v := LaunchDo(w, t, c);
      LaunchNextOk(w, t, w.launches[t], c);
      LaunchReady(w, t, w.launches[t], c);
      OnlyOneLaunch(w, t, w.launches[t], c);
      hide LaunchNext, Later, Known, LaunchOk;
      ReadyFrame(w, v);
      LaunchFrame(w, v, t);
    }
  }

  lemma OnlyOneLaunch(w: World, t: Tid, pc: LaunchPc, c: LaunchStep)
    ensures var v := LaunchNext(w, t, pc, c);
            forall u :: u in v.launches && u != t ==> u in w.launches && v.launches[u] == w.launches[u]
  {
  }

  // --- ending ---

  /** Whoever is ending an instance knows its request, and terminates it only once that is closed. */
  lemma EndsOk(w: World, who: Actor)
    requires Spots(w) && Ends(w, who).Some?
    ensures var e := Ends(w, who).value;
            && e.inst.id in w.reqOf
            && (e.stage.Cancel? ==> w.reqOf[e.inst.id] == e.inst.spotReq)
            && (e.stage.Terminate? ==> Closed(w, e.inst.id))
  {
    hide ListOk;
  }

  lemma ClosedSpots(w: World, req: Req, took: bool)
    requires Spots(w)
    ensures var v := w.(open := if took then w.open - {req} else w.open); Spots(v) && Later(w, v)
  {
    var v := w.(open := if took then w.open - {req} else w.open);
    assert Later(w, v);
    hide Later, Known, LaunchOk, EnderOk, LaunchesOk, TrimsOk, ReapsOk, LoopOk;
    OthersLater(w, v);
    LaterLoop(w, v, w.loop);
    LaterReady(w, v);
  }

  lemma StageLoop(w: World, stage: Stage)
    requires LoopPart(w) && Ends(w, TheLoop).Some? && (stage.Terminate? ==> Closed(w, Ends(w, TheLoop).value.inst.id))
    ensures LoopPart(StageTo(w, TheLoop, stage))
  {
    hide ListOk, Known;
    SameRequests(w, StageTo(w, TheLoop, stage));
  }

  lemma StageLaunch(w: World, t: Tid, stage: Stage)
    requires LaunchesOk(w) && Ends(w, ALaunch(t)).Some? && Ends(w, ALaunch(t)).value.stage.Cancel?
    requires stage.Terminate? ==> Closed(w, Ends(w, ALaunch(t)).value.inst.id)
    ensures LaunchesOk(StageTo(w, ALaunch(t), stage))
  {
    var v := StageTo(w, ALaunch(t), stage);
    SameRequests(w, v);
    assert LaunchOk(w, w.launches[t]) && LaunchOk(v, v.launches[t]);
    hide LaunchOk, Later;
    LaunchFrame(w, v, t);
  }

  lemma StageLeaves(w: World, who: Actor, stage: Stage)
    ensures var v := StageTo(w, who, stage);
            && v == w.(loop := v.loop, trims := v.trims, reaps := v.reaps, launches := v.launches)
            && (!who.TheLoop? ==> v.loop == w.loop) && (!who.ATrim? ==> v.trims == w.trims)
            && (!who.AReap? ==> v.reaps == w.reaps) && (!who.ALaunch? ==> v.launches == w.launches)
  {
  }

  lemma StageEnder(w: World, who: Actor, stage: Stage)
    requires Spots(w) && Ends(w, who).Some? && (who.ATrim? || who.AReap?)
    requires stage.Terminate? ==> Closed(w, Ends(w, who).value.inst.id)
    ensures TrimsOk(StageTo(w, who, stage)) && ReapsOk(StageTo(w, who, stage))
  {
    hide LoopOk, ReadyOk, LaunchOk;
  }

  lemma StageSpots(w: World, who: Actor, stage: Stage)
    requires Spots(w) && Ends(w, who).Some? && Ends(w, who).value.stage.Cancel?
    requires stage.Terminate? ==> Closed(w, Ends(w, who).value.inst.id)
    ensures Spots(StageTo(w, who, stage)) && Later(w, StageTo(w, who, stage))
  {
    var v := StageTo(w, who, stage);
    StageLeaves(w, who, stage);
    SameRequests(w, v);
    hide LaunchesOk, TrimsOk, ReapsOk, Later, ReadyOk, LoopOk, ListOk, StageTo, Ends;
    OthersLater(w, v);
    match who
    case TheLoop => StageLoop(w, stage);
    case ALaunch(t) =>
      StageLaunch(w, t, stage);
      LaterLoopPart(w, v);
    case _ =>
      StageEnder(w, who, stage);
      LaterLoopPart(w, v);
  }

  lemma LaterLoopPart(w: World, v: World)
    requires LoopPart(w) && Later(w, v) && v.loop == w.loop && v.pool.ready == w.pool.ready && "" !in v.open
    ensures LoopPart(v)
  {
    LaterLoop(w, v, w.loop);
    LaterReady(w, v);
  }

  lemma SettleReady(w: World, x: Pooled, did: bool)
    requires ReadyOk(w) && Known(w, x)
    ensures ReadyOk(Settle(w, x, did))
  {
  }

  lemma EndedLoop(w: World, did: bool)
    requires LoopPart(w) && Ends(w, TheLoop).Some?
    ensures LoopPart(Ended(w, TheLoop, did))
  {
    hide ListOk, Known, ReadyOk;
    var v := Ended(w, TheLoop, did);
    SameRequests(w, v);
    match w.loop
    case Trimming(x, _) =>
      ReadySame(w, w.(loop := Idle));
      SameRequests(w, w.(loop := Idle));
      SettleReady(w.(loop := Idle), x, did);
    case _ => ReadySame(w, v);
  }

  lemma ReadySame(w: World, v: World)
    requires v.reqOf == w.reqOf && v.pool.ready == w.pool.ready
    ensures ReadyOk(w) ==> ReadyOk(v)
  {
  }

  lemma EndedLaunch(w: World, t: Tid, did: bool)
    requires LaunchesOk(w) && Ends(w, ALaunch(t)).Some?
    ensures LaunchesOk(Ended(w, ALaunch(t), did))
  {
    var v := Ended(w, ALaunch(t), did);
    SameRequests(w, v);
    assert LaunchOk(w, w.launches[t]) && (t in v.launches ==> LaunchOk(v, v.launches[t]));
    hide LaunchOk, Later;
    LaunchFrame(w, v, t);
  }

  lemma EndedTrim(w: World, t: Tid, did: bool)
    requires LoopPart(w) && TrimsOk(w) && t in w.trims
    ensures var v := Ended(w, ATrim(t), did); LoopPart(v) && TrimsOk(v)
  {
    hide LoopOk, ReadyOk;
    var u := w.(trims := w.trims - {t});
    var v := Ended(w, ATrim(t), did);
    SameRequests(w, v);
    ReadySame(w, u);
    SettleReady(u, w.trims[t].inst, did);
    LaterLoop(w, v, w.loop);
  }

  lemma EndedLeaves(w: World, who: Actor, did: bool)
    ensures var v := Ended(w, who, did);
            && v == w.(loop := v.loop, trims := v.trims, reaps := v.reaps, launches := v.launches, pool := v.pool, owner := v.owner)
            && (!who.TheLoop? ==> v.loop == w.loop) && (!who.ATrim? ==> v.trims == w.trims)
            && (!who.AReap? ==> v.reaps == w.reaps) && (!who.ALaunch? ==> v.launches == w.launches)
            && (who.AReap? || who.ALaunch? ==> v.pool == w.pool)
  {
    hide LoopEnded, LaunchEnded, TrimEnded;
  }

  lemma EndedReap(w: World, t: Tid, did: bool)
    requires ReapsOk(w)
    ensures ReapsOk(Ended(w, AReap(t), did))
  {
  }

  lemma EndedSpots(w: World, who: Actor, did: bool)
    requires Spots(w) && Ends(w, who).Some?
    ensures Spots(Ended(w, who, did)) && Later(w, Ended(w, who, did))
  {
    var v := Ended(w, who, did);
    EndedLeaves(w, who, did);
    SameRequests(w, v);
    hide LaunchesOk, TrimsOk, ReapsOk, Later, ReadyOk, LoopOk, ListOk, Ended;
    OthersLater(w, v);
    match who
    case TheLoop => EndedLoop(w, did);
    case ATrim(t) => EndedTrim(w, t, did);
    case ALaunch(t) =>
      EndedLaunch(w, t, did);
      LaterLoopPart(w, v);
    case AReap(t) =>
      EndedReap(w, t, did);
      LaterLoopPart(w, v);
  }

  lemma LaterTrans(u: World, w: World, v: World)
    requires Later(u, w) && Later(w, v)
    ensures Later(u, v)
  {
  }

  lemma CancelSpots(w: World, who: Actor, ok: bool, took: bool)
    requires Spots(w) && Ends(w, who).Some? && Ends(w, who).value.stage.Cancel? && (ok ==> took)
    ensures Spots(CancelDo(w, who, ok, took)) && Later(w, CancelDo(w, who, ok, took))
  {
    var e := Ends(w, who).value;
    EndsOk(w, who);
    ClosedSpots(w, e.inst.spotReq, took);
    var v := w.(open := if took then w.open - {e.inst.spotReq} else w.open);
    assert Ends(v, who) == Ends(w, who);
    assert ok ==> Closed(v, e.inst.id);
    hide Spots, Later, StageTo, Ended, Ends;
    if ok {
      StageSpots(v, who, Terminate);
      LaterTrans(w, v, StageTo(v, who, Terminate));
    } else if e.stage.left > 0 {
      StageSpots(v, who, Cancel(e.stage.left - 1));
      LaterTrans(w, v, StageTo(v, who, Cancel(e.stage.left - 1)));
    } else {
      EndedSpots(v, who, false);
      LaterTrans(w, v, Ended(v, who, false));
    }
  }

  lemma LoggedSpots(w: World, id: Inst)
    requires Spots(w) && Closed(w, id)
    ensures var v := w.(terminated := w.terminated + {(id, id in w.reqOf && w.reqOf[id] in w.open)}); Spots(v) && Later(w, v)
  {
    var v := w.(terminated := w.terminated + {(id, id in w.reqOf && w.reqOf[id] in w.open)});
    SameRequests(w, v);
    hide LaunchOk, Later, ReadyOk, LoopOk, EnderOk;
    OthersLater(w, v);
    LaterLoopPart(w, v);
  }

  lemma TerminateSpots(w: World, who: Actor, ok: bool)
    requires Spots(w) && Ends(w, who).Some? && Ends(w, who).value.stage.Terminate?
    ensures Spots(TerminateDo(w, who, ok)) && Later(w, TerminateDo(w, who, ok))
  {
    var id := Ends(w, who).value.inst.id;
    EndsOk(w, who);
    LoggedSpots(w, id);
    var v := w.(terminated := w.terminated + {(id, id in w.reqOf && w.reqOf[id] in w.open)});
    assert Ends(v, who) == Ends(w, who);
    hide Spots, Later, Ended, Ends;
    EndedSpots(v, who, ok);
    LaterTrans(w, v, Ended(v, who, ok));
  }

  lemma ResizeSpots(w: World, t: Tid)
    requires LoopPart(w) && TrimsOk(w)
    ensures var v := ResizeDo(w, t); LoopPart(v) && TrimsOk(v)
  {
    var v := ResizeDo(w, t);
    SameRequests(w, v);
    var (p, got) := TrimPop(w.pool);
    if got.Some? {
      assert Known(w, got.value);
      StageOk(w, got.value, DISCARD_TRIES);
    }
    hide Known, EnderOk, FirstStage;
    LaterLoop(w, v, w.loop);
  }

  lemma ReapSpots(w: World, t: Tid, x: Pooled)
    requires ReapsOk(w) && Known(w, x) && "" !in w.open
    ensures var v := w.(reaps := w.reaps[t := Ender(x, FirstStage(x.spotReq, 1))]); ReapsOk(v)
  {
    StageOk(w, x, 1);
  }

  lemma SpotsStep(w: World, st: Step)
    requires Spots(w) && Enabled(w, st)
    ensures Spots(Do(w, st)) && Later(w, Do(w, st))
  {
    var v := Do(w, st);
    match st
    case CancelCall(who, ok, took) => CancelSpots(w, who, ok, took);
    case TerminateCall(who, ok) => TerminateSpots(w, who, ok);
    case CancelOrphan(req) => ClosedSpots(w, req, true);
    case OfLoop(l) => LoopSpotsAll(w, l);
    case OfLaunch(t, c) => LaunchSpotsAll(w, t, c);
    case _ => OtherSpots(w, st);
  }

  lemma OtherSpots(w: World, st: Step)
    requires Spots(w) && Enabled(w, st) && (st.SetTarget? || st.Resize? || st.Reap?)
    ensures Spots(Do(w, st)) && Later(w, Do(w, st))
  {
    var v := Do(w, st);
    SameRequests(w, v);
    hide LaunchOk, Later, ReadyOk, LoopOk, EnderOk;
    OthersLater(w, v);
    match st
    case Resize(t) => ResizeSpots(w, t);
    case Reap(t, x) => ReapSpots(w, t, x); LaterLoopPart(w, v);
    case SetTarget(_) => LaterLoopPart(w, v);
  }

  ghost predicate OnlyLoop(w: World, v: World) {
    && v.trims == w.trims && v.reaps == w.reaps && v.launches == w.launches
    && v.terminated == w.terminated && v.claimed == w.claimed
  }

  lemma ScansLeave(w: World, l: LoopStep)
    ensures OnlyLoop(w, LoopScans(w, l))
  {
    hide NextFoundDo, MarkDo, NextWarmingDo, NextReadyDo;
  }

  lemma ActsLeave(w: World, l: LoopStep)
    ensures OnlyLoop(w, LoopActs(w, l))
  {
    hide TrimDo, Own, AddInstance, Pool.Rewarm, Pool.Launched, Pool.LaunchFailed;
  }

  lemma LoopLeaves(w: World, l: LoopStep)
    ensures OnlyLoop(w, LoopDo(w, l))
  {
    hide OnlyLoop, LoopScans, LoopActs;
    ScansLeave(w, l);
    ActsLeave(w, l);
  }

  lemma LoopSpotsAll(w: World, l: LoopStep)
    requires Spots(w) && LoopEnabled(w, l)
    ensures Spots(LoopDo(w, l)) && Later(w, LoopDo(w, l))
  {
    hide LoopDo, Later, LoopEnabled, LaunchOk, EnderOk;
    LoopSpots(w, l);
    LoopLeaves(w, l);
    OthersLater(w, LoopDo(w, l));
  }

  lemma BackLeaves(w: World, t: Tid, pc: LaunchPc, c: LaunchStep)
    requires c.Prepared? || c.Follow? || c.Requeue?
    ensures var v := LaunchNext(w, t, pc, c);
            v == w.(launches := v.launches, owner := v.owner, pool := v.pool, claimed := v.claimed)
  {
    hide FirstStage, Pool.Rewarm, PutFront, Own;
  }

  lemma OnLeaves(w: World, t: Tid, pc: LaunchPc, c: LaunchStep)
    requires !c.Prepared? && !c.Follow? && !c.Requeue?
    ensures var v := LaunchNext(w, t, pc, c); v == w.(launches := v.launches, open := v.open)
  {
    hide FirstStage, Pool.Rewarm, PutFront, Own;
  }

  lemma NextLeaves(w: World, t: Tid, pc: LaunchPc, c: LaunchStep)
    ensures var v := LaunchNext(w, t, pc, c);
            v.trims == w.trims && v.reaps == w.reaps && v.loop == w.loop && v.terminated == w.terminated
  {
    hide LaunchNext;
    if c.Prepared? || c.Follow? || c.Requeue? {
      BackLeaves(w, t, pc, c);
    } else {
      OnLeaves(w, t, pc, c);
    }
  }

  lemma LaunchLeaves(w: World, t: Tid, c: LaunchStep)
    ensures var v := LaunchDo(w, t, c);
            v.trims == w.trims && v.reaps == w.reaps && v.loop == w.loop && v.terminated == w.terminated
  {
    hide ClaimPop, LaunchNext;
    if t in w.launches {
      NextLeaves(w, t, w.launches[t], c);
    }
  }

  lemma LaunchSpotsAll(w: World, t: Tid, c: LaunchStep)
    requires Spots(w) && LaunchEnabled(w, t, c)
    ensures Spots(LaunchDo(w, t, c)) && Later(w, LaunchDo(w, t, c))
  {
    hide LaunchDo, Later, LaunchEnabled, LaunchOk, EnderOk, LoopOk, ReadyOk;
    LaunchSpots(w, t, c);
    LaunchLeaves(w, t, c);
    OthersLater(w, LaunchDo(w, t, c));
    LaterLoop(w, LaunchDo(w, t, c), w.loop);
  }
}
