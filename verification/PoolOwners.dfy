/** Where the process keeps each instance: in one place at a time, whatever interleaves. */
module PoolOwners {
  import opened Pool
  import opened PoolRuns
  import opened PoolSafety

  predicate Has(w: World, id: Inst, o: Owner) {
    id in w.owner && w.owner[id] == o
  }

  ghost predicate ReadyOwned(w: World) {
    && (forall k :: 0 <= k < |w.pool.ready| ==> Has(w, w.pool.ready[k].id, InReady))
    && (forall j, k :: 0 <= j < k < |w.pool.ready| ==> w.pool.ready[j].id != w.pool.ready[k].id)
  }

  ghost predicate WarmingOwned(w: World) {
    forall id :: id in w.pool.warming ==> Has(w, id, InWarming)
  }

  /** Descriptions still to go through: of different instances, all still where they were. */
  ghost predicate ListOwned(w: World, list: seq<Seen>, o: Owner) {
    && (forall k :: 0 <= k < |list| ==> Has(w, list[k].inst.id, o))
    && (forall j, k :: 0 <= j < k < |list| ==> list[j].inst.id != list[k].inst.id)
  }

  ghost predicate Absent(list: seq<Seen>, id: Inst) {
    forall k :: 0 <= k < |list| ==> list[k].inst.id != id
  }

  ghost predicate LoopOwned(w: World, pc: RunPc) {
    match pc
    case Discovering(list) => ListOwned(w, list, Unseen)
    case Refreshing(list) => ListOwned(w, list, InWarming)
    case Marking(x, list, first) =>
      var o := if first then Unseen else InWarming;
      Has(w, x.id, o) && ListOwned(w, list, o) && Absent(list, x.id)
    case Discarding(x, _, list) => Has(w, x.id, InWarming) && ListOwned(w, list, InWarming) && Absent(list, x.id)
    case Dropping(x, _) => Has(w, x.id, ByLoop)
    case Rewarming(x, _) => Has(w, x.id, ByLoop)
    case Trimming(x, _) => Has(w, x.id, ByLoop)
    case _ => true
  }

  predicate LaunchOwned(w: World, t: Tid, pc: LaunchPc) {
    match pc
    case Preparing(x) => Has(w, x.id, ByClaim(t))
    case Following(x) => Has(w, x.id, ByClaim(t))
    case Requeueing(x, _) => Has(w, x.id, ByClaim(t))
    case Ending(x, _, given) => Has(w, x.id, if given then ForJob(t) else ByClaim(t))
    case Given(x) => Has(w, x.id, ForJob(t))
    case Started(x) => Has(w, x.id, ForJob(t))
    case _ => true
  }

  ghost predicate TrimsOwned(w: World) {
    forall t :: t in w.trims ==> Has(w, w.trims[t].inst.id, ByTrim(t))
  }

  ghost predicate LaunchesOwned(w: World) {
    forall t :: t in w.launches ==> LaunchOwned(w, t, w.launches[t])
  }

  ghost predicate ClaimedOwned(w: World) {
    forall c :: c in w.claimed ==> Has(w, c.1, ForJob(c.0))
  }

  ghost predicate Owners(w: World) {
    && ReadyOwned(w) && WarmingOwned(w) && LoopOwned(w, w.loop)
    && TrimsOwned(w) && LaunchesOwned(w) && ClaimedOwned(w)
  }

  // --- one instance changes place ---

  /** Only `id` changed place. */
  ghost predicate OnlyMoves(w: World, v: World, id: Inst) {
    forall k :: k in w.owner && k != id ==> k in v.owner && v.owner[k] == w.owner[k]
  }

  lemma TrimsStay(w: World, v: World, id: Inst)
    requires TrimsOwned(w) && OnlyMoves(w, v, id) && v.trims == w.trims
    requires id in w.owner ==> !w.owner[id].ByTrim?
    ensures TrimsOwned(v)
  {
  }

  lemma ClaimedStay(w: World, v: World, id: Inst)
    requires ClaimedOwned(w) && OnlyMoves(w, v, id) && v.claimed == w.claimed
    requires id in w.owner ==> !w.owner[id].ForJob?
    ensures ClaimedOwned(v)
  {
  }

  lemma LaunchesStay(w: World, v: World, id: Inst)
    requires LaunchesOwned(w) && OnlyMoves(w, v, id) && v.launches == w.launches
    requires id in w.owner ==> !w.owner[id].ForJob? && !w.owner[id].ByClaim?
    ensures LaunchesOwned(v)
  {
    forall t | t in v.launches ensures LaunchOwned(v, t, v.launches[t]) {
      assert LaunchOwned(w, t, w.launches[t]);
    }
  }

  lemma LoopStays(w: World, v: World, id: Inst)
    requires LoopOwned(w, w.loop) && OnlyMoves(w, v, id) && v.loop == w.loop
    requires id in w.owner ==> !w.owner[id].Unseen? && !w.owner[id].InWarming? && !w.owner[id].ByLoop?
    ensures LoopOwned(v, v.loop)
  {
  }

  lemma ReadyStays(w: World, v: World, id: Inst)
    requires ReadyOwned(w) && OnlyMoves(w, v, id) && v.pool.ready == w.pool.ready
    requires id in w.owner ==> !w.owner[id].InReady?
    ensures ReadyOwned(v)
  {
  }

  lemma WarmingStays(w: World, v: World, id: Inst)
    requires WarmingOwned(w) && OnlyMoves(w, v, id) && v.pool.warming == w.pool.warming
    requires id in w.owner ==> !w.owner[id].InWarming?
    ensures WarmingOwned(v)
  {
  }

  lemma ReadyLess(w: World, v: World, i: nat)
    requires ReadyOwned(w) && i < |w.pool.ready| && OnlyMoves(w, v, w.pool.ready[i].id)
    requires v.pool.ready == w.pool.ready[..i] + w.pool.ready[i + 1..]
    ensures ReadyOwned(v)
  {
    var r, s := w.pool.ready, v.pool.ready;
    forall k | 0 <= k < |s| ensures Has(v, s[k].id, InReady) {
      var j := if k < i then k else k + 1;
      assert s[k] == r[j] && r[j].id != r[i].id;
    }
  }

  lemma ReadyMore(w: World, v: World, x: Pooled)
    requires ReadyOwned(w) && OnlyMoves(w, v, x.id) && Has(v, x.id, InReady)
    requires NotReady(w, x.id)
    requires v.pool.ready == w.pool.ready + [x] || v.pool.ready == [x] + w.pool.ready
    ensures ReadyOwned(v)
  {
  }

  predicate NotReady(w: World, id: Inst) {
    id in w.owner ==> !w.owner[id].InReady?
  }

  lemma WarmingMore(w: World, v: World, id: Inst, now: int)
    requires WarmingOwned(w) && OnlyMoves(w, v, id) && Has(v, id, InWarming) && v.pool.warming == w.pool.warming[id := now]
    ensures WarmingOwned(v)
  {
  }

  lemma WarmingLess(w: World, v: World, id: Inst)
    requires WarmingOwned(w) && OnlyMoves(w, v, id) && v.pool.warming == w.pool.warming - {id}
    ensures WarmingOwned(v)
  {
  }

  lemma Unmoved(w: World, v: World)
    requires v.owner == w.owner
    ensures TrimsOwned(w) && v.trims == w.trims ==> TrimsOwned(v)
    ensures ReadyOwned(w) && v.pool.ready == w.pool.ready ==> ReadyOwned(v)
    ensures WarmingOwned(w) && v.pool.warming == w.pool.warming ==> WarmingOwned(v)
    ensures ClaimedOwned(w) && v.claimed == w.claimed ==> ClaimedOwned(v)
    ensures LoopOwned(w, w.loop) && v.loop == w.loop ==> LoopOwned(v, v.loop)
  {
    hide ListOwned, Absent;
    if LoopOwned(w, w.loop) && v.loop == w.loop {
      UnmovedLists(w, v);
    }
  }

  lemma UnmovedLists(w: World, v: World)
    requires v.owner == w.owner
    ensures forall list, o :: ListOwned(w, list, o) ==> ListOwned(v, list, o)
  {
  }

  lemma UnmovedLaunches(w: World, v: World, t: Tid)
    requires v.owner == w.owner && LaunchesOwned(w)
    requires forall u :: u in v.launches && u != t ==> u in w.launches && v.launches[u] == w.launches[u]
    requires t in v.launches ==> LaunchOwned(v, t, v.launches[t])
    ensures LaunchesOwned(v)
  {
    forall u | u in v.launches ensures LaunchOwned(v, u, v.launches[u]) {
      assert u != t ==> LaunchOwned(w, u, w.launches[u]);
    }
  }

  /** One launch went on, and its own instance with it. */
  lemma LaunchMoves(w: World, v: World, t: Tid, id: Inst)
    requires LaunchesOwned(w) && OnlyMoves(w, v, id)
    requires forall u :: u in v.launches && u != t ==> u in w.launches && v.launches[u] == w.launches[u]
    requires t in v.launches ==> LaunchOwned(v, t, v.launches[t])
    requires id in w.owner ==> (w.owner[id].ForJob? || w.owner[id].ByClaim? ==> w.owner[id].t == t)
    ensures LaunchesOwned(v)
  {
    forall u | u in v.launches ensures LaunchOwned(v, u, v.launches[u]) {
      assert u != t ==> LaunchOwned(w, u, w.launches[u]);
    }
  }

  // --- the loop ---

  lemma ListHead(w: World, list: seq<Seen>, o: Owner)
    requires ListOwned(w, list, o) && list != []
    ensures Has(w, list[0].inst.id, o) && ListOwned(w, list[1..], o) && Absent(list[1..], list[0].inst.id)
  {
  }

  lemma ListStays(w: World, v: World, list: seq<Seen>, o: Owner, id: Inst)
    requires ListOwned(w, list, o) && OnlyMoves(w, v, id) && Absent(list, id)
    ensures ListOwned(v, list, o)
  {
  }

  /** The loop moved `id` out of a place only it uses. */
  lemma LoopMoves(w: World, v: World, id: Inst)
    requires OnlyMoves(w, v, id) && TrimsOwned(w) && LaunchesOwned(w) && ClaimedOwned(w)
    requires id in w.owner ==> w.owner[id].Unseen? || w.owner[id].InWarming? || w.owner[id].ByLoop? || w.owner[id].InReady?
    requires v.trims == w.trims && v.launches == w.launches && v.claimed == w.claimed
    ensures TrimsOwned(v) && LaunchesOwned(v) && ClaimedOwned(v)
  {
    hide TrimsOwned, LaunchesOwned, ClaimedOwned, OnlyMoves;
    TrimsStay(w, v, id);
    LaunchesStay(w, v, id);
    ClaimedStay(w, v, id);
  }

  lemma OwnMoves(w: World, v: World, id: Inst)
    requires id in v.owner && v.owner == w.owner[id := v.owner[id]]
    ensures OnlyMoves(w, v, id)
  {
  }

  lemma NextFoundOwners(w: World, list: seq<Seen>, now: int)
    requires Owners(w) && w.loop == Discovering(list)
    ensures Owners(NextFoundDo(w, list, now))
  {
    var v := NextFoundDo(w, list, now);
    hide ReadyOwned, WarmingOwned, TrimsOwned, LaunchesOwned, ClaimedOwned, ListOwned, Absent, OnlyMoves;
    if list == [] || list[0].state.Stopped? {
      if list != [] {
        ListHead(w, list, Unseen);
      }
      Unmoved(w, v);
      UnmovedLists(w, v);
      UnmovedAll(w, v);
    } else {
      var id := list[0].inst.id;
      ListHead(w, list, Unseen);
      OwnMoves(w, v, id);
      ListStays(w, v, list[1..], Unseen, id);
      LoopMoves(w, v, id);
      ReadyStays(w, v, id);
      WarmingMore(w, v, id, now);
    }
  }

  lemma UnmovedAll(w: World, v: World)
    requires v.owner == w.owner && LaunchesOwned(w) && v.launches == w.launches
    ensures LaunchesOwned(v)
  {
    forall u | u in v.launches ensures LaunchOwned(v, u, v.launches[u]) {
      assert LaunchOwned(w, u, w.launches[u]);
    }
  }

  lemma MarkOwners(w: World, x: Pooled, list: seq<Seen>, first: bool, ok: bool)
    requires Owners(w) && w.loop == Marking(x, list, first)
    ensures Owners(MarkDo(w, x, list, first, ok))
  {
    var v, o := MarkDo(w, x, list, first, ok), if first then Unseen else InWarming;
    hide ReadyOwned, WarmingOwned, TrimsOwned, LaunchesOwned, ClaimedOwned, ListOwned, Absent, OnlyMoves;
    if ok || first {
      OwnMoves(w, v, x.id);
      ListStays(w, v, list, o, x.id);
      LoopMoves(w, v, x.id);
      if ok {
        ReadyMore(w, v, x);
        WarmingLess(w, v, x.id);
      } else {
        ReadyStays(w, v, x.id);
        WarmingStays(w, v, x.id);
      }
    } else {
      Unmoved(w, v);
      UnmovedLists(w, v);
      UnmovedAll(w, v);
    }
  }

  lemma NextWarmingOwners(w: World, list: seq<Seen>, now: int)
    requires Owners(w) && w.loop == Refreshing(list)
    ensures Owners(NextWarmingDo(w, list, now))
  {
    var v := NextWarmingDo(w, list, now);
    hide ReadyOwned, WarmingOwned, TrimsOwned, LaunchesOwned, ClaimedOwned, ListOwned, Absent, OnlyMoves, Overstayed, FirstStage;
    if list != [] {
      ListHead(w, list, InWarming);
    }
    if list != [] && list[0].state.Gone? {
      var id := list[0].inst.id;
      OwnMoves(w, v, id);
      ListStays(w, v, list[1..], InWarming, id);
      LoopMoves(w, v, id);
      ReadyStays(w, v, id);
      WarmingLess(w, v, id);
    } else {
      Unmoved(w, v);
      UnmovedLists(w, v);
      UnmovedAll(w, v);
    }
  }

  /** An instance taken out of the ready list by the loop, or gone from it. */
  lemma TakenOwners(w: World, v: World, k: nat)
    requires Owners(w) && k < |w.pool.ready| && (v.loop.Checking? || v.loop.Rewarming? || v.loop.Dropping?)
    requires var id := w.pool.ready[k].id;
             && v == w.(loop := v.loop, pool := v.pool, owner := v.owner)
             && id in v.owner && v.owner == w.owner[id := v.owner[id]]
             && (!v.loop.Checking? ==> v.loop.inst.id == id && v.owner[id] == ByLoop)
    requires v.pool == w.pool.(ready := w.pool.ready[..k] + w.pool.ready[k + 1..])
    ensures Owners(v)
  {
    var id := w.pool.ready[k].id;
    assert Has(w, id, InReady);
    OwnMoves(w, v, id);
    hide ReadyOwned, WarmingOwned, TrimsOwned, LaunchesOwned, ClaimedOwned, OnlyMoves;
    ReadyLess(w, v, k);
    LoopMoves(w, v, id);
    WarmingStays(w, v, id);
  }

  lemma NextReadyOwners(w: World, list: seq<Seen>)
    requires Owners(w) && w.loop == Checking(list)
    ensures Owners(NextReadyDo(w, list))
  {
    var v := NextReadyDo(w, list);
    hide ReadyOwned, WarmingOwned, TrimsOwned, LaunchesOwned, ClaimedOwned, OnlyMoves, IndexOf;
    if list == [] || list[0].state.Stopped? || TakeReady(w.pool, list[0].inst.id).1.None? {
      Unmoved(w, v);
      UnmovedAll(w, v);
    } else {
      TakenOwners(w, v, IndexOf(w.pool.ready, list[0].inst.id));
    }
  }

  lemma DropOwners(w: World, x: Pooled, v: World)
    requires Owners(w) && (w.loop.Dropping? || w.loop.Rewarming?) && x == w.loop.inst
    requires v.loop.Checking? && v == w.(loop := v.loop, owner := v.owner, open := v.open, pool := v.pool)
    requires (v.owner == w.owner[x.id := Nobody] && v.pool == w.pool)
             || (v.owner == w.owner[x.id := InWarming] && exists now :: v.pool == Pool.Rewarm(w.pool, x.id, now))
    ensures Owners(v)
  {
    hide ReadyOwned, WarmingOwned, TrimsOwned, LaunchesOwned, ClaimedOwned, OnlyMoves;
    OwnMoves(w, v, x.id);
    LoopMoves(w, v, x.id);
    ReadyStays(w, v, x.id);
    if v.pool == w.pool && v.owner[x.id].Nobody? {
      WarmingStays(w, v, x.id);
    } else {
      var now :| v.pool == Pool.Rewarm(w.pool, x.id, now);
      WarmingMore(w, v, x.id, now);
    }
  }

  lemma TrimOwners(w: World)
    requires Owners(w) && w.loop.Idle?
    ensures Owners(TrimDo(w))
  {
    var v := TrimDo(w);
    hide WarmingOwned, TrimsOwned, LaunchesOwned, ClaimedOwned, OnlyMoves, FirstStage;
    if TrimPop(w.pool).1.Some? {
      var k := |w.pool.ready| - 1;
      var id := w.pool.ready[k].id;
      assert Has(w, id, InReady);
      assert v.pool.ready == w.pool.ready[..k] + w.pool.ready[k + 1..];
      OwnMoves(w, v, id);
      hide ReadyOwned;
      ReadyLess(w, v, k);
      LoopMoves(w, v, id);
      WarmingStays(w, v, id);
    }
  }

  lemma LaunchedOwners(w: World, id: Inst, req: Req, now: int)
    requires Owners(w) && w.loop.Filling? && FreshInstance(w, id, req)
    ensures Owners(AddInstance(w, id, req, InWarming).(loop := Idle, pool := Pool.Launched(w.pool, id, now)))
  {
    var v := AddInstance(w, id, req, InWarming).(loop := Idle, pool := Pool.Launched(w.pool, id, now));
    hide ReadyOwned, WarmingOwned, TrimsOwned, LaunchesOwned, ClaimedOwned, OnlyMoves;
    OwnMoves(w, v, id);
    LoopMoves(w, v, id);
    ReadyStays(w, v, id);
    WarmingMore(w, v, id, now);
  }

  lemma LostOwners(w: World, id: Inst, req: Req, now: int)
    requires Owners(w) && w.loop.Filling? && FreshInstance(w, id, req)
    ensures Owners(AddInstance(w, id, req, Unseen).(loop := Idle, pool := Pool.LaunchFailed(w.pool, now)))
  {
    var v := AddInstance(w, id, req, Unseen).(loop := Idle, pool := Pool.LaunchFailed(w.pool, now));
    hide ReadyOwned, WarmingOwned, TrimsOwned, LaunchesOwned, ClaimedOwned, OnlyMoves;
    OwnMoves(w, v, id);
    LoopMoves(w, v, id);
    ReadyStays(w, v, id);
    WarmingStays(w, v, id);
  }

  lemma DiscoverOwners(w: World, l: LoopStep)
    requires Owners(w) && LoopEnabled(w, l)
    requires l.Discover? || l.Refresh? || l.Check? || l.Fill? || l.LaunchFailed?
    ensures Owners(LoopDo(w, l))
  {
    var v := LoopDo(w, l);
    if l.Refresh? {
      assert ListOwned(v, l.list, InWarming);
    } else if l.Discover? {
      assert ListOwned(v, l.list, Unseen);
    }
    hide ReadyOwned, WarmingOwned, TrimsOwned, LaunchesOwned, ClaimedOwned, ListOwned;
    Unmoved(w, v);
    UnmovedAll(w, v);
  }

  lemma LoopOwners(w: World, l: LoopStep)
    requires Owners(w) && LoopEnabled(w, l)
    ensures Owners(LoopDo(w, l))
  {
    hide Owners, NextFoundDo, MarkDo, NextWarmingDo, NextReadyDo, TrimDo, AddInstance, FreshInstance;
    match (w.loop, l)
    case (Discovering(list), NextFound(now)) => NextFoundOwners(w, list, now);
    case (Marking(x, list, first), Mark(ok)) => MarkOwners(w, x, list, first, ok);
    case (Refreshing(list), NextWarming(now)) => NextWarmingOwners(w, list, now);
    case (Checking(list), NextReady) => NextReadyOwners(w, list);
    case (Dropping(x, list), Drop(ok, took)) => DropOwners(w, x, LoopDo(w, l));
    case (Rewarming(x, list), Rewarm(now)) => DropOwners(w, x, LoopDo(w, l));
    case (Idle, Trim) => TrimOwners(w);
    case (Filling, Launched(id, req, now)) => LaunchedOwners(w, id, req, now);
    case (Filling, LaunchLost(id, req, now)) => LostOwners(w, id, req, now);
    case _ => DiscoverOwners(w, l);
  }

  // --- launches ---

  lemma ClaimOwners(w: World, t: Tid)
    requires Owners(w) && (t !in w.launches || w.launches[t].Looking?)
    ensures Owners(ClaimDo(w, t))
  {
    var v := ClaimDo(w, t);
    hide WarmingOwned, TrimsOwned, LaunchesOwned, ClaimedOwned, OnlyMoves, LoopOwned;
    if w.pool.ready != [] {
      var id := w.pool.ready[0].id;
      assert Has(w, id, InReady);
      assert v.pool.ready == w.pool.ready[..0] + w.pool.ready[1..];
      OwnMoves(w, v, id);
      hide ReadyOwned;
      ReadyLess(w, v, 0);
      TrimsStay(w, v, id);
      LaunchMoves(w, v, t, id);
      ClaimedStay(w, v, id);
      LoopStays(w, v, id);
      WarmingStays(w, v, id);
    }
  }

  lemma ColdOwners(w: World, t: Tid, id: Inst)
    requires Owners(w) && FreshInstance(w, id, "") && t !in w.launches
    ensures Owners(AddInstance(To(w, t, Waiting(id, "")), id, "", ForJob(t)))
  {
    var v := AddInstance(To(w, t, Waiting(id, "")), id, "", ForJob(t));
    hide ReadyOwned, WarmingOwned, TrimsOwned, LaunchesOwned, ClaimedOwned, OnlyMoves, LoopOwned;
    OwnMoves(w, v, id);
    ReadyStays(w, v, id);
    TrimsStay(w, v, id);
    LaunchMoves(w, v, t, id);
    ClaimedStay(w, v, id);
    LoopStays(w, v, id);
    WarmingStays(w, v, id);
  }

  lemma ColdLostOwners(w: World, t: Tid, id: Inst)
    requires Owners(w) && FreshInstance(w, id, "")
    ensures Owners(AddInstance(w, id, "", Unseen))
  {
    var v := AddInstance(w, id, "", Unseen);
    hide ReadyOwned, WarmingOwned, TrimsOwned, LaunchesOwned, ClaimedOwned, OnlyMoves, LoopOwned;
    OwnMoves(w, v, id);
    ReadyStays(w, v, id);
    TrimsStay(w, v, id);
    LaunchesStay(w, v, id);
    ClaimedStay(w, v, id);
    LoopStays(w, v, id);
    WarmingStays(w, v, id);
  }

  /** A launch's point changes; its instance stays where it is. */
  lemma SteppedOwners(w: World, v: World, t: Tid)
    requires Owners(w) && v == w.(launches := v.launches, open := v.open)
    requires forall u :: u in v.launches && u != t ==> u in w.launches && v.launches[u] == w.launches[u]
    requires t in v.launches ==> LaunchOwned(v, t, v.launches[t])
    ensures Owners(v)
  {
    hide ReadyOwned, WarmingOwned, TrimsOwned, ClaimedOwned, LoopOwned;
    Unmoved(w, v);
    UnmovedLaunches(w, v, t);
  }

  lemma PreparedOwners(w: World, t: Tid, x: Pooled)
    requires Owners(w) && t in w.launches && w.launches[t] == Preparing(x)
    ensures Owners(Own(To(w, t, Given(x)), x.id, ForJob(t)).(claimed := w.claimed + {(t, x.id)}))
  {
    var v := Own(To(w, t, Given(x)), x.id, ForJob(t)).(claimed := w.claimed + {(t, x.id)});
    assert LaunchOwned(w, t, w.launches[t]);
    OwnMoves(w, v, x.id);
    var u := v.(claimed := w.claimed);
    hide ReadyOwned, WarmingOwned, TrimsOwned, LaunchesOwned, OnlyMoves, LoopOwned;
    ReadyStays(w, v, x.id);
    TrimsStay(w, v, x.id);
    LaunchMoves(w, v, t, x.id);
    LoopStays(w, v, x.id);
    WarmingStays(w, v, x.id);
    OwnMoves(w, u, x.id);
    ClaimedStay(w, u, x.id);
  }

  /** A claim gives its instance up: to warming, to ready, or to nobody. */
  lemma GivenBack(w: World, v: World, t: Tid, x: Pooled)
    requires Owners(w) && t in w.launches && LaunchOwned(w, t, w.launches[t]) && Has(w, x.id, ByClaim(t))
    requires v == w.(launches := v.launches, owner := v.owner, pool := v.pool)
    requires v.launches == w.launches - {t} || v.launches == w.launches[t := Looking]
    requires (exists now :: v.owner == w.owner[x.id := InWarming] && v.pool == Pool.Rewarm(w.pool, x.id, now))
             || (v.owner == w.owner[x.id := InReady] && v.pool == PutFront(w.pool, x))
             || (v.owner == w.owner[x.id := Nobody] && v.pool == w.pool)
    ensures Owners(v)
  {
    hide ReadyOwned, WarmingOwned, TrimsOwned, LaunchesOwned, ClaimedOwned, OnlyMoves, LoopOwned;
    OwnMoves(w, v, x.id);
    TrimsStay(w, v, x.id);
    LaunchMoves(w, v, t, x.id);
    ClaimedStay(w, v, x.id);
    LoopStays(w, v, x.id);
    if v.owner[x.id].InWarming? {
      var now :| v.pool == Pool.Rewarm(w.pool, x.id, now);
      WarmingMore(w, v, x.id, now);
      ReadyStays(w, v, x.id);
    } else if v.owner[x.id].InReady? {
      WarmingStays(w, v, x.id);
      ReadyMore(w, v, x);
    } else {
      WarmingStays(w, v, x.id);
      ReadyStays(w, v, x.id);
    }
  }

  lemma OneLaunchOwned(w: World, t: Tid)
    requires Owners(w) && t in w.launches
    ensures LaunchOwned(w, t, w.launches[t])
  {
  }

  lemma StillIts(w: World, t: Tid, c: LaunchStep)
    requires t in w.launches && LaunchOwned(w, t, w.launches[t]) && LaunchEnabled(w, t, c)
    requires !c.Claim? && !c.Cold? && !c.ColdLost? && !c.Prepared? && !c.Follow? && !c.Requeue?
    ensures var v := LaunchNext(w, t, w.launches[t], c); t in v.launches ==> LaunchOwned(w, t, v.launches[t])
  {
    hide FirstStage, Has, FreshInstance;
  }

  lemma LikeOwned(w: World, v: World, t: Tid, pc: LaunchPc)
    requires LaunchOwned(w, t, pc) && v.owner == w.owner
    ensures LaunchOwned(v, t, pc)
  {
  }

  /** A launch's steps that leave its instance with it. */
  lemma StaysWithIt(w: World, t: Tid, c: LaunchStep)
    requires Owners(w) && LaunchEnabled(w, t, c)
    requires !c.Claim? && !c.Cold? && !c.ColdLost? && !c.Prepared? && !c.Follow? && !c.Requeue?
    ensures Owners(LaunchNext(w, t, w.launches[t], c))
  {
    var pc, v := w.launches[t], LaunchNext(w, t, w.launches[t], c);
    OneLaunchOwned(w, t);
    StillIts(w, t, c);
    OnLeaves(w, t, pc, c);
    OnlyOneLaunch(w, t, pc, c);
    hide Owners, LaunchNext, LaunchOwned, LaunchEnabled;
    if t in v.launches {
      LikeOwned(w, v, t, v.launches[t]);
    }
    SteppedOwners(w, v, t);
  }

  lemma GivesBack(w: World, t: Tid, c: LaunchStep)
    requires Owners(w) && LaunchEnabled(w, t, c) && (c.Follow? || c.Requeue?)
    ensures Owners(LaunchNext(w, t, w.launches[t], c))
  {
    OneLaunchOwned(w, t);
    hide Owners, FirstStage, PutFront;
    var x, v := w.launches[t].inst, LaunchNext(w, t, w.launches[t], c);
    if c.Follow? {
      assert v.pool == Pool.Rewarm(w.pool, x.id, c.now);
    }
    hide Pool.Rewarm;
    GivenBack(w, v, t, x);
  }

  lemma LaunchNextOwners(w: World, t: Tid, c: LaunchStep)
    requires Owners(w) && LaunchEnabled(w, t, c) && !c.Claim? && !c.Cold? && !c.ColdLost?
    ensures Owners(LaunchNext(w, t, w.launches[t], c))
  {
    hide Owners, FirstStage;
    if c.Prepared? {
      PreparedOwners(w, t, w.launches[t].inst);
    } else if c.Follow? || c.Requeue? {
      GivesBack(w, t, c);
    } else {
      StaysWithIt(w, t, c);
    }
  }

  lemma LaunchOwners(w: World, t: Tid, c: LaunchStep)
    requires Owners(w) && LaunchEnabled(w, t, c)
    ensures Owners(LaunchDo(w, t, c))
  {
    hide Owners, ClaimDo, AddInstance, LaunchNext;
    if c.Claim? {
      ClaimOwners(w, t);
    } else if c.Cold? {
      ColdOwners(w, t, c.id);
    } else if c.ColdLost? {
      ColdLostOwners(w, t, c.id);
    } else {
      LaunchNextOwners(w, t, c);
    }
  }

  // --- resizing and ending ---

  lemma ResizeOwners(w: World, t: Tid)
    requires Owners(w) && t !in w.trims
    ensures Owners(ResizeDo(w, t))
  {
    var v := ResizeDo(w, t);
    hide WarmingOwned, LaunchesOwned, ClaimedOwned, OnlyMoves, LoopOwned, FirstStage;
    if TrimPop(w.pool).1.Some? {
      var k := |w.pool.ready| - 1;
      var id := w.pool.ready[k].id;
      assert Has(w, id, InReady);
      assert v.pool.ready == w.pool.ready[..k] + w.pool.ready[k + 1..];
      OwnMoves(w, v, id);
      ReadyLess(w, v, k);
      LaunchesStay(w, v, id);
      ClaimedStay(w, v, id);
      LoopStays(w, v, id);
      WarmingStays(w, v, id);
    }
  }

  lemma SettleOwners(w: World, v: World, x: Pooled)
    requires Owners(w)
    requires v.launches == w.launches && v.claimed == w.claimed && v.pool.warming == w.pool.warming
    requires (v.owner == w.owner[x.id := Nobody] && v.pool == w.pool)
             || (v.owner == w.owner[x.id := InReady] && v.pool == PutBack(w.pool, x))
    requires x.id in w.owner && (w.owner[x.id].ByLoop? || w.owner[x.id].ByTrim?)
    ensures ReadyOwned(v) && WarmingOwned(v) && LaunchesOwned(v) && ClaimedOwned(v) && OnlyMoves(w, v, x.id)
  {
    hide ReadyOwned, WarmingOwned, TrimsOwned, LaunchesOwned, ClaimedOwned, OnlyMoves, LoopOwned;
    OwnMoves(w, v, x.id);
    LaunchesStay(w, v, x.id);
    ClaimedStay(w, v, x.id);
    WarmingStays(w, v, x.id);
    if v.owner[x.id].InReady? {
      ReadyMore(w, v, x);
    } else {
      ReadyStays(w, v, x.id);
    }
  }

  lemma LoopEndedOwners(w: World, did: bool)
    requires Owners(w) && Ends(w, TheLoop).Some?
    ensures Owners(LoopEnded(w, did))
  {
    var v := LoopEnded(w, did);
    hide ReadyOwned, WarmingOwned, TrimsOwned, LaunchesOwned, ClaimedOwned, OnlyMoves, ListOwned, Absent;
    match w.loop
    case Trimming(x, _) =>
      SettleOwners(w, v, x);
      TrimsStay(w, v, x.id);
    case Discarding(x, _, list) =>
      if did {
        OwnMoves(w, v, x.id);
        ListStays(w, v, list, InWarming, x.id);
        LoopMoves(w, v, x.id);
        ReadyStays(w, v, x.id);
        WarmingLess(w, v, x.id);
      } else {
        Unmoved(w, v);
        UnmovedLists(w, v);
        UnmovedAll(w, v);
      }
  }

  lemma TrimEndedOwners(w: World, t: Tid, did: bool)
    requires Owners(w) && t in w.trims
    ensures Owners(TrimEnded(w, t, did))
  {
    var v, x := TrimEnded(w, t, did), w.trims[t].inst;
    assert Has(w, x.id, ByTrim(t));
    SettleOwners(w, v, x);
    hide ReadyOwned, WarmingOwned, LaunchesOwned, ClaimedOwned, LoopOwned;
    LoopStays(w, v, x.id);
  }

  lemma LaunchEndedOwners(w: World, t: Tid)
    requires Owners(w) && t in w.launches
    ensures Owners(LaunchEnded(w, t))
  {
    OneLaunchOwned(w, t);
    var v := LaunchEnded(w, t);
    hide Owners;
    match w.launches[t]
    case Ending(x, _, given) =>
      if given {
        SteppedOwners(w, v, t);
      } else {
        GivenBack(w, v, t, x);
      }
    case _ => SteppedOwners(w, v, t);
  }

  lemma EndedOwners(w: World, who: Actor, did: bool)
    requires Owners(w) && Ends(w, who).Some?
    ensures Owners(Ended(w, who, did))
  {
    match who
    case TheLoop => LoopEndedOwners(w, did);
    case ATrim(t) => TrimEndedOwners(w, t, did);
    case ALaunch(t) => LaunchEndedOwners(w, t);
    case AReap(t) => RequestsOwners(w, Ended(w, who, did));
  }

  /** Nothing that says where an instance is changed. */
  lemma RequestsOwners(w: World, v: World)
    requires Owners(w)
    requires v == w.(reaps := v.reaps, open := v.open, terminated := v.terminated, pool := w.pool.(target := v.pool.target))
    ensures Owners(v)
  {
    hide ReadyOwned, WarmingOwned, TrimsOwned, LaunchesOwned, ClaimedOwned, LoopOwned;
    Unmoved(w, v);
    UnmovedAll(w, v);
  }

  lemma StageLoopOwned(w: World, v: World, stage: Stage)
    requires LoopOwned(w, w.loop) && Ends(w, TheLoop).Some? && v == StageTo(w, TheLoop, stage)
    ensures LoopOwned(v, v.loop) && v == w.(loop := v.loop)
  {
    hide ListOwned, Absent;
    UnmovedLists(w, v);
  }

  lemma StageLoopOwners(w: World, stage: Stage)
    requires Owners(w) && Ends(w, TheLoop).Some?
    ensures Owners(StageTo(w, TheLoop, stage))
  {
    hide ReadyOwned, WarmingOwned, TrimsOwned, LaunchesOwned, ClaimedOwned, LoopOwned, StageTo, Ends;
    var v := StageTo(w, TheLoop, stage);
    StageLoopOwned(w, v, stage);
    Unmoved(w, v);
    UnmovedAll(w, v);
  }

  lemma StageTrimOwners(w: World, t: Tid, stage: Stage)
    requires Owners(w) && t in w.trims
    ensures Owners(StageTo(w, ATrim(t), stage))
  {
    var v := StageTo(w, ATrim(t), stage);
    hide ReadyOwned, WarmingOwned, LaunchesOwned, ClaimedOwned, LoopOwned;
    Unmoved(w, v);
    UnmovedAll(w, v);
  }

  lemma StageOwners(w: World, who: Actor, stage: Stage)
    requires Owners(w) && Ends(w, who).Some?
    ensures Owners(StageTo(w, who, stage))
  {
    hide Owners;
    match who
    case TheLoop => StageLoopOwners(w, stage);
    case ATrim(t) => StageTrimOwners(w, t, stage);
    case ALaunch(t) =>
      OneLaunchOwned(w, t);
      SteppedOwners(w, StageTo(w, who, stage), t);
    case AReap(t) => RequestsOwners(w, StageTo(w, who, stage));
  }

  lemma EndsSame(w: World, v: World, who: Actor)
    requires v == w.(open := v.open)
    ensures Ends(v, who) == Ends(w, who)
  {
  }

  lemma CancelOwners(w: World, who: Actor, ok: bool, took: bool)
    requires Owners(w) && Ends(w, who).Some? && Ends(w, who).value.stage.Cancel?
    ensures Owners(CancelDo(w, who, ok, took))
  {
    var e := Ends(w, who).value;
    var v := w.(open := if took then w.open - {e.inst.spotReq} else w.open);
    hide Owners, StageTo, Ended, Ends;
    EndsSame(w, v, who);
    RequestsOwners(w, v);
    if ok {
      StageOwners(v, who, Terminate);
    } else if e.stage.left > 0 {
      StageOwners(v, who, Cancel(e.stage.left - 1));
    } else {
      EndedOwners(v, who, false);
    }
  }

  lemma TerminateOwners(w: World, who: Actor, ok: bool)
    requires Owners(w) && Ends(w, who).Some?
    ensures Owners(TerminateDo(w, who, ok))
  {
    var id := Ends(w, who).value.inst.id;
    var v := w.(terminated := w.terminated + {(id, id in w.reqOf && w.reqOf[id] in w.open)});
    assert Ends(v, who) == Ends(w, who);
    RequestsOwners(w, v);
    hide Owners, Ended, Ends;
    EndedOwners(v, who, ok);
  }

  lemma OwnersStep(w: World, st: Step)
    requires Owners(w) && Enabled(w, st)
    ensures Owners(Do(w, st))
  {
    hide Owners, LoopDo, LaunchDo, CancelDo, TerminateDo, ResizeDo;
    match st
    case OfLoop(l) => LoopOwners(w, l);
    case OfLaunch(t, c) => LaunchOwners(w, t, c);
    case Resize(t) => ResizeOwners(w, t);
    case CancelCall(who, ok, took) => CancelOwners(w, who, ok, took);
    case TerminateCall(who, ok) => TerminateOwners(w, who, ok);
    case _ => RequestsOwners(w, Do(w, st));
  }
}
