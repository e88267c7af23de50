/** What holds of every run of launches, leases and cache connections. */
module LeaseTheorems {
  import opened Wrappers
  import opened JobIdentity
  import opened Leases
  import opened Slots
  import opened LeaseRuns
  import opened LeaseSafety

  lemma InvStep(w: World, st: Step)
    requires Inv(w) && Enabled(w, st)
    ensures Inv(Do(w, st)) && Grows(w, Do(w, st))
  {
    hide Inv, Grows, Do;
    match st
    case DoAcquire(_, _) => AcquireInv(w, st);
    case DoNoRegistry(_) => BareInv(w, st);
    case DoRegister(_, _, _, _) => RegisterInv(w, st);
    case DoRelease(_, _) => ReleaseInv(w, st);
    case DoFree(_) => FreeInv(w, st);
    case DoStart(_, _, _) => StartInv(w, st);
    case DoAnswer(_, _, _, _, _) => AnswerInv(w, st);
    case DoRenew(_, _, _) => RenewInv(w, st);
    case DoConnect(_, _, _) => ConnInv(w, st);
    case DoLookup(_, _, _) => ConnInv(w, st);
  }

  lemma StartOk(base: nat, size: nat)
    ensures Inv(LeaseRuns.Start(base, size))
  {
    var w := LeaseRuns.Start(base, size);
    forall k | 0 <= k < size ensures k in w.free {
      assert w.free[k] == k;
    }
  }

  lemma {:induction false} Reachable(ws: seq<World>, steps: seq<Step>, base: nat, size: nat, k: nat)
    requires Run(ws, steps, base, size) && k < |ws|
    ensures Inv(ws[k])
  {
    hide Inv, Do, Enabled;
    if k == 0 {
      StartOk(base, size);
    } else {
      Reachable(ws, steps, base, size, k - 1);
      assert Enabled(ws[k - 1], steps[k - 1]) && ws[k] == Do(ws[k - 1], steps[k - 1]);
      InvStep(ws[k - 1], steps[k - 1]);
    }
  }

  lemma GrowsSame(w: World)
    ensures Grows(w, w)
  {
  }

  lemma GrowsTrans(u: World, w: World, v: World)
    requires Grows(u, w) && Grows(w, v)
    ensures Grows(u, v)
  {
  }

  lemma {:induction false} GrowsOnRuns(ws: seq<World>, steps: seq<Step>, base: nat, size: nat, j: nat, k: nat)
    requires Run(ws, steps, base, size) && j <= k < |ws|
    ensures Grows(ws[j], ws[k])
  {
    hide Inv, Do, Enabled, Grows;
    if j == k {
      GrowsSame(ws[j]);
    } else {
      GrowsOnRuns(ws, steps, base, size, j, k - 1);
      Reachable(ws, steps, base, size, k - 1);
      assert Enabled(ws[k - 1], steps[k - 1]) && ws[k] == Do(ws[k - 1], steps[k - 1]);
      InvStep(ws[k - 1], steps[k - 1]);
      GrowsTrans(ws[j], ws[k - 1], ws[k]);
    }
  }

  /**
   A connection bound to a generation is only ever granted the identity resolved for that
   generation's own lease: its address, its runner, the job reported for that runner and the rights a
   resolver answered for that job. Late answers, renewals, failed writes and releases, and reuse of
   the slot make no difference.
   */
  lemma GrantsAreOwn(ws: seq<World>, steps: seq<Step>, base: nat, size: nat, k: nat, g: Grant)
    requires Run(ws, steps, base, size) && k < |ws| && g in ws[k].grants
    ensures var w, gen, i := ws[k], g.conn.bound, g.identity;
            && i.generation == gen && i.ip == g.conn.ip
            && gen in w.holders && w.holders[gen] == Holder(i.runner, i.ip)
            && gen in w.jobs && w.jobs[gen].runner == i.runner && AnswerFor(w.jobs[gen], i)
            && exists a :: (w.jobs[gen], a) in w.answers && MadeFrom(i, a)
  {
    Reachable(ws, steps, base, size, k);
    assert GrantOk(ws[k], g);
  }

  /** What a generation was made for, and the job it started, never change. */
  lemma OneJobPerGeneration(ws: seq<World>, steps: seq<Step>, base: nat, size: nat, j: nat, k: nat, gen: Gen)
    requires Run(ws, steps, base, size) && j <= k < |ws| && gen in ws[j].jobs
    ensures gen in ws[k].jobs && ws[k].jobs[gen] == ws[j].jobs[gen]
    ensures gen in ws[j].holders && gen in ws[k].holders && ws[k].holders[gen] == ws[j].holders[gen]
  {
    Reachable(ws, steps, base, size, j);
    GrowsOnRuns(ws, steps, base, size, j, k);
  }

  lemma NewGrantIsLive(w: World, st: Step, g: Grant)
    requires Inv(w) && Enabled(w, st) && g in Do(w, st).grants && g !in w.grants
    ensures g.conn.bound !in w.revoked
  {
    hide SlotsOk, LeasesOk, VmsOk, Backed, ValidRef, ValidRepository, Lower;
    assert st.DoLookup?;
    var i := Record(w.reg, w.conns[st.c].ip, st.readable);
    assert Valid(i, st.now) && i.generation == g.conn.bound;
  }

  /** Revocation is immediate: once a lease was released, its generation is granted nothing more. */
  lemma {:induction false} RevokedAtOnce(
    ws: seq<World>, steps: seq<Step>, base: nat, size: nat, j: nat, k: nat, g: Grant)
    requires Run(ws, steps, base, size) && j <= k < |ws|
    requires g.conn.bound in ws[j].revoked && g in ws[k].grants
    ensures g in ws[j].grants
  {
    hide Inv, Do, Enabled, Grows;
    if j < k {
      if g in ws[k - 1].grants {
        RevokedAtOnce(ws, steps, base, size, j, k - 1, g);
      } else {
        StillRevoked(ws, steps, base, size, j, k - 1, g.conn.bound);
        Reachable(ws, steps, base, size, k - 1);
        assert Enabled(ws[k - 1], steps[k - 1]) && ws[k] == Do(ws[k - 1], steps[k - 1]);
        NewGrantIsLive(ws[k - 1], steps[k - 1], g);
        assert false;
      }
    }
  }

  lemma StillRevoked(ws: seq<World>, steps: seq<Step>, base: nat, size: nat, j: nat, k: nat, gen: Gen)
    requires Run(ws, steps, base, size) && j <= k < |ws| && gen in ws[j].revoked
    ensures gen in ws[k].revoked
  {
    hide Run;
    GrowsOnRuns(ws, steps, base, size, j, k);
  }

  /** The generation has no lease, and no record but what was left of `rec`. */
  ghost predicate Fading(w: World, gen: Gen, rec: Option<Identity>) {
    && gen in w.holders
    && (forall n :: n in w.reg.leases ==> w.reg.leases[n].identity.generation != gen)
    && forall ip :: ip in w.reg.records && w.reg.records[ip].generation == gen ==> rec == Some(w.reg.records[ip])
  }

  /** What is written or leased is what was there, or another generation's. */
  ghost predicate OthersOnly(r: Reg, t: Reg, gen: Gen) {
    && (forall n :: n in t.leases && t.leases[n].identity.generation == gen ==>
                      n in r.leases && r.leases[n].identity.generation == gen)
    && (forall ip :: ip in t.records && t.records[ip].generation == gen ==> ip in r.records && r.records[ip] == t.records[ip])
  }

  ghost predicate NoLease(r: Reg, gen: Gen) {
    forall n :: n in r.leases ==> r.leases[n].identity.generation != gen
  }

  lemma RegisterOthers(r: Reg, runner: string, ip: string, other: Gen, now: int, o: Outcome, gen: Gen)
    requires gen != other
    ensures OthersOnly(r, Register(r, runner, ip, other, now, o).0, gen)
  {
    RegisterShape(r, runner, ip, other, now, o);
    hide Register;
  }

  lemma AnswerOthers(r: Reg, g: Gen, runner: string, a: Option<Identity>, now: int, o: Outcome, again: Outcome, gen: Gen)
    requires NoLease(r, gen)
    ensures OthersOnly(r, Answer(r, g, runner, a, now, o, again), gen)
  {
    if runner in r.leases && r.leases[runner].identity.generation == g {
      AnswerShape(r, g, runner, a, now, o, again);
    } else {
      TooLate(r, g, runner, a, now, o, again);
    }
    hide Answer;
  }

  lemma SmallOthers(r: Reg, gen: Gen, j: Job, runner: string, now: int, o: Outcome)
    requires NoLease(r, gen)
    ensures OthersOnly(r, StartJob(r, j, now, o).0, gen) && OthersOnly(r, Renew(r, runner, now, o), gen)
    ensures OthersOnly(r, Release(r, runner, o).0, gen)
  {
  }

  lemma FadesOn(w: World, st: Step, gen: Gen, rec: Option<Identity>)
    requires Fading(w, gen, rec) && Enabled(w, st) && Grows(w, Do(w, st))
    ensures Fading(Do(w, st), gen, rec)
  {
    hide Grows, GuestIP, Answer, Register, StartJob, Release, Renew, Granting, OthersOnly;
    var v := Do(w, st);
    StillHeld(w, v, gen);
    match st
    case DoRegister(u, g, now, o) =>
      RegisterOthers(w.reg, w.vms[u].runner, GuestIP(w.base, w.vms[u].slot), g, now, o, gen);
      OthersFade(w, v, gen, rec);
    case DoAnswer(g, a, now, o, again) =>
      AnswerOthers(w.reg, g, w.jobs[g].runner, a, now, o, again, gen);
      OthersFade(w, v, gen, rec);
    case DoStart(j, now, o) =>
      SmallOthers(w.reg, gen, j, "", now, o);
      if StartJob(w.reg, j, now, o).1.Some? {
        OthersFade(w, v, gen, rec);
      }
    case DoRenew(runner, now, o) =>
      SmallOthers(w.reg, gen, Job("", "", "", 0, ""), runner, now, o);
      OthersFade(w, v, gen, rec);
    case DoRelease(u, o) =>
      SmallOthers(w.reg, gen, Job("", "", "", 0, ""), w.vms[u].runner, 0, o);
      OthersFade(w, v, gen, rec);
    case _ =>
  }

  lemma OthersFade(w: World, v: World, gen: Gen, rec: Option<Identity>)
    requires Fading(w, gen, rec) && OthersOnly(w.reg, v.reg, gen) && gen in v.holders
    ensures Fading(v, gen, rec)
  {
  }

  lemma StillHeld(w: World, v: World, gen: Gen)
    requires Grows(w, v) && gen in w.holders
    ensures gen in v.holders
  {
  }

  lemma TooLate(r: Reg, gen: Gen, runner: string, a: Option<Identity>, now: int, o: Outcome, again: Outcome)
    requires runner !in r.leases || r.leases[runner].identity.generation != gen
    ensures Answer(r, gen, runner, a, now, o, again) == r
  {
  }

  function Left(records: map<string, Identity>, ip: string): Option<Identity> {
    if ip in records then Some(records[ip]) else None
  }

  lemma ReleaseFades(w: World, st: Step)
    requires RecordsOk(w) && LeasesOk(w) && VmsOk(w) && st.DoRelease? && Enabled(w, st)
    ensures var v, vm := Do(w, st), w.vms[st.v]; Fading(v, vm.gen, Left(v.reg.records, GuestIP(w.base, vm.slot)))
  {
    hide Answered, NoRights, GuestIP;
    assert VmOk(w, w.vms[st.v]);
  }

  lemma {:induction false} FadesOnRuns(
    ws: seq<World>, steps: seq<Step>, base: nat, size: nat, j: nat, k: nat, gen: Gen, rec: Option<Identity>)
    requires Run(ws, steps, base, size) && j <= k < |ws| && Fading(ws[j], gen, rec)
    ensures Fading(ws[k], gen, rec)
  {
    hide Inv, Do, Enabled, Fading, Grows;
    if j < k {
      FadesOnRuns(ws, steps, base, size, j, k - 1, gen, rec);
      Reachable(ws, steps, base, size, k - 1);
      assert Enabled(ws[k - 1], steps[k - 1]) && ws[k] == Do(ws[k - 1], steps[k - 1]);
      InvStep(ws[k - 1], steps[k - 1]);
      FadesOn(ws[k - 1], steps[k - 1], gen, rec);
    }
  }

  lemma NewGrantReads(w: World, st: Step, g: Grant)
    requires RecordsOk(w) && JobsOk(w) && Enabled(w, st) && g in Do(w, st).grants && g !in w.grants
    ensures st.DoLookup? && g.conn.ip in w.reg.records
    ensures w.reg.records[g.conn.ip].generation == g.conn.bound && st.now < w.reg.records[g.conn.ip].expiresAt
  {
    hide Backed, ValidRef, ValidRepository, Lower;
    assert st.DoLookup?;
    var i := Record(w.reg, w.conns[st.c].ip, st.readable);
    assert Valid(i, st.now) && i.generation == g.conn.bound;
  }

  /**
   A release, failed or not, ends a generation's grants when its record does: whatever is granted to it
   later was read from the record the release left behind, unrenewed and before that record expired.
   */
  lemma RevokedByExpiry(ws: seq<World>, steps: seq<Step>, base: nat, size: nat, j: nat, k: nat, g: Grant)
    requires Run(ws, steps, base, size) && j < k < |steps| && steps[j].DoRelease? && Enabled(ws[j], steps[j])
    requires g.conn.bound == ws[j].vms[steps[j].v].gen && g in ws[k + 1].grants && g !in ws[k].grants
    ensures steps[k].DoLookup?
    ensures var records := ws[j + 1].reg.records;
            && g.conn.ip in records && records[g.conn.ip].generation == g.conn.bound
            && steps[k].now < records[g.conn.ip].expiresAt
  {
    Reachable(ws, steps, base, size, j);
    Reachable(ws, steps, base, size, k);
    assert ws[j + 1] == Do(ws[j], steps[j]) && Enabled(ws[k], steps[k]) && ws[k + 1] == Do(ws[k], steps[k]);
    var ip := GuestIP(ws[j].base, ws[j].vms[steps[j].v].slot);
    var rec := Left(ws[j + 1].reg.records, ip);
    ReleaseFades(ws[j], steps[j]);
    FadesOnRuns(ws, steps, base, size, j + 1, k, g.conn.bound, rec);
    NewGrantReads(ws[k], steps[k], g);
    LeftAt(ws[k], g.conn.ip);
    Reachable(ws, steps, base, size, j + 1);
    LeftAt(ws[j + 1], ip);
  }

  lemma LeftAt(w: World, ip: string)
    requires RecordsOk(w) && ip in w.reg.records
    ensures w.reg.records[ip].ip == ip
  {
  }

  /**
   Two launches never share a slot or a guest address, and each slot of the pool is free once, held
   by one launch, or quarantined.
   */
  lemma SlotsExclusive(ws: seq<World>, steps: seq<Step>, base: nat, size: nat, k: nat)
    requires Run(ws, steps, base, size) && k < |ws|
    ensures var w := ws[k];
            && (forall v, u :: v in w.vms && u in w.vms && v != u ==>
                                 w.vms[v].slot != w.vms[u].slot
                                 && GuestIP(base, w.vms[v].slot) != GuestIP(base, w.vms[u].slot))
            && NoRepeats(w.free)
            && (forall s :: 0 <= s < size <==>
                              s in w.free || s in w.quarantined || exists v :: v in w.vms && w.vms[v].slot == s)
            && (forall v :: v in w.vms ==> w.vms[v].slot !in w.free)
  {
    Reachable(ws, steps, base, size, k);
    GrowsOnRuns(ws, steps, base, size, 0, k);
    var w := ws[k];
    forall v, u | v in w.vms && u in w.vms && v != u
      ensures w.vms[v].slot != w.vms[u].slot && GuestIP(base, w.vms[v].slot) != GuestIP(base, w.vms[u].slot)
    {
      if GuestIP(base, w.vms[v].slot) == GuestIP(base, w.vms[u].slot) {
        GuestIPInjective(base, w.vms[v].slot, w.vms[u].slot);
      }
    }
  }

  /** A quarantined slot is never handed out again. */
  lemma QuarantinedForever(ws: seq<World>, steps: seq<Step>, base: nat, size: nat, j: nat, k: nat, s: nat)
    requires Run(ws, steps, base, size) && j <= k < |ws| && s in ws[j].quarantined
    ensures s in ws[k].quarantined && s !in ws[k].free && forall v :: v in ws[k].vms ==> ws[k].vms[v].slot != s
  {
    hide RecordsOk, LeasesOk, JobsOk, VmsOk, RevokedOk, GrantOk;
    Reachable(ws, steps, base, size, k);
    GrowsOnRuns(ws, steps, base, size, j, k);
  }

  /** A connection accepted from a running VM's address is bound to that VM's generation, if its record can be read. */
  lemma ConnectsAsItself(ws: seq<World>, steps: seq<Step>, base: nat, size: nat, k: nat, v: Vid)
    requires Run(ws, steps, base, size) && k < |ws| && v in ws[k].vms && ws[k].vms[v].Leased?
    ensures var ip := GuestIP(base, ws[k].vms[v].slot);
            Record(ws[k].reg, ip, true).generation == ws[k].vms[v].gen
  {
    hide SlotsOk, LeasesOk, JobsOk, RevokedOk, GrantOk, Backed;
    Reachable(ws, steps, base, size, k);
    GrowsOnRuns(ws, steps, base, size, 0, k);
    assert VmOk(ws[k], ws[k].vms[v]);
  }
}
