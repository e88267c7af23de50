/** What every interleaving of leases keeps, and what follows for whole runs. */
module LeaseSafety {
  import opened Wrappers
  import opened JobIdentity
  import opened Leases
  import opened Slots
  import opened LeaseRuns

  // --- slots ---

  ghost predicate NoRepeats(s: seq<nat>) {
    forall i, j :: 0 <= i < j < |s| ==> s[i] != s[j]
  }

  ghost predicate Taken(vms: map<Vid, Vm>, k: nat) {
    exists v :: v in vms && vms[v].slot == k
  }

  ghost predicate SlotsApart(w: World) {
    && NoRepeats(w.free)
    && (forall v, u :: v in w.vms && u in w.vms && v != u ==> w.vms[v].slot != w.vms[u].slot)
    && (forall v :: v in w.vms ==> w.vms[v].slot !in w.free && w.vms[v].slot !in w.quarantined)
    && (forall k :: k in w.quarantined ==> k !in w.free)
  }

  ghost predicate SlotsWithin(w: World) {
    && (forall k :: k in w.quarantined ==> k < w.size)
    && (forall k :: k in w.free ==> k < w.size)
    && (forall v :: v in w.vms ==> w.vms[v].slot < w.size)
  }

  ghost predicate SlotsAll(w: World) {
    forall k :: 0 <= k < w.size ==> k in w.free || k in w.quarantined || Taken(w.vms, k)
  }

  /** Each slot is free once, held by one VM, or quarantined. */
  ghost predicate SlotsOk(w: World) {
    SlotsApart(w) && SlotsWithin(w) && SlotsAll(w)
  }

  // --- identities ---

  predicate NoRights(i: Identity) {
    i.writeRef == "" && i.readRefs == []
  }

  /** i has the rights of `a` under an address, runner and generation of its own. */
  predicate MadeFrom(i: Identity, a: Identity) {
    i == a.(ip := i.ip, runner := i.runner, generation := i.generation, expiresAt := i.expiresAt, unresolved := i.unresolved)
  }

  ghost predicate Answered(answers: set<(Job, Identity)>, j: Job, i: Identity) {
    exists a :: (j, a) in answers && MadeFrom(i, a)
  }

  /** A record of its generation's own runner and address, without rights or with those resolved for its job. */
  ghost predicate Backed(w: World, i: Identity) {
    && i.generation in w.holders && w.holders[i.generation] == Holder(i.runner, i.ip)
    && (NoRights(i) || (i.generation in w.jobs && Answered(w.answers, w.jobs[i.generation], i)))
  }

  ghost predicate RecordsOk(w: World) {
    forall ip :: ip in w.reg.records ==> w.reg.records[ip].ip == ip && Backed(w, w.reg.records[ip])
  }

  ghost predicate LeasesOk(w: World) {
    && (forall n :: n in w.reg.leases ==> w.reg.leases[n].identity.runner == n && Backed(w, w.reg.leases[n].identity))
    && (forall n :: n in w.reg.leases ==> (w.reg.leases[n].started <==> w.reg.leases[n].identity.generation in w.jobs))
    && (forall n, m :: n in w.reg.leases && m in w.reg.leases && n != m ==>
                         w.reg.leases[n].identity.ip != w.reg.leases[m].identity.ip)
  }

  ghost predicate JobsOk(w: World) {
    && (forall g :: g in w.jobs ==> g in w.holders && w.holders[g].runner == w.jobs[g].runner)
    && "" !in w.holders
    && (forall x :: x in w.answers ==> AnswerFor(x.0, x.1))
  }

  /** A leased VM's lease and record are its own. */
  ghost predicate VmOk(w: World, vm: Vm)
    requires vm.Leased?
  {
    && vm.runner in w.reg.leases && w.reg.leases[vm.runner].identity.generation == vm.gen
    && w.reg.leases[vm.runner].identity.ip == GuestIP(w.base, vm.slot)
    && GuestIP(w.base, vm.slot) in w.reg.records
    && w.reg.records[GuestIP(w.base, vm.slot)].generation == vm.gen
  }

  ghost predicate VmsOk(w: World) {
    && (forall v :: v in w.vms && w.vms[v].Leased? ==> VmOk(w, w.vms[v]))
    && (forall v, u :: v in w.vms && u in w.vms && w.vms[v].Leased? && w.vms[u].Leased? && v != u ==>
                         w.vms[v].runner != w.vms[u].runner)
  }

  ghost predicate RevokedOk(w: World) {
    && (forall g :: g in w.revoked ==> g in w.holders)
    && (forall ip :: ip in w.reg.records ==> w.reg.records[ip].generation !in w.revoked)
    && (forall n :: n in w.reg.leases ==> w.reg.leases[n].identity.generation !in w.revoked)
  }

  /** A grant is its connection's generation's own: the address, the runner, and the rights resolved for its job. */
  ghost predicate GrantOk(w: World, g: Grant) {
    var gen := g.conn.bound;
    && g.identity.generation == gen && gen in w.holders && w.holders[gen] == Holder(g.identity.runner, g.identity.ip)
    && g.conn.ip == g.identity.ip
    && gen in w.jobs && w.jobs[gen].runner == g.identity.runner && Answered(w.answers, w.jobs[gen], g.identity)
    && AnswerFor(w.jobs[gen], g.identity)
  }

  ghost predicate Inv(w: World) {
    && SlotsOk(w) && RecordsOk(w) && LeasesOk(w) && JobsOk(w) && VmsOk(w) && RevokedOk(w)
    && forall g :: g in w.grants ==> GrantOk(w, g)
  }

  // --- what later steps do not take back ---

  /** Holders, jobs and answers only grow. */
  ghost predicate Grows(w: World, v: World) {
    && (forall g :: g in w.holders ==> g in v.holders && v.holders[g] == w.holders[g])
    && (forall g :: g in w.jobs ==> g in v.jobs && v.jobs[g] == w.jobs[g])
    && w.answers <= v.answers && w.grants <= v.grants && w.quarantined <= v.quarantined && w.revoked <= v.revoked
    && v.base == w.base && v.size == w.size
  }

  lemma BackedGrows(w: World, v: World, i: Identity)
    requires Backed(w, i) && Grows(w, v)
    ensures Backed(v, i)
  {
    if !NoRights(i) {
      var a :| (w.jobs[i.generation], a) in w.answers && MadeFrom(i, a);
      assert (v.jobs[i.generation], a) in v.answers;
    }
  }

  lemma GrantGrows(w: World, v: World, g: Grant)
    requires GrantOk(w, g) && Grows(w, v)
    ensures GrantOk(v, g)
  {
    var j := w.jobs[g.conn.bound];
    var a :| (j, a) in w.answers && MadeFrom(g.identity, a);
    assert (j, a) in v.answers;
  }

  lemma GrantsGrow(w: World, v: World)
    requires (forall g :: g in w.grants ==> GrantOk(w, g)) && Grows(w, v) && v.grants == w.grants
    ensures forall g :: g in v.grants ==> GrantOk(v, g)
  {
    forall g | g in v.grants ensures GrantOk(v, g) {
      GrantGrows(w, v, g);
    }
  }

  /** Records and leases carried over, or replaced by backed ones. */
  lemma RecordsGrow(w: World, v: World)
    requires RecordsOk(w) && Grows(w, v)
    requires forall ip :: ip in v.reg.records ==>
                            (ip in w.reg.records && v.reg.records[ip] == w.reg.records[ip])
                            || (v.reg.records[ip].ip == ip && Backed(v, v.reg.records[ip]))
    ensures RecordsOk(v)
  {
    hide Grows;
    forall ip | ip in v.reg.records ensures v.reg.records[ip].ip == ip && Backed(v, v.reg.records[ip]) {
      if ip in w.reg.records && v.reg.records[ip] == w.reg.records[ip] {
        BackedGrows(w, v, w.reg.records[ip]);
      }
    }
  }

  lemma LeasesGrow(w: World, v: World)
    requires LeasesOk(w) && Grows(w, v) && v.reg.leases == w.reg.leases && v.jobs == w.jobs
    ensures LeasesOk(v)
  {
    hide Grows;
    forall n | n in v.reg.leases ensures Backed(v, v.reg.leases[n].identity) {
      BackedGrows(w, v, w.reg.leases[n].identity);
    }
  }

  /** Nothing but slots and launches without a lease changed. */
  lemma RegistrySame(w: World, v: World)
    requires RecordsOk(w) && LeasesOk(w) && JobsOk(w) && VmsOk(w) && RevokedOk(w) && forall g :: g in w.grants ==> GrantOk(w, g)
    requires v == w.(free := v.free, vms := v.vms)
    requires forall u :: u in v.vms && v.vms[u].Leased? ==> u in w.vms && w.vms[u] == v.vms[u]
    ensures RecordsOk(v) && LeasesOk(v) && JobsOk(v) && VmsOk(v) && RevokedOk(v) && forall g :: g in v.grants ==> GrantOk(v, g)
    ensures Grows(w, v)
  {
    hide Backed, GrantOk;
    RecordsGrow(w, v);
    LeasesGrow(w, v);
    GrantsGrow(w, v);
    assert VmsOk(v) by {
      forall u | u in v.vms && v.vms[u].Leased? ensures VmOk(v, v.vms[u]) {
        assert VmOk(w, w.vms[u]);
      }
    }
  }

  // --- slots come and go ---

  lemma AcquireInv(w: World, st: Step)
    requires Inv(w) && st.DoAcquire? && Enabled(w, st)
    ensures Inv(Do(w, st)) && Grows(w, Do(w, st))
  {
    hide SlotsOk, RecordsOk, LeasesOk, JobsOk, VmsOk, RevokedOk, GrantOk;
    var v := Do(w, st);
    SlotTaken(w, st);
    RegistrySame(w, v);
  }

  lemma PoppedFree(free: seq<nat>)
    requires NoRepeats(free) && free != []
    ensures var last, rest := free[|free| - 1], free[..|free| - 1];
            NoRepeats(rest) && last in free && last !in rest && (forall k :: k in free <==> k in rest || k == last)
  {
    var last, rest := free[|free| - 1], free[..|free| - 1];
    forall k | k in free ensures k in rest || k == last {
      var i :| 0 <= i < |free| && free[i] == k;
      assert i < |rest| ==> rest[i] == k;
    }
  }

  /** The last free slot is taken by a launch. */
  function TakenBy(w: World, v: Vid, runner: string): World
    requires w.free != []
  {
    w.(free := w.free[..|w.free| - 1], vms := w.vms[v := New(runner, w.free[|w.free| - 1])])
  }

  lemma TakenApart(w: World, v: Vid, runner: string)
    requires SlotsApart(w) && v !in w.vms && w.free != []
    ensures SlotsApart(TakenBy(w, v, runner))
  {
    PoppedFree(w.free);
    hide NoRepeats;
  }

  lemma TakenWithin(w: World, v: Vid, runner: string)
    requires SlotsWithin(w) && NoRepeats(w.free) && v !in w.vms && w.free != []
    ensures SlotsWithin(TakenBy(w, v, runner))
  {
    PoppedFree(w.free);
    hide NoRepeats;
  }

  lemma TakenAll(w: World, v: Vid, runner: string)
    requires SlotsAll(w) && NoRepeats(w.free) && v !in w.vms && w.free != []
    ensures SlotsAll(TakenBy(w, v, runner))
  {
    PoppedFree(w.free);
    hide NoRepeats, Taken;
    var u := TakenBy(w, v, runner);
    assert Taken(u.vms, u.vms[v].slot) by {
      TakenOne(u.vms, v);
    }
    forall k | 0 <= k < w.size ensures k in u.free || k in u.quarantined || Taken(u.vms, k) {
      if Taken(w.vms, k) {
        TakenMore(w.vms, u.vms, k);
      }
    }
  }

  lemma TakenOne(vms: map<Vid, Vm>, v: Vid)
    requires v in vms
    ensures Taken(vms, vms[v].slot)
  {
  }

  lemma TakenMore(vms: map<Vid, Vm>, more: map<Vid, Vm>, k: nat)
    requires Taken(vms, k) && forall v :: v in vms && vms[v].slot == k ==> v in more && more[v].slot == k
    ensures Taken(more, k)
  {
    var v :| v in vms && vms[v].slot == k;
    assert v in more && more[v].slot == k;
  }

  lemma SlotTaken(w: World, st: Step)
    requires SlotsOk(w) && st.DoAcquire? && Enabled(w, st)
    ensures SlotsOk(Do(w, st))
  {
    assert Do(w, st) == TakenBy(w, st.v, st.runner);
    TakenApart(w, st.v, st.runner);
    TakenWithin(w, st.v, st.runner);
    TakenAll(w, st.v, st.runner);
    hide SlotsApart, SlotsWithin, SlotsAll, Do, TakenBy;
  }

  lemma BareInv(w: World, st: Step)
    requires Inv(w) && st.DoNoRegistry? && Enabled(w, st)
    ensures Inv(Do(w, st)) && Grows(w, Do(w, st))
  {
    hide SlotsOk, RecordsOk, LeasesOk, JobsOk, VmsOk, RevokedOk, GrantOk;
    var v := Do(w, st);
    SlotsMove(w, v);
    RegistrySame(w, v);
  }

  /** Launches go on with the slots they have. */
  lemma SlotsMove(w: World, v: World)
    requires SlotsOk(w) && v.free == w.free && v.quarantined == w.quarantined && v.size == w.size
    requires v.vms.Keys == w.vms.Keys && forall u :: u in w.vms ==> v.vms[u].slot == w.vms[u].slot
    ensures SlotsOk(v)
  {
    hide Taken, NoRepeats;
    forall k | 0 <= k < w.size ensures k in v.free || k in v.quarantined || Taken(v.vms, k) {
      if Taken(w.vms, k) {
        TakenMore(w.vms, v.vms, k);
      }
    }
  }

  lemma FreeInv(w: World, st: Step)
    requires Inv(w) && st.DoFree? && Enabled(w, st)
    ensures Inv(Do(w, st)) && Grows(w, Do(w, st))
  {
    hide SlotsOk, RecordsOk, LeasesOk, JobsOk, VmsOk, RevokedOk, GrantOk;
    var v := Do(w, st);
    SlotBack(w, st);
    RegistrySame(w, v);
  }

  function Back(w: World, v: Vid): World
    requires v in w.vms
  {
    w.(free := w.free + [w.vms[v].slot], vms := w.vms - {v})
  }

  lemma Appended(free: seq<nat>, slot: nat)
    requires NoRepeats(free) && slot !in free
    ensures NoRepeats(free + [slot]) && forall k :: k in free + [slot] <==> k in free || k == slot
  {
    var more := free + [slot];
    assert more[|free|] == slot;
    forall k | k in free ensures k in more {
      var i :| 0 <= i < |free| && free[i] == k;
      assert more[i] == k;
    }
  }

  lemma BackApart(w: World, v: Vid)
    requires SlotsApart(w) && v in w.vms
    ensures SlotsApart(Back(w, v))
  {
    Appended(w.free, w.vms[v].slot);
    hide NoRepeats;
  }

  lemma BackWithin(w: World, v: Vid)
    requires SlotsWithin(w) && v in w.vms
    ensures SlotsWithin(Back(w, v))
  {
  }

  lemma BackAll(w: World, v: Vid)
    requires SlotsAll(w) && SlotsApart(w) && v in w.vms
    ensures SlotsAll(Back(w, v))
  {
    var u, slot := Back(w, v), w.vms[v].slot;
    Appended(w.free, slot);
    hide Taken, NoRepeats;
    forall k | 0 <= k < w.size ensures k in u.free || k in u.quarantined || Taken(u.vms, k) {
      if Taken(w.vms, k) && k != slot {
        TakenMore(w.vms, u.vms, k);
      }
    }
  }

  lemma SlotBack(w: World, st: Step)
    requires SlotsOk(w) && st.DoFree? && Enabled(w, st)
    ensures SlotsOk(Do(w, st))
  {
    assert Do(w, st) == Back(w, st.v);
    BackApart(w, st.v);
    BackWithin(w, st.v);
    BackAll(w, st.v);
    hide SlotsApart, SlotsWithin, SlotsAll, Do, Back;
  }

  // --- registering ---

  lemma RegisterInv(w: World, st: Step)
    requires Inv(w) && st.DoRegister? && Enabled(w, st)
    ensures Inv(Do(w, st)) && Grows(w, Do(w, st))
  {
    hide SlotsOk, RecordsOk, LeasesOk, JobsOk, VmsOk, RevokedOk, GrantOk, Grows, Register;
    var v := Do(w, st);
    SlotsMove(w, v);
    RegisterGrows(w, st);
    RegisterRecords(w, st);
    RegisterLeases(w, st);
    RegisterJobs(w, st);
    RegisterVms(w, st);
    RegisterRevoked(w, st);
    GrantsGrow(w, v);
  }

  lemma RegisterJobs(w: World, st: Step)
    requires JobsOk(w) && st.DoRegister? && Enabled(w, st)
    ensures JobsOk(Do(w, st))
  {
    hide Register, AnswerFor;
  }

  lemma RegisterGrows(w: World, st: Step)
    requires st.DoRegister? && Enabled(w, st)
    ensures Grows(w, Do(w, st))
  {
  }

  /** What registering adds: a record without rights, and the lease once that is published. */
  lemma RegisterShape(r: Reg, runner: string, ip: string, gen: Gen, now: int, o: Outcome)
    ensures var (t, ok) := Register(r, runner, ip, gen, now, o);
            var i := PendingRecord(runner, ip, gen);
            && (t.records == r.records || t.records == r.records[ip := i.(expiresAt := now + LEASE_TTL)])
            && t.leases == (if ok then r.leases[runner := Lease(i, false)] else r.leases)
            && (ok ==> runner !in r.leases && !AddressTaken(r.leases, ip))
  {
    hide IsIPv4, AddressTaken;
  }

  lemma RegisterRecords(w: World, st: Step)
    requires RecordsOk(w) && st.DoRegister? && Enabled(w, st)
    ensures RecordsOk(Do(w, st))
  {
    hide Answered, Register, Grows, GuestIP, RecordsOk;
    RegisterGrows(w, st);
    RegisterShape(w.reg, w.vms[st.v].runner, GuestIP(w.base, w.vms[st.v].slot), st.gen, st.now, st.o);
    RecordsGrow(w, Do(w, st));
  }

  lemma RegisterBacked(w: World, st: Step)
    requires LeasesOk(w) && st.DoRegister? && Enabled(w, st)
    ensures var v := Do(w, st);
            forall n :: n in v.reg.leases ==> v.reg.leases[n].identity.runner == n && Backed(v, v.reg.leases[n].identity)
  {
    hide Answered, Register, Grows, GuestIP;
    RegisterGrows(w, st);
    RegisterShape(w.reg, w.vms[st.v].runner, GuestIP(w.base, w.vms[st.v].slot), st.gen, st.now, st.o);
    var v := Do(w, st);
    forall n | n in v.reg.leases ensures v.reg.leases[n].identity.runner == n && Backed(v, v.reg.leases[n].identity) {
      if n in w.reg.leases {
        BackedGrows(w, v, w.reg.leases[n].identity);
      }
    }
  }

  lemma RegisterLeases(w: World, st: Step)
    requires LeasesOk(w) && JobsOk(w) && st.DoRegister? && Enabled(w, st)
    ensures LeasesOk(Do(w, st))
  {
    RegisterBacked(w, st);
    hide Backed, Register, GuestIP;
    RegisterShape(w.reg, w.vms[st.v].runner, GuestIP(w.base, w.vms[st.v].slot), st.gen, st.now, st.o);
    assert st.gen !in w.jobs;
  }

  lemma RegisterVms(w: World, st: Step)
    requires VmsOk(w) && LeasesOk(w) && st.DoRegister? && Enabled(w, st)
    ensures VmsOk(Do(w, st))
  {
    hide Backed, IsIPv4, GuestIP;
    var v := Do(w, st);
    forall u | u in v.vms && v.vms[u].Leased? ensures VmOk(v, v.vms[u]) {
      if u != st.v {
        assert VmOk(w, w.vms[u]);
      }
    }
    forall u, t | u in v.vms && t in v.vms && v.vms[u].Leased? && v.vms[t].Leased? && u != t
      ensures v.vms[u].runner != v.vms[t].runner
    {
      assert u != st.v ==> VmOk(w, w.vms[u]);
      assert t != st.v ==> VmOk(w, w.vms[t]);
    }
  }

  lemma RegisterRevoked(w: World, st: Step)
    requires RevokedOk(w) && st.DoRegister? && Enabled(w, st)
    ensures RevokedOk(Do(w, st))
  {
    hide IsIPv4, GuestIP;
  }

  // --- a lease and its record change ---

  predicate SameHolder(i: Identity, l: Identity) {
    i.ip == l.ip && i.runner == l.runner && i.generation == l.generation
  }

  lemma BackedLike(w: World, i: Identity, t: int, u: bool)
    requires Backed(w, i)
    ensures Backed(w, i.(expiresAt := t)) && Backed(w, i.(unresolved := u))
  {
    if !NoRights(i) {
      var a :| (w.jobs[i.generation], a) in w.answers && MadeFrom(i, a);
      assert MadeFrom(i.(expiresAt := t), a) && MadeFrom(i.(unresolved := u), a);
    }
  }

  /** Only the lease of `runner` changed, and it is still the same holder's. */
  ghost predicate LeaseMoves(w: World, v: World, runner: string) {
    && runner in w.reg.leases && runner in v.reg.leases
    && v == w.(reg := v.reg, jobs := v.jobs, answers := v.answers, resolving := v.resolving)
    && v.reg.leases == w.reg.leases[runner := v.reg.leases[runner]]
    && SameHolder(v.reg.leases[runner].identity, w.reg.leases[runner].identity)
    && (v.reg.leases[runner].started <==> w.reg.leases[runner].identity.generation in v.jobs)
    && (forall g :: g in v.jobs && g != w.reg.leases[runner].identity.generation ==> g in w.jobs)
  }

  /** Its record is as it was, or is one of its own. */
  ghost predicate RecordMoves(w: World, v: World, l: Identity) {
    v.reg.records == w.reg.records
    || (l.ip in v.reg.records && v.reg.records == w.reg.records[l.ip := v.reg.records[l.ip]]
        && SameHolder(v.reg.records[l.ip], l) && Backed(v, v.reg.records[l.ip]))
  }

  lemma MoveLeases(w: World, v: World, runner: string)
    requires LeasesOk(w) && Grows(w, v) && LeaseMoves(w, v, runner) && Backed(v, v.reg.leases[runner].identity)
    ensures LeasesOk(v)
  {
    hide Answered;
    forall n | n in v.reg.leases
      ensures Backed(v, v.reg.leases[n].identity)
      ensures v.reg.leases[n].started <==> v.reg.leases[n].identity.generation in v.jobs
    {
      if n != runner {
        BackedGrows(w, v, w.reg.leases[n].identity);
        assert w.reg.leases[n].identity.generation != w.reg.leases[runner].identity.generation;
      }
    }
  }

  lemma MoveRecords(w: World, v: World, runner: string)
    requires RecordsOk(w) && LeasesOk(w) && Grows(w, v) && LeaseMoves(w, v, runner)
    requires RecordMoves(w, v, w.reg.leases[runner].identity)
    ensures RecordsOk(v)
  {
    hide Backed;
    RecordsGrow(w, v);
  }

  lemma MoveVms(w: World, v: World, runner: string)
    requires VmsOk(w) && RevokedOk(w) && LeasesOk(w) && LeaseMoves(w, v, runner)
    requires RecordMoves(w, v, w.reg.leases[runner].identity)
    ensures VmsOk(v) && RevokedOk(v)
  {
    hide Backed, GuestIP;
    forall u | u in v.vms && v.vms[u].Leased? ensures VmOk(v, v.vms[u]) {
      assert VmOk(w, w.vms[u]);
    }
  }

  lemma MoveInv(w: World, v: World, runner: string)
    requires Inv(w) && Grows(w, v) && LeaseMoves(w, v, runner) && JobsOk(v)
    requires RecordMoves(w, v, w.reg.leases[runner].identity) && Backed(v, v.reg.leases[runner].identity)
    ensures Inv(v)
  {
    assert SlotsOk(v);
    hide SlotsOk, RecordsOk, LeasesOk, JobsOk, VmsOk, RevokedOk, GrantOk, Grows, RecordMoves, Backed;
    MoveLeases(w, v, runner);
    MoveRecords(w, v, runner);
    MoveVms(w, v, runner);
    GrantsGrow(w, v);
  }

  lemma WriteMoves(r: Reg, i: Identity, now: int, o: Outcome)
    ensures Write(r, i, now, o).leases == r.leases
    ensures Write(r, i, now, o).records == r.records
            || Write(r, i, now, o).records == r.records[i.ip := i.(expiresAt := now + LEASE_TTL)]
  {
  }

  /** All MoveInv asks for. */
  ghost predicate Moves(w: World, v: World, runner: string) {
    && Grows(w, v) && LeaseMoves(w, v, runner) && JobsOk(v)
    && RecordMoves(w, v, w.reg.leases[runner].identity) && Backed(v, v.reg.leases[runner].identity)
  }

  lemma RenewMoves(w: World, st: Step)
    requires LeasesOk(w) && JobsOk(w) && st.DoRenew? && st.runner in w.reg.leases
    ensures Moves(w, Do(w, st), st.runner)
  {
    hide Backed, JobsOk, Grows, Write;
    var i, v := w.reg.leases[st.runner].identity, Do(w, st);
    OnlyRegistry(w, v);
    BackedGrows(w, v, i);
    BackedLike(v, i, st.now + LEASE_TTL, false);
    WriteMoves(w.reg, i, st.now, st.o);
  }

  lemma OnlyRegistry(w: World, v: World)
    requires JobsOk(w) && v == w.(reg := v.reg)
    ensures Grows(w, v) && JobsOk(v)
  {
  }

  lemma RenewInv(w: World, st: Step)
    requires Inv(w) && st.DoRenew?
    ensures Inv(Do(w, st)) && Grows(w, Do(w, st))
  {
    hide SlotsOk, VmsOk, RevokedOk, GrantOk, RecordsOk, JobsOk, LeasesOk, Backed, Write, RecordMoves;
    if st.runner in w.reg.leases {
      RenewMoves(w, st);
      MoveInv(w, Do(w, st), st.runner);
    }
  }

  lemma StartGrows(w: World, st: Step)
    requires LeasesOk(w) && JobsOk(w) && st.DoStart?
    requires st.j.runner in w.reg.leases && !w.reg.leases[st.j.runner].started
    ensures Grows(w, Do(w, st)) && JobsOk(Do(w, st))
  {
    hide Answered, AnswerFor, Write, NoRights;
  }

  lemma StartBacked(w: World, st: Step)
    requires LeasesOk(w) && JobsOk(w) && st.DoStart?
    requires st.j.runner in w.reg.leases && !w.reg.leases[st.j.runner].started
    ensures var v, i := Do(w, st), Provenance(w.reg.leases[st.j.runner].identity, st.j);
            Grows(w, v) && JobsOk(v) && Backed(v, i) && Backed(v, i.(expiresAt := st.now + LEASE_TTL))
  {
    StartGrows(w, st);
    hide Answered, AnswerFor, Write, Grows, JobsOk;
  }

  lemma StartMoves(w: World, st: Step)
    requires LeasesOk(w) && JobsOk(w) && st.DoStart?
    requires st.j.runner in w.reg.leases && !w.reg.leases[st.j.runner].started
    ensures Moves(w, Do(w, st), st.j.runner)
  {
    hide Backed, JobsOk, Grows;
    StartBacked(w, st);
    var i := Provenance(w.reg.leases[st.j.runner].identity, st.j);
    WriteMoves(w.reg.(leases := w.reg.leases[st.j.runner := Lease(i, true)]), i, st.now, st.o);
  }

  lemma StartInv(w: World, st: Step)
    requires Inv(w) && st.DoStart?
    ensures Inv(Do(w, st)) && Grows(w, Do(w, st))
  {
    hide SlotsOk, VmsOk, RevokedOk, GrantOk, RecordsOk, JobsOk, LeasesOk, Backed, Write, RecordMoves;
    if st.j.runner in w.reg.leases && !w.reg.leases[st.j.runner].started {
      StartMoves(w, st);
      MoveInv(w, Do(w, st), st.j.runner);
    }
  }

  // --- the resolver answers ---

  lemma AnswerGrows(w: World, st: Step)
    requires JobsOk(w) && st.DoAnswer? && Enabled(w, st)
    ensures Grows(w, Do(w, st)) && JobsOk(Do(w, st))
  {
    hide Answer, AnswerFor;
  }

  /** Too late: nothing but the record of what the resolver said. */
  lemma LateAnswer(w: World, st: Step)
    requires Inv(w) && st.DoAnswer? && Enabled(w, st) && Do(w, st).reg == w.reg
    ensures Inv(Do(w, st))
  {
    var v := Do(w, st);
    AnswerGrows(w, st);
    assert v == w.(answers := v.answers, resolving := v.resolving);
    hide Do, Backed, GrantOk, AnswerFor;
    SameBooks(w, v);
    hide SlotsOk, VmsOk, RevokedOk, JobsOk, Grows;
    RecordsGrow(w, v);
    LeasesGrow(w, v);
    GrantsGrow(w, v);
  }

  lemma SameBooks(w: World, v: World)
    requires v == w.(answers := v.answers, resolving := v.resolving) && SlotsOk(w) && VmsOk(w) && RevokedOk(w)
    ensures SlotsOk(v) && VmsOk(v) && RevokedOk(v)
  {
  }

  lemma GrantedBacked(w: World, v: World, l: Identity, runner: string, a: Identity, now: int)
    requires Backed(w, l) && Grows(w, v) && l.runner == runner && l.generation in v.jobs && (v.jobs[l.generation], a) in v.answers
    ensures Backed(v, Granted(l, runner, a, now)) && Backed(v, Granted(l, runner, a, now).(expiresAt := now + LEASE_TTL))
  {
    assert MadeFrom(Granted(l, runner, a, now), a);
  }

  lemma AnswerBacked(w: World, st: Step)
    requires LeasesOk(w) && JobsOk(w) && st.DoAnswer? && Enabled(w, st)
    requires var runner := w.jobs[st.gen].runner; runner in w.reg.leases && w.reg.leases[runner].identity.generation == st.gen
    ensures var v, runner, t := Do(w, st), w.jobs[st.gen].runner, st.now + LEASE_TTL;
            var l := w.reg.leases[runner].identity;
            && Grows(w, v) && JobsOk(v)
            && Backed(v, l.(unresolved := true)) && Backed(v, l.(unresolved := true).(expiresAt := t))
            && (st.a.Some? ==> Backed(v, Granted(l, runner, st.a.value, st.now)))
  {
    hide Answered, AnswerFor, Answer;
    AnswerGrows(w, st);
    var v, runner := Do(w, st), w.jobs[st.gen].runner;
    var l := w.reg.leases[runner].identity;
    BackedGrows(w, v, l);
    BackedLike(v, l, 0, true);
    BackedLike(v, l.(unresolved := true), st.now + LEASE_TTL, true);
    if st.a.Some? {
      GrantedBacked(w, v, l, runner, st.a.value, st.now);
    }
  }

  lemma AnswerMoves(w: World, st: Step)
    requires LeasesOk(w) && JobsOk(w) && st.DoAnswer? && Enabled(w, st)
    requires var runner := w.jobs[st.gen].runner; runner in w.reg.leases && w.reg.leases[runner].identity.generation == st.gen
    ensures Moves(w, Do(w, st), w.jobs[st.gen].runner)
  {
    hide Backed, JobsOk, Grows, AnswerFor, Answer, LeasesOk;
    AnswerBacked(w, st);
    var runner := w.jobs[st.gen].runner;
    LeaseFacts(w, runner);
    AnswerShape(w.reg, st.gen, runner, st.a, st.now, st.o, st.again);
  }

  lemma LeaseFacts(w: World, n: string)
    requires LeasesOk(w) && n in w.reg.leases
    ensures var l := w.reg.leases[n]; l.identity.runner == n && (l.started <==> l.identity.generation in w.jobs)
  {
  }

  /** An answer in time leaves one of two leases and one of three records. */
  lemma AnswerShape(r: Reg, gen: Gen, runner: string, a: Option<Identity>, now: int, o: Outcome, again: Outcome)
    requires runner in r.leases && r.leases[runner].identity.generation == gen
    ensures var t, l := Answer(r, gen, runner, a, now, o, again), r.leases[runner];
            var gone := l.identity.(unresolved := true);
            && (t.leases == r.leases[runner := l.(identity := gone)]
                || (a.Some? && t.leases == r.leases[runner := l.(identity := Granted(l.identity, runner, a.value, now))]))
            && (t.records == r.records
                || t.records == r.records[l.identity.ip := gone.(expiresAt := now + LEASE_TTL)]
                || (a.Some? && t.records == r.records[l.identity.ip := Granted(l.identity, runner, a.value, now)]))
  {
    hide Valid;
    var l := r.leases[runner];
    var gone := l.identity.(unresolved := true);
    assert Took(o) && Took(again) && a.Some? ==>
      r.records[l.identity.ip := Granted(l.identity, runner, a.value, now)][l.identity.ip := gone.(expiresAt := now + LEASE_TTL)]
      == r.records[l.identity.ip := gone.(expiresAt := now + LEASE_TTL)];
  }

  lemma AnswerInv(w: World, st: Step)
    requires Inv(w) && st.DoAnswer? && Enabled(w, st)
    ensures Inv(Do(w, st)) && Grows(w, Do(w, st))
  {
    hide SlotsOk, VmsOk, RevokedOk, GrantOk, RecordsOk, LeasesOk, JobsOk, Backed, RecordMoves, Write, Grows, AnswerFor, Valid;
    AnswerGrows(w, st);
    var runner := w.jobs[st.gen].runner;
    if runner in w.reg.leases && w.reg.leases[runner].identity.generation == st.gen {
      AnswerMoves(w, st);
      MoveInv(w, Do(w, st), runner);
    } else {
      LateAnswer(w, st);
    }
  }

  // --- releasing ---

  lemma SlotQuarantined(w: World, v: World, u: Vid)
    requires SlotsOk(w) && u in w.vms && v.free == w.free && v.size == w.size
    requires v.vms == w.vms - {u} && v.quarantined == w.quarantined + {w.vms[u].slot}
    ensures SlotsOk(v)
  {
    hide Taken, NoRepeats;
    forall k | 0 <= k < w.size ensures k in v.free || k in v.quarantined || Taken(v.vms, k) {
      if Taken(w.vms, k) && k !in v.quarantined {
        TakenMore(w.vms, v.vms, k);
      }
    }
  }

  lemma ReleaseSlots(w: World, st: Step)
    requires SlotsOk(w) && st.DoRelease? && Enabled(w, st)
    ensures SlotsOk(Do(w, st))
  {
    hide SlotsOk, Release;
    if Release(w.reg, w.vms[st.v].runner, st.o).1 {
      SlotsMove(w, Do(w, st));
    } else {
      SlotQuarantined(w, Do(w, st), st.v);
    }
  }

  lemma OwnAddresses(w: World)
    requires LeasesOk(w)
    ensures forall n, m :: n in w.reg.leases && m in w.reg.leases && n != m ==>
                             w.reg.leases[n].identity.ip != w.reg.leases[m].identity.ip
  {
  }

  lemma VmKept(w: World, v: World, vm: Vm, gone: string)
    requires vm.Leased? && VmOk(w, vm) && vm.runner != gone && gone in w.reg.leases && v.base == w.base
    requires w.reg.leases[gone].identity.ip != w.reg.leases[vm.runner].identity.ip
    requires v.reg.leases == w.reg.leases - {gone}
    requires v.reg.records == w.reg.records || v.reg.records == w.reg.records - {w.reg.leases[gone].identity.ip}
    ensures VmOk(v, vm)
  {
  }

  lemma ReleaseVms(w: World, st: Step)
    requires LeasesOk(w) && VmsOk(w) && st.DoRelease? && Enabled(w, st)
    ensures VmsOk(Do(w, st))
  {
    hide LeasesOk, VmOk, GuestIP;
    var v, vm := Do(w, st), w.vms[st.v];
    HasLease(w, vm);
    OwnAddresses(w);
    ReleaseShape(w, st);
    hide Do, Release;
    forall u | u in v.vms && v.vms[u].Leased? ensures VmOk(v, v.vms[u]) {
      HasLease(w, w.vms[u]);
      VmKept(w, v, w.vms[u], vm.runner);
    }
  }

  /** The launch is gone or bare, its lease gone, and its record gone or left. */
  lemma ReleaseShape(w: World, st: Step)
    requires st.DoRelease? && Enabled(w, st) && w.vms[st.v].runner in w.reg.leases
    ensures var v, runner := Do(w, st), w.vms[st.v].runner;
            && v.base == w.base && v.reg.leases == w.reg.leases - {runner}
            && (v.reg.records == w.reg.records || v.reg.records == w.reg.records - {w.reg.leases[runner].identity.ip})
            && (forall u :: u in v.vms && v.vms[u].Leased? ==> u in w.vms && u != st.v && v.vms[u] == w.vms[u])
  {
  }

  lemma HasLease(w: World, vm: Vm)
    requires vm.Leased? && VmOk(w, vm)
    ensures vm.runner in w.reg.leases
  {
  }

  lemma ReleaseRevoked(w: World, st: Step)
    requires RecordsOk(w) && LeasesOk(w) && VmsOk(w) && RevokedOk(w) && st.DoRelease? && Enabled(w, st)
    ensures RevokedOk(Do(w, st))
  {
    hide Answered, GuestIP, NoRights;
    assert VmOk(w, w.vms[st.v]);
  }

  lemma ReleaseGrows(w: World, st: Step)
    requires st.DoRelease? && Enabled(w, st)
    ensures Grows(w, Do(w, st))
  {
  }

  lemma ReleaseLeases(w: World, st: Step)
    requires RecordsOk(w) && LeasesOk(w) && JobsOk(w) && st.DoRelease? && Enabled(w, st)
    ensures var v := Do(w, st); RecordsOk(v) && LeasesOk(v) && JobsOk(v)
  {
    hide Backed, AnswerFor, Grows;
    var v := Do(w, st);
    ReleaseGrows(w, st);
    RecordsGrow(w, v);
    FewerLeases(w, v);
  }

  lemma FewerLeases(w: World, v: World)
    requires LeasesOk(w) && Grows(w, v) && v.jobs == w.jobs && v.reg.leases.Keys <= w.reg.leases.Keys
    requires forall n :: n in v.reg.leases ==> v.reg.leases[n] == w.reg.leases[n]
    ensures LeasesOk(v)
  {
    hide Backed, Grows;
    forall n | n in v.reg.leases ensures Backed(v, v.reg.leases[n].identity) {
      BackedGrows(w, v, w.reg.leases[n].identity);
    }
  }

  lemma ReleaseInv(w: World, st: Step)
    requires Inv(w) && st.DoRelease? && Enabled(w, st)
    ensures Inv(Do(w, st)) && Grows(w, Do(w, st))
  {
    hide SlotsOk, VmsOk, RevokedOk, GrantOk, RecordsOk, LeasesOk, JobsOk, Grows, Release;
    ReleaseGrows(w, st);
    ReleaseSlots(w, st);
    ReleaseLeases(w, st);
    ReleaseVms(w, st);
    ReleaseRevoked(w, st);
    GrantsGrow(w, Do(w, st));
  }

  // --- connections ---

  lemma {:induction false} LowerTwice(s: string)
    ensures Lower(Lower(s)) == Lower(s)
  {
    forall k | 0 <= k < |s| ensures Lower(Lower(s))[k] == Lower(s)[k] {
      assert Lower(s)[k] == LowerChar(s[k]);
    }
  }

  lemma LookupGrants(w: World, st: Step)
    requires RecordsOk(w) && JobsOk(w) && st.DoLookup? && Enabled(w, st)
    requires Granting(w.conns[st.c], Record(w.reg, w.conns[st.c].ip, st.readable), st.now).Some?
    ensures GrantOk(w, Grant(w.conns[st.c],
                             Granting(w.conns[st.c], Record(w.reg, w.conns[st.c].ip, st.readable), st.now).value))
  {
    hide ValidRef, ValidRepository, Lower;
    var i := Record(w.reg, w.conns[st.c].ip, st.readable);
    assert Backed(w, i) && i.readRefs != [];
    var j := w.jobs[i.generation];
    var a :| (j, a) in w.answers && MadeFrom(i, a);
    assert AnswerFor(j, a);
    LowerTwice(j.repository);
    assert i.(repository := Lower(i.repository)) == i;
  }

  lemma ConnInv(w: World, st: Step)
    requires Inv(w) && (st.DoConnect? || st.DoLookup?) && Enabled(w, st)
    ensures Inv(Do(w, st)) && Grows(w, Do(w, st))
  {
    var v := Do(w, st);
    assert v == w.(conns := v.conns, grants := v.grants);
    hide GrantOk, Granting, Answered, AnswerFor;
    if st.DoLookup? && Granting(w.conns[st.c], Record(w.reg, w.conns[st.c].ip, st.readable), st.now).Some? {
      LookupGrants(w, st);
    }
    ConnSame(w, v);
  }

  lemma ConnSame(w: World, v: World)
    requires SlotsOk(w) && RecordsOk(w) && LeasesOk(w) && JobsOk(w) && VmsOk(w) && RevokedOk(w)
    requires v == w.(conns := v.conns, grants := v.grants) && w.grants <= v.grants
    requires forall g :: g in v.grants ==> GrantOk(w, g)
    ensures Inv(v) && Grows(w, v)
  {
    hide Backed, AnswerFor, GrantOk;
    var u := w.(conns := v.conns);
    forall g | g in v.grants ensures GrantOk(v, g) {
      GrantGrows(w, v, g);
    }
    RecordsGrow(w, v);
    LeasesGrow(w, v);
  }
}
