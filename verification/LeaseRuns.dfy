/**
 Every interleaving of launching and ending VMs, reported jobs, late resolver answers, renewals and
 the cache server's connections. Each locked section of the registry is one step; a reader sees one
 record at a time, whenever it likes.
 */
module LeaseRuns {
  import opened Wrappers
  import opened JobIdentity
  import opened Leases
  import opened Slots

  type Vid = nat
  type Cid = nat

  /** A launch: it has its slot; then a lease, or none to give back. */
  datatype Vm =
    | New(runner: string, slot: nat)
    | Leased(runner: string, slot: nat, gen: Gen)
    | Bare(runner: string, slot: nat)

  /** A TCP connection from an address, bound to the generation read when it was accepted. */
  datatype Conn = Conn(ip: string, bound: Gen)

  datatype Grant = Grant(conn: Conn, identity: Identity)

  /** Whom a generation was made for. */
  datatype Holder = Holder(runner: string, ip: string)

  datatype World = World(
    reg: Reg,
    base: nat,
    size: nat,
    free: seq<nat>,
    vms: map<Vid, Vm>,
    quarantined: set<nat>,
    holders: map<Gen, Holder>,        // every generation there was
    jobs: map<Gen, Job>,              // the job each generation started
    answers: set<(Job, Identity)>,    // everything a resolver ever answered
    resolving: set<Gen>,
    revoked: set<Gen>,                // generations whose release succeeded
    conns: map<Cid, Conn>,
    grants: set<Grant>
  )

  datatype Step =
    | DoAcquire(v: Vid, runner: string)
    | DoNoRegistry(v: Vid)
    | DoRegister(v: Vid, gen: Gen, now: int, o: Outcome)
    | DoRelease(v: Vid, o: Outcome)
    | DoFree(v: Vid)
    | DoStart(j: Job, now: int, o: Outcome)
    | DoAnswer(gen: Gen, a: Option<Identity>, now: int, o: Outcome, again: Outcome)
    | DoRenew(runner: string, now: int, o: Outcome)
    | DoConnect(c: Cid, ip: string, readable: bool)
    | DoLookup(c: Cid, readable: bool, now: int)

  predicate Enabled(w: World, st: Step) {
    match st
    case DoAcquire(v, _) => v !in w.vms && w.free != []
    case DoNoRegistry(v) => v in w.vms && w.vms[v].New?
    case DoRegister(v, gen, _, _) => v in w.vms && w.vms[v].New? && gen != "" && gen !in w.holders
    case DoRelease(v, _) => v in w.vms && w.vms[v].Leased?
    case DoFree(v) => v in w.vms && w.vms[v].Bare?
    case DoStart(_, _, _) => true
    case DoAnswer(gen, a, _, _, _) => gen in w.resolving && gen in w.jobs && (a.Some? ==> AnswerFor(w.jobs[gen], a.value))
    case DoRenew(_, _, _) => true
    case DoConnect(c, _, _) => c !in w.conns
    case DoLookup(c, _, _) => c in w.conns
  }

  /** What a reader finds for an address. */
  function Record(reg: Reg, ip: string, readable: bool): Identity {
    if readable && ip in reg.records && reg.records[ip].ip == ip then reg.records[ip] else NoIdentity
  }

  /** What one look at its record grants a connection. */
  function Granting(conn: Conn, i: Identity, now: int): Option<Identity> {
    if i.generation != "" && i.generation != conn.bound then None
    else if Valid(i, now) then Some(i.(repository := Lower(i.repository)))
    else None
  }

  function Do(w: World, st: Step): World
    requires Enabled(w, st)
  {
    match st
    case DoAcquire(v, runner) =>
      var (free, slot) := Pop(w.free);
      if slot.Some? then w.(free := free, vms := w.vms[v := New(runner, slot.value)]) else w
    case DoNoRegistry(v) => w.(vms := w.vms[v := Bare(w.vms[v].runner, w.vms[v].slot)])
    case DoRegister(v, gen, now, o) =>
      var vm := w.vms[v];
      var ip := GuestIP(w.base, vm.slot);
      var (reg, ok) := Register(w.reg, vm.runner, ip, gen, now, o);
      w.(reg := reg, holders := w.holders[gen := Holder(vm.runner, ip)],
         vms := w.vms[v := if ok then Leased(vm.runner, vm.slot, gen) else Bare(vm.runner, vm.slot)])
    case DoRelease(v, o) =>
      var vm := w.vms[v];
      var (reg, ok) := Release(w.reg, vm.runner, o);
      if ok then w.(reg := reg, vms := w.vms[v := Bare(vm.runner, vm.slot)], revoked := w.revoked + {vm.gen})
      else w.(reg := reg, vms := w.vms - {v}, quarantined := w.quarantined + {vm.slot})
    case DoFree(v) => w.(free := w.free + [w.vms[v].slot], vms := w.vms - {v})
    case DoStart(j, now, o) =>
      var (reg, gen) := StartJob(w.reg, j, now, o);
      if gen.Some? then w.(reg := reg, jobs := w.jobs[gen.value := j], resolving := w.resolving + {gen.value}) else w
    case DoAnswer(gen, a, now, o, again) =>
      w.(reg := Answer(w.reg, gen, w.jobs[gen].runner, a, now, o, again), resolving := w.resolving - {gen},
         answers := if a.Some? then w.answers + {(w.jobs[gen], a.value)} else w.answers)
    case DoRenew(runner, now, o) => w.(reg := Renew(w.reg, runner, now, o))
    case DoConnect(c, ip, readable) => w.(conns := w.conns[c := Conn(ip, Record(w.reg, ip, readable).generation)])
    case DoLookup(c, readable, now) =>
      var got := Granting(w.conns[c], Record(w.reg, w.conns[c].ip, readable), now);
      if got.Some? then w.(grants := w.grants + {Grant(w.conns[c], got.value)}) else w
  }

  function Start(base: nat, size: nat): World {
    World(Reg(map[], map[]), base, size, seq(size, k => k), map[], {}, map[], map[], {}, {}, {}, map[], {})
  }

  ghost predicate Run(ws: seq<World>, steps: seq<Step>, base: nat, size: nat) {
    && |ws| == |steps| + 1 && ws[0] == Start(base, size)
    && forall k :: 0 <= k < |steps| ==> Enabled(ws[k], steps[k]) && ws[k + 1] == Do(ws[k], steps[k])
  }
}
