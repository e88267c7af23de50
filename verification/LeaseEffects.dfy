/** What each step of the leases does, in every run; above all, that a resolved job gets its rights. */
module LeaseEffects {
  import opened Wrappers
  import opened JobIdentity
  import opened Decimal
  import opened Leases
  import opened Slots
  import opened LeaseRuns
  import opened LeaseSafety
  import opened LeaseTheorems

  lemma Stepped(ws: seq<World>, steps: seq<Step>, base: nat, size: nat, k: nat)
    requires Run(ws, steps, base, size) && k < |steps|
    ensures k + 1 < |ws| && Inv(ws[k]) && Enabled(ws[k], steps[k]) && ws[k + 1] == Do(ws[k], steps[k]) && Inv(ws[k + 1])
  {
    hide Inv, Do, Enabled;
    Reachable(ws, steps, base, size, k);
    Reachable(ws, steps, base, size, k + 1);
  }

  // --- a slot's address ---

  lemma {:induction false} SplitFirst(a: string, rest: string, c: char)
    requires c !in a
    ensures Split(a + [c] + rest, c) == [a] + Split(rest, c)
  {
    if a == "" {
      assert "" + [c] + rest == [c] + rest;
    } else {
      var s := a + [c] + rest;
      assert s[0] == a[0] && s[1..] == a[1..] + [c] + rest;
      SplitFirst(a[1..], rest, c);
      assert [a[0]] + a[1..] == a;
    }
  }

  lemma {:induction false} SplitWhole(a: string, c: char)
    requires c !in a
    ensures Split(a, c) == [a]
  {
    if a != "" {
      SplitWhole(a[1..], c);
      assert [a[0]] + a[1..] == a;
    }
  }

  lemma {:induction false} ValueOfDigits(n: nat)
    ensures DecimalValue(Digits(n)) == n
  {
    var s := Digits(n);
    if n < 10 {
      assert s[..0] == "";
    } else {
      assert s[..|s| - 1] == Digits(n / 10);
      ValueOfDigits(n / 10);
    }
  }

  lemma {:induction false} LeadingDigit(n: nat)
    ensures n >= 10 ==> Digits(n)[0] != '0'
    ensures n > 0 ==> Digits(n)[0] != '0'
  {
    if n >= 10 {
      LeadingDigit(n / 10);
    }
  }

  lemma OctetOf(n: nat)
    ensures Octet(Digits(n)) <==> n <= 255
  {
    ValueOfDigits(n);
    LeadingDigit(n);
    if n <= 255 {
      assert |Digits(n)| <= 3 by {
        if n >= 10 {
          assert Digits(n) == Digits(n / 10) + [Digit(n % 10)];
          if n / 10 >= 10 {
            assert Digits(n / 10) == Digits(n / 10 / 10) + [Digit(n / 10 % 10)];
          }
        }
      }
    }
  }

  lemma NoDot(n: nat)
    ensures '.' !in Digits(n)
  {
  }

  /** The numbers of a written address. */
  lemma GuestParts(base: nat, slot: nat)
    ensures Split(GuestIP(base, slot), '.') == ["172", Digits(base), Digits(slot), "2"]
  {
    var b, s := Digits(base), Digits(slot);
    NoDot(base);
    NoDot(slot);
    hide Split, Digits;
    var end := s + ['.'] + "2";
    assert GuestIP(base, slot) == "172" + ['.'] + (b + ['.'] + end);
    SplitFirst("172", b + ['.'] + end, '.');
    SplitFirst(b, end, '.');
    SplitFirst(s, "2", '.');
    SplitWhole("2", '.');
  }

  lemma FixedParts()
    ensures Octet("172") && Octet("2")
  {
    assert Digits(2) == "2" && Digits(1) == "1";
    assert Digits(17) == Digits(1) + [Digit(7)] == "17";
    assert Digits(172) == Digits(17) + [Digit(2)] == "172";
    OctetOf(2);
    OctetOf(172);
  }

  /** The address of a slot's guest is an IPv4 address exactly if the base and the slot fit an octet. */
  lemma GuestIsAddress(base: nat, slot: nat)
    ensures IsIPv4(GuestIP(base, slot)) <==> base <= 255 && slot <= 255
  {
    GuestParts(base, slot);
    FixedParts();
    OctetOf(base);
    OctetOf(slot);
    hide Octet, Split, Digits, GuestIP;
    var p := Split(GuestIP(base, slot), '.');
    assert p[0] == "172" && p[1] == Digits(base) && p[2] == Digits(slot) && p[3] == "2";
  }

  // --- a lease begins ---

  ghost predicate AddressFree(leases: map<string, Lease>, ip: string) {
    forall n :: n in leases ==> leases[n].identity.ip != ip
  }

  /** The VM got its lease, or did not and could not. */
  ghost predicate LeaseBegun(w: World, v: World, st: Step)
    requires st.DoRegister? && st.v in w.vms
  {
    var vm := w.vms[st.v];
    var ip := GuestIP(w.base, vm.slot);
    && st.v in v.vms
    && (v.vms[st.v] == Leased(vm.runner, vm.slot, st.gen) <==>
          w.base <= 255 && vm.slot <= 255 && vm.runner != "" && vm.runner !in w.reg.leases
          && AddressFree(w.reg.leases, ip) && st.o.Done?)
    && (if v.vms[st.v].Leased? then
          && vm.runner in v.reg.leases && !v.reg.leases[vm.runner].started
          && NewLease(v.reg.leases[vm.runner].identity, vm.runner, ip, st.gen)
          && ip in v.reg.records && NewLease(v.reg.records[ip].(expiresAt := 0), vm.runner, ip, st.gen)
          && v.reg.records[ip].expiresAt == st.now + 90
        else v.reg.leases == w.reg.leases)
    && LeasesApart(w.reg, v.reg, vm.runner) && RecordsApart(w.reg, v.reg, ip)
  }

  /**
   A VM gets its lease exactly when its address is one, it has a name, neither name nor address is leased,
   and its record could be published; the record then says nothing but whose it is, and grants nothing.
   */
  lemma RegisterMeans(ws: seq<World>, steps: seq<Step>, base: nat, size: nat, k: nat)
    requires Run(ws, steps, base, size) && k < |steps| && steps[k].DoRegister?
    ensures steps[k].v in ws[k].vms && LeaseBegun(ws[k], ws[k + 1], steps[k])
  {
    Stepped(ws, steps, base, size, k);
    RegisterOne(ws[k], steps[k]);
    hide *;
  }

  /** Whose it is, and nothing else. */
  predicate NewLease(i: Identity, runner: string, ip: string, gen: Gen) {
    && i.runner == runner && i.ip == ip && i.generation == gen && i.repository == "" && i.event == "" && i.writeRef == ""
    && i.readRefs == [] && !i.fork && i.runID == 0 && i.jobID == "" && !i.unresolved
  }

  lemma Registered(r: Reg, runner: string, ip: string, gen: Gen, now: int, o: Outcome)
    ensures var (t, ok) := Register(r, runner, ip, gen, now, o);
            && (ok <==> IsIPv4(ip) && runner != "" && runner !in r.leases && AddressFree(r.leases, ip) && o.Done?)
            && (if ok then
                  && runner in t.leases && !t.leases[runner].started && NewLease(t.leases[runner].identity, runner, ip, gen)
                  && ip in t.records && NewLease(t.records[ip].(expiresAt := 0), runner, ip, gen)
                  && t.records[ip].expiresAt == now + 90
                else t.leases == r.leases)
            && LeasesApart(r, t, runner) && RecordsApart(r, t, ip)
  {
    hide IsIPv4;
  }

  lemma RegisterOne(w: World, st: Step)
    requires st.DoRegister? && Enabled(w, st)
    ensures st.v in w.vms && LeaseBegun(w, Do(w, st), st)
  {
    var vm := w.vms[st.v];
    GuestIsAddress(w.base, vm.slot);
    Registered(w.reg, vm.runner, GuestIP(w.base, vm.slot), st.gen, st.now, st.o);
    hide IsIPv4, GuestIP, Register, LeasesApart, RecordsApart, AddressFree, NewLease;
  }

  // --- a job is reported ---

  /**
   The first job reported for a lease is noted for its generation and handed to the resolver, and its
   record, if it can be published, still grants nothing; a job for nobody's lease, or a second one,
   changes nothing.
   */
  lemma StartMeans(ws: seq<World>, steps: seq<Step>, base: nat, size: nat, k: nat)
    requires Run(ws, steps, base, size) && k < |steps| && steps[k].DoStart?
    ensures Noted(ws[k], ws[k + 1], steps[k])
  {
    Stepped(ws, steps, base, size, k);
    StartOne(ws[k], steps[k]);
    hide *;
  }

  ghost predicate Noted(w: World, v: World, st: Step)
    requires st.DoStart?
  {
    var j := st.j;
    if j.runner in w.reg.leases && !w.reg.leases[j.runner].started then
      var l := w.reg.leases[j.runner].identity;
      && j.runner in v.reg.leases && v.reg.leases[j.runner].started && l.generation in v.resolving
      && l.generation in v.jobs && v.jobs[l.generation] == j
      && (var i := v.reg.leases[j.runner].identity;
          && i.repository == j.repository && i.event == j.event && i.runID == j.runID && i.jobID == j.jobID
          && i == l.(repository := i.repository, event := i.event, runID := i.runID, jobID := i.jobID)
          && (st.o.Done? || st.o.took ==> l.ip in v.reg.records && v.reg.records[l.ip] == i.(expiresAt := st.now + 90)))
      && LeasesApart(w.reg, v.reg, j.runner)
    else v == w
  }

  lemma StartOne(w: World, st: Step)
    requires st.DoStart?
    ensures Noted(w, Do(w, st), st)
  {
  }

  // --- the resolver answers ---

  /** The lease of the generation is still there. */
  predicate Waiting(w: World, gen: Gen) {
    gen in w.jobs && w.jobs[gen].runner in w.reg.leases && w.reg.leases[w.jobs[gen].runner].identity.generation == gen
  }

  function LeaseOf(w: World, gen: Gen): Identity
    requires Waiting(w, gen)
  {
    w.reg.leases[w.jobs[gen].runner].identity
  }

  /** The rights of an answer under a lease's own address, runner and generation, good for a while. */
  predicate Carries(i: Identity, l: Identity, a: Identity, expires: int) {
    && i.ip == l.ip && i.runner == l.runner && i.generation == l.generation && i.expiresAt == expires
    && i.repository == a.repository && i.event == a.event && i.runID == a.runID && i.jobID == a.jobID
    && i.writeRef == a.writeRef && i.readRefs == a.readRefs && i.fork == a.fork && i.unresolved == a.unresolved
  }

  /** Some identity carrying the answer's rights is valid. */
  ghost predicate Usable(l: Identity, a: Identity, now: int) {
    exists i :: Carries(i, l, a, now + 90) && Valid(i, now)
  }

  /** What an answer does to a lease still there. */
  ghost predicate Published(w: World, v: World, st: Step)
    requires st.DoAnswer? && Waiting(w, st.gen)
  {
    var l := LeaseOf(w, st.gen);
    && Waiting(v, st.gen) && v.jobs == w.jobs
    && (if st.a.Some? && Usable(l, st.a.value, st.now) && st.o.Done? then
          && Carries(LeaseOf(v, st.gen), l, st.a.value, st.now + 90)
          && l.ip in v.reg.records && v.reg.records[l.ip] == LeaseOf(v, st.gen) && !v.reg.records[l.ip].unresolved
        else
          && LeaseOf(v, st.gen) == l.(unresolved := true)
          && (st.again.Done? || st.again.took ==>
                l.ip in v.reg.records && v.reg.records[l.ip] == l.(unresolved := true, expiresAt := st.now + 90)))
    && LeasesApart(w.reg, v.reg, l.runner) && RecordsApart(w.reg, v.reg, l.ip)
  }

  /** Every other lease is as it was. */
  ghost predicate LeasesApart(r: Reg, t: Reg, name: string) {
    forall n :: n != name ==> (n in t.leases <==> n in r.leases) && (n in r.leases ==> t.leases[n] == r.leases[n])
  }

  /** Every other address's record is as it was. */
  ghost predicate RecordsApart(r: Reg, t: Reg, address: string) {
    forall ip :: ip != address ==> SameRecord(r, t, ip)
  }

  lemma CarriesIs(i: Identity, l: Identity, a: Identity, now: int, runner: string)
    requires l.runner == runner && Carries(i, l, a, now + 90)
    ensures i == Granted(l, runner, a, now)
  {
  }

  lemma CarriesOne(l: Identity, a: Identity, now: int, runner: string)
    requires l.runner == runner
    ensures Carries(Granted(l, runner, a, now), l, a, now + 90)
    ensures Usable(l, a, now) <==> Valid(Granted(l, runner, a, now), now)
    ensures Valid(Granted(l, runner, a, now), now) ==> !a.unresolved
  {
    if Usable(l, a, now) {
      var i :| Carries(i, l, a, now + 90) && Valid(i, now);
      CarriesIs(i, l, a, now, runner);
    }
  }

  lemma AnswerOne(w: World, st: Step)
    requires LeasesOk(w) && st.DoAnswer? && Enabled(w, st) && Waiting(w, st.gen)
    ensures Published(w, Do(w, st), st)
  {
    var runner := w.jobs[st.gen].runner;
    assert LeaseOf(w, st.gen).runner == runner;
    if st.a.Some? {
      CarriesOne(LeaseOf(w, st.gen), st.a.value, st.now, runner);
    }
    AnswerParts(w.reg, st.gen, runner, st.a, st.now, st.o, st.again);
    hide LeasesOk, Valid, Usable, AnswerFor, Answer, Granted, Carries;
  }

  /** The section's two outcomes. */
  lemma AnswerParts(r: Reg, gen: Gen, runner: string, a: Option<Identity>, now: int, o: Outcome, again: Outcome)
    requires runner in r.leases && r.leases[runner].identity.generation == gen && r.leases[runner].identity.runner == runner
    ensures var t, l := Answer(r, gen, runner, a, now, o, again), r.leases[runner].identity;
            && runner in t.leases && LeasesApart(r, t, runner) && RecordsApart(r, t, l.ip)
            && (if a.Some? && Usable(l, a.value, now) && o.Done? then
                  && Carries(t.leases[runner].identity, l, a.value, now + 90)
                  && l.ip in t.records && t.records[l.ip] == t.leases[runner].identity && !t.records[l.ip].unresolved
                else
                  && t.leases[runner].identity == l.(unresolved := true)
                  && (again.Done? || again.took ==>
                        l.ip in t.records && t.records[l.ip] == l.(unresolved := true, expiresAt := now + 90)))
  {
    var l := r.leases[runner].identity;
    if a.Some? {
      CarriesOne(l, a.value, now, runner);
    }
    hide Valid, Usable, Granted, Carries;
    if a.Some? && Valid(Granted(l, runner, a.value, now), now) && o.Done? {
      PublishedHere(r, gen, runner, a.value, now, o, again);
    } else {
      GivenUpHere(r, gen, runner, a, now, o, again);
    }
    hide Answer;
  }

  lemma GivenUpHere(r: Reg, gen: Gen, runner: string, a: Option<Identity>, now: int, o: Outcome, again: Outcome)
    requires runner in r.leases && r.leases[runner].identity.generation == gen
    requires !(a.Some? && Valid(Granted(r.leases[runner].identity, runner, a.value, now), now) && o.Done?)
    ensures var t, l := Answer(r, gen, runner, a, now, o, again), r.leases[runner];
            var gone := l.identity.(unresolved := true);
            && t.leases == r.leases[runner := Lease(gone, l.started)] && RecordsApart(r, t, gone.ip)
            && (again.Done? || again.took ==> gone.ip in t.records && t.records[gone.ip] == gone.(expiresAt := now + 90))
  {
    hide Valid;
  }

  lemma PublishedHere(r: Reg, gen: Gen, runner: string, a: Identity, now: int, o: Outcome, again: Outcome)
    requires runner in r.leases && r.leases[runner].identity.generation == gen && o.Done?
    requires Valid(Granted(r.leases[runner].identity, runner, a, now), now)
    ensures var t, l := Answer(r, gen, runner, Some(a), now, o, again), r.leases[runner].identity;
            var i := Granted(l, runner, a, now);
            t == Reg(r.leases[runner := Lease(i, r.leases[runner].started)], r.records[l.ip := i])
  {
    hide Valid;
  }

  /**
   An answer that comes while its lease is there publishes exactly its rights: the record at the lease's
   address carries them under the lease's own generation. A missing or unusable answer, or one that could
   not be published, leaves the lease unresolved, and its record too once that can be written.
   */
  lemma AnswerPublishes(ws: seq<World>, steps: seq<Step>, base: nat, size: nat, k: nat)
    requires Run(ws, steps, base, size) && k < |steps| && steps[k].DoAnswer? && Waiting(ws[k], steps[k].gen)
    ensures Published(ws[k], ws[k + 1], steps[k])
  {
    Stepped(ws, steps, base, size, k);
    AnswerOne(ws[k], steps[k]);
    hide *;
  }

  /** One that comes too late changes no lease and no record. */
  lemma LateChangesNothing(ws: seq<World>, steps: seq<Step>, base: nat, size: nat, k: nat)
    requires Run(ws, steps, base, size) && k < |steps| && steps[k].DoAnswer? && !Waiting(ws[k], steps[k].gen)
    ensures ws[k + 1].reg == ws[k].reg
  {
    Stepped(ws, steps, base, size, k);
    LateOne(ws[k], steps[k]);
    hide *;
  }

  lemma LateOne(w: World, st: Step)
    requires st.DoAnswer? && Enabled(w, st) && !Waiting(w, st.gen)
    ensures Do(w, st).reg == w.reg
  {
    hide Valid, AnswerFor;
  }

  // --- a request is granted ---

  /** A connection is bound for good to the generation in the record at its address, if there is one it can read. */
  lemma ConnectMeans(ws: seq<World>, steps: seq<Step>, base: nat, size: nat, k: nat)
    requires Run(ws, steps, base, size) && k < |steps| && steps[k].DoConnect?
    ensures var w, v, st := ws[k], ws[k + 1], steps[k];
            && st.c !in w.conns && v == w.(conns := v.conns) && v.conns.Keys == w.conns.Keys + {st.c}
            && v.conns[st.c].ip == st.ip
            && v.conns[st.c].bound == (if st.readable && st.ip in w.reg.records then w.reg.records[st.ip].generation else "")
            && (forall c :: c in w.conns ==> v.conns[c] == w.conns[c])
  {
    Stepped(ws, steps, base, size, k);
    hide SlotsOk, LeasesOk, JobsOk, VmsOk, RevokedOk, GrantOk, Backed;
  }

  /** The record a connection reads at t is its own generation's and valid. */
  predicate Readable(w: World, c: Conn, t: int) {
    c.ip in w.reg.records && w.reg.records[c.ip].generation == c.bound && Valid(w.reg.records[c.ip], t)
  }

  /**
   A request is granted exactly when the record at its address is valid and of the generation it is bound
   to, and what it is granted are that record's rights.
   */
  lemma LookupMeans(ws: seq<World>, steps: seq<Step>, base: nat, size: nat, k: nat)
    requires Run(ws, steps, base, size) && k < |steps| && steps[k].DoLookup? && steps[k].readable
    ensures LookedUp(ws[k], ws[k + 1], steps[k])
  {
    Stepped(ws, steps, base, size, k);
    hide *;
    LookupOne(ws[k], steps[k]);
  }

  ghost predicate LookedUp(w: World, v: World, st: Step)
    requires st.DoLookup?
  {
    && st.c in w.conns
    && (if Readable(w, w.conns[st.c], st.now) then GrantAdded(w, v, w.conns[st.c]) else v.grants == w.grants)
  }

  /** One grant was added, of the rights in the connection's record. */
  ghost predicate GrantAdded(w: World, v: World, c: Conn)
    requires c.ip in w.reg.records
  {
    exists g :: v.grants == w.grants + {g} && GrantsRecord(w, c, g)
  }

  predicate GrantsRecord(w: World, c: Conn, g: Grant)
    requires c.ip in w.reg.records
  {
    var i := w.reg.records[c.ip];
    && g.conn == c && g.identity.writeRef == i.writeRef && g.identity.readRefs == i.readRefs
    && g.identity.repository == Lower(i.repository) && g.identity.generation == i.generation
    && g.identity.jobID == i.jobID && g.identity.runID == i.runID
  }

  lemma LookupOne(w: World, st: Step)
    requires Inv(w) && st.DoLookup? && st.readable && Enabled(w, st)
    ensures LookedUp(w, Do(w, st), st)
  {
    hide ValidRef, ValidRepository, Lower, LeaseSafety.Answered, AnswerFor, SlotsOk, LeasesOk, VmsOk, RevokedOk, GrantOk;
    var c, v := w.conns[st.c], Do(w, st);
    assert !Valid(NoIdentity, st.now);
    if c.ip in w.reg.records {
      var i := w.reg.records[c.ip];
      assert i.ip == c.ip && i.generation != "";
      if Readable(w, c, st.now) {
        var g := Grant(c, i.(repository := Lower(i.repository)));
        assert v.grants == w.grants + {g} && GrantsRecord(w, c, g);
      }
    }
  }

  /** While a grown validity lasts, the same identity is still valid. */
  lemma ValidLater(i: Identity, now: int, t: int)
    requires Valid(i, now) && now <= t < i.expiresAt
    ensures Valid(i, t)
  {
  }

  /**
   So a resolved job gets its rights: whatever a connection from its VM, bound to its generation, asks
   right after a usable answer was published, and before the record expires, is granted with the refs
   the resolver named.
   */
  lemma ResolvedIsGranted(ws: seq<World>, steps: seq<Step>, base: nat, size: nat, k: nat)
    requires Run(ws, steps, base, size) && k + 1 < |steps| && steps[k].DoAnswer? && Waiting(ws[k], steps[k].gen)
    requires var l := LeaseOf(ws[k], steps[k].gen);
             && steps[k].a.Some? && Usable(l, steps[k].a.value, steps[k].now) && steps[k].o.Done?
             && steps[k + 1].DoLookup? && steps[k + 1].readable && steps[k].now <= steps[k + 1].now < steps[k].now + 90
             && steps[k + 1].c in ws[k].conns && ws[k].conns[steps[k + 1].c] == Conn(l.ip, steps[k].gen)
    ensures exists g :: g in ws[k + 2].grants && g.conn.bound == steps[k].gen
                        && g.identity.writeRef == steps[k].a.value.writeRef && g.identity.readRefs == steps[k].a.value.readRefs
  {
    var w, v, l, a := ws[k], ws[k + 1], LeaseOf(ws[k], steps[k].gen), steps[k].a.value;
    AnswerPublishes(ws, steps, base, size, k);
    LookupMeans(ws, steps, base, size, k + 1);
    Stepped(ws, steps, base, size, k);
    assert v.conns == w.conns by {
      ConnsStay(w, steps[k]);
    }
    var i := v.reg.records[l.ip];
    assert Valid(i, steps[k].now) by {
      SameCarried(l, a, i, steps[k].now);
    }
    ValidLater(i, steps[k].now, steps[k + 1].now);
    hide Run, Do, Inv, Enabled, Valid, Usable;
    assert Readable(v, v.conns[steps[k + 1].c], steps[k + 1].now);
    var g :| ws[k + 2].grants == v.grants + {g} && GrantsRecord(v, v.conns[steps[k + 1].c], g);
    assert g in ws[k + 2].grants;
  }

  lemma ConnsStay(w: World, st: Step)
    requires st.DoAnswer? && Enabled(w, st)
    ensures Do(w, st).conns == w.conns
  {
    hide Answer, AnswerFor;
  }

  lemma SameCarried(l: Identity, a: Identity, i: Identity, now: int)
    requires Usable(l, a, now) && Carries(i, l, a, now + 90)
    ensures Valid(i, now)
  {
    var u :| Carries(u, l, a, now + 90) && Valid(u, now);
    assert u == i;
  }

  // --- a lease ends ---

  /** What ends with a lease, whether or not its record could be removed. */
  ghost predicate LeaseOver(w: World, v: World, st: Step)
    requires st.DoRelease? && st.v in w.vms && w.vms[st.v].Leased?
  {
    var vm := w.vms[st.v];
    var ip := GuestIP(w.base, vm.slot);
    && vm.runner !in v.reg.leases
    && (st.o.Done? || st.o.took ==> ip !in v.reg.records)
    && (if st.o.Done? then st.v in v.vms && v.vms[st.v] == Bare(vm.runner, vm.slot) && vm.gen in v.revoked
                          && v.quarantined == w.quarantined
        else st.v !in v.vms && v.quarantined == w.quarantined + {vm.slot})
    && (forall n :: n in w.reg.leases && n != vm.runner ==> n in v.reg.leases && v.reg.leases[n] == w.reg.leases[n])
    && (forall p :: p in w.reg.records && p != ip ==> p in v.reg.records && v.reg.records[p] == w.reg.records[p])
  }

  /**
   A release ends its lease at once; only if its record is gone for certain does the slot go back, and
   otherwise it is quarantined.
   */
  lemma ReleaseMeans(ws: seq<World>, steps: seq<Step>, base: nat, size: nat, k: nat)
    requires Run(ws, steps, base, size) && k < |steps| && steps[k].DoRelease?
    ensures steps[k].v in ws[k].vms && ws[k].vms[steps[k].v].Leased? && LeaseOver(ws[k], ws[k + 1], steps[k])
  {
    Stepped(ws, steps, base, size, k);
    ReleaseOne(ws[k], steps[k]);
    hide *;
  }

  lemma ReleaseOne(w: World, st: Step)
    requires VmsOk(w) && st.DoRelease? && Enabled(w, st)
    ensures st.v in w.vms && w.vms[st.v].Leased? && LeaseOver(w, Do(w, st), st)
  {
    hide GuestIP;
    assert VmOk(w, w.vms[st.v]);
  }

  /** A renewal extends the record of its lease, and no other. */
  lemma RenewMeans(ws: seq<World>, steps: seq<Step>, base: nat, size: nat, k: nat)
    requires Run(ws, steps, base, size) && k < |steps| && steps[k].DoRenew? && steps[k].runner in ws[k].reg.leases
    ensures var w, v, st := ws[k], ws[k + 1], steps[k];
            var i := w.reg.leases[st.runner].identity;
            && v.reg.leases == w.reg.leases
            && (st.o.Done? || st.o.took ==> i.ip in v.reg.records && v.reg.records[i.ip] == i.(expiresAt := st.now + 90))
            && (forall ip :: ip in w.reg.records && (ip != i.ip || !(st.o.Done? || st.o.took)) ==>
                               ip in v.reg.records && v.reg.records[ip] == w.reg.records[ip])
  {
    Stepped(ws, steps, base, size, k);
    RenewOne(ws[k], steps[k]);
    hide *;
  }

  lemma RenewOne(w: World, st: Step)
    requires st.DoRenew? && st.runner in w.reg.leases
    ensures var v, i := Do(w, st), w.reg.leases[st.runner].identity;
            && v.reg.leases == w.reg.leases
            && (st.o.Done? || st.o.took ==> i.ip in v.reg.records && v.reg.records[i.ip] == i.(expiresAt := st.now + 90))
            && (forall ip :: ip in w.reg.records && (ip != i.ip || !(st.o.Done? || st.o.took)) ==>
                               ip in v.reg.records && v.reg.records[ip] == w.reg.records[ip])
  {
  }

  /** A launch takes the slot given back last, and a slot given back is free again. */
  lemma SlotsMean(ws: seq<World>, steps: seq<Step>, base: nat, size: nat, k: nat)
    requires Run(ws, steps, base, size) && k < |steps|
    ensures steps[k].DoAcquire? ==>
              && ws[k].free == ws[k + 1].free + [SlotOf(ws[k + 1], steps[k].v)]
              && steps[k].v in ws[k + 1].vms && ws[k + 1].vms[steps[k].v].runner == steps[k].runner
    ensures steps[k].DoFree? ==>
              ws[k + 1].free == ws[k].free + [SlotOf(ws[k], steps[k].v)] && steps[k].v !in ws[k + 1].vms
  {
    Stepped(ws, steps, base, size, k);
    SlotsOne(ws[k], steps[k]);
    hide *;
  }

  function SlotOf(w: World, v: Vid): nat {
    if v in w.vms then w.vms[v].slot else 0
  }

  lemma SlotsOne(w: World, st: Step)
    requires Enabled(w, st)
    ensures st.DoAcquire? ==>
              && w.free == Do(w, st).free + [SlotOf(Do(w, st), st.v)]
              && st.v in Do(w, st).vms && Do(w, st).vms[st.v].runner == st.runner
    ensures st.DoFree? ==> Do(w, st).free == w.free + [SlotOf(w, st.v)] && st.v !in Do(w, st).vms
  {
    hide Register, Release, StartJob, Answer, Renew, Granting, AnswerFor;
  }
}
