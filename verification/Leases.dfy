/** The registry of job-identity leases: one per running VM, published as one record per address. */
module Leases {
  import opened Wrappers
  import opened JobIdentity

  const LEASE_TTL := 90

  type Gen = string

  /** `started` once a job was reported for it. */
  datatype Lease = Lease(identity: Identity, started: bool)

  /** The leases in memory and the records readers see. */
  datatype Reg = Reg(leases: map<string, Lease>, records: map<string, Identity>)

  /** What became of a file operation: a failed one may have taken effect. */
  datatype Outcome = Done | Failed(took: bool)

  predicate Took(o: Outcome) {
    o.Done? || o.took
  }

  /** Publish a record, good for a limited time. */
  function Write(r: Reg, i: Identity, now: int, o: Outcome): Reg {
    if Took(o) then r.(records := r.records[i.ip := i.(expiresAt := now + LEASE_TTL)]) else r
  }

  function DecimalValue(s: string): nat {
    if s == "" || !('0' <= s[|s| - 1] <= '9') then 0
    else DecimalValue(s[..|s| - 1]) * 10 + (s[|s| - 1] as int - '0' as int)
  }

  predicate Octet(s: string) {
    && 1 <= |s| <= 3 && (forall k :: 0 <= k < |s| ==> '0' <= s[k] <= '9')
    && (|s| > 1 ==> s[0] != '0') && DecimalValue(s) <= 255
  }

  predicate IsIPv4(s: string) {
    var p := Split(s, '.');
    |p| == 4 && forall k :: 0 <= k < 4 ==> Octet(p[k])
  }

  predicate AddressTaken(leases: map<string, Lease>, ip: string) {
    exists name :: name in leases && leases[name].identity.ip == ip
  }

  function PendingRecord(runner: string, ip: string, gen: Gen): Identity {
    NoIdentity.(ip := ip, runner := runner, generation := gen)
  }

  /** A lease before its VM can execute; it has no job rights. */
  function Register(r: Reg, runner: string, ip: string, gen: Gen, now: int, o: Outcome): (Reg, bool) {
    if !IsIPv4(ip) || runner == "" || runner in r.leases || AddressTaken(r.leases, ip) then (r, false)
    else
      var i := PendingRecord(runner, ip, gen);
      var t := Write(r, i, now, o);
      if o.Done? then (t.(leases := t.leases[runner := Lease(i, false)]), true) else (t, false)
  }

  /** The lease goes at once; false asks the caller to quarantine the slot. */
  function Release(r: Reg, runner: string, o: Outcome): (Reg, bool) {
    if runner !in r.leases then (r, true)
    else
      var ip := r.leases[runner].identity.ip;
      (Reg(r.leases - {runner}, if Took(o) then r.records - {ip} else r.records), o.Done?)
  }

  function Provenance(i: Identity, j: Job): Identity {
    i.(repository := j.repository, event := j.event, runID := j.runID, jobID := j.jobID)
  }

  /** A job was reported: the first for a lease is noted and handed to the resolver. */
  function StartJob(r: Reg, j: Job, now: int, o: Outcome): (Reg, Option<Gen>) {
    if j.runner !in r.leases || r.leases[j.runner].started then (r, None)
    else
      var l := Lease(Provenance(r.leases[j.runner].identity, j), true);
      (Write(r.(leases := r.leases[j.runner := l]), l.identity, now, o), Some(l.identity.generation))
  }

  /** The identity a lease takes on when its job was resolved to `a`. */
  function Granted(l: Identity, runner: string, a: Identity, now: int): Identity {
    a.(ip := l.ip, runner := runner, generation := l.generation, expiresAt := now + LEASE_TTL)
  }

  /** The resolver answered, or gave up, for the lease of generation `gen`; too late if that lease is gone. */
  function Answer(r: Reg, gen: Gen, runner: string, a: Option<Identity>, now: int, o: Outcome, again: Outcome): Reg {
    if runner !in r.leases || r.leases[runner].identity.generation != gen then r
    else
      var l := r.leases[runner];
      var i := if a.Some? then Granted(l.identity, runner, a.value, now) else NoIdentity;
      var try := a.Some? && Valid(i, now);
      var t := if try then Write(r, i, now, o) else r;
      if try && o.Done? then t.(leases := t.leases[runner := l.(identity := i)])
      else
        var gone := l.identity.(unresolved := true);
        Write(t.(leases := t.leases[runner := l.(identity := gone)]), gone, now, again)
  }

  /** One lease's record is renewed. */
  function Renew(r: Reg, runner: string, now: int, o: Outcome): Reg {
    if runner in r.leases then Write(r, r.leases[runner].identity, now, o) else r
  }

  function RenewAll(r: Reg, order: seq<string>, now: int, os: map<string, Outcome>): Reg
    decreases |order|
  {
    if order == [] then r
    else RenewAll(Renew(r, order[0], now, if order[0] in os then os[order[0]] else Done), order[1..], now, os)
  }

  // --- the registry itself ---

  /** The registry as the object it is; the files are its `records`. */
  class Registry {
    var leases: map<string, Lease>
    var records: map<string, Identity>

    ghost function Abs(): Reg
      reads this
    {
      Reg(leases, records)
    }

    constructor ()
      ensures Abs() == Reg(map[], map[])
    {
      leases, records := map[], map[];
    }

    method Publish(i: Identity, now: int, o: Outcome) returns (ok: bool)
      modifies this`records
      ensures Abs() == Write(old(Abs()), i, now, o) && ok == o.Done?
    {
      if Took(o) {
        records := records[i.ip := i.(expiresAt := now + LEASE_TTL)];
      }
      ok := o.Done?;
    }

    method RegisterVM(runner: string, ip: string, gen: Gen, now: int, o: Outcome) returns (ok: bool)
      modifies this
      ensures (Abs(), ok) == Register(old(Abs()), runner, ip, gen, now, o)
    {
      if !IsIPv4(ip) || runner == "" || runner in leases {
        return false;
      }
      var todo := leases.Keys;
      while todo != {}
        invariant todo <= leases.Keys
        invariant forall name :: name in leases && name !in todo ==> leases[name].identity.ip != ip
        decreases todo
      {
        var name :| name in todo;
        todo := todo - {name};
        if leases[name].identity.ip == ip {
          return false;
        }
      }
      var i := PendingRecord(runner, ip, gen);
      ok := Publish(i, now, o);
      if !ok {
        return;
      }
      leases := leases[runner := Lease(i, false)];
    }

    method ReleaseVM(runner: string, o: Outcome) returns (ok: bool)
      modifies this
      ensures (Abs(), ok) == Release(old(Abs()), runner, o)
    {
      if runner !in leases {
        return true;
      }
      var ip := leases[runner].identity.ip;
      leases := leases - {runner};
      if Took(o) {
        records := records - {ip};
      }
      return o.Done?;
    }

    method JobStarted(j: Job, now: int, o: Outcome) returns (gen: Option<Gen>)
      modifies this
      ensures (Abs(), gen) == StartJob(old(Abs()), j, now, o)
    {
      if j.runner !in leases || leases[j.runner].started {
        return None;
      }
      var l := Lease(Provenance(leases[j.runner].identity, j), true);
      leases := leases[j.runner := l];
      var ok := Publish(l.identity, now, o);
      return Some(l.identity.generation);
    }

    method Answered(gen: Gen, runner: string, a: Option<Identity>, now: int, o: Outcome, again: Outcome)
      modifies this
      ensures Abs() == Answer(old(Abs()), gen, runner, a, now, o, again)
    {
      if runner !in leases || leases[runner].identity.generation != gen {
        return;
      }
      var l := leases[runner];
      if a.Some? {
        var i := Granted(l.identity, runner, a.value, now);
        if Valid(i, now) {
          var ok := Publish(i, now, o);
          if ok {
            leases := leases[runner := l.(identity := i)];
            return;
          }
        }
      }
      leases := leases[runner := l.(identity := l.identity.(unresolved := true))];
      var done := Publish(leases[runner].identity, now, again);
    }

    method Refresh(now: int, os: map<string, Outcome>) returns (ghost order: seq<string>)
      modifies this`records
      ensures (forall name :: name in order <==> name in leases) && (forall j, k :: 0 <= j < k < |order| ==> order[j] != order[k])
      ensures Abs() == RenewAll(old(Abs()), order, now, os)
    {
      var todo := leases.Keys;
      order := [];
      assert RenewAll(old(Abs()), [], now, os) == Abs();
      while todo != {}
        invariant todo <= leases.Keys && (forall name :: name in order <==> name in leases && name !in todo)
        invariant forall j, k :: 0 <= j < k < |order| ==> order[j] != order[k]
        invariant Abs() == RenewAll(old(Abs()), order, now, os)
        decreases todo
      {
        var name :| name in todo;
        todo := todo - {name};
        var ok := Publish(leases[name].identity, now, if name in os then os[name] else Done);
        RenewLast(old(Abs()), order, name, now, os);
        order := order + [name];
      }
    }
  }

  predicate SameRecord(r: Reg, t: Reg, ip: string) {
    (ip in r.records <==> ip in t.records) && (ip in r.records ==> r.records[ip] == t.records[ip])
  }

  predicate RenewedTo(r: Reg, t: Reg, name: string, now: int, os: map<string, Outcome>)
    requires name in r.leases
  {
    var i := r.leases[name].identity;
    if name in os && !Took(os[name]) then SameRecord(r, t, i.ip)
    else i.ip in t.records && t.records[i.ip] == i.(expiresAt := now + LEASE_TTL)
  }

  /**
   A renewal extends each lease's own record and no other, in whatever order it goes through the
   leases: addresses differ, so no renewal undoes another.
   */
  lemma {:induction false} RenewAllMeans(r: Reg, order: seq<string>, now: int, os: map<string, Outcome>)
    requires forall n :: n in order ==> n in r.leases
    requires forall j, k :: 0 <= j < k < |order| ==> r.leases[order[j]].identity.ip != r.leases[order[k]].identity.ip
    ensures var t := RenewAll(r, order, now, os);
            && t.leases == r.leases
            && (forall n :: n in order ==> RenewedTo(r, t, n, now, os))
            && (forall ip :: (forall n :: n in order ==> r.leases[n].identity.ip != ip) ==> SameRecord(r, t, ip))
    decreases |order|
  {
    if order != [] {
      var n, rest := order[0], order[1..];
      var u := Renew(r, n, now, if n in os then os[n] else Done);
      RenewAllMeans(u, rest, now, os);
      var t := RenewAll(u, rest, now, os);
      var ip := r.leases[n].identity.ip;
      assert forall m :: m in rest ==> r.leases[m].identity.ip != ip;
      assert SameRecord(u, t, ip);
      forall m | m in rest ensures RenewedTo(r, t, m, now, os) {
        assert RenewedTo(u, t, m, now, os);
        assert SameRecord(r, u, r.leases[m].identity.ip);
      }
      forall k | forall m :: m in order ==> r.leases[m].identity.ip != k ensures SameRecord(r, t, k) {
        assert SameRecord(r, u, k) && SameRecord(u, t, k);
      }
    }
  }

  lemma {:induction false} RenewLast(r: Reg, order: seq<string>, name: string, now: int, os: map<string, Outcome>)
    ensures RenewAll(r, order, now, os).leases == r.leases
    ensures RenewAll(r, order + [name], now, os)
            == Renew(RenewAll(r, order, now, os), name, now, if name in os then os[name] else Done)
    decreases |order|
  {
    if order == [] {
      assert (order + [name])[1..] == [];
      assert RenewAll(Renew(r, name, now, if name in os then os[name] else Done), [], now, os)
             == Renew(r, name, now, if name in os then os[name] else Done);
    } else {
      assert (order + [name])[1..] == order[1..] + [name];
      RenewLast(Renew(r, order[0], now, if order[0] in os then os[order[0]] else Done), order[1..], name, now, os);
    }
  }
}
