/** Handing each instance its runner config once, and what a waiter may conclude from two looks. */
module Jit {

  /** An address; one mapped into IPv6 stands for the IPv4 address it carries. */
  datatype Addr = NoAddr | V4(n: nat) | V6(n: nat) | Mapped(n: nat)

  function Unmap(a: Addr): Addr {
    if a.Mapped? then V4(a.n) else a
  }

  predicate Unspecified(a: Addr) {
    a == V4(0) || a == V6(0)
  }

  datatype Entry = Entry(runner: string, jit: string, expires: int, claimed: bool, served: bool)

  datatype Status = OK | NotFound | Forbidden

  datatype RegisterResult = Registered | Invalid | Held

  function Register(es: map<Addr, Entry>, ip: Addr, runner: string, jit: string, now: int, ttl: int)
    : (map<Addr, Entry>, RegisterResult)
  {
    var a := Unmap(ip);
    if a.NoAddr? || Unspecified(a) || runner == "" || jit == "" then (es, Invalid)
    else if a in es then (es, Held)
    else (es[a := Entry(runner, jit, now + ttl, false, false)], Registered)
  }

  function Claim(es: map<Addr, Entry>, ip: Addr, now: int): (map<Addr, Entry>, string, Status) {
    if ip !in es then (es, "", Forbidden)
    else
      var e := es[ip];
      if e.claimed || now >= e.expires then (es[ip := e.(claimed := true, jit := "")], "", NotFound)
      else (es[ip := e.(claimed := true, served := true, jit := "")], e.jit, OK)
  }

  predicate IsPending(es: map<Addr, Entry>, ip: Addr, now: int) {
    var a := Unmap(ip);
    a in es && !es[a].claimed && now < es[a].expires
  }

  predicate IsServed(es: map<Addr, Entry>, ip: Addr) {
    Unmap(ip) in es && es[Unmap(ip)].served
  }

  class Server {
    var entries: map<Addr, Entry>
    const ttl: int

    constructor (ttl: int)
      ensures entries == map[] && this.ttl == ttl
    {
      entries, this.ttl := map[], ttl;
    }

    method RegisterConfig(ip: Addr, runner: string, jit: string, now: int) returns (r: RegisterResult)
      modifies this
      ensures (entries, r) == Register(old(entries), ip, runner, jit, now, ttl)
    {
      var a := Unmap(ip);
      if a.NoAddr? || Unspecified(a) || runner == "" || jit == "" {
        return Invalid;
      }
      if a in entries {
        return Held;
      }
      entries := entries[a := Entry(runner, jit, now + ttl, false, false)];
      return Registered;
    }

    method Revoke(ip: Addr)
      modifies this
      ensures entries == old(entries) - {Unmap(ip)}
    {
      entries := entries - {Unmap(ip)};
    }

    method Pending(ip: Addr, now: int) returns (b: bool)
      ensures b == IsPending(entries, ip, now)
    {
      var a := Unmap(ip);
      b := a in entries && !entries[a].claimed && now < entries[a].expires;
    }

    method Served(ip: Addr) returns (b: bool)
      ensures b == IsServed(entries, ip)
    {
      var a := Unmap(ip);
      b := a in entries && entries[a].served;
    }

    method ClaimConfig(ip: Addr, now: int) returns (jit: string, status: Status)
      modifies this
      ensures (entries, jit, status) == Claim(old(entries), ip, now)
    {
      if ip !in entries {
        return "", Forbidden;
      }
      var e := entries[ip];
      if e.claimed || now >= e.expires {
        entries := entries[ip := e.(claimed := true, jit := "")];
        return "", NotFound;
      }
      jit := e.jit;
      entries := entries[ip := e.(claimed := true, served := true, jit := "")];
      status := OK;
    }
  }

  // --- every interleaving ---

  /** A registration: where, what, and until when. */
  datatype Reg = Reg(ip: Addr, jit: string, expires: int)

  /** An answer that carried a config: to which address, for which registration, what and when. */
  datatype Given = Given(reg: nat, ip: Addr, jit: string, at: int)

  datatype World = World(
    entries: map<Addr, Entry>,
    ttl: int,
    clock: int,
    regs: seq<Reg>,             // every registration there was
    holds: map<Addr, nat>,      // the registration an address holds
    given: seq<Given>
  )

  /** Each step comes at a time no earlier than the last. */
  datatype Step =
    | DoRegister(ip: Addr, runner: string, jit: string, at: int)
    | DoRevoke(ip: Addr, at: int)
    | DoClaim(ip: Addr, at: int)
    | DoLook(at: int)

  function Do(w: World, st: Step): World {
    match st
    case DoRegister(ip, runner, jit, at) =>
      var (es, r) := Register(w.entries, ip, runner, jit, at, w.ttl);
      if r.Registered? then
        w.(entries := es, clock := at, regs := w.regs + [Reg(Unmap(ip), jit, at + w.ttl)],
           holds := w.holds[Unmap(ip) := |w.regs|])
      else w.(clock := at)
    case DoRevoke(ip, at) => w.(entries := w.entries - {Unmap(ip)}, holds := w.holds - {Unmap(ip)}, clock := at)
    case DoClaim(ip, at) =>
      // the request's address has been unmapped
      var a := Unmap(ip);
      var (es, jit, status) := Claim(w.entries, a, at);
      w.(entries := es, clock := at,
         given := if status.OK? && a in w.holds then w.given + [Given(w.holds[a], a, jit, at)] else w.given)
    case DoLook(at) => w.(clock := at)
  }

  ghost predicate Run(ws: seq<World>, steps: seq<Step>, ttl: int, start: int) {
    && |ws| == |steps| + 1 && ws[0] == World(map[], ttl, start, [], map[], [])
    && forall k :: 0 <= k < |steps| ==> ws[k].clock <= steps[k].at && ws[k + 1] == Do(ws[k], steps[k])
  }

  ghost predicate GivenTo(w: World, r: nat) {
    exists k :: 0 <= k < |w.given| && w.given[k].reg == r
  }

  ghost predicate EntryOk(w: World, a: Addr)
    requires a in w.entries
  {
    && a in w.holds && w.holds[a] < |w.regs|
    && var r, e := w.holds[a], w.entries[a];
       && w.regs[r].ip == a && w.regs[r].expires == e.expires
       && (!e.claimed ==> e.jit == w.regs[r].jit && !e.served)
       && (e.served ==> e.claimed) && (e.served <==> GivenTo(w, r))
  }

  ghost predicate EntriesOk(w: World) {
    w.holds.Keys == w.entries.Keys && forall a :: a in w.entries ==> EntryOk(w, a)
  }

  ghost predicate HoldsApart(w: World) {
    && (forall a, b :: a in w.holds && b in w.holds && a != b ==> w.holds[a] != w.holds[b])
    && (forall a :: a in w.holds ==> w.holds[a] < |w.regs|)
  }

  ghost predicate AllGivenOk(w: World) {
    && (forall k :: 0 <= k < |w.given| ==> w.given[k].reg < |w.regs| && GivenOk(w, w.given[k]))
    && (forall j, k :: 0 <= j < k < |w.given| ==> w.given[j].reg != w.given[k].reg)
  }

  ghost predicate Inv(w: World) {
    EntriesOk(w) && HoldsApart(w) && AllGivenOk(w)
  }

  /** An answer went to its registration's own address, with its own config, before it expired. */
  predicate GivenOk(w: World, g: Given)
    requires g.reg < |w.regs|
  {
    var r := w.regs[g.reg];
    g.ip == r.ip && g.jit == r.jit && g.at < r.expires
  }

  lemma EntriesSame(w: World, v: World)
    requires EntriesOk(w) && v.entries == w.entries && v.holds == w.holds && v.regs == w.regs && v.given == w.given
    ensures EntriesOk(v)
  {
    forall a | a in v.entries ensures EntryOk(v, a) {
      assert EntryOk(w, a);
    }
  }

  lemma NewEntry(w: World, st: Step)
    requires Inv(w) && st.DoRegister? && Do(w, st).regs != w.regs
    ensures EntriesOk(Do(w, st))
  {
    hide HoldsApart;
    var v := Do(w, st);
    forall a | a in v.entries ensures EntryOk(v, a) {
      if a in w.entries && a != Unmap(st.ip) {
        assert EntryOk(w, a);
      }
    }
  }

  lemma RegisterInv(w: World, st: Step)
    requires Inv(w) && st.DoRegister?
    ensures Inv(Do(w, st))
  {
    var v := Do(w, st);
    if v.regs != w.regs {
      NewEntry(w, st);
    } else {
      EntriesSame(w, v);
    }
    hide EntriesOk;
    assert HoldsApart(v) && AllGivenOk(v);
  }

  lemma RevokeInv(w: World, st: Step)
    requires Inv(w) && st.DoRevoke?
    ensures Inv(Do(w, st))
  {
    var v := Do(w, st);
    assert HoldsApart(v) && AllGivenOk(v);
    hide HoldsApart, AllGivenOk;
    forall a | a in v.entries ensures EntryOk(v, a) {
      assert EntryOk(w, a);
    }
  }

  lemma ClaimGiven(w: World, st: Step)
    requires Inv(w) && st.DoClaim?
    ensures AllGivenOk(Do(w, st)) && HoldsApart(Do(w, st))
  {
    var v, a := Do(w, st), Unmap(st.ip);
    if a in w.entries {
      assert EntryOk(w, a);
      if v.given != w.given {
        assert !GivenTo(w, w.holds[a]);
      }
    }
  }

  lemma ClaimInv(w: World, st: Step)
    requires Inv(w) && st.DoClaim?
    ensures Inv(Do(w, st))
  {
    var v, a := Do(w, st), Unmap(st.ip);
    ClaimGiven(w, st);
    hide AllGivenOk;
    if a in w.entries {
      assert EntryOk(w, a);
      var r := w.holds[a];
      forall b | b in v.entries ensures EntryOk(v, b) {
        assert EntryOk(w, b);
        GivenSame(w, v, w.holds[b], r);
      }
    } else {
      EntriesSame(w, v);
    }
  }

  lemma GivenSame(w: World, v: World, b: nat, r: nat)
    requires v.given == w.given || (|v.given| == |w.given| + 1 && v.given[..|w.given|] == w.given && v.given[|w.given|].reg == r)
    ensures b != r ==> (GivenTo(v, b) <==> GivenTo(w, b))
    ensures v.given == w.given ==> (GivenTo(v, b) <==> GivenTo(w, b))
    ensures v.given != w.given ==> GivenTo(v, r)
  {
    if b != r && GivenTo(w, b) {
      var k :| 0 <= k < |w.given| && w.given[k].reg == b;
      assert v.given[k] == w.given[k];
    }
    if v.given != w.given {
      assert v.given[|w.given|].reg == r;
    }
  }

  lemma LookInv(w: World, st: Step)
    requires Inv(w) && st.DoLook?
    ensures Inv(Do(w, st))
  {
    EntriesSame(w, Do(w, st));
  }

  lemma InvStep(w: World, st: Step)
    requires Inv(w)
    ensures Inv(Do(w, st))
  {
    match st
    case DoRegister(_, _, _, _) => RegisterInv(w, st);
    case DoRevoke(_, _) => RevokeInv(w, st);
    case DoClaim(_, _) => ClaimInv(w, st);
    case DoLook(_) => LookInv(w, st);
  }

  lemma {:induction false} Reachable(ws: seq<World>, steps: seq<Step>, ttl: int, start: int, k: nat)
    requires Run(ws, steps, ttl, start) && k < |ws|
    ensures Inv(ws[k])
  {
    if k > 0 {
      hide Inv, Do;
      Reachable(ws, steps, ttl, start, k - 1);
      InvStep(ws[k - 1], steps[k - 1]);
    }
  }

  /** Each registration's config is answered at most once, unaltered, to its own address, before it expires. */
  lemma ServedOnce(ws: seq<World>, steps: seq<Step>, ttl: int, start: int, k: nat, i: nat, j: nat)
    requires Run(ws, steps, ttl, start) && k < |ws| && i < |ws[k].given| && j < |ws[k].given|
    ensures ws[k].given[i].reg < |ws[k].regs| && GivenOk(ws[k], ws[k].given[i])
    ensures ws[k].given[i].reg == ws[k].given[j].reg ==> i == j
  {
    Reachable(ws, steps, ttl, start, k);
  }

  // --- a waiter's two looks ---

  /** The registration can no longer be answered: claimed without an answer, or past its time. */
  ghost predicate Lost(w: World, a: Addr, r: nat) {
    && r < |w.regs| && !GivenTo(w, r)
    && (a in w.holds && w.holds[a] == r ==>
          a in w.entries && (w.entries[a].claimed || w.clock >= w.entries[a].expires))
    && forall b :: b in w.holds && b != a ==> w.holds[b] != r
  }

  lemma LostStays(w: World, st: Step, a: Addr, r: nat)
    requires Inv(w) && Lost(w, a, r) && w.clock <= st.at && a == Unmap(a)
    ensures Lost(Do(w, st), a, r)
  {
    var v := Do(w, st);
    if st.DoClaim? {
      var b := Unmap(st.ip);
      if b in w.entries {
        assert EntryOk(w, b);
        GivenSame(w, v, r, w.holds[b]);
      }
    }
  }

  lemma {:induction false} LostForGood(ws: seq<World>, steps: seq<Step>, ttl: int, start: int, j: nat, k: nat, a: Addr, r: nat)
    requires Run(ws, steps, ttl, start) && j <= k < |ws| && Lost(ws[j], a, r) && a == Unmap(a)
    ensures Lost(ws[k], a, r)
  {
    if j < k {
      hide Inv, Do, Lost;
      LostForGood(ws, steps, ttl, start, j, k - 1, a, r);
      Reachable(ws, steps, ttl, start, k - 1);
      LostStays(ws[k - 1], steps[k - 1], a, r);
    }
  }

  /** While an address keeps its registration, no longer pending stays no longer pending. */
  lemma {:induction false} NotPendingStays(
    ws: seq<World>, steps: seq<Step>, ttl: int, start: int, i: nat, j: nat, a: Addr, r: nat)
    requires Run(ws, steps, ttl, start) && i <= j < |ws| && a == Unmap(a)
    requires forall k :: i <= k <= j ==> a in ws[k].holds && ws[k].holds[a] == r
    requires !IsPending(ws[i].entries, a, ws[i].clock)
    ensures !IsPending(ws[j].entries, a, ws[j].clock)
  {
    if i < j {
      NotPendingStays(ws, steps, ttl, start, i, j - 1, a, r);
      Reachable(ws, steps, ttl, start, j - 1);
      assert ws[j - 1].clock <= steps[j - 1].at && ws[j] == Do(ws[j - 1], steps[j - 1]);
      hide *;
      StaysNotPending(ws[j - 1], steps[j - 1], a);
    }
  }

  lemma StaysNotPending(w: World, st: Step, a: Addr)
    requires Inv(w) && w.clock <= st.at && a == Unmap(a) && a in w.holds && !IsPending(w.entries, a, w.clock)
    requires a in Do(w, st).holds && Do(w, st).holds[a] == w.holds[a]
    ensures !IsPending(Do(w, st).entries, a, Do(w, st).clock)
  {
    assert EntryOk(w, a);
    hide EntriesOk, AllGivenOk, GivenTo;
  }

  /**
   A waiter looks twice: first whether its address's config is pending, later whether it was served.
   If neither, and the address kept its registration in between, that config was never served and
   never will be.
   */
  lemma NeitherMeansNever(
    ws: seq<World>, steps: seq<Step>, ttl: int, start: int, i: nat, j: nat, k: nat, a: Addr, r: nat)
    requires Run(ws, steps, ttl, start) && i <= j <= k < |ws| && a == Unmap(a)
    requires forall m :: i <= m <= j ==> a in ws[m].holds && ws[m].holds[a] == r
    requires !IsPending(ws[i].entries, a, ws[i].clock) && !IsServed(ws[j].entries, a)
    ensures !GivenTo(ws[k], r)
  {
    Reachable(ws, steps, ttl, start, j);
    NotPendingStays(ws, steps, ttl, start, i, j, a, r);
    assert EntryOk(ws[j], a);
    assert Lost(ws[j], a, r);
    LostForGood(ws, steps, ttl, start, j, k, a, r);
  }

  // --- who is answered ---

  /** One claimed but not served was claimed past its time. */
  ghost predicate LateClaims(w: World) {
    forall a :: a in w.entries && w.entries[a].claimed && !w.entries[a].served ==> w.entries[a].expires <= w.clock
  }

  lemma {:induction false} ClaimsLate(ws: seq<World>, steps: seq<Step>, ttl: int, start: int, k: nat)
    requires Run(ws, steps, ttl, start) && k < |ws|
    ensures LateClaims(ws[k])
  {
    if k > 0 {
      ClaimsLate(ws, steps, ttl, start, k - 1);
      LateStep(ws[k - 1], steps[k - 1]);
      hide Do;
    }
  }

  lemma LateStep(w: World, st: Step)
    requires LateClaims(w) && w.clock <= st.at
    ensures LateClaims(Do(w, st))
  {
  }

  /** The address holds a registration that was never answered and whose time has not passed. */
  ghost predicate Available(w: World, a: Addr, at: int) {
    a in w.holds && w.holds[a] < |w.regs| && !GivenTo(w, w.holds[a]) && at < w.regs[w.holds[a]].expires
  }

  /**
   A request is answered with its address's own config exactly if one is available; it is forbidden exactly
   if the address holds no registration.
   */
  ghost predicate AnswersRight(w: World, a: Addr, at: int) {
    var (es, jit, status) := Claim(w.entries, a, at);
    && (status == OK <==> Available(w, a, at)) && (status == Forbidden <==> a !in w.holds)
    && (Available(w, a, at) ==> jit == w.regs[w.holds[a]].jit) && (status != OK ==> jit == "")
  }

  lemma AnswerOne(w: World, a: Addr, at: int)
    requires Inv(w) && LateClaims(w) && w.clock <= at
    ensures AnswersRight(w, a, at)
    ensures Unmap(a) == a ==> (IsPending(w.entries, a, at) <==> Available(w, a, at))
    ensures Unmap(a) == a ==> (IsServed(w.entries, a) <==> a in w.holds && w.holds[a] < |w.regs| && GivenTo(w, w.holds[a]))
  {
    hide AllGivenOk;
    if a in w.entries {
      assert EntryOk(w, a);
    }
    hide GivenTo;
  }

  lemma UnmapTwice(a: Addr)
    ensures Unmap(Unmap(a)) == Unmap(a)
  {
  }

  /**
   In every run, whatever an address asks is answered right; and what a waiter is told is true: its
   config is pending exactly while it would be handed out, and served exactly once it was.
   */
  lemma AnswersExactly(ws: seq<World>, steps: seq<Step>, ttl: int, start: int, k: nat, ip: Addr, at: int)
    requires Run(ws, steps, ttl, start) && k < |ws| && ws[k].clock <= at
    ensures AnswersRight(ws[k], Unmap(ip), at)
    ensures IsPending(ws[k].entries, ip, at) <==> Available(ws[k], Unmap(ip), at)
    ensures var w, a := ws[k], Unmap(ip);
            IsServed(w.entries, ip) <==> a in w.holds && w.holds[a] < |w.regs| && GivenTo(w, w.holds[a])
  {
    Reachable(ws, steps, ttl, start, k);
    ClaimsLate(ws, steps, ttl, start, k);
    UnmapTwice(ip);
    AnswerOne(ws[k], Unmap(ip), at);
    hide Inv, LateClaims, AnswersRight, Available, GivenTo;
  }

  /** What a step does to the registrations and the answers. */
  ghost predicate Kept(w: World, v: World, st: Step) {
    match st
    case DoRegister(ip, runner, jit, at) =>
      var a := Unmap(ip);
      && v.given == w.given
      && (if a != NoAddr && a != V4(0) && a != V6(0) && runner != "" && jit != "" && a !in w.holds then
            v.regs == w.regs + [Reg(a, jit, at + w.ttl)] && v.holds == w.holds[a := |w.regs|]
          else v.regs == w.regs && v.holds == w.holds)
    case DoRevoke(ip, at) => v.given == w.given && v.regs == w.regs && v.holds == w.holds - {Unmap(ip)}
    case DoClaim(ip, at) =>
      var a := Unmap(ip);
      && v.regs == w.regs && v.holds == w.holds
      && v.given == (if Available(w, a, at) then w.given + [Given(w.holds[a], a, w.regs[w.holds[a]].jit, at)] else w.given)
    case DoLook(at) => v.given == w.given && v.regs == w.regs && v.holds == w.holds
  }

  /**
   A registration is taken on exactly if it is complete and its address holds none; a request that
   comes in time and first is served that registration's config; and a revocation ends it.
   */
  lemma PendingIsServed(ws: seq<World>, steps: seq<Step>, ttl: int, start: int, k: nat)
    requires Run(ws, steps, ttl, start) && k < |steps|
    ensures Kept(ws[k], ws[k + 1], steps[k])
  {
    Reachable(ws, steps, ttl, start, k);
    ClaimsLate(ws, steps, ttl, start, k);
    var w, st := ws[k], steps[k];
    assert ws[k + 1] == Do(w, st);
    if st.DoClaim? {
      AnswerOne(w, Unmap(st.ip), st.at);
      hide LateClaims, HoldsApart, AllGivenOk, EntryOk, Claim, GivenTo;
    } else {
      hide LateClaims, HoldsApart, AllGivenOk, EntryOk, GivenTo;
    }
  }
}
