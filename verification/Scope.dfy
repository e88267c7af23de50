/** What the cache server makes of an identity record: grant, deny and why, or look again. */
module Scope {
  import opened Wrappers
  import opened JobIdentity
  import opened Leases
  import opened LeaseRuns

  datatype Reason = Missing | Pends | GaveUp | Expired | Bad | OtherGeneration

  datatype Verdict = Grant(identity: Identity) | Deny(why: Reason)

  /** One look: what the record said, and when. */
  datatype Look = Look(identity: Identity, now: int)

  function DenialReason(i: Identity, now: int): Reason {
    if i.generation == "" then Missing
    else if i.unresolved then GaveUp
    else if i.expiresAt <= now then Expired
    else Bad
  }

  /** None asks to wait and look again. */
  function Judge(l: Look, bound: Gen, deadline: int): Option<Verdict> {
    var i := l.identity;
    if i.generation != "" && i.generation != bound then Some(Deny(OtherGeneration))
    else if Valid(i, l.now) then Some(Verdict.Grant(i))
    else if !Pending(i, l.now) then Some(Deny(DenialReason(i, l.now)))
    else if l.now >= deadline then Some(Deny(Pends))
    else None
  }

  /** The client went away after the last look. */
  function Await(looks: seq<Look>, bound: Gen, deadline: int): Verdict {
    if looks == [] then Deny(Pends)
    else
      var v := Judge(looks[0], bound, deadline);
      if v.Some? then v.value else Await(looks[1..], bound, deadline)
  }

  /** `looks` is what the record would say at each poll; the request ends early if its client leaves. */
  method AwaitIdentity(looks: seq<Look>, bound: Gen, deadline: int) returns (v: Verdict, waited: bool)
    ensures v == Await(looks, bound, deadline)
    ensures waited <==> looks != [] && Judge(looks[0], bound, deadline).None?
  {
    var i := 0;
    waited := false;
    while i < |looks|
      invariant 0 <= i <= |looks| && (waited <==> i > 0)
      invariant Await(looks, bound, deadline) == Await(looks[i..], bound, deadline)
      invariant i > 0 ==> Judge(looks[0], bound, deadline).None?
    {
      assert looks[i..][0] == looks[i] && looks[i..][1..] == looks[i + 1..];
      var id, now := looks[i].identity, looks[i].now;
      if id.generation != "" && id.generation != bound {
        return Deny(OtherGeneration), waited;
      }
      if Valid(id, now) {
        return Verdict.Grant(id), waited;
      }
      if !Pending(id, now) {
        return Deny(DenialReason(id, now)), waited;
      }
      if now >= deadline {
        return Deny(Pends), waited;
      }
      waited := true;
      i := i + 1;
    }
    return Deny(Pends), waited;
  }

  /**
   A request is granted exactly when some look finds a valid record of the connection's own generation
   and every look before it found that lease waiting, in time; then what it is granted is that record.
   */
  lemma {:induction false} AwaitMeans(looks: seq<Look>, bound: Gen, deadline: int)
    ensures Await(looks, bound, deadline).Grant? <==>
            exists k :: 0 <= k < |looks| && Granted(looks, bound, deadline, k)
    ensures Await(looks, bound, deadline).Grant? ==>
              exists k :: 0 <= k < |looks| && Granted(looks, bound, deadline, k)
                          && Await(looks, bound, deadline) == Verdict.Grant(looks[k].identity)
  {
    if looks != [] {
      var rest := looks[1..];
      AwaitMeans(rest, bound, deadline);
      if Judge(looks[0], bound, deadline).None? {
        forall k | 0 <= k < |rest| ensures Granted(rest, bound, deadline, k) <==> Granted(looks, bound, deadline, k + 1) {
          GrantedShift(looks, bound, deadline, k);
        }
        if Await(rest, bound, deadline).Grant? {
          var k :| 0 <= k < |rest| && Granted(rest, bound, deadline, k)
                   && Await(rest, bound, deadline) == Verdict.Grant(rest[k].identity);
          assert Granted(looks, bound, deadline, k + 1) && rest[k] == looks[k + 1];
        }
        if k :| 0 <= k < |looks| && Granted(looks, bound, deadline, k) {
          assert k > 0;
          assert Granted(rest, bound, deadline, k - 1);
        }
      } else if Judge(looks[0], bound, deadline).value.Grant? {
        assert Granted(looks, bound, deadline, 0);
      }
    }
  }

  predicate Own(l: Look, bound: Gen) {
    Valid(l.identity, l.now) && l.identity.generation == bound
  }

  predicate Waits(l: Look, bound: Gen, deadline: int) {
    !Valid(l.identity, l.now) && Pending(l.identity, l.now) && l.identity.generation == bound && l.now < deadline
  }

  ghost predicate Granted(looks: seq<Look>, bound: Gen, deadline: int, k: nat)
    requires k < |looks|
  {
    Own(looks[k], bound) && AllWait(looks, bound, deadline, k)
  }

  ghost predicate AllWait(looks: seq<Look>, bound: Gen, deadline: int, k: nat)
    requires k <= |looks|
  {
    forall j :: 0 <= j < k ==> Waits(looks[j], bound, deadline)
  }

  lemma WaitsShift(looks: seq<Look>, bound: Gen, deadline: int, k: nat)
    requires k + 1 <= |looks| && Waits(looks[0], bound, deadline)
    ensures AllWait(looks[1..], bound, deadline, k) <==> AllWait(looks, bound, deadline, k + 1)
  {
    hide Waits;
    var rest := looks[1..];
    assert forall j :: 0 <= j < k ==> rest[j] == looks[j + 1];
    assert forall j :: 0 < j <= k ==> looks[j] == rest[j - 1];
  }

  lemma GrantedShift(looks: seq<Look>, bound: Gen, deadline: int, k: nat)
    requires k + 1 < |looks| && Waits(looks[0], bound, deadline)
    ensures Granted(looks[1..], bound, deadline, k) <==> Granted(looks, bound, deadline, k + 1)
  {
    hide Own, Waits;
    WaitsShift(looks, bound, deadline, k);
  }

  /** A look that refuses for good, and why. */
  predicate Refused(l: Look, bound: Gen, deadline: int, why: Reason) {
    var i := l.identity;
    match why
    case OtherGeneration => i.generation != "" && i.generation != bound
    case Missing => i.generation == ""
    case GaveUp => i.generation == bound != "" && i.unresolved
    case Expired => i.generation == bound != "" && !i.unresolved && i.expiresAt <= l.now
    case Bad => i.generation == bound != "" && !i.unresolved && i.expiresAt > l.now && !Pending(i, l.now) && !Valid(i, l.now)
    case Pends => i.generation == bound != "" && Pending(i, l.now) && l.now >= deadline
  }

  ghost predicate RefusedAt(looks: seq<Look>, bound: Gen, deadline: int, why: Reason, k: nat)
    requires k < |looks|
  {
    Refused(looks[k], bound, deadline, why) && AllWait(looks, bound, deadline, k)
  }

  lemma JudgeMeans(l: Look, bound: Gen, deadline: int)
    ensures Judge(l, bound, deadline).None? <==> Waits(l, bound, deadline)
    ensures forall why :: Judge(l, bound, deadline) == Some(Deny(why)) <==> Refused(l, bound, deadline, why)
  {
    RightsAreExclusive(l.identity, l.now);
    hide ValidRef, ValidRepository;
  }

  /**
   A request is denied exactly for the reason of the first look that does not find its lease waiting in
   time, or because it waited in vain.
   */
  lemma {:induction false} DenialMeans(looks: seq<Look>, bound: Gen, deadline: int, why: Reason)
    ensures Await(looks, bound, deadline) == Deny(why) <==>
            || (exists k :: 0 <= k < |looks| && RefusedAt(looks, bound, deadline, why, k))
            || (why == Pends && AllWait(looks, bound, deadline, |looks|))
  {
    if looks != [] {
      var rest := looks[1..];
      JudgeMeans(looks[0], bound, deadline);
      DenialMeans(rest, bound, deadline, why);
      hide Judge, Waits, Refused;
      if Waits(looks[0], bound, deadline) {
        forall k | 0 <= k < |rest| ensures RefusedAt(rest, bound, deadline, why, k) <==> RefusedAt(looks, bound, deadline, why, k + 1) {
          WaitsShift(looks, bound, deadline, k);
        }
        WaitsShift(looks, bound, deadline, |rest|);
        if k :| 0 <= k < |looks| && RefusedAt(looks, bound, deadline, why, k) {
          WaitsNotRefused(looks[0], bound, deadline, why);
          assert RefusedAt(rest, bound, deadline, why, k - 1);
        }
      } else {
        if Refused(looks[0], bound, deadline, why) {
          assert RefusedAt(looks, bound, deadline, why, 0);
        }
        assert forall k | 0 < k < |looks| :: !RefusedAt(looks, bound, deadline, why, k);
      }
    }
  }

  lemma WaitsNotRefused(l: Look, bound: Gen, deadline: int, why: Reason)
    requires Waits(l, bound, deadline)
    ensures !Refused(l, bound, deadline, why)
  {
    JudgeMeans(l, bound, deadline);
  }

  /** One look of the waiting request grants what the interleaved lookup grants, and only that. */
  lemma LookGrants(conn: Conn, i: Identity, now: int, deadline: int)
    ensures var v := Judge(Look(i, now), conn.bound, deadline);
            Granting(conn, i, now) ==
            (if v.Some? && v.value.Grant? then Some(v.value.identity.(repository := Lower(v.value.identity.repository))) else None)
  {
  }
}
