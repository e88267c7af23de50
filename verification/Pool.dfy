/** A tier's pool of stopped instances: its state under one mutex and the sections that change it. */
module Pool {
  import opened Wrappers
  import opened Counting

  type Inst = string
  type Req = string     // a spot request; "" is none

  datatype Pooled = Pooled(id: Inst, ip: string, spotReq: Req, itype: string)

  const WARM_MAX := 600
  const POOL_RETRY_MAX := 300

  datatype PoolState = PoolState(ready: seq<Pooled>, warming: map<Inst, int>, target: int, failures: nat, retryAt: int)

  // --- sections ---

  /** A trim takes the last ready instance while there are more than the target. */
  function TrimPop(p: PoolState): (PoolState, Option<Pooled>) {
    if |p.ready| <= p.target || p.ready == [] then (p, None)
    else (p.(ready := p.ready[..|p.ready| - 1]), Some(p.ready[|p.ready| - 1]))
  }

  function PutBack(p: PoolState, x: Pooled): PoolState {
    p.(ready := p.ready + [x])
  }

  function PutFront(p: PoolState, x: Pooled): PoolState {
    p.(ready := [x] + p.ready)
  }

  /** A claim takes the first. */
  function ClaimPop(p: PoolState): (PoolState, Option<Pooled>) {
    if p.ready == [] then (p, None) else (p.(ready := p.ready[1..]), Some(p.ready[0]))
  }

  function MarkReady(p: PoolState, x: Pooled): PoolState {
    p.(warming := p.warming - {x.id}, ready := p.ready + [x])
  }

  function DropWarming(p: PoolState, id: Inst): PoolState {
    p.(warming := p.warming - {id})
  }

  function Rewarm(p: PoolState, id: Inst, now: int): PoolState {
    p.(warming := p.warming[id := now])
  }

  function Launched(p: PoolState, id: Inst, now: int): PoolState {
    p.(warming := p.warming[id := now], failures := 0)
  }

  function Short(p: PoolState): int {
    p.target - |p.ready| - |p.warming|
  }

  predicate Overstayed(p: PoolState, id: Inst, now: int) {
    id in p.warming && p.warming[id] != 0 && now - p.warming[id] > WARM_MAX
  }

  function Power(n: nat): nat {
    if n == 0 then 1 else 2 * Power(n - 1)
  }

  function LaunchFailed(p: PoolState, now: int): PoolState {
    p.(failures := p.failures + 1, retryAt := now + Min(Power(Min(p.failures + 1, 10)), POOL_RETRY_MAX))
  }

  function IndexOf(ready: seq<Pooled>, id: Inst): (k: nat)
    ensures k <= |ready|
    ensures k < |ready| ==> ready[k].id == id
    ensures forall j :: 0 <= j < k ==> ready[j].id != id
  {
    if ready == [] || ready[0].id == id then 0 else 1 + IndexOf(ready[1..], id)
  }

  function TakeReady(p: PoolState, id: Inst): (PoolState, Option<Pooled>) {
    var k := IndexOf(p.ready, id);
    if k == |p.ready| then (p, None)
    else (p.(ready := p.ready[..k] + p.ready[k + 1..]), Some(p.ready[k]))
  }

  // --- loops of one caller by itself ---

  /** A trim with nothing in between: discarding an instance in `fails` fails, and ctx ends after `n` turns. */
  function Trimmed(p: PoolState, fails: set<Inst>, n: nat): PoolState
    decreases |p.ready|
  {
    if n == 0 then p
    else
      var (q, x) := TrimPop(p);
      if x.None? then q
      else if x.value.id in fails then PutBack(q, x.value)
      else Trimmed(q, fails, n - 1)
  }

  /**
   A trim by itself ends at the target, at an instance it could not end (still the last ready one),
   or when its context does; it ended exactly the instances past the ones left.
   */
  lemma {:induction false} TrimEnds(p: PoolState, fails: set<Inst>, n: nat)
    ensures var q := Trimmed(p, fails, n);
            && |q.ready| <= |p.ready| && q == p.(ready := p.ready[..|q.ready|])
            && (forall k :: |q.ready| <= k < |p.ready| ==> p.ready[k].id !in fails)
            && (|q.ready| <= p.target || |q.ready| == 0 || q.ready[|q.ready| - 1].id in fails || |q.ready| + n == |p.ready|)
            && (|p.ready| > p.target && p.target >= 0 ==> |q.ready| >= p.target)
    decreases |p.ready|
  {
    var (u, x) := TrimPop(p);
    if n > 0 && x.Some? {
      assert p.ready == u.ready + [x.value];
      if x.value.id !in fails {
        TrimEnds(u, fails, n - 1);
      }
    }
  }

  /** Launches made by one pass of filling, every one of which succeeds. */
  function Filled(p: PoolState, ids: seq<Inst>, now: int): PoolState
    decreases |ids|
  {
    if ids == [] || Short(p) <= 0 then p else Filled(Launched(p, ids[0], now), ids[1..], now)
  }

  /** Filling adds one warming instance per launch, never more than the target asks for. */
  lemma {:induction false} FillMeets(p: PoolState, ids: seq<Inst>, now: int)
    requires forall i, j :: 0 <= i < j < |ids| ==> ids[i] != ids[j]
    requires forall i :: 0 <= i < |ids| ==> ids[i] !in p.warming
    ensures var q := Filled(p, ids, now);
            q.ready == p.ready && |q.warming| == |p.warming| + Min(|ids|, Max(Short(p), 0))
            && (|ids| >= Short(p) >= 0 ==> |q.ready| + |q.warming| == p.target)
    decreases |ids|
  {
    if ids != [] && Short(p) > 0 {
      var u := Launched(p, ids[0], now);
      KeysCard(p.warming, ids[0], now);
      forall i | 0 <= i < |ids[1..]| ensures ids[1..][i] !in u.warming {
        assert ids[1..][i] == ids[i + 1] && ids[0] != ids[i + 1];
      }
      FillMeets(u, ids[1..], now);
    }
  }

  // --- the pool itself ---

  class PoolCode {
    var ready: seq<Pooled>
    var warming: map<Inst, int>
    var target: int
    var failures: nat
    var retryAt: int

    ghost function Abs(): PoolState
      reads this
    {
      PoolState(ready, warming, target, failures, retryAt)
    }

    constructor (target: int)
      ensures Abs() == PoolState([], map[], target, 0, 0)
    {
      this.target, ready, warming, failures, retryAt := target, [], map[], 0, 0;
    }

    method SetTargetLocked(n: int) returns (changed: bool)
      modifies this
      ensures Abs() == old(Abs()).(target := n) && changed == (n != old(target))
    {
      changed := n != target;
      target := n;
    }

    method Trim(fails: set<Inst>, turns: nat)
      modifies this
      ensures Abs() == Trimmed(old(Abs()), fails, turns)
    {
      var n := turns;
      ghost var p0 := Abs();
      while n > 0
        invariant Trimmed(p0, fails, turns) == Trimmed(Abs(), fails, n)
        decreases n
      {
        if |ready| <= target || |ready| == 0 {
          return;
        }
        var x := ready[|ready| - 1];
        ready := ready[..|ready| - 1];
        if x.id in fails {
          ready := ready + [x];
          return;
        }
        n := n - 1;
      }
    }

    method TakeFirst() returns (x: Option<Pooled>)
      modifies this
      ensures (Abs(), x) == ClaimPop(old(Abs()))
    {
      if |ready| == 0 {
        return None;
      }
      x := Some(ready[0]);
      ready := ready[1..];
    }

    method TakeById(id: Inst) returns (x: Option<Pooled>)
      modifies this
      ensures (Abs(), x) == TakeReady(old(Abs()), id)
    {
      var i := 0;
      while i < |ready|
        invariant 0 <= i <= |ready|
        invariant forall j :: 0 <= j < i ==> ready[j].id != id
      {
        if ready[i].id == id {
          x := Some(ready[i]);
          ready := ready[..i] + ready[i + 1..];
          return;
        }
        i := i + 1;
      }
      return None;
    }

    method Stopped(x: Pooled)
      modifies this
      ensures Abs() == MarkReady(old(Abs()), x)
    {
      warming := warming - {x.id};
      ready := ready + [x];
    }

    method Requeue(x: Pooled)
      modifies this
      ensures Abs() == PutFront(old(Abs()), x)
    {
      ready := [x] + ready;
    }

    method Follow(id: Inst, now: int)
      modifies this
      ensures Abs() == Rewarm(old(Abs()), id, now)
    {
      warming := warming[id := now];
    }

    method Fill(ids: seq<Inst>, now: int)
      modifies this
      ensures var p := old(Abs());
              Abs() == if Short(p) <= 0 || now < p.retryAt then p
                       else Filled(p, if |ids| <= Short(p) then ids else ids[..Short(p)], now)
    {
      var deficit := target - |ready| - |warming|;
      if deficit <= 0 || now < retryAt {
        return;
      }
      var i := 0;
      ghost var todo := if |ids| <= deficit then ids else ids[..deficit];
      ghost var p0 := Abs();
      while i < deficit && i < |ids|
        invariant 0 <= i <= |todo|
        invariant Filled(p0, todo, now) == Filled(Abs(), todo[i..], now)
      {
        assert todo[i..][1..] == todo[i + 1..];
        if target - |ready| - |warming| <= 0 {
          return;
        }
        warming := warming[ids[i] := now];
        failures := 0;
        i := i + 1;
      }
      assert todo[i..] == [];
    }

    method Failed(now: int)
      modifies this
      ensures Abs() == LaunchFailed(old(Abs()), now)
    {
      failures := failures + 1;
      var n := if failures < 10 then failures else 10;
      var d, i := 1, 0;
      while i < n
        invariant 0 <= i <= n && d == Power(i)
      {
        d := d * 2;
        i := i + 1;
      }
      retryAt := now + (if d < POOL_RETRY_MAX then d else POOL_RETRY_MAX);
    }
  }
}
