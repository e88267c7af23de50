/** Finding a marker in a console stream that arrives in pieces. */
module Markers {
  type Bytes = seq<bv8>

  predicate At(s: Bytes, m: Bytes, i: int) {
    0 <= i <= |s| - |m| && s[i..i + |m|] == m
  }

  predicate Occurs(s: Bytes, m: Bytes) {
    exists i | 0 <= i <= |s| :: At(s, m, i)
  }

  predicate Marked(s: Bytes, markers: seq<Bytes>) {
    exists k | 0 <= k < |markers| :: Occurs(s, markers[k])
  }

  /** The longest marker's length less one: what a marker can have before a boundary it straddles. */
  function Keep(markers: seq<Bytes>): (n: nat)
    ensures forall k :: 0 <= k < |markers| ==> |markers[k]| - 1 <= n
    ensures n == 0 || exists k :: 0 <= k < |markers| && |markers[k]| - 1 == n
  {
    if markers == [] then 0
    else
      var rest := Keep(markers[..|markers| - 1]);
      var n := |markers[|markers| - 1]| - 1;
      assert forall k :: 0 <= k < |markers| - 1 ==> markers[k] == markers[..|markers| - 1][k];
      if n > rest then n else rest
  }

  function Last(s: Bytes, n: nat): Bytes {
    if |s| > n then s[|s| - n..] else s
  }

  datatype Detector = Detector(fired: bool, tail: Bytes)

  const Fresh := Detector(false, [])

  /** One write, and whether it called onHit. */
  function Feed(d: Detector, p: Bytes, markers: seq<Bytes>): (Detector, bool) {
    if d.fired then (d, false)
    else if Marked(d.tail + p, markers) then (Detector(true, []), true)
    else (Detector(false, Last(d.tail + p, Keep(markers))), false)
  }

  function FeedAll(writes: seq<Bytes>, markers: seq<Bytes>): Detector {
    if writes == [] then Fresh
    else Feed(FeedAll(writes[..|writes| - 1], markers), writes[|writes| - 1], markers).0
  }

  /** Whether write number k calls onHit. */
  predicate Hits(writes: seq<Bytes>, markers: seq<Bytes>, k: nat)
    requires k < |writes|
  {
    Feed(FeedAll(writes[..k], markers), writes[k], markers).1
  }

  function Concat(writes: seq<Bytes>): Bytes {
    if writes == [] then [] else Concat(writes[..|writes| - 1]) + writes[|writes| - 1]
  }

  lemma OccursMore(s: Bytes, p: Bytes, m: Bytes)
    requires Occurs(s, m)
    ensures Occurs(s + p, m)
  {
    var i :| 0 <= i <= |s| && At(s, m, i);
    assert (s + p)[i..i + |m|] == s[i..i + |m|];
    assert At(s + p, m, i);
  }

  lemma OccursBefore(s: Bytes, p: Bytes, m: Bytes, i: int)
    ensures At(s + p, m, i) && i + |m| <= |s| ==> Occurs(s, m)
  {
    if At(s + p, m, i) && i + |m| <= |s| {
      assert s[i..i + |m|] == (s + p)[i..i + |m|];
      assert At(s, m, i);
    }
  }

  lemma OccursBehind(s: Bytes, p: Bytes, m: Bytes)
    requires Occurs(p, m)
    ensures Occurs(s + p, m)
  {
    var i :| 0 <= i <= |p| && At(p, m, i);
    assert (s + p)[|s| + i..|s| + i + |m|] == p[i..i + |m|];
    assert At(s + p, m, |s| + i);
  }

  lemma LastSplits(s: Bytes, n: nat)
    ensures var cut := |s| - |Last(s, n)|; 0 <= cut <= |s| && s == s[..cut] + Last(s, n) && (cut > 0 ==> |Last(s, n)| == n)
  {
  }

  /** An occurrence that ends past s starts within the last bytes a marker can straddle. */
  lemma Straddles(s: Bytes, p: Bytes, m: Bytes, keep: nat, i: int)
    requires |m| - 1 <= keep && At(s + p, m, i) && i + |m| > |s|
    ensures Occurs(Last(s, keep) + p, m)
  {
    var tail := Last(s, keep);
    var cut := |s| - |tail|;
    LastSplits(s, keep);
    assert i >= cut;
    assert s + p == s[..cut] + (tail + p);
    assert (tail + p)[i - cut..i - cut + |m|] == (s + p)[i..i + |m|];
    assert At(tail + p, m, i - cut);
  }

  /** A marker that was not there before the write is within the tail and the write. */
  lemma TailSuffices(s: Bytes, p: Bytes, m: Bytes, keep: nat)
    requires |m| - 1 <= keep && !Occurs(s, m)
    ensures Occurs(s + p, m) <==> Occurs(Last(s, keep) + p, m)
  {
    if Occurs(s + p, m) {
      var i :| 0 <= i <= |s + p| && At(s + p, m, i);
      OccursBefore(s, p, m, i);
      Straddles(s, p, m, keep, i);
    } else if Occurs(Last(s, keep) + p, m) {
      LastSplits(s, keep);
      var cut := |s| - |Last(s, keep)|;
      assert s + p == s[..cut] + (Last(s, keep) + p);
      OccursBehind(s[..cut], Last(s, keep) + p, m);
    }
  }

  lemma LastOfLast(s: Bytes, p: Bytes, n: nat)
    ensures Last(Last(s, n) + p, n) == Last(s + p, n)
  {
  }

  lemma MarkedMore(s: Bytes, p: Bytes, markers: seq<Bytes>)
    requires Marked(s, markers)
    ensures Marked(s + p, markers)
  {
    var k :| 0 <= k < |markers| && Occurs(s, markers[k]);
    OccursMore(s, p, markers[k]);
  }

  lemma TailMarked(s: Bytes, p: Bytes, markers: seq<Bytes>)
    requires !Marked(s, markers)
    ensures Marked(s + p, markers) <==> Marked(Last(s, Keep(markers)) + p, markers)
  {
    forall k | 0 <= k < |markers|
      ensures Occurs(s + p, markers[k]) <==> Occurs(Last(s, Keep(markers)) + p, markers[k])
    {
      TailSuffices(s, p, markers[k], Keep(markers));
    }
  }

  /**
   Over any split of the stream the detector has fired exactly when something was written and the
   whole so far holds a marker; until then its tail is the last `Keep` bytes of the whole.
   */
  lemma {:induction false} Detects(writes: seq<Bytes>, markers: seq<Bytes>)
    ensures var d := FeedAll(writes, markers);
            && (d.fired <==> writes != [] && Marked(Concat(writes), markers))
            && d.tail == (if d.fired then [] else Last(Concat(writes), Keep(markers)))
  {
    if writes != [] {
      var before, p := writes[..|writes| - 1], writes[|writes| - 1];
      Detects(before, markers);
      var s := Concat(before);
      if before == [] {
        assert s + p == p && [] + p == p;
      } else if Marked(s, markers) {
        MarkedMore(s, p, markers);
      } else {
        TailMarked(s, p, markers);
        LastOfLast(s, p, Keep(markers));
      }
    }
  }

  /** onHit is called by the first write after which the whole holds a marker, and by no other. */
  lemma HitsOnce(writes: seq<Bytes>, markers: seq<Bytes>, k: nat)
    requires k < |writes|
    ensures Hits(writes, markers, k) <==>
            Marked(Concat(writes[..k + 1]), markers) && (k == 0 || !Marked(Concat(writes[..k]), markers))
  {
    Detects(writes[..k], markers);
    Detects(writes[..k + 1], markers);
    assert writes[..k + 1][..k] == writes[..k] && writes[..k + 1][k] == writes[k];
  }

  /** Two splits of one stream leave the detector in the same state. */
  lemma ChunkingDoesNotMatter(writes: seq<Bytes>, others: seq<Bytes>, markers: seq<Bytes>)
    requires Concat(writes) == Concat(others) && writes != [] && others != []
    ensures FeedAll(writes, markers) == FeedAll(others, markers)
  {
    Detects(writes, markers);
    Detects(others, markers);
  }

  class MarkerDetector {
    const markers: seq<Bytes>
    const keep: nat
    var fired: bool
    var tail: Bytes
    var hits: nat           // calls of onHit

    ghost predicate Valid()
      reads this
    {
      keep == Keep(markers) && hits == (if fired then 1 else 0)
    }

    ghost function Abs(): Detector
      reads this
    {
      Detector(fired, tail)
    }

    constructor (markers: seq<Bytes>)
      ensures Valid() && Abs() == Fresh && this.markers == markers
    {
      var n, i := 0, 0;
      while i < |markers|
        invariant 0 <= i <= |markers|
        invariant n == Keep(markers[..i])
      {
        assert markers[..i + 1][..i] == markers[..i];
        if |markers[i]| - 1 > n {
          n := |markers[i]| - 1;
        }
        i := i + 1;
      }
      assert markers[..i] == markers;
      this.markers, keep, fired, tail, hits := markers, n, false, [], 0;
    }

    method Write(p: Bytes)
      requires Valid()
      modifies this
      ensures Valid()
      ensures Abs() == Feed(old(Abs()), p, markers).0
      ensures hits == old(hits) + (if Feed(old(Abs()), p, markers).1 then 1 else 0)
    {
      if fired {
        return;
      }
      var buf := tail + p;
      var i := 0;
      while i < |markers|
        invariant 0 <= i <= |markers|
        invariant forall k :: 0 <= k < i ==> !Occurs(buf, markers[k])
      {
        if Occurs(buf, markers[i]) {
          fired, tail, hits := true, [], hits + 1;
          return;
        }
        i := i + 1;
      }
      if |buf| > keep {
        tail := buf[|buf| - keep..];
      } else {
        tail := buf;
      }
    }
  }
}
