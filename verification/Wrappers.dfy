/** Small shared vocabulary of the model. */
module Wrappers {
  datatype Option<+T> = None | Some(value: T)

  function Max(a: int, b: int): int {
    if a >= b then a else b
  }

  function Min(a: int, b: int): int {
    if a <= b then a else b
  }
}

/** Counting by one element at a time. */
module Counting {
  function One(b: bool): int {
    if b then 1 else 0
  }

  /** `s` with `x` in it or not. */
  function Put<T>(s: set<T>, x: T, present: bool): set<T> {
    if present then s + {x} else s - {x}
  }

  lemma PutCard<T>(s: set<T>, x: T, present: bool)
    ensures |Put(s, x, present)| == |s| - One(x in s) + One(present)
  {
    if x in s {
      assert s + {x} == s;
    } else {
      assert s - {x} == s;
    }
  }

  lemma KeysCard<K, V>(m: map<K, V>, k: K, v: V)
    ensures |m[k := v]| == |m| + One(k !in m)
    ensures |m - {k}| == |m| - One(k in m)
  {
    assert m[k := v].Keys == Put(m.Keys, k, true);
    assert (m - {k}).Keys == Put(m.Keys, k, false);
    PutCard(m.Keys, k, true);
    PutCard(m.Keys, k, false);
  }

  lemma {:induction false} SubsetCard<T>(a: set<T>, b: set<T>)
    requires a <= b
    ensures |a| <= |b|
  {
    if a != {} {
      var x :| x in a;
      SubsetCard(a - {x}, b - {x});
    }
  }
}
