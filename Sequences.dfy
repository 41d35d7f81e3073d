/**
 * Sequence helpers the stages share: distinctness, flattening, `_chunked`
 * batching (agents/llm_triage.py, agents/llm_jira.py and agents/llm_filter.py
 * each carry the same one-line definition), and `sorted()` over a set of ints.
 */
module Sequences {

  predicate Distinct<T(==)>(s: seq<T>) {
    forall p, q :: 0 <= p < q < |s| ==> s[p] != s[q]
  }

  function Flatten<T>(ss: seq<seq<T>>): seq<T>
    decreases |ss|
  {
    if ss == [] then [] else Flatten(ss[..|ss| - 1]) + ss[|ss| - 1]
  }

  lemma FlattenSnoc<T>(ss: seq<seq<T>>, s: seq<T>)
    ensures Flatten(ss + [s]) == Flatten(ss) + s
  {
    assert (ss + [s])[..|ss|] == ss;
  }

  /** `_chunked(seq, size)`: consecutive slices of `size` elements, the last one possibly shorter. */
  function Chunks<T>(s: seq<T>, size: nat): seq<seq<T>>
    requires size > 0
    decreases |s|
  {
    if s == [] then []
    else if |s| <= size then [s]
    else [s[..size]] + Chunks(s[size..], size)
  }

  function FlattenFront<T>(ss: seq<seq<T>>): seq<T>
    decreases |ss|
  {
    if ss == [] then [] else ss[0] + FlattenFront(ss[1..])
  }

  lemma {:induction false} FlattenFrontIsFlatten<T>(ss: seq<seq<T>>)
    ensures FlattenFront(ss) == Flatten(ss)
    decreases |ss|
  {
    if ss != [] {
      var n := |ss|;
      if n == 1 {
        assert ss[1..] == [];
        assert ss[..0] == [];
      } else {
        FlattenFrontIsFlatten(ss[1..]);
        FlattenFrontIsFlatten(ss[..n - 1]);
        FlattenFrontIsFlatten(ss[1..][..n - 2]);
        assert ss[1..][..n - 2] == ss[..n - 1][1..];
        assert ss[1..][n - 2] == ss[n - 1];
        assert ss[..n - 1][0] == ss[0];
      }
    }
  }

  lemma {:induction false} ChunksConcat<T>(s: seq<T>, size: nat)
    requires size > 0
    ensures FlattenFront(Chunks(s, size)) == s
    decreases |s|
  {
    if |s| > size {
      ChunksConcat(s[size..], size);
      assert s == s[..size] + s[size..];
    } else if s != [] {
      assert FlattenFront([s]) == s + FlattenFront([]);
    }
  }

  lemma {:induction false} ChunksSizes<T>(s: seq<T>, size: nat)
    requires size > 0
    ensures forall b :: 0 <= b < |Chunks(s, size)| ==> 0 < |Chunks(s, size)[b]| <= size
    ensures |Chunks(s, size)| <= |s|
    decreases |s|
  {
    if |s| > size {
      ChunksSizes(s[size..], size);
      var r := Chunks(s, size);
      var rest := Chunks(s[size..], size);
      forall b | 0 <= b < |r|
        ensures 0 < |r[b]| <= size
      {
        if b > 0 {
          assert r[b] == rest[b - 1];
        }
      }
    }
  }

  /** Batches are non-empty, at most `size` long, and concatenate back to the input in order. */
  lemma ChunksPartition<T>(s: seq<T>, size: nat)
    requires size > 0
    ensures Flatten(Chunks(s, size)) == s
    ensures forall b :: 0 <= b < |Chunks(s, size)| ==> 0 < |Chunks(s, size)[b]| <= size
    ensures |Chunks(s, size)| <= |s|
  {
    ChunksConcat(s, size);
    ChunksSizes(s, size);
    FlattenFrontIsFlatten(Chunks(s, size));
  }

  /** `_chunked` makes ceil(|s| / size) batches: the last one is reached and is not empty. */
  lemma {:induction false} ChunksCount<T>(s: seq<T>, size: nat)
    requires size > 0
    ensures |s| <= |Chunks(s, size)| * size
    ensures s != [] ==> (|Chunks(s, size)| - 1) * size < |s|
    decreases |s|
  {
    if |s| > size {
      ChunksCount(s[size..], size);
      var c := |Chunks(s[size..], size)|;
      assert |Chunks(s, size)| == c + 1;
      assert (c + 1) * size == c * size + size;
    }
  }

  lemma HasElement(s: set<int>)
    requires s != {}
    ensures exists y :: y in s
  {
    if forall y :: y !in s {
      assert false;
    }
  }

  lemma MinExists(s: set<int>)
    requires s != {}
    ensures exists m :: m in s && forall x :: x in s ==> m <= x
    decreases |s|
  {
    HasElement(s);
    var y :| y in s;
    var rest := s - {y};
    if rest == {} {
      forall x | x in s
        ensures y <= x
      {
        assert x !in rest;
      }
    } else {
      MinExists(rest);
      var m :| m in rest && forall x :: x in rest ==> m <= x;
      var least := if y < m then y else m;
      forall x | x in s
        ensures least <= x
      {
        if x != y {
          assert x in rest;
        }
      }
      assert least in s;
    }
  }

  function MinOf(s: set<int>): (m: int)
    requires s != {}
    ensures m in s && forall x :: x in s ==> m <= x
  {
    MinExists(s);
    var m :| m in s && forall x :: x in s ==> m <= x;
    m
  }

  predicate StrictlyAscending(s: seq<int>) {
    forall p, q :: 0 <= p < q < |s| ==> s[p] < s[q]
  }

  /** `sorted(s)` for a set of ints: its elements, each once, ascending. */
  function SortedInts(s: set<int>): (r: seq<int>)
    ensures |r| == |s|
    ensures forall x :: x in r <==> x in s
    ensures StrictlyAscending(r)
    decreases |s|
  {
    if s == {} then []
    else
      var m := MinOf(s);
      var rest := SortedInts(s - {m});
      assert forall x :: x in rest ==> m < x;
      [m] + rest
  }

  function Count<T(==)>(s: seq<T>, x: T): nat
    decreases |s|
  {
    if s == [] then 0 else Count(s[..|s| - 1], x) + (if s[|s| - 1] == x then 1 else 0)
  }

  lemma DistinctSnoc<T>(a: seq<T>, x: T)
    requires Distinct(a) && x !in a
    ensures Distinct(a + [x])
  {
    var r := a + [x];
    forall p, q | 0 <= p < q < |r|
      ensures r[p] != r[q]
    {
      assert r[p] == a[p];
      if q < |a| {
        assert r[q] == a[q];
      }
    }
  }

  lemma DistinctConcat<T>(a: seq<T>, b: seq<T>)
    requires Distinct(a) && Distinct(b)
    requires forall i, j :: 0 <= i < |a| && 0 <= j < |b| ==> a[i] != b[j]
    ensures Distinct(a + b)
  {
    var r := a + b;
    forall p, q | 0 <= p < q < |r|
      ensures r[p] != r[q]
    {
      if q < |a| {
        assert r[p] == a[p] && r[q] == a[q];
      } else if p < |a| {
        assert r[p] == a[p] && r[q] == b[q - |a|];
      } else {
        assert r[p] == b[p - |a|] && r[q] == b[q - |a|];
      }
    }
  }

  /** Removing the k-th element of a duplicate-free sequence removes exactly that value. */
  lemma DistinctRemove<T>(b: seq<T>, k: nat)
    requires k < |b| && Distinct(b)
    ensures Distinct(b[..k] + b[k + 1..])
    ensures forall y :: y in b[..k] + b[k + 1..] <==> y in b && y != b[k]
  {
    var r := b[..k] + b[k + 1..];
    forall p, q | 0 <= p < q < |r|
      ensures r[p] != r[q]
    {
      var p' := if p < k then p else p + 1;
      var q' := if q < k then q else q + 1;
      assert r[p] == b[p'] && r[q] == b[q'];
    }
    forall y
      ensures y in r <==> y in b && y != b[k]
    {
      if y in r {
        var i :| 0 <= i < |r| && r[i] == y;
        var i' := if i < k then i else i + 1;
        assert b[i'] == y;
      }
      if y in b && y != b[k] {
        var i :| 0 <= i < |b| && b[i] == y;
        if i < k {
          assert r[i] == y;
        } else {
          assert r[i - 1] == y;
        }
      }
    }
  }

  lemma {:induction false} FlattenAppend<T>(a: seq<seq<T>>, b: seq<seq<T>>)
    ensures Flatten(a + b) == Flatten(a) + Flatten(b)
    decreases |b|
  {
    if b == [] {
      assert a + b == a;
    } else {
      var b', last := b[..|b| - 1], b[|b| - 1];
      FlattenAppend(a, b');
      assert (a + b)[..|a + b| - 1] == a + b';
      assert (a + b)[|a + b| - 1] == last;
      calc {
        Flatten(a + b);
        Flatten(a + b') + last;
        (Flatten(a) + Flatten(b')) + last;
        Flatten(a) + (Flatten(b') + last);
        Flatten(a) + Flatten(b);
      }
    }
  }

  /** One single-element list per element. */
  function Singletons<T>(xs: seq<T>): (r: seq<seq<T>>)
    ensures |r| == |xs| && forall i :: 0 <= i < |xs| ==> r[i] == [xs[i]]
  {
    seq(|xs|, i requires 0 <= i < |xs| => [xs[i]])
  }

  lemma {:induction false} FlattenSingletons<T>(xs: seq<T>)
    ensures Flatten(Singletons(xs)) == xs
    decreases |xs|
  {
    if xs != [] {
      var n := |xs|;
      FlattenSingletons(xs[..n - 1]);
      assert Singletons(xs) == Singletons(xs[..n - 1]) + [[xs[n - 1]]];
      FlattenSnoc(Singletons(xs[..n - 1]), [xs[n - 1]]);
      assert xs[..n - 1] + [xs[n - 1]] == xs;
    }
  }

  /** A list of non-empty lists is no longer than its concatenation. */
  lemma {:induction false} FlattenLength<T>(ss: seq<seq<T>>)
    requires forall i :: 0 <= i < |ss| ==> ss[i] != []
    ensures |ss| <= |Flatten(ss)|
    decreases |ss|
  {
    if ss != [] {
      FlattenLength(ss[..|ss| - 1]);
    }
  }

  function SetOf(s: seq<int>): set<int> {
    set x | x in s
  }

  /** A duplicate-free list has as many elements as the set of its values. */
  lemma {:induction false} DistinctCard(xs: seq<int>)
    requires Distinct(xs)
    ensures |SetOf(xs)| == |xs|
    decreases |xs|
  {
    if xs != [] {
      var n := |xs|;
      var prefix := xs[..n - 1];
      assert Distinct(prefix) by {
        forall p, q | 0 <= p < q < |prefix|
          ensures prefix[p] != prefix[q]
        {
          assert prefix[p] == xs[p] && prefix[q] == xs[q];
        }
      }
      DistinctCard(prefix);
      assert SetOf(xs) == SetOf(prefix) + {xs[n - 1]};
      assert xs[n - 1] !in SetOf(prefix) by {
        forall i | 0 <= i < |prefix|
          ensures prefix[i] != xs[n - 1]
        {
          assert prefix[i] == xs[i];
        }
      }
    }
  }
}
