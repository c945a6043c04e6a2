/** Weighted sums over sequences, and the sequence edits the protocol performs.

    A thread pool, a completion queue or a link is a sequence here. The whole-run properties are
    conservation laws: sums, over such sequences, of a weight given to every element. The three
    editing functions state what they do to every sum, so that a law is re-established after a step
    by linear arithmetic. */
module Bags {

  function One(b: bool): nat { if b then 1 else 0 }

  function Sum<T(!new)>(s: seq<T>, w: T -> nat): nat {
    if s == [] then 0 else w(s[0]) + Sum(s[1..], w)
  }

  lemma {:induction false} SumConcat<T(!new)>(s: seq<T>, t: seq<T>, w: T -> nat)
    ensures Sum(s + t, w) == Sum(s, w) + Sum(t, w)
  {
    if s == [] {
      assert s + t == t;
    } else {
      assert (s + t)[1..] == s[1..] + t;
      SumConcat(s[1..], t, w);
    }
  }

  lemma SumAround<T(!new)>(s: seq<T>, k: nat, w: T -> nat)
    requires k < |s|
    ensures Sum(s, w) == Sum(s[..k], w) + w(s[k]) + Sum(s[k + 1..], w)
  {
    assert s == s[..k] + s[k..];
    SumConcat(s[..k], s[k..], w);
    assert s[k..][1..] == s[k + 1..];
  }

  function Append<T(!new)>(s: seq<T>, e: T): (r: seq<T>)
    ensures |r| == |s| + 1 && r[|s|] == e
    ensures forall x {:trigger x in r} :: x in r <==> x in s || x == e
    ensures forall w: T -> nat {:trigger Sum(r, w)} :: Sum(r, w) == Sum(s, w) + w(e)
  {
    assert forall w: T -> nat {:trigger Sum(s + [e], w)} :: Sum(s + [e], w) == Sum(s, w) + w(e) by {
      forall w: T -> nat ensures Sum(s + [e], w) == Sum(s, w) + w(e) { SumConcat(s, [e], w); }
    }
    s + [e]
  }

  function Remove<T(!new)>(s: seq<T>, k: nat): (r: seq<T>)
    requires k < |s|
    ensures |r| == |s| - 1
    ensures forall x {:trigger x in r} :: x in r ==> x in s
    ensures forall w: T -> nat {:trigger Sum(r, w)} :: Sum(s, w) == Sum(r, w) + w(s[k])
  {
    assert forall w: T -> nat {:trigger Sum(s[..k] + s[k + 1..], w)} ::
        Sum(s, w) == Sum(s[..k] + s[k + 1..], w) + w(s[k]) by {
      forall w: T -> nat ensures Sum(s, w) == Sum(s[..k] + s[k + 1..], w) + w(s[k]) {
        SumAround(s, k, w);
        SumConcat(s[..k], s[k + 1..], w);
      }
    }
    s[..k] + s[k + 1..]
  }

  function Replace<T(!new)>(s: seq<T>, k: nat, e: T): (r: seq<T>)
    requires k < |s|
    ensures |r| == |s| && r[k] == e
    ensures forall x {:trigger x in r} :: x in r ==> x in s || x == e
    ensures forall w: T -> nat {:trigger Sum(r, w)} :: Sum(s, w) + w(e) == Sum(r, w) + w(s[k])
  {
    assert forall w: T -> nat {:trigger Sum(s[k := e], w)} ::
        Sum(s, w) + w(e) == Sum(s[k := e], w) + w(s[k]) by {
      forall w: T -> nat ensures Sum(s, w) + w(e) == Sum(s[k := e], w) + w(s[k]) {
        SumAround(s, k, w);
        SumAround(s[k := e], k, w);
        assert s[k := e][..k] == s[..k] && s[k := e][k + 1..] == s[k + 1..];
      }
    }
    s[k := e]
  }

  /** Every element weighs at most the sum. */
  lemma {:induction false} Outweighed<T(!new)>(s: seq<T>, w: T -> nat, e: T)
    requires e in s
    ensures w(e) <= Sum(s, w)
  {
    if s[0] != e { Outweighed(s[1..], w, e); }
  }

  lemma HeadBelongs<T(!new)>(s: seq<T>)
    ensures s != [] ==> s[0] in s
  {
  }

  lemma HeadWeighs<T(!new)>(s: seq<T>, w: T -> nat)
    ensures s != [] ==> w(s[0]) <= Sum(s, w)
  {
  }

  /** A positive sum has an element to blame. */
  lemma {:induction false} Witness<T(!new)>(s: seq<T>, w: T -> nat) returns (k: nat)
    requires Sum(s, w) > 0
    ensures k < |s| && w(s[k]) > 0
  {
    if w(s[0]) > 0 {
      k := 0;
    } else {
      var j := Witness(s[1..], w);
      k := j + 1;
    }
  }

  /** Pointwise smaller weights give smaller sums. */
  lemma {:induction false} SumMonotone<T(!new)>(s: seq<T>, v: T -> nat, w: T -> nat)
    requires forall e :: e in s ==> v(e) <= w(e)
    ensures Sum(s, v) <= Sum(s, w)
  {
    if s != [] { SumMonotone(s[1..], v, w); }
  }

  ghost function Plus<T(!new)>(v: T -> nat, w: T -> nat): T -> nat { (e: T) => v(e) + w(e) }

  lemma {:induction false} SumAdds<T(!new)>(s: seq<T>, v: T -> nat, w: T -> nat)
    ensures Sum(s, Plus(v, w)) == Sum(s, v) + Sum(s, w)
  {
    if s != [] { SumAdds(s[1..], v, w); }
  }

  lemma {:induction false} SumZero<T(!new)>(s: seq<T>, w: T -> nat)
    requires forall e :: w(e) == 0
    ensures Sum(s, w) == 0
  {
    if s != [] { SumZero(s[1..], w); }
  }

  ghost function Is<T(!new)>(x: T): T -> nat { (y: T) => if y == x then 1 else 0 }

  lemma Occurs<T(!new)>(s: seq<T>, x: T)
    ensures x in s <==> Sum(s, Is(x)) > 0
  {
    if x in s { Outweighed(s, Is(x), x); }
    if Sum(s, Is(x)) > 0 { var k := Witness(s, Is(x)); }
  }

  /** An element of a sequence without repetition occurs once. */
  lemma {:induction false} OccursOnce<T(!new)>(s: seq<T>, x: T)
    requires forall i, j :: 0 <= i < j < |s| ==> s[i] != s[j]
    ensures Sum(s, Is(x)) == if x in s then 1 else 0
  {
    if s != [] {
      OccursOnce(s[1..], x);
      assert s == [s[0]] + s[1..];
    }
  }

  /** A sum splits into the part of one element and the rest. */
  lemma {:induction false} SumSplits<T(!new)>(s: seq<T>, w: T -> nat, x: T)
    ensures Sum(s, w) == Sum(s, Only(x, w)) + Sum(s, Except(x, w))
  {
    if s != [] { SumSplits(s[1..], w, x); }
  }

  ghost function Only<T(!new)>(x: T, w: T -> nat): T -> nat { (y: T) => if y == x then w(y) else 0 }

  ghost function Except<T(!new)>(x: T, w: T -> nat): T -> nat { (y: T) => if y == x then 0 else w(y) }

  lemma {:induction false} AbsentWeighsNothing<T(!new)>(s: seq<T>, w: T -> nat, x: T)
    requires x !in s
    ensures Sum(s, Only(x, w)) == 0
  {
    if s != [] { AbsentWeighsNothing(s[1..], w, x); }
  }

  /** What is in a sequence and is not the removed element is still there. */
  lemma RemoveKeepsOthers<T(!new)>(s: seq<T>, k: nat, x: T)
    requires k < |s| && x in s && x != s[k]
    ensures x in Remove(s, k)
  {
    var i :| 0 <= i < |s| && s[i] == x;
    assert i < k ==> Remove(s, k)[i] == x;
    assert i > k ==> Remove(s, k)[i - 1] == x;
  }

  /** Distinct elements that are all found elsewhere weigh no more than what is there. */
  lemma {:induction false} DistinctWithin<T(!new)>(s: seq<T>, t: seq<T>, w: T -> nat)
    requires forall i, j :: 0 <= i < j < |s| ==> s[i] != s[j]
    requires forall x :: x in s ==> x in t
    ensures Sum(s, w) <= Sum(t, w)
  {
    if s != [] {
      assert s[0] in t;
      var k :| 0 <= k < |t| && t[k] == s[0];
      forall x | x in s[1..] ensures x in Remove(t, k) { RemoveKeepsOthers(t, k, x); }
      DistinctWithin(s[1..], Remove(t, k), w);
    }
  }
}
