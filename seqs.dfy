/**
 * Sequences of runs: the samples the exporter sends are runs of samples, one
 * run per gathering task, sent one after the other.
 */
module Seqs {
  /** Appending to a sequence twice is appending the concatenation. */
  lemma AppendAssoc<T>(a: seq<T>, b: seq<T>, c: seq<T>)
    ensures (a + b) + c == a + (b + c)
  {
  }

  /** Runs, one after the other. */
  function Concat<T>(ss: seq<seq<T>>): seq<T>
  {
    if ss == [] then [] else Concat(ss[..|ss| - 1]) + ss[|ss| - 1]
  }

  /** Eleven runs one after the other. */
  lemma ConcatEleven<T>(ss: seq<seq<T>>)
    requires |ss| == 11
    ensures Concat(ss) == ss[0] + ss[1] + ss[2] + ss[3] + ss[4] + ss[5] + ss[6] + ss[7] + ss[8] + ss[9] + ss[10]
  {
    assert Concat(ss[..1]) == ss[0] by {
      assert ss[..1][..0] == [];
    }
    assert Concat(ss[..2]) == ss[0] + ss[1] by {
      assert ss[..2][..1] == ss[..1];
    }
    assert Concat(ss[..3]) == ss[0] + ss[1] + ss[2] by {
      assert ss[..3][..2] == ss[..2];
    }
    assert Concat(ss[..4]) == ss[0] + ss[1] + ss[2] + ss[3] by {
      assert ss[..4][..3] == ss[..3];
    }
    assert Concat(ss[..5]) == ss[0] + ss[1] + ss[2] + ss[3] + ss[4] by {
      assert ss[..5][..4] == ss[..4];
    }
    assert Concat(ss[..6]) == ss[0] + ss[1] + ss[2] + ss[3] + ss[4] + ss[5] by {
      assert ss[..6][..5] == ss[..5];
    }
    assert Concat(ss[..7]) == ss[0] + ss[1] + ss[2] + ss[3] + ss[4] + ss[5] + ss[6] by {
      assert ss[..7][..6] == ss[..6];
    }
    assert Concat(ss[..8]) == ss[0] + ss[1] + ss[2] + ss[3] + ss[4] + ss[5] + ss[6] + ss[7] by {
      assert ss[..8][..7] == ss[..7];
    }
    assert Concat(ss[..9]) == ss[0] + ss[1] + ss[2] + ss[3] + ss[4] + ss[5] + ss[6] + ss[7] + ss[8] by {
      assert ss[..9][..8] == ss[..8];
    }
    assert Concat(ss[..10]) == ss[0] + ss[1] + ss[2] + ss[3] + ss[4] + ss[5] + ss[6] + ss[7] + ss[8] + ss[9] by {
      assert ss[..10][..9] == ss[..9];
    }
    assert Concat(ss) == ss[0] + ss[1] + ss[2] + ss[3] + ss[4] + ss[5] + ss[6] + ss[7] + ss[8] + ss[9] + ss[10] by {
      assert ss[..11] == ss;
    }
  }

  /** Two sequences of runs one after the other send the two runs' samples. */
  lemma {:induction false} ConcatAppend<T>(a: seq<seq<T>>, b: seq<seq<T>>)
    ensures Concat(a + b) == Concat(a) + Concat(b)
    decreases |b|
  {
    if b == [] {
      assert a + b == a;
    } else {
      var b' := b[..|b| - 1];
      assert (a + b)[..|a + b| - 1] == a + b';
      ConcatAppend(a, b');
      AppendAssoc(Concat(a), Concat(b'), b[|b| - 1]);
    }
  }

  /** The elements around the `i`th run. */
  lemma ConcatAround<T>(ss: seq<seq<T>>, i: nat)
    requires i < |ss|
    ensures Concat(ss) == Concat(ss[..i]) + ss[i] + Concat(ss[i + 1..])
  {
    var upto, post := ss[..i + 1], ss[i + 1..];
    calc {
      Concat(ss);
      { assert ss == upto + post; }
      Concat(upto + post);
      { ConcatAppend(upto, post); }
      Concat(upto) + Concat(post);
      { assert upto[..i] == ss[..i]; }
      Concat(ss[..i]) + ss[i] + Concat(post);
    }
  }

  /** Taking the `i`th element out of a sequence takes one copy of it out of its multiset. */
  lemma Without<T>(b: seq<T>, i: nat)
    requires i < |b|
    ensures multiset(b) == multiset(b[..i] + b[i + 1..]) + multiset{b[i]}
  {
    assert b == b[..i] + [b[i]] + b[i + 1..];
  }

  /** One copy of the same element cancels on both sides of a multiset equation. */
  lemma Cancel<T>(x: multiset<T>, y: multiset<T>, e: T)
    requires x + multiset{e} == y + multiset{e}
    ensures x == y
  {
    assert x == (x + multiset{e}) - multiset{e};
    assert y == (y + multiset{e}) - multiset{e};
  }

  /** Runs concatenated in any order give the same multiset of elements. */
  lemma {:induction false} ConcatPermutation<T>(a: seq<seq<T>>, b: seq<seq<T>>)
    requires multiset(a) == multiset(b)
    ensures multiset(Concat(a)) == multiset(Concat(b))
    decreases |a|
  {
    if a == [] {
      assert |b| == |multiset(b)| == 0;
    } else {
      var n := |a| - 1;
      var last, a' := a[n], a[..n];
      Without(a, n);
      assert a[..n] + a[n + 1..] == a';
      assert last in multiset(b);
      var i :| 0 <= i < |b| && b[i] == last;
      Without(b, i);
      var rest := b[..i] + b[i + 1..];
      Cancel(multiset(a'), multiset(rest), last);
      ConcatPermutation(a', rest);
      ConcatAppend(b[..i], b[i + 1..]);
      ConcatAround(b, i);
    }
  }

  /** Emptying the `i`th run leaves the runs around it, in order: one run's elements fewer. */
  lemma ConcatWithout<T>(ss: seq<seq<T>>, ts: seq<seq<T>>, i: nat)
    requires |ss| == |ts| && i < |ss| && ts[i] == []
    requires forall j :: 0 <= j < |ss| && j != i ==> ts[j] == ss[j]
    ensures Concat(ts) == Concat(ss[..i]) + Concat(ss[i + 1..])
    ensures multiset(Concat(ts)) + multiset(ss[i]) == multiset(Concat(ss))
  {
    var pre, post := Concat(ss[..i]), Concat(ss[i + 1..]);
    calc {
      Concat(ts);
      { ConcatAround(ts, i); }
      Concat(ts[..i]) + ts[i] + Concat(ts[i + 1..]);
      { assert ts[..i] == ss[..i]; assert ts[i + 1..] == ss[i + 1..]; }
      pre + [] + post;
      { assert pre + [] == pre; }
      pre + post;
    }
    calc {
      multiset(Concat(ss));
      { ConcatAround(ss, i); }
      multiset(pre + ss[i] + post);
      multiset(pre) + multiset(ss[i]) + multiset(post);
      multiset(pre + post) + multiset(ss[i]);
    }
  }

  /** Eight elements appended one at a time are the eight appended at once. */
  lemma AppendEight<T>(s: seq<T>, a: T, b: T, c: T, d: T, e: T, f: T, g: T, h: T)
    ensures s + [a] + [b] + [c] + [d] + [e] + [f] + [g] + [h] == s + [a, b, c, d, e, f, g, h]
  {
  }
}
