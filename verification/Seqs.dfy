/** Sequences of positions: suffixes, ranges, strict order and order-preserving merges. */
module Seqs {

  datatype Option<+T> = None | Some(value: T)

  function Max(a: int, b: int): int {
    if a > b then a else b
  }

  function Min(a: int, b: int): int {
    if a < b then a else b
  }

  /** The last n elements of s, or all of s when it is shorter. */
  function LastN<T>(s: seq<T>, n: nat): seq<T> {
    if |s| <= n then s else s[|s| - n..]
  }

  /** The positions lo, lo+1, ..., hi-1. */
  function Range(lo: nat, hi: nat): (r: seq<nat>)
    ensures |r| == if lo <= hi then hi - lo else 0
    ensures forall i :: 0 <= i < |r| ==> r[i] == lo + i
  {
    if hi <= lo then [] else Range(lo, hi - 1) + [hi - 1]
  }

  ghost predicate Increasing(s: seq<nat>) {
    forall i, j :: 0 <= i < j < |s| ==> s[i] < s[j]
  }

  ghost predicate Below(s: seq<nat>, n: nat) {
    forall i :: 0 <= i < |s| ==> s[i] < n
  }

  /** m is an order-preserving merge of a and b: every element of m comes from exactly one of them. */
  ghost predicate Shuffle<T>(a: seq<T>, b: seq<T>, m: seq<T>)
    decreases |m|
  {
    if m == [] then a == [] && b == []
    else
      var k := |m| - 1;
      (a != [] && a[|a| - 1] == m[k] && Shuffle(a[..|a| - 1], b, m[..k])) ||
      (b != [] && b[|b| - 1] == m[k] && Shuffle(a, b[..|b| - 1], m[..k]))
  }

  lemma ShuffleNone<T>()
    ensures Shuffle<T>([], [], [])
  {
  }

  lemma ShuffleLeft<T>(a: seq<T>, b: seq<T>, m: seq<T>, x: T)
    requires Shuffle(a, b, m)
    ensures Shuffle(a + [x], b, m + [x])
  {
    assert (a + [x])[..|a|] == a;
    assert (m + [x])[..|m|] == m;
  }

  lemma {:induction false} ShuffleLefts<T>(a: seq<T>, b: seq<T>, m: seq<T>, xs: seq<T>)
    requires Shuffle(a, b, m)
    ensures Shuffle(a + xs, b, m + xs)
    decreases |xs|
  {
    if xs == [] {
      assert a + xs == a && m + xs == m;
    } else {
      var k := |xs| - 1;
      ShuffleLefts(a, b, m, xs[..k]);
      ShuffleLeft(a + xs[..k], b, m + xs[..k], xs[k]);
      assert a + xs == a + xs[..k] + [xs[k]] && m + xs == m + xs[..k] + [xs[k]];
    }
  }

  lemma ShuffleRight<T>(a: seq<T>, b: seq<T>, m: seq<T>, x: T)
    requires Shuffle(a, b, m)
    ensures Shuffle(a, b + [x], m + [x])
  {
    assert (b + [x])[..|b|] == b;
    assert (m + [x])[..|m|] == m;
  }

  /** A merge with nothing on the right is the left sequence itself. */
  lemma {:induction false} ShuffleAlone<T>(a: seq<T>, m: seq<T>)
    requires Shuffle(a, [], m)
    ensures a == m
    decreases |m|
  {
    if m != [] {
      ShuffleAlone(a[..|a| - 1], m[..|m| - 1]);
      assert a == a[..|a| - 1] + [a[|a| - 1]];
      assert m == m[..|m| - 1] + [m[|m| - 1]];
    }
  }

  lemma {:induction false} ShuffleLength<T>(a: seq<T>, b: seq<T>, m: seq<T>)
    requires Shuffle(a, b, m)
    ensures |m| == |a| + |b|
    decreases |m|
  {
    if m != [] {
      var k := |m| - 1;
      if a != [] && Shuffle(a[..|a| - 1], b, m[..k]) {
        ShuffleLength(a[..|a| - 1], b, m[..k]);
      } else {
        ShuffleLength(a, b[..|b| - 1], m[..k]);
      }
    }
  }

  /** A merge loses nothing and duplicates nothing. */
  lemma {:induction false} ShuffleMultiset<T>(a: seq<T>, b: seq<T>, m: seq<T>)
    requires Shuffle(a, b, m)
    ensures multiset(a) + multiset(b) == multiset(m)
    decreases |m|
  {
    if m != [] {
      var k := |m| - 1;
      assert m == m[..k] + [m[k]];
      if a != [] && a[|a| - 1] == m[k] && Shuffle(a[..|a| - 1], b, m[..k]) {
        assert a == a[..|a| - 1] + [a[|a| - 1]];
        ShuffleMultiset(a[..|a| - 1], b, m[..k]);
        assert multiset(a) == multiset(a[..|a| - 1]) + multiset{m[k]};
      } else {
        assert b == b[..|b| - 1] + [b[|b| - 1]];
        ShuffleMultiset(a, b[..|b| - 1], m[..k]);
        assert multiset(b) == multiset(b[..|b| - 1]) + multiset{m[k]};
      }
      assert multiset(m) == multiset(m[..k]) + multiset{m[k]};
    }
  }

  /** Dropping the element at index k keeps a sequence strictly increasing. */
  lemma IncreasingWithout(a: seq<nat>, x: nat, b: seq<nat>)
    requires Increasing(a + [x] + b)
    ensures Increasing(a + b)
    ensures x !in a + b
    ensures forall y :: y in a + b <==> y in a + [x] + b && y != x
  {
    var s := a + [x] + b;
    var t := a + b;
    forall i, j | 0 <= i < j < |t| ensures t[i] < t[j] {
      var i' := if i < |a| then i else i + 1;
      var j' := if j < |a| then j else j + 1;
      assert s[i'] < s[j'];
    }
    forall i | 0 <= i < |t| ensures t[i] != x {
      var i' := if i < |a| then i else i + 1;
      assert s[i'] == t[i] && s[|a|] == x;
    }
    forall y ensures y in t <==> y in s && y != x {
    }
  }

  /** Two strictly increasing sequences with the same elements are equal. */
  lemma {:induction false} IncreasingUnique(a: seq<nat>, b: seq<nat>)
    requires Increasing(a) && Increasing(b)
    requires forall x :: x in a <==> x in b
    ensures a == b
    decreases |a|
  {
    if |a| + |b| > 0 {
      var z := (a + b)[0];
      assert z in a && z in b;
      assert a[0] in b && b[0] in a;
      assert a[0] == b[0];
      var a', b' := a[1..], b[1..];
      forall x ensures x in a' <==> x in b' {
        if x in a' {
          var i :| 0 <= i < |a'| && a'[i] == x;
          assert a[i + 1] == x && x in b && x != b[0];
        }
        if x in b' {
          var i :| 0 <= i < |b'| && b'[i] == x;
          assert b[i + 1] == x && x in a && x != a[0];
        }
      }
      IncreasingUnique(a', b');
      assert a == [a[0]] + a' && b == [b[0]] + b';
    }
  }

  function Elems<T>(s: seq<T>): set<T> {
    set x | x in s
  }

  /** s without the members of m. */
  function Without(s: seq<nat>, m: set<nat>): seq<nat> {
    if s == [] then []
    else
      var k := |s| - 1;
      Without(s[..k], m) + if s[k] in m then [] else [s[k]]
  }

  lemma WithoutAppend(s: seq<nat>, x: nat, m: set<nat>)
    ensures Without(s + [x], m) == Without(s, m) + if x in m then [] else [x]
  {
    assert (s + [x])[..|s|] == s;
  }

  /** Adding to m something that is not in s changes nothing. */
  lemma {:induction false} WithoutOutside(s: seq<nat>, m: set<nat>, x: nat)
    requires x !in s
    ensures Without(s, m + {x}) == Without(s, m)
    decreases |s|
  {
    if s != [] {
      WithoutOutside(s[..|s| - 1], m, x);
    }
  }

  /** Appending a new element x either keeps it or, when x joins m, drops it. */
  lemma WithoutGrows(s: seq<nat>, m: set<nat>, x: nat)
    requires m <= Elems(s) && Below(s, x)
    ensures Without(s + [x], m) == Without(s, m) + [x]
    ensures Without(s + [x], m + {x}) == Without(s, m)
    ensures m <= Elems(s + [x]) && m + {x} <= Elems(s + [x])
  {
    assert x !in s;
    WithoutAppend(s, x, m);
    WithoutAppend(s, x, m + {x});
    WithoutOutside(s, m, x);
    assert forall y :: y in s + [x] <==> y in s || y == x;
  }

  lemma {:induction false} WithoutNothing(s: seq<nat>)
    ensures Without(s, {}) == s
    decreases |s|
  {
    if s != [] {
      WithoutNothing(s[..|s| - 1]);
      assert s == s[..|s| - 1] + [s[|s| - 1]];
    }
  }

  lemma {:induction false} WithoutAll(s: seq<nat>, m: set<nat>)
    requires forall i :: 0 <= i < |s| ==> s[i] in m
    ensures Without(s, m) == []
    decreases |s|
  {
    if s != [] {
      WithoutAll(s[..|s| - 1], m);
    }
  }

  /** What is left is increasing, and holds exactly the elements of s outside m. */
  lemma {:induction false} WithoutMembers(s: seq<nat>, m: set<nat>)
    requires Increasing(s)
    ensures Increasing(Without(s, m))
    ensures forall x :: x in Without(s, m) <==> x in s && x !in m
    decreases |s|
  {
    if s != [] {
      var k := |s| - 1;
      var r := Without(s[..k], m);
      WithoutMembers(s[..k], m);
      assert s == s[..k] + [s[k]];
      forall i | 0 <= i < |r| ensures r[i] < s[k] {
        assert r[i] in s[..k];
      }
    }
  }

  /** When one more element x of an increasing sequence goes, exactly x disappears from what is left. */
  lemma WithoutOneMore(s: seq<nat>, m: set<nat>, a: seq<nat>, x: nat, b: seq<nat>)
    requires Increasing(s) && Without(s, m) == a + [x] + b
    ensures Without(s, m + {x}) == a + b
    ensures x in s && x !in m
  {
    WithoutMembers(s, m);
    WithoutMembers(s, m + {x});
    IncreasingWithout(a, x, b);
    assert x in a + [x] + b;
    IncreasingUnique(Without(s, m + {x}), a + b);
  }
}
