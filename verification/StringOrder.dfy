/** Lexicographic order on strings, and the one sorted listing of a set of them. */
module StringOrder {

  predicate Less(a: string, b: string) {
    b != [] && (a == [] || a[0] < b[0] || (a[0] == b[0] && Less(a[1..], b[1..])))
  }

  /** a and b first differ at k, where a ends or has the lower character. */
  predicate DiffersAt(a: string, b: string, k: nat) {
    k <= |a| && k < |b| && a[..k] == b[..k] && (k < |a| ==> a[k] < b[k])
  }

  lemma {:induction false} LessAt(a: string, b: string, k: nat)
    requires DiffersAt(a, b, k)
    ensures Less(a, b)
    decreases k
  {
    if k > 0 {
      assert a[0] == a[..k][0] == b[..k][0] == b[0];
      assert a[1..][..k - 1] == a[..k][1..] && b[1..][..k - 1] == b[..k][1..];
      LessAt(a[1..], b[1..], k - 1);
    }
  }

  lemma {:induction false} LessSomewhere(a: string, b: string) returns (k: nat)
    requires Less(a, b)
    ensures DiffersAt(a, b, k)
    decreases |a|
  {
    k := 0;
    if a != [] && a[0] == b[0] {
      var l := LessSomewhere(a[1..], b[1..]);
      assert a[..l + 1] == [a[0]] + a[1..][..l] && b[..l + 1] == [b[0]] + b[1..][..l];
      k := l + 1;
    }
  }

  /** The order is the lexicographic one. */
  lemma LessIff(a: string, b: string)
    ensures Less(a, b) <==> exists k :: DiffersAt(a, b, k)
  {
    hide Less, DiffersAt;
    if k :| DiffersAt(a, b, k) {
      LessAt(a, b, k);
    }
    if Less(a, b) {
      var k := LessSomewhere(a, b);
    }
  }

  lemma {:induction false} LessIrreflexive(a: string)
    ensures !Less(a, a)
    decreases |a|
  {
    if a != [] {
      LessIrreflexive(a[1..]);
    }
  }

  lemma {:induction false} LessTransitive(a: string, b: string, c: string)
    requires Less(a, b) && Less(b, c)
    ensures Less(a, c)
    decreases |a|
  {
    if a != [] && a[0] == b[0] == c[0] {
      LessTransitive(a[1..], b[1..], c[1..]);
    }
  }

  lemma {:induction false} LessTotal(a: string, b: string)
    ensures Less(a, b) || a == b || Less(b, a)
    decreases |a|
  {
    if a != [] && b != [] && a[0] == b[0] {
      LessTotal(a[1..], b[1..]);
      assert a == [a[0]] + a[1..] && b == [b[0]] + b[1..];
    }
  }

  ghost predicate Sorted(s: seq<string>) {
    forall i, j :: 0 <= i < j < |s| ==> Less(s[i], s[j])
  }

  /** x put at its place in a sorted sequence. */
  function Insert(x: string, s: seq<string>): seq<string> {
    if s == [] then [x]
    else
      var k := |s| - 1;
      if Less(x, s[k]) then Insert(x, s[..k]) + [s[k]] else s + [x]
  }

  lemma {:induction false} InsertSorted(x: string, s: seq<string>)
    requires Sorted(s) && x !in s
    ensures Sorted(Insert(x, s))
    ensures forall y :: y in Insert(x, s) <==> y == x || y in s
    decreases |s|
  {
    if s != [] {
      var k := |s| - 1;
      assert s == s[..k] + [s[k]];
      if Less(x, s[k]) {
        var r := Insert(x, s[..k]);
        InsertSorted(x, s[..k]);
        forall i | 0 <= i < |r| ensures Less(r[i], s[k]) {
          assert r[i] in r;
        }
      } else {
        LessTotal(x, s[k]);
        forall i | 0 <= i < |s| ensures Less(s[i], x) {
          if i < k {
            LessTransitive(s[i], s[k], x);
          }
        }
      }
    }
  }

  /** The members of a set in increasing order. */
  ghost function SortedOf(keys: set<string>): (s: seq<string>)
    ensures Sorted(s)
    ensures forall x :: x in s <==> x in keys
    ensures forall i :: 0 <= i < |s| ==> s[i] in keys
    decreases |keys|
  {
    if keys == {} then []
    else
      var k :| k in keys;
      var rest := SortedOf(keys - {k});
      InsertSorted(k, rest);
      Insert(k, rest)
  }

  /** A set has only one sorted listing, whatever order its members came in. */
  lemma {:induction false} SortedUnique(a: seq<string>, b: seq<string>)
    requires Sorted(a) && Sorted(b) && forall x :: x in a <==> x in b
    ensures a == b
    decreases |a|
  {
    if |a| + |b| > 0 {
      var z := (a + b)[0];
      assert z in a && z in b;
      assert a[0] in b && b[0] in a;
      FirstIsLeast(a, b[0]);
      FirstIsLeast(b, a[0]);
      if a[0] != b[0] {
        LessTransitive(a[0], b[0], a[0]);
        LessIrreflexive(a[0]);
      }
      TailMembers(a);
      TailMembers(b);
      SortedUnique(a[1..], b[1..]);
      assert a == [a[0]] + a[1..] && b == [b[0]] + b[1..];
    }
  }

  lemma FirstIsLeast(a: seq<string>, x: string)
    requires Sorted(a) && x in a
    ensures a[0] == x || Less(a[0], x)
  {
  }

  lemma TailMembers(a: seq<string>)
    requires Sorted(a) && a != []
    ensures Sorted(a[1..])
    ensures forall x :: x in a[1..] <==> x in a && x != a[0]
  {
    LessIrreflexive(a[0]);
    forall x ensures x in a[1..] <==> x in a && x != a[0] {
      if x in a && x != a[0] {
        var i :| 0 <= i < |a| && a[i] == x;
        assert a[1..][i - 1] == x;
      }
    }
  }

  lemma SortedDistinct(a: seq<string>)
    requires Sorted(a)
    ensures forall i, j :: 0 <= i < j < |a| ==> a[i] != a[j]
  {
    forall i, j | 0 <= i < j < |a| ensures a[i] != a[j] {
      LessIrreflexive(a[i]);
    }
  }
}
