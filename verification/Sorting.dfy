/**
 Sorting by a text key.  Go's sort.Slice is not stable, so all a caller may rely on is that the
 result is a sorted permutation; which one is settled exactly when equal keys mean equal elements.
 */
module Sorting {
  /** The bytewise order of Go strings. */
  predicate StringLe(a: string, b: string) {
    a == "" || (b != "" && (a[0] < b[0] || (a[0] == b[0] && StringLe(a[1..], b[1..]))))
  }

  lemma {:induction false} StringLeTotal(a: string, b: string)
    ensures StringLe(a, b) || StringLe(b, a)
  {
    if a != "" && b != "" && a[0] == b[0] {
      StringLeTotal(a[1..], b[1..]);
    }
  }

  lemma {:induction false} StringLeAntisymmetric(a: string, b: string)
    requires StringLe(a, b) && StringLe(b, a)
    ensures a == b
  {
    if a != "" && b != "" {
      StringLeAntisymmetric(a[1..], b[1..]);
      assert a == [a[0]] + a[1..] && b == [b[0]] + b[1..];
    }
  }

  lemma {:induction false} StringLeTransitive(a: string, b: string, c: string)
    requires StringLe(a, b) && StringLe(b, c)
    ensures StringLe(a, c)
  {
    if a != "" && b != "" && c != "" && a[0] == b[0] == c[0] {
      StringLeTransitive(a[1..], b[1..], c[1..]);
    }
  }

  /** The two texts agree up to place i, where a ends or has the smaller character. */
  predicate FirstDifference(a: string, b: string, i: nat) {
    && i <= |a| && i <= |b| && a[..i] == b[..i]
    && (i == |a| || (i < |b| && a[i] < b[i]))
  }

  /** StringLe is the dictionary order: a is a prefix of b, or smaller at the first place where they differ. */
  lemma {:induction false} StringLeIff(a: string, b: string)
    ensures StringLe(a, b) <==> exists i: nat :: FirstDifference(a, b, i)
  {
    if a == "" {
      assert FirstDifference(a, b, 0);
    } else if b != "" && a[0] == b[0] {
      StringLeIff(a[1..], b[1..]);
      if StringLe(a, b) {
        var i: nat :| FirstDifference(a[1..], b[1..], i);
        assert a[..i + 1] == [a[0]] + a[1..][..i] && b[..i + 1] == [b[0]] + b[1..][..i];
        assert FirstDifference(a, b, i + 1);
      } else {
        forall i: nat ensures !FirstDifference(a, b, i) {
          if FirstDifference(a, b, i) {
            assert i > 0 && a[1..][..i - 1] == a[..i][1..] && b[1..][..i - 1] == b[..i][1..];
            assert FirstDifference(a[1..], b[1..], i - 1);
          }
        }
      }
    } else {
      if StringLe(a, b) {
        assert FirstDifference(a, b, 0);
      }
      forall i: nat ensures FirstDifference(a, b, i) ==> i == 0 {
        assert i > 0 && i <= |a| && i <= |b| ==> a[..i][0] == a[0] && b[..i][0] == b[0];
      }
    }
  }

  ghost predicate SortedBy<T>(s: seq<T>, key: T -> string) {
    forall i, j :: 0 <= i < j < |s| ==> StringLe(key(s[i]), key(s[j]))
  }

  ghost predicate SortedPermutation<T>(s: seq<T>, of: seq<T>, key: T -> string) {
    SortedBy(s, key) && multiset(s) == multiset(of)
  }

  /** Elements with one key are one element. */
  ghost predicate NoClash<T>(s: seq<T>, key: T -> string) {
    forall x, y :: x in s && y in s && key(x) == key(y) ==> x == y
  }

  /** Where to insert a key into a sorted sequence. */
  method Position<T>(s: seq<T>, x: T, key: T -> string) returns (p: nat)
    requires SortedBy(s, key)
    ensures p <= |s|
    ensures forall i :: 0 <= i < p ==> StringLe(key(s[i]), key(x))
    ensures forall i :: p <= i < |s| ==> StringLe(key(x), key(s[i]))
  {
    p := |s|;
    while p > 0 && !StringLe(key(s[p - 1]), key(x))
      invariant p <= |s|
      invariant forall i :: p <= i < |s| ==> StringLe(key(x), key(s[i]))
    {
      StringLeTotal(key(s[p - 1]), key(x));
      p := p - 1;
    }
    forall i | 0 <= i < p ensures StringLe(key(s[i]), key(x)) {
      if i < p - 1 {
        StringLeTransitive(key(s[i]), key(s[p - 1]), key(x));
      }
    }
  }

  lemma InsertSorted<T>(s: seq<T>, x: T, p: nat, key: T -> string)
    requires SortedBy(s, key) && p <= |s|
    requires forall i :: 0 <= i < p ==> StringLe(key(s[i]), key(x))
    requires forall i :: p <= i < |s| ==> StringLe(key(x), key(s[i]))
    ensures SortedBy(s[..p] + [x] + s[p..], key)
    ensures multiset(s[..p] + [x] + s[p..]) == multiset(s) + multiset{x}
  {
    var t := s[..p] + [x] + s[p..];
    assert s == s[..p] + s[p..];
    forall i, j | 0 <= i < j < |t| ensures StringLe(key(t[i]), key(t[j])) {
      var i', j' := if i < p then i else i - 1, if j < p then j else j - 1;
      assert i != p ==> t[i] == s[i'];
      assert j != p ==> t[j] == s[j'];
    }
  }

  method Sort<T>(items: seq<T>, key: T -> string) returns (sorted: seq<T>)
    ensures SortedPermutation(sorted, items, key)
  {
    sorted := [];
    for n := 0 to |items|
      invariant SortedPermutation(sorted, items[..n], key)
    {
      var p := Position(sorted, items[n], key);
      InsertSorted(sorted, items[n], p, key);
      sorted := sorted[..p] + [items[n]] + sorted[p..];
      assert items[..n + 1] == items[..n] + [items[n]];
    }
    assert items[..|items|] == items;
  }

  lemma SameMembers<T>(s: seq<T>, t: seq<T>)
    requires multiset(s) == multiset(t)
    ensures forall x :: x in s <==> x in t
  {
    forall x ensures x in s <==> x in t {
      assert x in s <==> x in multiset(s);
      assert x in t <==> x in multiset(t);
    }
  }

  lemma HeadLeast<T>(s: seq<T>, key: T -> string, x: T)
    requires SortedBy(s, key) && x in s
    ensures StringLe(key(s[0]), key(x))
  {
    StringLeTotal(key(x), key(x));
  }

  /** Without clashes there is exactly one sorted permutation. */
  lemma {:induction false} SortedUnique<T>(s: seq<T>, t: seq<T>, key: T -> string)
    requires SortedBy(s, key) && SortedBy(t, key) && multiset(s) == multiset(t) && NoClash(s, key)
    ensures s == t
    decreases |s|
  {
    hide StringLe;
    assert |s| == |multiset(s)| == |multiset(t)| == |t|;
    if s != [] {
      HeadsAgree(s, t, key);
      Tail(s, key);
      Tail(t, key);
      SortedUnique(s[1..], t[1..], key);
      assert s == [s[0]] + s[1..] && t == [t[0]] + t[1..];
    }
  }

  lemma HeadsAgree<T>(s: seq<T>, t: seq<T>, key: T -> string)
    requires SortedBy(s, key) && SortedBy(t, key) && multiset(s) == multiset(t) && NoClash(s, key)
    requires s != [] && t != []
    ensures s[0] == t[0]
  {
    hide StringLe;
    assert s[0] in multiset(t) && t[0] in multiset(s);
    HeadLeast(t, key, s[0]);
    HeadLeast(s, key, t[0]);
    StringLeAntisymmetric(key(s[0]), key(t[0]));
  }

  lemma Tail<T>(s: seq<T>, key: T -> string)
    requires s != []
    ensures multiset(s[1..]) == multiset(s) - multiset{s[0]}
    ensures SortedBy(s, key) ==> SortedBy(s[1..], key)
    ensures NoClash(s, key) ==> NoClash(s[1..], key)
  {
    hide StringLe;
    assert s == [s[0]] + s[1..];
  }

  /** With a clash there are at least two: the clashing elements may stand either way round. */
  lemma ClashSwaps<T>(s: seq<T>, key: T -> string, p: nat, q: nat) returns (t: seq<T>)
    requires SortedBy(s, key) && p < q < |s| && s[p] != s[q] && key(s[p]) == key(s[q])
    ensures SortedPermutation(t, s, key) && t != s
  {
    t := s[p := s[q]][q := s[p]];
    assert forall i :: 0 <= i < |s| ==> key(t[i]) == key(s[i]);
    assert t[p] == s[q];
    assert multiset(t) == multiset(s) by { SwapPermutes(s, p, q); }
  }

  lemma SwapPermutes<T>(s: seq<T>, p: nat, q: nat)
    requires p < q < |s|
    ensures multiset(s[p := s[q]][q := s[p]]) == multiset(s)
  {
  }

  /** A sorted permutation is unique exactly when no two elements clash. */
  lemma UniqueIffNoClash<T>(s: seq<T>, key: T -> string)
    requires SortedBy(s, key)
    ensures NoClash(s, key) <==> (forall t :: SortedPermutation(t, s, key) ==> t == s)
  {
    if NoClash(s, key) {
      forall t | SortedPermutation(t, s, key) ensures t == s {
        SortedUnique(s, t, key);
      }
    } else {
      var x, y :| x in s && y in s && key(x) == key(y) && x != y;
      var i, j :| 0 <= i < |s| && 0 <= j < |s| && s[i] == x && s[j] == y;
      var t := ClashSwaps(s, key, if i < j then i else j, if i < j then j else i);
    }
  }
}
