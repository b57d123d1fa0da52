/**
 * The order Go uses for `<` on strings (byte-wise lexicographic), the
 * "sorted permutation" that `sort.Strings` and `sort.Slice` produce, and
 * sums over sequences that do not depend on the order of the elements.
 *
 * Characters are compared by code point; for well-formed text this is the
 * same order as comparing the UTF-8 bytes.
 */
module ByteOrder {

  /** a <= b in Go's string order: a is a prefix of b, or a is smaller at the first difference. */
  predicate LessEq(a: string, b: string)
    decreases |a|
  {
    |a| == 0 || (|b| > 0 && (a[0] < b[0] || (a[0] == b[0] && LessEq(a[1..], b[1..]))))
  }

  /** The textbook statement of the same order, used as an independent reference. */
  ghost predicate LexicographicLessEq(a: string, b: string) {
    a <= b || exists k :: 0 <= k < |a| && k < |b| && a[..k] == b[..k] && a[k] < b[k]
  }

  lemma {:induction false} LessEqMeansLexicographic(a: string, b: string)
    ensures LessEq(a, b) <==> LexicographicLessEq(a, b)
    decreases |a|
  {
    if |a| > 0 && |b| > 0 && a[0] == b[0] {
      LessEqMeansLexicographic(a[1..], b[1..]);
      if LexicographicLessEq(a[1..], b[1..]) {
        if a[1..] <= b[1..] {
          assert a <= b;
        } else {
          var k :| 0 <= k < |a[1..]| && k < |b[1..]| && a[1..][..k] == b[1..][..k] && a[1..][k] < b[1..][k];
          assert a[..k + 1] == [a[0]] + a[1..][..k];
          assert b[..k + 1] == [b[0]] + b[1..][..k];
        }
      }
      if LexicographicLessEq(a, b) {
        if a <= b {
          assert a[1..] <= b[1..];
        } else {
          var k :| 0 <= k < |a| && k < |b| && a[..k] == b[..k] && a[k] < b[k];
          assert k > 0;
          assert a[1..][..k - 1] == a[..k][1..];
          assert b[1..][..k - 1] == b[..k][1..];
        }
      }
    } else if |a| > 0 && |b| > 0 {
      if a[0] > b[0] {
        assert !(a <= b) by {
          assert a[0] != b[0];
        }
        assert forall k :: 0 < k <= |a| && k <= |b| ==> a[..k][0] == a[0] && b[..k][0] == b[0];
      }
      if a[0] < b[0] {
        assert a[..0] == b[..0];
      }
    }
  }

  lemma {:induction false} LessEqReflexive(a: string)
    ensures LessEq(a, a)
    decreases |a|
  {
    if |a| > 0 {
      LessEqReflexive(a[1..]);
    }
  }

  lemma {:induction false} LessEqTotal(a: string, b: string)
    ensures LessEq(a, b) || LessEq(b, a)
    decreases |a|
  {
    if |a| > 0 && |b| > 0 && a[0] == b[0] {
      LessEqTotal(a[1..], b[1..]);
    }
  }

  lemma {:induction false} LessEqAntisymmetric(a: string, b: string)
    requires LessEq(a, b) && LessEq(b, a)
    ensures a == b
    decreases |a|
  {
    if |a| > 0 {
      LessEqAntisymmetric(a[1..], b[1..]);
      assert a == [a[0]] + a[1..];
      assert b == [b[0]] + b[1..];
    }
  }

  lemma {:induction false} LessEqTransitive(a: string, b: string, c: string)
    requires LessEq(a, b) && LessEq(b, c)
    ensures LessEq(a, c)
    decreases |a|
  {
    if |a| > 0 && a[0] == b[0] && b[0] == c[0] {
      LessEqTransitive(a[1..], b[1..], c[1..]);
    }
  }

  /** The elements of s are in ascending order of their keys. */
  ghost predicate SortedBy<T>(s: seq<T>, key: T -> string) {
    forall i, j :: 0 <= i < j < |s| ==> LessEq(key(s[i]), key(s[j]))
  }

  function Id(s: string): string {
    s
  }

  /** A sequence of strings in ascending order (what sort.Strings promises). */
  ghost predicate Sorted(s: seq<string>) {
    SortedBy(s, Id)
  }

  lemma SortedByTail<T>(s: seq<T>, key: T -> string)
    requires SortedBy(s, key) && s != []
    ensures SortedBy(s[1..], key)
  {
    forall x, y | 0 <= x < y < |s[1..]| ensures LessEq(key(s[1..][x]), key(s[1..][y])) {
      assert s[1..][x] == s[x + 1] && s[1..][y] == s[y + 1];
    }
  }

  lemma SortedByFirst<T>(s: seq<T>, key: T -> string, i: nat)
    requires SortedBy(s, key) && i < |s|
    ensures LessEq(key(s[0]), key(s[i]))
  {
    if i == 0 {
      LessEqReflexive(key(s[0]));
    }
  }

  lemma SortedByCons<T>(x: T, s: seq<T>, key: T -> string)
    requires SortedBy(s, key)
    requires forall j :: 0 <= j < |s| ==> LessEq(key(x), key(s[j]))
    ensures SortedBy([x] + s, key)
  {
    var r := [x] + s;
    forall i, j | 0 <= i < j < |r| ensures LessEq(key(r[i]), key(r[j])) {
      assert r[j] == s[j - 1];
      if i > 0 {
        assert r[i] == s[i - 1];
      }
    }
  }

  /** x goes in front when its key is no larger than the first key. */
  lemma InsertFront<T>(x: T, s: seq<T>, key: T -> string)
    requires SortedBy(s, key) && s != [] && LessEq(key(x), key(s[0]))
    ensures SortedBy([x] + s, key)
  {
    forall j | 0 <= j < |s| ensures LessEq(key(x), key(s[j])) {
      SortedByFirst(s, key, j);
      LessEqTransitive(key(x), key(s[0]), key(s[j]));
    }
    SortedByCons(x, s, key);
  }

  /** Otherwise the first element stays first, ahead of x inserted into the rest. */
  lemma InsertBehind<T>(x: T, s: seq<T>, key: T -> string, rest: seq<T>)
    requires SortedBy(s, key) && s != [] && !LessEq(key(x), key(s[0]))
    requires SortedBy(rest, key) && multiset(rest) == multiset(s[1..]) + multiset{x}
    ensures SortedBy([s[0]] + rest, key)
  {
    LessEqTotal(key(x), key(s[0]));
    forall j | 0 <= j < |rest| ensures LessEq(key(s[0]), key(rest[j])) {
      assert rest[j] in multiset(rest);
      if rest[j] != x {
        assert rest[j] in multiset(s[1..]);
        var m :| 0 <= m < |s[1..]| && s[1..][m] == rest[j];
        SortedByFirst(s, key, m + 1);
      }
    }
    SortedByCons(s[0], rest, key);
  }

  /** Inserts x into an already sorted sequence, before the first element whose key is not smaller; x goes ahead of equal keys. */
  function Insert<T>(x: T, s: seq<T>, key: T -> string): (r: seq<T>)
    requires SortedBy(s, key)
    ensures multiset(r) == multiset(s) + multiset{x}
    ensures SortedBy(r, key)
  {
    if s == [] then [x]
    else if LessEq(key(x), key(s[0])) then
      InsertFront(x, s, key);
      [x] + s
    else
      SortedByTail(s, key);
      var rest := Insert(x, s[1..], key);
      InsertBehind(x, s, key, rest);
      assert s == [s[0]] + s[1..];
      [s[0]] + rest
  }

  /** Sorting by key: a sorted permutation of the input. */
  function SortBy<T>(s: seq<T>, key: T -> string): (r: seq<T>)
    ensures multiset(r) == multiset(s)
    ensures SortedBy(r, key)
    ensures |r| == |s|
  {
    if s == [] then []
    else
      assert s == [s[0]] + s[1..];
      Insert(s[0], SortBy(s[1..], key), key)
  }

  function SortStrings(s: seq<string>): (r: seq<string>)
    ensures multiset(r) == multiset(s) && Sorted(r)
  {
    SortBy(s, Id)
  }

  /**
   * Two sorted sequences with the same elements are equal: sorting a
   * collection of strings has exactly one possible outcome, whatever order the
   * strings came in.
   */
  /** Two sorted sequences with the same elements start with the same, smallest, element. */
  lemma SortedHeads(a: seq<string>, b: seq<string>)
    requires Sorted(a) && Sorted(b)
    requires multiset(a) == multiset(b) && a != []
    ensures b != [] && a[0] == b[0]
  {
    var j := PermutationHead(a, b);
    var i := PermutationHead(b, a);
    SortedByFirst(a, Id, i);
    SortedByFirst(b, Id, j);
    LessEqAntisymmetric(a[0], b[0]);
  }

  lemma {:induction false} SortedUnique(a: seq<string>, b: seq<string>)
    requires Sorted(a) && Sorted(b)
    requires multiset(a) == multiset(b)
    ensures a == b
    decreases |a|
  {
    if a == [] {
      assert |b| == |multiset(b)| == 0;
    } else {
      SortedHeads(a, b);
      SortedByTail(a, Id);
      SortedByTail(b, Id);
      assert a == [a[0]] + a[1..];
      assert b == [b[0]] + b[1..];
      assert multiset(a[1..]) == multiset(a) - multiset{a[0]};
      assert multiset(b[1..]) == multiset(b) - multiset{b[0]};
      SortedUnique(a[1..], b[1..]);
    }
  }

  /** Sorting strings forgets the order they came in. */
  lemma SortStringsOrderIndependent(a: seq<string>, b: seq<string>)
    requires multiset(a) == multiset(b)
    ensures SortStrings(a) == SortStrings(b)
  {
    SortedUnique(SortStrings(a), SortStrings(b));
  }

  /** Where the first element of a sits in a permutation b of a, and what is left of b without it. */
  lemma PermutationHead<T>(a: seq<T>, b: seq<T>) returns (j: nat)
    requires multiset(a) == multiset(b) && a != []
    ensures j < |b| && b[j] == a[0]
    ensures multiset(a[1..]) == multiset(b[..j] + b[j + 1..])
  {
    assert a[0] in multiset(b);
    j :| 0 <= j < |b| && b[j] == a[0];
    assert b == b[..j] + [b[j]] + b[j + 1..];
    assert a == [a[0]] + a[1..];
    assert multiset(a[1..]) == multiset(a) - multiset{a[0]};
    assert multiset(b[..j] + b[j + 1..]) == multiset(b) - multiset{b[j]};
  }

  /** The sum of f over the elements of s. */
  function Sum<T>(s: seq<T>, f: T -> nat): nat {
    if s == [] then 0 else f(s[0]) + Sum(s[1..], f)
  }

  lemma {:induction false} SumAppend<T>(a: seq<T>, b: seq<T>, f: T -> nat)
    ensures Sum(a + b, f) == Sum(a, f) + Sum(b, f)
    decreases |a|
  {
    if a != [] {
      assert (a + b)[1..] == a[1..] + b;
      SumAppend(a[1..], b, f);
    } else {
      assert a + b == b;
    }
  }

  /** Taking x out from between a and b takes f(x) out of the sum. */
  lemma SumRemove<T>(a: seq<T>, x: T, b: seq<T>, f: T -> nat)
    ensures Sum(a + [x] + b, f) == Sum(a + b, f) + f(x)
  {
    SumAppend(a + [x], b, f);
    SumAppend(a, [x], f);
    SumAppend(a, b, f);
    assert [x][1..] == [];
  }

  /** A sum does not depend on the order of the summands. */
  lemma {:induction false} SumPermutation<T>(a: seq<T>, b: seq<T>, f: T -> nat)
    requires multiset(a) == multiset(b)
    ensures Sum(a, f) == Sum(b, f)
    decreases |a|
  {
    if a != [] {
      var j := PermutationHead(a, b);
      SumPermutation(a[1..], b[..j] + b[j + 1..], f);
      assert b == b[..j] + [b[j]] + b[j + 1..];
      SumRemove(b[..j], b[j], b[j + 1..], f);
    } else {
      assert |b| == |multiset(b)| == 0;
    }
  }

  /** f applied to every element of s, in order. */
  function Map<A, B>(s: seq<A>, f: A -> B): (r: seq<B>)
    ensures |r| == |s|
  {
    if s == [] then [] else [f(s[0])] + Map(s[1..], f)
  }

  /** Element k of the mapped sequence is f of element k. */
  lemma {:induction false} MapAt<A, B>(s: seq<A>, f: A -> B)
    ensures forall k :: 0 <= k < |s| ==> Map(s, f)[k] == f(s[k])
    decreases |s|
  {
    if s != [] {
      MapAt(s[1..], f);
    }
  }

  lemma {:induction false} MapAppend<A, B>(a: seq<A>, b: seq<A>, f: A -> B)
    ensures Map(a + b, f) == Map(a, f) + Map(b, f)
    decreases |a|
  {
    if a == [] {
      assert a + b == b;
    } else {
      assert (a + b)[1..] == a[1..] + b;
      MapAppend(a[1..], b, f);
    }
  }

  /** Taking x out from between a and b takes f(x) out of the mapped elements. */
  lemma MapRemove<A, B>(a: seq<A>, x: A, b: seq<A>, f: A -> B)
    ensures multiset(Map(a + [x] + b, f)) == multiset(Map(a + b, f)) + multiset{f(x)}
  {
    MapAppend(a + [x], b, f);
    MapAppend(a, [x], f);
    MapAppend(a, b, f);
    assert Map([x], f) == [f(x)];
  }

  /** Mapping a permutation gives a permutation of the mapped sequence. */
  lemma {:induction false} MapPermutation<A, B>(a: seq<A>, b: seq<A>, f: A -> B)
    requires multiset(a) == multiset(b)
    ensures multiset(Map(a, f)) == multiset(Map(b, f))
    decreases |a|
  {
    if a != [] {
      var j := PermutationHead(a, b);
      MapPermutation(a[1..], b[..j] + b[j + 1..], f);
      assert b == b[..j] + [b[j]] + b[j + 1..];
      MapRemove(b[..j], b[j], b[j + 1..], f);
      assert multiset(Map(a, f)) == multiset{f(a[0])} + multiset(Map(a[1..], f));
    } else {
      assert |b| == |multiset(b)| == 0;
    }
  }
}
