/**
 * What a Go `strings.Builder` ends up holding in the signer: pieces written
 * one after another (Concat), or pieces with a one-character separator written
 * between consecutive ones (Join). Split is the inverse of Join.
 */
module Text {
  import opened ByteOrder

  function Len(s: string): nat {
    |s|
  }

  /** Total length of all pieces. */
  function TotalLength(xs: seq<string>): nat {
    Sum(xs, Len)
  }

  /** The pieces written one after another, with nothing between them. */
  function Concat(xs: seq<string>): string {
    if xs == [] then "" else Concat(xs[..|xs| - 1]) + xs[|xs| - 1]
  }

  /** The pieces with sep between consecutive ones: none before the first, none after the last. */
  function Join(xs: seq<string>, sep: char): string {
    if |xs| == 0 then ""
    else if |xs| == 1 then xs[0]
    else xs[0] + [sep] + Join(xs[1..], sep)
  }

  /** Position of the first occurrence of c in s. */
  function IndexOf(s: string, c: char): (i: nat)
    requires c in s
    ensures i < |s| && s[i] == c && c !in s[..i]
  {
    if s[0] == c then 0
    else
      assert s == [s[0]] + s[1..];
      var j := IndexOf(s[1..], c);
      assert s[..j + 1] == [s[0]] + s[1..][..j];
      1 + j
  }

  /** The pieces of s between occurrences of sep (at least one piece, none containing sep). */
  function Split(s: string, sep: char): (r: seq<string>)
    ensures |r| >= 1
    ensures forall k :: 0 <= k < |r| ==> sep !in r[k]
    decreases |s|
  {
    if sep in s then
      var i := IndexOf(s, sep);
      [s[..i]] + Split(s[i + 1..], sep)
    else [s]
  }

  lemma {:induction false} ConcatAppend(xs: seq<string>, ys: seq<string>)
    ensures Concat(xs + ys) == Concat(xs) + Concat(ys)
    decreases |ys|
  {
    if ys == [] {
      assert xs + ys == xs;
    } else {
      var last := |ys| - 1;
      assert (xs + ys)[..|xs + ys| - 1] == xs + ys[..last];
      ConcatAppend(xs, ys[..last]);
    }
  }

  /** Concatenation loses no character and adds none. */
  lemma {:induction false} ConcatLength(xs: seq<string>)
    ensures |Concat(xs)| == TotalLength(xs)
    decreases |xs|
  {
    if xs != [] {
      var init := xs[..|xs| - 1];
      ConcatLength(init);
      assert xs == init + [xs[|xs| - 1]];
      SumAppend(init, [xs[|xs| - 1]], Len);
    }
  }

  /** Piece k of the input occupies the matching slice of the concatenation. */
  lemma {:induction false} ConcatPiece(xs: seq<string>, k: nat)
    requires k < |xs|
    ensures Concat(xs) == Concat(xs[..k]) + xs[k] + Concat(xs[k + 1..])
  {
    assert xs == xs[..k] + [xs[k]] + xs[k + 1..];
    ConcatAppend(xs[..k] + [xs[k]], xs[k + 1..]);
    ConcatAppend(xs[..k], [xs[k]]);
    assert Concat([xs[k]]) == xs[k] by {
      assert [xs[k]][..0] == [];
    }
  }

  /** For n pieces, exactly n - 1 separators are written. */
  lemma {:induction false} JoinLength(xs: seq<string>, sep: char)
    requires |xs| >= 1
    ensures |Join(xs, sep)| == TotalLength(xs) + |xs| - 1
    decreases |xs|
  {
    assert TotalLength(xs) == Len(xs[0]) + TotalLength(xs[1..]);
    if |xs| > 1 {
      JoinLength(xs[1..], sep);
    } else {
      assert xs[1..] == [];
    }
  }

  /** No leading separator: the first piece is written first. */
  lemma JoinStartsWithFirst(xs: seq<string>, sep: char)
    requires |xs| >= 1
    ensures xs[0] <= Join(xs, sep)
  {
  }

  /** No trailing separator: the last piece is written last. */
  lemma {:induction false} JoinEndsWithLast(xs: seq<string>, sep: char)
    requires |xs| >= 1
    ensures var j := Join(xs, sep);
            |xs[|xs| - 1]| <= |j| && j[|j| - |xs[|xs| - 1]|..] == xs[|xs| - 1]
    decreases |xs|
  {
    if |xs| > 1 {
      JoinEndsWithLast(xs[1..], sep);
    }
  }

  lemma IndexOfFirst(x: string, sep: char, rest: string)
    requires sep !in x
    ensures sep in x + [sep] + rest && IndexOf(x + [sep] + rest, sep) == |x|
  {
    var s := x + [sep] + rest;
    assert s[|x|] == sep;
  }

  /** A separator-free piece followed by the separator splits off as the first piece. */
  lemma SplitCons(x: string, sep: char, rest: string)
    requires sep !in x
    ensures Split(x + [sep] + rest, sep) == [x] + Split(rest, sep)
  {
    var s := x + [sep] + rest;
    IndexOfFirst(x, sep, rest);
    assert s[..|x|] == x;
    assert s[|x| + 1..] == rest;
  }

  /** Splitting a join of separator-free pieces gives the pieces back. */
  lemma {:induction false} SplitJoin(xs: seq<string>, sep: char)
    requires |xs| >= 1
    requires forall k :: 0 <= k < |xs| ==> sep !in xs[k]
    ensures Split(Join(xs, sep), sep) == xs
    decreases |xs|
  {
    if |xs| > 1 {
      assert sep !in xs[0];
      SplitCons(xs[0], sep, Join(xs[1..], sep));
      assert forall k :: 0 <= k < |xs[1..]| ==> sep !in xs[1..][k] by {
        forall k | 0 <= k < |xs[1..]| ensures sep !in xs[1..][k] {
          assert xs[1..][k] == xs[k + 1];
        }
      }
      SplitJoin(xs[1..], sep);
      assert xs == [xs[0]] + xs[1..];
    } else {
      assert sep !in xs[0];
    }
  }

  /** Joining the pieces of a split gives the original string back. */
  lemma {:induction false} JoinSplit(s: string, sep: char)
    ensures Join(Split(s, sep), sep) == s
    decreases |s|
  {
    if sep in s {
      var i := IndexOf(s, sep);
      var tail := Split(s[i + 1..], sep);
      JoinSplit(s[i + 1..], sep);
      var r := [s[..i]] + tail;
      assert r[1..] == tail;
      assert s == s[..i] + [sep] + s[i + 1..];
    }
  }
}
