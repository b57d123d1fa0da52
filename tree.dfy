/**
 * The directory-tree printer: for each directory it lists the entries (only
 * the subdirectories unless files are asked for) in ascending name order, and
 * writes one line per entry, prefixed by the accumulated level prefix and a
 * branch mark, recursing into subdirectories with a longer level prefix.
 *
 * The file system is replaced by a tree value: a directory is its name and its
 * entries, a file is its name and its size in bytes.
 */
module Tree {
  import opened Decimal
  import opened ByteOrder

  datatype Entry = Dir(name: string, children: seq<Entry>) | File(name: string, size: nat)

  function NameOf(e: Entry): string {
    e.name
  }

  // ------------------------------------------------------------ filterOutFiles

  /** The directories among the entries, in their original order. */
  function DirsOnly(es: seq<Entry>): (r: seq<Entry>)
    ensures |r| <= |es|
    ensures forall k :: 0 <= k < |r| ==> r[k].Dir?
  {
    if es == [] then []
    else
      var init := es[..|es| - 1];
      var last := es[|es| - 1];
      assert es == init + [last];
      DirsOnly(init) + (if last.Dir? then [last] else [])
  }

  /** Filtering commutes with concatenation: the directories keep their relative order. */
  lemma {:induction false} DirsOnlyAppend(a: seq<Entry>, b: seq<Entry>)
    ensures DirsOnly(a + b) == DirsOnly(a) + DirsOnly(b)
    decreases |b|
  {
    if b == [] {
      assert a + b == a;
    } else {
      var init := b[..|b| - 1];
      assert (a + b)[..|a + b| - 1] == a + init;
      DirsOnlyAppend(a, init);
    }
  }

  /** A list of directories only is left as it is. */
  lemma {:induction false} DirsOnlyKeepsDirs(es: seq<Entry>)
    requires forall k :: 0 <= k < |es| ==> es[k].Dir?
    ensures DirsOnly(es) == es
    decreases |es|
  {
    if es != [] {
      var init, last := es[..|es| - 1], es[|es| - 1];
      assert forall k :: 0 <= k < |init| ==> init[k] == es[k];
      DirsOnlyKeepsDirs(init);
      assert es == init + [last] && last.Dir?;
    }
  }

  /** An entry is kept exactly when it is one of the entries and a directory. */
  lemma {:induction false} DirsOnlyMembers(es: seq<Entry>)
    ensures forall e :: e in DirsOnly(es) <==> e in es && e.Dir?
    decreases |es|
  {
    if es != [] {
      var init, last := es[..|es| - 1], es[|es| - 1];
      DirsOnlyMembers(init);
      assert es == init + [last];
    }
  }

  /** filterOutFiles: appends each entry that is a directory to the result. */
  method FilterOutFiles(entries: seq<Entry>) returns (result: seq<Entry>)
    ensures result == DirsOnly(entries)
  {
    result := [];
    var i := 0;
    while i < |entries|
      invariant 0 <= i <= |entries|
      invariant result == DirsOnly(entries[..i])
    {
      assert entries[..i + 1][..i] == entries[..i];
      if entries[i].Dir? {
        result := result + [entries[i]];
      }
      i := i + 1;
    }
    assert entries[..i] == entries;
  }

  // -------------------------------------------------------------- getDirEntries

  /** The entries that are printed at all: every entry with files, only directories without. */
  function Visible(es: seq<Entry>, printFiles: bool): seq<Entry> {
    if printFiles then es else DirsOnly(es)
  }

  /** The entries of one directory as printed: the visible ones, in ascending name order. */
  function DirEntries(es: seq<Entry>, printFiles: bool): seq<Entry> {
    SortBy(Visible(es, printFiles), NameOf)
  }

  /** The listing is in ascending name order and holds each visible entry exactly as often as the directory does. */
  lemma DirEntriesSorted(es: seq<Entry>, printFiles: bool)
    ensures SortedBy(DirEntries(es, printFiles), NameOf)
    ensures multiset(DirEntries(es, printFiles)) == multiset(Visible(es, printFiles))
  {
  }

  /** Every listed entry is an entry of the directory, and without files only directories are listed. */
  lemma DirEntriesMembers(es: seq<Entry>, printFiles: bool)
    ensures forall e :: e in DirEntries(es, printFiles) ==> e in es && (printFiles || e.Dir?)
  {
    var v := Visible(es, printFiles);
    var r := DirEntries(es, printFiles);
    DirsOnlyMembers(es);
    forall e | e in r ensures e in es && (printFiles || e.Dir?) {
      assert e in multiset(r);
      assert e in v;
    }
  }

  /** getDirEntries: drops the files unless they are printed, then sorts by name. */
  method GetDirEntries(es: seq<Entry>, printFiles: bool) returns (entries: seq<Entry>)
    ensures entries == DirEntries(es, printFiles)
  {
    entries := es;
    if !printFiles {
      entries := FilterOutFiles(entries);
    }
    entries := SortBy(entries, NameOf);
  }

  // ------------------------------------------------------------------- prefixes

  const Branch := "├───"
  const LastBranch := "└───"
  const Pipe := "│\t"
  const Blank := "\t"

  /** buildCurrentPrefix: the last entry of a level gets the closing mark, every other one a branch. */
  function CurrentPrefix(idx: int, size: int): (r: string)
    ensures r == LastBranch <==> idx == size - 1
    ensures r == Branch <==> idx != size - 1
  {
    if idx != size - 1 then Branch else LastBranch
  }

  /** buildNextLevelPrefix: a vertical bar continues below every entry but the last. */
  function NextLevelPrefix(idx: int, size: int): (r: string)
    ensures r == Blank <==> idx == size - 1
    ensures r == Pipe <==> idx != size - 1
  {
    if idx != size - 1 then Pipe else Blank
  }

  /**
   * The two prefixes agree: the lines below an entry carry a vertical bar
   * exactly when the entry was drawn with a branch that continues downwards.
   */
  lemma PrefixesAgree(idx: int, size: int)
    ensures CurrentPrefix(idx, size)[0] == '├' <==> NextLevelPrefix(idx, size)[0] == '│'
    ensures CurrentPrefix(idx, size)[0] == '└' <==> NextLevelPrefix(idx, size) == Blank
  {
  }

  // ----------------------------------------------------------------- size label

  /** The size shown after a file name: "empty", or the decimal size followed by "b". */
  function SizeLabel(size: nat): (r: string)
    ensures r == "empty" <==> size == 0
    ensures size > 0 ==> |r| >= 2 && r[|r| - 1] == 'b' && ParseInt(r[..|r| - 1]) == Some(size)
    ensures size > 0 ==> AllDigits(r[..|r| - 1]) && r[0] != '0'
  {
    if size == 0 then "empty"
    else
      var r := Itoa(size) + "b";
      ItoaRoundTrip(size);
      assert r[..|r| - 1] == Itoa(size);
      assert r[|r| - 1] != "empty"[4];
      r
  }

  // ------------------------------------------------------------------ rendering

  /** The line of one entry: prefix, branch mark and name, and for a file its size label. */
  function EntryLine(e: Entry, levelPrefix: string, currentPrefix: string): string {
    match e
    case Dir(name, _) => levelPrefix + currentPrefix + name
    case File(name, size) => levelPrefix + currentPrefix + name + " (" + SizeLabel(size) + ")"
  }

  /** The lines written for directory d: dirTreeRecursive on d. */
  function Render(d: Entry, printFiles: bool, levelPrefix: string): seq<string>
    requires d.Dir?
    decreases d, 1
  {
    DirEntriesMembers(d.children, printFiles);
    RenderFrom(d, DirEntries(d.children, printFiles), 0, printFiles, levelPrefix)
  }

  /** The lines written for entries[idx..] of directory d, each followed by its subtree. */
  function RenderFrom(d: Entry, entries: seq<Entry>, idx: nat, printFiles: bool, levelPrefix: string): seq<string>
    requires d.Dir? && idx <= |entries|
    requires forall e :: e in entries ==> e in d.children
    decreases d, 0, |entries| - idx
  {
    if idx == |entries| then []
    else
      EntryBlock(d, entries, idx, printFiles, levelPrefix) + RenderFrom(d, entries, idx + 1, printFiles, levelPrefix)
  }

  /** The lines of the entry at idx: its own line, then for a directory all lines below it. */
  function EntryBlock(d: Entry, entries: seq<Entry>, idx: nat, printFiles: bool, levelPrefix: string): seq<string>
    requires d.Dir? && idx < |entries|
    requires forall e :: e in entries ==> e in d.children
    decreases d, 0, 0
  {
    var e := entries[idx];
    assert e in d.children;
    [EntryLine(e, levelPrefix, CurrentPrefix(idx, |entries|))] +
    (if e.Dir? then Render(e, printFiles, levelPrefix + NextLevelPrefix(idx, |entries|)) else [])
  }

  /** One step of RenderFrom, as a fact of its own so that callers need not unfold the function. */
  lemma RenderFromUnfold(d: Entry, entries: seq<Entry>, idx: nat, printFiles: bool, levelPrefix: string)
    requires d.Dir? && idx < |entries|
    requires forall e :: e in entries ==> e in d.children
    ensures RenderFrom(d, entries, idx, printFiles, levelPrefix) ==
      EntryBlock(d, entries, idx, printFiles, levelPrefix) + RenderFrom(d, entries, idx + 1, printFiles, levelPrefix)
  {
  }

  /**
   * dirTreeRecursive: lists d's entries and writes the block of each in turn.
   * `out` holds the lines written before the call.
   */
  method DirTreeRecursive(out: seq<string>, d: Entry, printFiles: bool, levelPrefix: string) returns (written: seq<string>)
    requires d.Dir?
    ensures written == out + Render(d, printFiles, levelPrefix)
    decreases d, 1
  {
    var entries := GetDirEntries(d.children, printFiles);
    DirEntriesMembers(d.children, printFiles);
    written := out;
    var idx := 0;
    while idx < |entries|
      invariant 0 <= idx <= |entries|
      invariant written + RenderFrom(d, entries, idx, printFiles, levelPrefix) == out + Render(d, printFiles, levelPrefix)
    {
      ghost var before := written;
      written := WriteEntry(written, d, entries, idx, printFiles, levelPrefix);
      RenderFromUnfold(d, entries, idx, printFiles, levelPrefix);
      AppendAssociates(before, EntryBlock(d, entries, idx, printFiles, levelPrefix),
                       RenderFrom(d, entries, idx + 1, printFiles, levelPrefix));
      idx := idx + 1;
    }
    assert written + [] == written;
  }

  /**
   * One pass of dirTreeRecursive's loop: the entry's line with the current
   * prefix and, for a directory, the recursive call with the next-level prefix.
   */
  method WriteEntry(out: seq<string>, d: Entry, entries: seq<Entry>, idx: nat, printFiles: bool, levelPrefix: string)
    returns (written: seq<string>)
    requires d.Dir? && idx < |entries|
    requires forall e :: e in entries ==> e in d.children
    ensures written == out + EntryBlock(d, entries, idx, printFiles, levelPrefix)
    decreases d, 0
  {
    var entry := entries[idx];
    assert entry in d.children;
    var currentPrefix := CurrentPrefix(idx, |entries|);
    var line := EntryLine(entry, levelPrefix, currentPrefix);
    written := out + [line];
    if entry.Dir? {
      var nextLevelPrefix := NextLevelPrefix(idx, |entries|);
      written := DirTreeRecursive(written, entry, printFiles, levelPrefix + nextLevelPrefix);
      AppendAssociates(out, [line], Render(entry, printFiles, levelPrefix + nextLevelPrefix));
    } else {
      assert [line] + [] == [line];
    }
  }

  /** Regrouping appended lines, as a fact of its own so that callers need not reason about sequence equality. */
  lemma AppendAssociates<T>(a: seq<T>, b: seq<T>, c: seq<T>)
    ensures (a + b) + c == a + (b + c)
  {
  }

  datatype Listing = Listed(lines: seq<string>) | ListFailed(name: string)

  /** dirTree: renders from the root with an empty level prefix; a root that is no directory cannot be listed. */
  method DirTree(root: Entry, printFiles: bool) returns (r: Listing)
    ensures root.File? <==> r == ListFailed(root.name)
    ensures root.Dir? ==> r == Listed(Render(root, printFiles, ""))
  {
    if root.File? {
      return ListFailed(root.name);
    }
    var lines := DirTreeRecursive([], root, printFiles, "");
    r := Listed(lines);
  }

  // ----------------------------------------------------------------- properties

  /** How many lines an entry accounts for: its own line and, for a directory, everything below it. */
  function Weight(e: Entry, printFiles: bool): nat
    decreases e, 1
  {
    match e
    case File(_, _) => if printFiles then 1 else 0
    case Dir(_, _) => 1 + Below(e, 0, printFiles)
  }

  /** The visible entries below directory d, counted over d's children from position i on, in any order. */
  function Below(d: Entry, i: nat, printFiles: bool): nat
    requires d.Dir? && i <= |d.children|
    decreases d, 0, |d.children| - i
  {
    if i == |d.children| then 0
    else
      assert d.children[i] in d.children;
      Weight(d.children[i], printFiles) + Below(d, i + 1, printFiles)
  }

  function Weights(printFiles: bool): Entry -> nat {
    e => Weight(e, printFiles)
  }

  lemma {:induction false} BelowIsSum(d: Entry, i: nat, printFiles: bool)
    requires d.Dir? && i <= |d.children|
    ensures Below(d, i, printFiles) == Sum(d.children[i..], Weights(printFiles))
    decreases |d.children| - i
  {
    if i < |d.children| {
      BelowIsSum(d, i + 1, printFiles);
      assert d.children[i..][1..] == d.children[i + 1..];
    }
  }

  /** Files weigh nothing when they are not printed, so dropping them keeps the count. */
  lemma {:induction false} DirsOnlyWeight(es: seq<Entry>)
    ensures Sum(DirsOnly(es), Weights(false)) == Sum(es, Weights(false))
    decreases |es|
  {
    if es != [] {
      var init, last := es[..|es| - 1], es[|es| - 1];
      assert es == init + [last];
      DirsOnlyWeight(init);
      SumAppend(init, [last], Weights(false));
      SumAppend(DirsOnly(init), if last.Dir? then [last] else [], Weights(false));
    }
  }

  /** The number of lines written for a directory is the number of visible entries below it. */
  lemma {:induction false} RenderCount(d: Entry, printFiles: bool, levelPrefix: string)
    requires d.Dir?
    ensures |Render(d, printFiles, levelPrefix)| == Below(d, 0, printFiles)
    decreases d, 1
  {
    var entries := DirEntries(d.children, printFiles);
    DirEntriesMembers(d.children, printFiles);
    DirEntriesSorted(d.children, printFiles);
    RenderFromCount(d, entries, 0, printFiles, levelPrefix);
    assert entries[0..] == entries;
    SumPermutation(entries, Visible(d.children, printFiles), Weights(printFiles));
    if !printFiles {
      DirsOnlyWeight(d.children);
    }
    BelowIsSum(d, 0, printFiles);
    assert d.children[0..] == d.children;
  }

  lemma {:induction false} RenderFromCount(d: Entry, entries: seq<Entry>, idx: nat, printFiles: bool, levelPrefix: string)
    requires d.Dir? && idx <= |entries|
    requires forall e :: e in entries ==> e in d.children
    requires !printFiles ==> forall k :: 0 <= k < |entries| ==> entries[k].Dir?
    ensures |RenderFrom(d, entries, idx, printFiles, levelPrefix)| == Sum(entries[idx..], Weights(printFiles))
    decreases d, 0, |entries| - idx
  {
    if idx < |entries| {
      var e := entries[idx];
      assert e in d.children;
      RenderFromCount(d, entries, idx + 1, printFiles, levelPrefix);
      RenderFromUnfold(d, entries, idx, printFiles, levelPrefix);
      assert entries[idx..][1..] == entries[idx + 1..];
      assert Sum(entries[idx..], Weights(printFiles)) == Weight(e, printFiles) + Sum(entries[idx + 1..], Weights(printFiles));
      if e.Dir? {
        RenderCount(e, printFiles, levelPrefix + NextLevelPrefix(idx, |entries|));
      }
    }
  }

  /** Every one of the lines starts with p. */
  predicate Prefixed(lines: seq<string>, p: string) {
    forall j :: 0 <= j < |lines| ==> p <= lines[j]
  }

  lemma PrefixedAppend(a: seq<string>, b: seq<string>, p: string)
    requires Prefixed(a, p) && Prefixed(b, p)
    ensures Prefixed(a + b, p)
  {
    forall j | 0 <= j < |a + b| ensures p <= (a + b)[j] {
      if j < |a| {
        assert (a + b)[j] == a[j];
      } else {
        assert (a + b)[j] == b[j - |a|];
      }
    }
  }

  lemma PrefixedShorter(lines: seq<string>, p: string, q: string)
    requires Prefixed(lines, p + q)
    ensures Prefixed(lines, p)
  {
    forall j | 0 <= j < |lines| ensures p <= lines[j] {
      assert (p + q)[..|p|] == p;
      assert lines[j][..|p + q|] == p + q;
      assert lines[j][..|p|] == (p + q)[..|p|];
    }
  }

  lemma LinePrefixed(e: Entry, levelPrefix: string, currentPrefix: string)
    ensures levelPrefix <= EntryLine(e, levelPrefix, currentPrefix)
  {
    var line := EntryLine(e, levelPrefix, currentPrefix);
    assert line[..|levelPrefix|] == levelPrefix;
  }

  /** Every line written for a directory carries the level prefix it was rendered with. */
  lemma {:induction false} RenderPrefixed(d: Entry, printFiles: bool, levelPrefix: string)
    requires d.Dir?
    ensures Prefixed(Render(d, printFiles, levelPrefix), levelPrefix)
    decreases d, 1
  {
    DirEntriesMembers(d.children, printFiles);
    RenderFromPrefixed(d, DirEntries(d.children, printFiles), 0, printFiles, levelPrefix);
  }

  lemma {:induction false} RenderFromPrefixed(d: Entry, entries: seq<Entry>, idx: nat, printFiles: bool, levelPrefix: string)
    requires d.Dir? && idx <= |entries|
    requires forall e :: e in entries ==> e in d.children
    ensures Prefixed(RenderFrom(d, entries, idx, printFiles, levelPrefix), levelPrefix)
    decreases d, 0, |entries| - idx
  {
    if idx < |entries| {
      EntryBlockPrefixed(d, entries, idx, printFiles, levelPrefix);
      RenderFromPrefixed(d, entries, idx + 1, printFiles, levelPrefix);
      RenderFromUnfold(d, entries, idx, printFiles, levelPrefix);
      PrefixedAppend(EntryBlock(d, entries, idx, printFiles, levelPrefix),
                     RenderFrom(d, entries, idx + 1, printFiles, levelPrefix), levelPrefix);
    }
  }

  lemma {:induction false} EntryBlockPrefixed(d: Entry, entries: seq<Entry>, idx: nat, printFiles: bool, levelPrefix: string)
    requires d.Dir? && idx < |entries|
    requires forall e :: e in entries ==> e in d.children
    ensures Prefixed(EntryBlock(d, entries, idx, printFiles, levelPrefix), levelPrefix)
    decreases d, 0, 0
  {
    var e := entries[idx];
    assert e in d.children;
    var line := EntryLine(e, levelPrefix, CurrentPrefix(idx, |entries|));
    LinePrefixed(e, levelPrefix, CurrentPrefix(idx, |entries|));
    assert Prefixed([line], levelPrefix);
    if e.Dir? {
      var sub := NextLevelPrefix(idx, |entries|);
      RenderPrefixed(e, printFiles, levelPrefix + sub);
      PrefixedShorter(Render(e, printFiles, levelPrefix + sub), levelPrefix, sub);
      PrefixedAppend([line], Render(e, printFiles, levelPrefix + sub), levelPrefix);
    } else {
      assert EntryBlock(d, entries, idx, printFiles, levelPrefix) == [line];
    }
  }

  /**
   * An entry's block starts with the entry's own line; a file has no other
   * line, and every line after a directory's own line carries the level
   * prefix extended by the next-level prefix.
   */
  lemma EntryBlockShape(d: Entry, entries: seq<Entry>, idx: nat, printFiles: bool, levelPrefix: string)
    requires d.Dir? && idx < |entries|
    requires forall e :: e in entries ==> e in d.children
    ensures var block := EntryBlock(d, entries, idx, printFiles, levelPrefix);
      && block[0] == EntryLine(entries[idx], levelPrefix, CurrentPrefix(idx, |entries|))
      && (entries[idx].File? ==> |block| == 1)
      && Prefixed(block[1..], levelPrefix + NextLevelPrefix(idx, |entries|))
  {
    var e := entries[idx];
    assert e in d.children;
    var block := EntryBlock(d, entries, idx, printFiles, levelPrefix);
    if e.Dir? {
      var next := levelPrefix + NextLevelPrefix(idx, |entries|);
      RenderPrefixed(e, printFiles, next);
      assert block[1..] == Render(e, printFiles, next);
    } else {
      assert block[1..] == [];
    }
  }
}
