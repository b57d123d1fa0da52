/**
 * The result-building logic of the signer stages: SingleHash turns each int
 * into `crc32(s) + "~" + crc32(md5(s))` of its decimal text, MultiHash turns
 * each string into the concatenation of six slot hashes, and CombineResults
 * sorts everything it received and joins it with "_". A payload of the wrong
 * type makes a stage panic.
 *
 * The hash functions DataSignerCrc32 and DataSignerMd5 are not part of this
 * model: they are any two functions from strings to strings, passed in as a
 * DataSigners value.
 */
module Signer {
  import opened Pipeline
  import opened Decimal
  import opened ByteOrder
  import opened Text

  datatype DataSigners = DataSigners(crc32: string -> string, md5: string -> string)

  const NonIntMessage := "encountered non-int data"
  const NonStringMessage := "encountered non-string data"

  /** The number of slots multiHashItem fills. */
  const HashSlots: nat := 6

  // ---------------------------------------------------------------- SingleHash

  /** singleHashItem: the crc32 of the item and the crc32 of its md5, separated by '~'. */
  function SingleHashItem(h: DataSigners, item: string): (r: string)
    ensures var first, second := h.crc32(item), h.crc32(h.md5(item));
      && |r| == |first| + 1 + |second|
      && r[..|first|] == first && r[|first|] == '~' && r[|first| + 1..] == second
  {
    h.crc32(item) + "~" + h.crc32(h.md5(item))
  }

  /**
   * When neither hash contains '~' (for instance, when both are decimal digests), the two hashes can be
   * read back from a single-hash result: the first part is crc32(item), the
   * second crc32(md5(item)).
   */
  lemma SingleHashItemParts(h: DataSigners, item: string)
    requires '~' !in h.crc32(item) && '~' !in h.crc32(h.md5(item))
    ensures Split(SingleHashItem(h, item), '~') == [h.crc32(item), h.crc32(h.md5(item))]
  {
    var xs := [h.crc32(item), h.crc32(h.md5(item))];
    assert Join(xs, '~') == SingleHashItem(h, item) by {
      assert xs[1..] == [xs[1]];
    }
    SplitJoin(xs, '~');
  }

  /** What SingleHash sends for one int: the single hash of its decimal text. */
  function SingleHashOfInt(h: DataSigners, x: int): string {
    SingleHashItem(h, Itoa(x))
  }

  /** The type check of SingleHash: the ints received, or None at a payload that is not an int. */
  function Ints(input: seq<Payload>): (r: Option<seq<int>>)
    ensures r.Some? <==> forall k :: 0 <= k < |input| ==> input[k].PInt?
    ensures r.Some? ==> |r.value| == |input| && forall k :: 0 <= k < |input| ==> r.value[k] == input[k].i
  {
    if input == [] then Some([])
    else
      var init := input[..|input| - 1];
      assert forall k :: 0 <= k < |init| ==> init[k] == input[k];
      match Ints(init)
      case None => None
      case Some(xs) =>
        match input[|input| - 1]
        case PInt(x) => Some(xs + [x])
        case PStr(_) => None
  }

  /**
   * SingleHash over a whole input stream: one output per input, in input
   * order, when every payload is an int, and a panic otherwise.
   */
  function SingleHashStage(h: DataSigners, input: seq<Payload>): (r: StageResult)
    ensures r.Done? <==> forall k :: 0 <= k < |input| ==> input[k].PInt?
    ensures r.Panic? ==> r.message == NonIntMessage
    ensures r.Done? ==>
      |r.out| == |input| && forall k :: 0 <= k < |input| ==> r.out[k] == PStr(SingleHashOfInt(h, input[k].i))
  {
    match Ints(input)
    case None => Panic(NonIntMessage)
    case Some(xs) =>
      var hash := x => PStr(SingleHashOfInt(h, x));
      MapAt(xs, hash);
      Done(Map(xs, hash))
  }

  /** SingleHash: reads its input, panicking at the first payload that is not an int. */
  method SingleHash(h: DataSigners, input: seq<Payload>) returns (r: StageResult)
    ensures r == SingleHashStage(h, input)
  {
    var out: seq<Payload> := [];
    var idx := 0;
    while idx < |input|
      invariant 0 <= idx <= |input| && |out| == idx
      invariant forall k :: 0 <= k < idx ==> input[k].PInt? && out[k] == PStr(SingleHashOfInt(h, input[k].i))
    {
      match input[idx] {
        case PStr(_) =>
          assert !input[idx].PInt?;
          return Panic(NonIntMessage);
        case PInt(x) =>
          out := out + [PStr(SingleHashOfInt(h, x))];
      }
      idx := idx + 1;
    }
    r := Done(out);
  }

  // ---------------------------------------------------------------- MultiHash

  /** The type check of MultiHash and CombineResults: the strings received, or None at a non-string. */
  function Strings(input: seq<Payload>): (r: Option<seq<string>>)
    ensures r.Some? <==> forall k :: 0 <= k < |input| ==> input[k].PStr?
    ensures r.Some? ==> |r.value| == |input| && forall k :: 0 <= k < |input| ==> r.value[k] == input[k].s
  {
    if input == [] then Some([])
    else
      var init := input[..|input| - 1];
      assert forall k :: 0 <= k < |init| ==> init[k] == input[k];
      match Strings(init)
      case None => None
      case Some(xs) =>
        match input[|input| - 1]
        case PStr(x) => Some(xs + [x])
        case PInt(_) => None
  }

  /** The hash for slot i: the crc32 of the slot number's decimal text followed by the item. */
  function SlotHash(h: DataSigners, item: string, i: int): string {
    h.crc32(Itoa(i) + item)
  }

  /** The six slot hashes, slot 0 first. */
  function SlotHashes(h: DataSigners, item: string): (r: seq<string>)
    ensures |r| == HashSlots && forall i :: 0 <= i < HashSlots ==> r[i] == SlotHash(h, item, i)
  {
    seq(HashSlots, i => SlotHash(h, item, i))
  }

  /** multiHashItem's result: the slot hashes in slot order. */
  function MultiHashOf(h: DataSigners, item: string): string {
    Concat(SlotHashes(h, item))
  }

  /** Spelled out: crc32("0" + item) + crc32("1" + item) + ... + crc32("5" + item). */
  lemma MultiHashOfDigits(h: DataSigners, item: string)
    ensures MultiHashOf(h, item) ==
      h.crc32("0" + item) + h.crc32("1" + item) + h.crc32("2" + item) +
      h.crc32("3" + item) + h.crc32("4" + item) + h.crc32("5" + item)
  {
    var xs := SlotHashes(h, item);
    forall i | 0 <= i < HashSlots ensures xs[i] == h.crc32([DigitChar(i)] + item) {
      ItoaDigit(i);
    }
    assert Concat(xs[..1]) == xs[0] by {
      assert xs[..1][..0] == [];
    }
    assert Concat(xs[..2]) == xs[0] + xs[1] by {
      assert xs[..2][..1] == xs[..1];
    }
    assert Concat(xs[..3]) == xs[0] + xs[1] + xs[2] by {
      assert xs[..3][..2] == xs[..2];
    }
    assert Concat(xs[..4]) == xs[0] + xs[1] + xs[2] + xs[3] by {
      assert xs[..4][..3] == xs[..3];
    }
    assert Concat(xs[..5]) == xs[0] + xs[1] + xs[2] + xs[3] + xs[4] by {
      assert xs[..5][..4] == xs[..4];
    }
    assert xs[..6][..5] == xs[..5] && xs[..6] == xs;
    assert DigitChar(0) == '0' && DigitChar(1) == '1' && DigitChar(2) == '2';
    assert DigitChar(3) == '3' && DigitChar(4) == '4' && DigitChar(5) == '5';
  }

  /** The slots a completion order has filled so far hold their own slot hash. */
  ghost predicate SlotsFilled(hashes: seq<string>, h: DataSigners, item: string, filled: seq<int>) {
    forall k :: 0 <= k < |filled| ==> 0 <= filled[k] < |hashes| && hashes[filled[k]] == SlotHash(h, item, filled[k])
  }

  /** A completion order of the slot goroutines: every slot, each exactly once, in some order. */
  predicate IsSlotOrder(order: seq<int>) {
    && |order| == HashSlots
    && (forall k :: 0 <= k < |order| ==> 0 <= order[k] < HashSlots)
    && (forall i :: 0 <= i < HashSlots ==> i in order)
  }

  /** Filling one more slot with its own hash keeps the slots filled so far. */
  lemma FillStep(hashes: seq<string>, h: DataSigners, item: string, filled: seq<int>, idx: int)
    requires 0 <= idx < |hashes| && SlotsFilled(hashes, h, item, filled)
    ensures SlotsFilled(hashes[idx := SlotHash(h, item, idx)], h, item, filled + [idx])
  {
  }

  /** Once every slot of a completion order is filled, the slots hold the slot hashes. */
  lemma FilledAll(hashes: seq<string>, h: DataSigners, item: string, order: seq<int>)
    requires |hashes| == HashSlots && IsSlotOrder(order)
    requires SlotsFilled(hashes, h, item, order)
    ensures hashes == SlotHashes(h, item)
  {
    forall i | 0 <= i < HashSlots ensures hashes[i] == SlotHash(h, item, i) {
      assert i in order;
      var k :| 0 <= k < |order| && order[k] == i;
    }
  }

  /**
   * The slot goroutines of multiHashItem, each writing its own slot of the
   * hashes array, in the order they complete.
   */
  method FillSlots(hashes: array<string>, h: DataSigners, item: string, order: seq<int>)
    requires hashes.Length == HashSlots && IsSlotOrder(order)
    modifies hashes
    ensures hashes[..] == SlotHashes(h, item)
  {
    var done := 0;
    while done < HashSlots
      invariant 0 <= done <= HashSlots
      invariant SlotsFilled(hashes[..], h, item, order[..done])
    {
      var idx := order[done];
      ghost var before := hashes[..];
      hashes[idx] := SlotHash(h, item, idx);
      assert hashes[..] == before[idx := SlotHash(h, item, idx)];
      FillStep(before, h, item, order[..done], idx);
      assert order[..done + 1] == order[..done] + [idx];
      done := done + 1;
    }
    assert order[..done] == order;
    FilledAll(hashes[..], h, item, order);
  }

  /**
   * multiHashItem: the six slots are filled in whatever order their
   * goroutines complete, then written out in index order. The result is the
   * same whatever that order.
   */
  method MultiHashItem(h: DataSigners, item: string, order: seq<int>) returns (r: string)
    requires IsSlotOrder(order)
    ensures r == MultiHashOf(h, item)
  {
    var hashes := new string[HashSlots];
    FillSlots(hashes, h, item, order);
    r := "";
    var i := 0;
    while i < HashSlots
      invariant 0 <= i <= HashSlots
      invariant r == Concat(hashes[..i])
    {
      assert hashes[..i + 1][..i] == hashes[..i];
      r := r + hashes[i];
      i := i + 1;
    }
    assert hashes[..i] == hashes[..];
  }

  /**
   * MultiHash over a whole input stream: one output per input, in input
   * order, when every payload is a string, and a panic otherwise.
   */
  function MultiHashStage(h: DataSigners, input: seq<Payload>): (r: StageResult)
    ensures r.Done? <==> forall k :: 0 <= k < |input| ==> input[k].PStr?
    ensures r.Panic? ==> r.message == NonStringMessage
    ensures r.Done? ==>
      |r.out| == |input| && forall k :: 0 <= k < |input| ==> r.out[k] == PStr(MultiHashOf(h, input[k].s))
  {
    match Strings(input)
    case None => Panic(NonStringMessage)
    case Some(xs) =>
      var hash := x => PStr(MultiHashOf(h, x));
      MapAt(xs, hash);
      Done(Map(xs, hash))
  }

  /** MultiHash: reads its input, panicking at the first payload that is not a string. */
  method MultiHash(h: DataSigners, input: seq<Payload>) returns (r: StageResult)
    ensures r == MultiHashStage(h, input)
  {
    var out: seq<Payload> := [];
    var idx := 0;
    while idx < |input|
      invariant 0 <= idx <= |input| && |out| == idx
      invariant forall k :: 0 <= k < idx ==> input[k].PStr? && out[k] == PStr(MultiHashOf(h, input[k].s))
    {
      match input[idx] {
        case PInt(_) =>
          assert !input[idx].PStr?;
          return Panic(NonStringMessage);
        case PStr(x) =>
          out := out + [PStr(MultiHashOf(h, x))];
      }
      idx := idx + 1;
    }
    r := Done(out);
  }

  // ----------------------------------------------------------- CombineResults

  /** The text CombineResults builds: the strings in ascending byte order, joined with '_'. */
  function Combined(xs: seq<string>): string {
    Join(SortStrings(xs), '_')
  }

  /** CombineResults over a whole input stream: exactly one output string, or a panic. */
  function CombineStage(input: seq<Payload>): (r: StageResult)
    ensures r.Done? <==> forall k :: 0 <= k < |input| ==> input[k].PStr?
    ensures r.Panic? ==> r.message == NonStringMessage
    ensures r.Done? ==> |r.out| == 1 && r.out[0].PStr?
  {
    match Strings(input)
    case None => Panic(NonStringMessage)
    case Some(xs) => Done([PStr(Combined(xs))])
  }

  /** The collect loop of CombineResults: appends every string received, panicking at a non-string. */
  method CollectStrings(input: seq<Payload>) returns (r: Option<seq<string>>)
    ensures r == Strings(input)
  {
    var inputs: seq<string> := [];
    var k := 0;
    while k < |input|
      invariant 0 <= k <= |input|
      invariant Strings(input[..k]) == Some(inputs)
    {
      assert input[..k + 1][..k] == input[..k];
      match input[k] {
        case PInt(_) =>
          assert !input[k].PStr?;
          return None;
        case PStr(x) =>
          inputs := inputs + [x];
      }
      k := k + 1;
    }
    assert input[..k] == input;
    r := Some(inputs);
  }

  /** The builder loop of CombineResults: each string, followed by "_" unless it is the last. */
  method WriteJoined(xs: seq<string>) returns (result: string)
    ensures result == Join(xs, '_')
  {
    result := "";
    var idx := 0;
    while idx < |xs|
      invariant 0 <= idx <= |xs|
      invariant idx < |xs| ==> result + Join(xs[idx..], '_') == Join(xs, '_')
      invariant idx == |xs| ==> result == Join(xs, '_')
    {
      assert xs[idx..][1..] == xs[idx + 1..];
      result := result + xs[idx];
      if idx != |xs| - 1 {
        result := result + "_";
      }
      idx := idx + 1;
    }
  }

  /** CombineResults: collects every string, sorts them, and writes them joined with "_". */
  method CombineResults(input: seq<Payload>) returns (r: StageResult)
    ensures r == CombineStage(input)
  {
    var inputs := CollectStrings(input);
    if inputs.None? {
      return Panic(NonStringMessage);
    }
    var sorted := SortStrings(inputs.value);
    var result := WriteJoined(sorted);
    r := Done([PStr(result)]);
  }

  /** With no input the result is empty; a single input comes out unchanged, with no separator. */
  lemma CombinedSmall(x: string)
    ensures Combined([]) == ""
    ensures Combined([x]) == x
  {
    assert SortStrings([x]) == [x] by {
      LessEqReflexive(x);
      SortedUnique(SortStrings([x]), [x]);
    }
  }

  /** CombineResults writes exactly n - 1 separators: its length is the input lengths plus n - 1. */
  lemma CombinedLength(xs: seq<string>)
    requires |xs| >= 1
    ensures |Combined(xs)| == TotalLength(xs) + |xs| - 1
  {
    var ys := SortStrings(xs);
    assert |ys| == |multiset(ys)| == |multiset(xs)| == |xs|;
    JoinLength(ys, '_');
    SumPermutation(ys, xs, Len);
  }

  /**
   * The result is the join of the one sorted arrangement of the strings: any
   * ascending sequence with the same strings, joined with '_', gives it.
   */
  lemma CombinedIsSortedJoin(xs: seq<string>, ys: seq<string>)
    requires Sorted(ys) && multiset(ys) == multiset(xs)
    ensures Combined(xs) == Join(ys, '_')
  {
    SortedUnique(SortStrings(xs), ys);
  }

  /** The result depends only on which strings arrived, not on the order they arrived in. */
  lemma CombinedOrderIndependent(xs: seq<string>, ys: seq<string>)
    requires multiset(xs) == multiset(ys)
    ensures Combined(xs) == Combined(ys)
  {
    SortStringsOrderIndependent(xs, ys);
  }

  /**
   * No leading or trailing '_' and one between each pair: when no input
   * contains '_', splitting the result at '_' gives back the sorted inputs.
   */
  lemma CombinedSplits(xs: seq<string>)
    requires |xs| >= 1
    requires forall k :: 0 <= k < |xs| ==> '_' !in xs[k]
    ensures Split(Combined(xs), '_') == SortStrings(xs)
  {
    var ys := SortStrings(xs);
    assert |ys| == |multiset(ys)| == |multiset(xs)| == |xs|;
    forall k | 0 <= k < |ys| ensures '_' !in ys[k] {
      assert ys[k] in multiset(xs);
    }
    SplitJoin(ys, '_');
  }

  function TextOf(p: Payload): string {
    if p.PStr? then p.s else ""
  }

  /** CombineResults fed the same payloads in another order gives the same result. */
  lemma CombineStageOrderIndependent(a: seq<Payload>, b: seq<Payload>)
    requires multiset(a) == multiset(b)
    ensures CombineStage(a) == CombineStage(b)
  {
    assert |a| == |multiset(a)| == |multiset(b)| == |b|;
    if Strings(a).Some? {
      forall k | 0 <= k < |b| ensures b[k].PStr? {
        assert b[k] in multiset(a);
      }
      MapAt(a, TextOf);
      MapAt(b, TextOf);
      assert Strings(a).value == Map(a, TextOf);
      assert Strings(b).value == Map(b, TextOf);
      MapPermutation(a, b, TextOf);
      CombinedOrderIndependent(Map(a, TextOf), Map(b, TextOf));
    } else {
      var k :| 0 <= k < |a| && !a[k].PStr?;
      assert a[k] in multiset(b);
    }
  }

  /** On well-typed input, SingleHash hashes each payload where it stands. */
  lemma SingleHashStageIsMap(h: DataSigners, a: seq<Payload>)
    requires forall k :: 0 <= k < |a| ==> a[k].PInt?
    ensures SingleHashStage(h, a) == Done(Map(a, SingleHashed(h)))
  {
    var r, m := SingleHashStage(h, a), Map(a, SingleHashed(h));
    MapAt(a, SingleHashed(h));
    assert r.Done? && |r.out| == |m|;
    forall k | 0 <= k < |m| ensures r.out[k] == m[k] {
      assert m[k] == SingleHashed(h)(a[k]);
    }
    assert r.out == m;
  }

  /** On well-typed input, MultiHash hashes each payload where it stands. */
  lemma MultiHashStageIsMap(h: DataSigners, a: seq<Payload>)
    requires forall k :: 0 <= k < |a| ==> a[k].PStr?
    ensures MultiHashStage(h, a) == Done(Map(a, MultiHashed(h)))
  {
    var r, m := MultiHashStage(h, a), Map(a, MultiHashed(h));
    MapAt(a, MultiHashed(h));
    assert r.Done? && |r.out| == |m|;
    forall k | 0 <= k < |m| ensures r.out[k] == m[k] {
      assert m[k] == MultiHashed(h)(a[k]);
    }
    assert r.out == m;
  }

  /** SingleHash fed the same payloads in another order emits the same hashes in another order. */
  lemma SingleHashStagePermutation(h: DataSigners, a: seq<Payload>, b: seq<Payload>)
    requires multiset(a) == multiset(b)
    ensures SingleHashStage(h, a).Done? <==> SingleHashStage(h, b).Done?
    ensures SingleHashStage(h, a).Done? ==> multiset(SingleHashStage(h, a).out) == multiset(SingleHashStage(h, b).out)
  {
    assert |a| == |multiset(a)| == |multiset(b)| == |b|;
    if Ints(a).Some? {
      forall k | 0 <= k < |b| ensures b[k].PInt? {
        assert b[k] in multiset(a);
      }
      MapPermutation(a, b, SingleHashed(h));
      SingleHashStageIsMap(h, a);
      SingleHashStageIsMap(h, b);
    } else {
      var k :| 0 <= k < |a| && !a[k].PInt?;
      assert a[k] in multiset(b);
    }
  }

  /** MultiHash fed the same payloads in another order emits the same hashes in another order. */
  lemma MultiHashStagePermutation(h: DataSigners, a: seq<Payload>, b: seq<Payload>)
    requires multiset(a) == multiset(b)
    ensures MultiHashStage(h, a).Done? <==> MultiHashStage(h, b).Done?
    ensures MultiHashStage(h, a).Done? ==> multiset(MultiHashStage(h, a).out) == multiset(MultiHashStage(h, b).out)
  {
    assert |a| == |multiset(a)| == |multiset(b)| == |b|;
    if Strings(a).Some? {
      forall k | 0 <= k < |b| ensures b[k].PStr? {
        assert b[k] in multiset(a);
      }
      MapPermutation(a, b, MultiHashed(h));
      MultiHashStageIsMap(h, a);
      MultiHashStageIsMap(h, b);
    } else {
      var k :| 0 <= k < |a| && !a[k].PStr?;
      assert a[k] in multiset(b);
    }
  }

  /** What SingleHash emits for one payload it accepts. */
  function SingleHashed(h: DataSigners): Payload -> Payload {
    (p: Payload) => if p.PInt? then PStr(SingleHashOfInt(h, p.i)) else p
  }

  /** What MultiHash emits for one payload it accepts. */
  function MultiHashed(h: DataSigners): Payload -> Payload {
    (p: Payload) => if p.PStr? then PStr(MultiHashOf(h, p.s)) else p
  }

  // ------------------------------------------------------- the signer pipeline

  /** SingleHash, MultiHash and CombineResults one after another, each on all of the previous one's output. */
  function SignerChain(h: DataSigners, input: seq<Payload>): StageResult {
    match SingleHashStage(h, input)
    case Panic(m) => Panic(m)
    case Done(s) =>
      match MultiHashStage(h, s)
      case Panic(m) => Panic(m)
      case Done(t) => CombineStage(t)
  }

  /**
   * The hashing goroutines of SingleHash and MultiHash finish in an order the
   * program does not control, so each stage's outputs arrive at the next in
   * any order. Whatever those orders, CombineResults writes the same text.
   */
  lemma ArrivalOrderIrrelevant(h: DataSigners, input: seq<Payload>, s: seq<Payload>, t: seq<Payload>)
    requires SingleHashStage(h, input).Done? && multiset(s) == multiset(SingleHashStage(h, input).out)
    requires MultiHashStage(h, s).Done? && multiset(t) == multiset(MultiHashStage(h, s).out)
    ensures CombineStage(t) == SignerChain(h, input)
  {
    var s0 := SingleHashStage(h, input).out;
    MultiHashStagePermutation(h, s, s0);
    CombineStageOrderIndependent(t, MultiHashStage(h, s0).out);
  }

  /** The signature of one int: its single hash, multi-hashed. */
  function Signature(h: DataSigners): int -> string {
    x => MultiHashOf(h, SingleHashOfInt(h, x))
  }

  function IntPayload(x: int): Payload {
    PInt(x)
  }

  /**
   * The jobs of the signer pipeline: one that writes the data, the three
   * stages, and a last job that reads the combined result. Without that
   * reader, CombineResults' send on the unbuffered last channel would block
   * and the pipeline would never return.
   */
  function SignerJobs(h: DataSigners, items: seq<int>): seq<Job> {
    [_ => Done(Map(items, IntPayload)), input => SingleHashStage(h, input),
     input => MultiHashStage(h, input), input => CombineStage(input), _ => Done([])]
  }

  /** The signer stages on ints: the signatures of the ints, sorted and joined with '_'. */
  lemma SignerChainOfInts(h: DataSigners, items: seq<int>)
    ensures SignerChain(h, Map(items, IntPayload)) == Done([PStr(Combined(Map(items, Signature(h))))])
  {
    var ints := Map(items, IntPayload);
    MapAt(items, IntPayload);
    MapAt(items, Signature(h));
    var single := SingleHashStage(h, ints).out;
    var multi := MultiHashStage(h, single).out;
    assert Strings(multi).value == Map(items, Signature(h));
  }

  /** ExecutePipeline feeds each stage the whole output of the one before, so the signer jobs compute SignerChain. */
  lemma SignerStream(h: DataSigners, items: seq<int>)
    ensures Stream(SignerJobs(h, items), 4) == SignerChain(h, Map(items, IntPayload))
  {
    var jobs := SignerJobs(h, items);
    assert Stream(jobs, 1) == Done(Map(items, IntPayload));
  }

  /**
   * Run through ExecutePipeline, CombineResults writes one string on channel 4,
   * the buffered channel its reader takes it from: the signatures of the items,
   * sorted and joined with '_'. No job panics, so ExecutePipeline completes.
   */
  lemma SignerPipelineResult(h: DataSigners, items: seq<int>)
    ensures Stream(SignerJobs(h, items), 4) == Done([PStr(Combined(Map(items, Signature(h))))])
    ensures |SignerJobs(h, items)| == 5 && Stream(SignerJobs(h, items), 5).Done?
  {
    SignerStream(h, items);
    SignerChainOfInts(h, items);
  }

  /** The signer pipeline's output does not depend on the order in which the data is written. */
  lemma SignerOrderIndependent(h: DataSigners, a: seq<int>, b: seq<int>)
    requires multiset(a) == multiset(b)
    ensures Stream(SignerJobs(h, a), 4) == Stream(SignerJobs(h, b), 4)
  {
    SignerPipelineResult(h, a);
    SignerPipelineResult(h, b);
    MapPermutation(a, b, Signature(h));
    CombinedOrderIndependent(Map(a, Signature(h)), Map(b, Signature(h)));
  }
}
