/**
 * The safetensors header check: non-empty tensor ranges are collected, sorted, and
 * compared end to start; it accepts exactly the tilings of the payload.
 */
module Weights {
  import opened Prelude

  datatype Range = Range(lo: int, hi: int)

  /** One element of data_offsets; booleans and floats are not integers here. */
  datatype Offset = IntOffset(value: int) | OtherOffset

  /** A header member: its data_offsets, if the tensor is an object that has a list there. */
  datatype Member = Member(name: string, offsets: Option<seq<Offset>>)

  /** header is None when the bytes read are not a JSON object. */
  datatype File = File(headerLength: Option<nat>, header: Option<seq<Member>>, size: nat)

  const MetadataName := "__metadata__"
  const MaxHeader := 16 * 1024 * 1024

  predicate OffsetsOk(offsets: Option<seq<Offset>>, payload: int) {
    && offsets.Some? && |offsets.value| == 2
    && offsets.value[0].IntOffset? && offsets.value[1].IntOffset?
    && 0 <= offsets.value[0].value < offsets.value[1].value <= payload
  }

  predicate Readable(members: seq<Member>, payload: int) {
    forall i | 0 <= i < |members| && members[i].name != MetadataName :: OffsetsOk(members[i].offsets, payload)
  }

  /** The ranges of the tensors, in header order. */
  function Ranges(members: seq<Member>, payload: int): seq<Range>
    requires Readable(members, payload)
  {
    if members == [] then []
    else
      var n := |members| - 1;
      Ranges(members[..n], payload) +
      if members[n].name == MetadataName then []
      else [Range(members[n].offsets.value[0].value, members[n].offsets.value[1].value)]
  }

  function Hit(r: Range, p: int): nat {
    if r.lo <= p < r.hi then 1 else 0
  }

  /** In how many ranges a byte lies. */
  function CoverCount(ranges: seq<Range>, p: int): nat {
    if ranges == [] then 0
    else CoverCount(ranges[..|ranges| - 1], p) + Hit(ranges[|ranges| - 1], p)
  }

  function TotalLength(ranges: seq<Range>): int {
    if ranges == [] then 0
    else TotalLength(ranges[..|ranges| - 1]) + ranges[|ranges| - 1].hi - ranges[|ranges| - 1].lo
  }

  /** Every payload byte lies in exactly one range. */
  predicate CoversOnce(ranges: seq<Range>, payload: int) {
    forall p | 0 <= p < payload :: CoverCount(ranges, p) == 1
  }

  predicate Tiles(members: seq<Member>, payload: int) {
    && Readable(members, payload)
    && Ranges(members, payload) != []
    && CoversOnce(Ranges(members, payload), payload)
  }

  predicate Proper(ranges: seq<Range>, payload: int) {
    forall i | 0 <= i < |ranges| :: 0 <= ranges[i].lo < ranges[i].hi <= payload
  }

  // ----- Sorting -----

  predicate AtMost(a: Range, b: Range) {
    a.lo < b.lo || (a.lo == b.lo && a.hi <= b.hi)
  }

  predicate Sorted(ranges: seq<Range>) {
    forall i, j | 0 <= i < j < |ranges| :: AtMost(ranges[i], ranges[j])
  }

  /** Where a range belongs among sorted ones. */
  function Place(ranges: seq<Range>, r: Range): (k: nat)
    requires Sorted(ranges)
    ensures k <= |ranges|
    ensures forall i | 0 <= i < k :: AtMost(ranges[i], r)
    ensures forall i | k <= i < |ranges| :: AtMost(r, ranges[i])
  {
    if ranges == [] || AtMost(ranges[|ranges| - 1], r) then |ranges|
    else Place(ranges[..|ranges| - 1], r)
  }

  function Inserted(ranges: seq<Range>, k: nat, r: Range): seq<Range>
    requires k <= |ranges|
  {
    ranges[..k] + [r] + ranges[k..]
  }

  lemma {:induction false} InsertedCounts(ranges: seq<Range>, k: nat, r: Range, p: int)
    requires k <= |ranges|
    ensures CoverCount(Inserted(ranges, k, r), p) == CoverCount(ranges, p) + Hit(r, p)
    ensures TotalLength(Inserted(ranges, k, r)) == TotalLength(ranges) + r.hi - r.lo
  {
    var all, n := Inserted(ranges, k, r), |ranges|;
    if k == n {
      assert all[..n] == ranges;
    } else {
      InsertedCounts(ranges[..n - 1], k, r, p);
      assert all[..n] == Inserted(ranges[..n - 1], k, r);
    }
  }

  /** A sort keeps, for every byte, how many ranges hold it. */
  ghost predicate SameCover(a: seq<Range>, b: seq<Range>) {
    TotalLength(a) == TotalLength(b) && forall p: int :: CoverCount(a, p) == CoverCount(b, p)
  }

  lemma InsertedCover(sorted: seq<Range>, before: seq<Range>, k: nat, r: Range)
    requires k <= |sorted| && SameCover(sorted, before)
    ensures SameCover(Inserted(sorted, k, r), before + [r])
  {
    assert (before + [r])[..|before|] == before;
    InsertedCounts(sorted, k, r, 0);
    forall p: int ensures CoverCount(Inserted(sorted, k, r), p) == CoverCount(before + [r], p) {
      InsertedCounts(sorted, k, r, p);
    }
  }

  /** Inserting a range where it belongs keeps the order, the bounds and the cover. */
  lemma PlacedKeeps(sorted: seq<Range>, before: seq<Range>, r: Range, payload: int)
    requires Sorted(sorted) && Proper(sorted, payload) && SameCover(sorted, before)
    requires 0 <= r.lo < r.hi <= payload
    ensures var s := Inserted(sorted, Place(sorted, r), r);
            Sorted(s) && Proper(s, payload) && |s| == |sorted| + 1 && SameCover(s, before + [r])
  {
    hide SameCover;
    InsertedCover(sorted, before, Place(sorted, r), r);
  }

  method SortRanges(ranges: seq<Range>, payload: int) returns (sorted: seq<Range>)
    requires Proper(ranges, payload)
    ensures Sorted(sorted) && Proper(sorted, payload) && |sorted| == |ranges| && SameCover(sorted, ranges)
  {
    sorted := [];
    for i := 0 to |ranges|
      invariant Sorted(sorted) && Proper(sorted, payload) && |sorted| == i && SameCover(sorted, ranges[..i])
    {
      assert 0 <= ranges[i].lo < ranges[i].hi <= payload;
      hide Place, Inserted, Sorted, Proper, SameCover;
      PlacedKeeps(sorted, ranges[..i], ranges[i], payload);
      assert ranges[..i + 1] == ranges[..i] + [ranges[i]];
      sorted := Inserted(sorted, Place(sorted, ranges[i]), ranges[i]);
    }
    assert ranges[..|ranges|] == ranges;
  }

  // ----- End meets start -----

  /** Sorted ranges that start at zero, meet, and end at the payload. */
  predicate Chained(sorted: seq<Range>, payload: int) {
    && sorted != [] && sorted[0].lo == 0 && sorted[|sorted| - 1].hi == payload
    && forall i, j | 0 <= i < |sorted| && 0 <= j < |sorted| && j == i + 1 :: sorted[i].hi == sorted[j].lo
  }

  /** The first k ranges fill [0, end) and nothing else. */
  ghost predicate Fills(sorted: seq<Range>, k: nat, end: int)
    requires k <= |sorted|
  {
    0 <= end && TotalLength(sorted[..k]) == end
    && forall p :: CoverCount(sorted[..k], p) == if 0 <= p < end then 1 else 0
  }

  lemma FillsStep(sorted: seq<Range>, k: nat, end: int)
    requires k < |sorted| && Fills(sorted, k, end) && sorted[k].lo == end && end < sorted[k].hi
    ensures Fills(sorted, k + 1, sorted[k].hi)
  {
    var front := sorted[..k + 1];
    assert front[..k] == sorted[..k] && front[k] == sorted[k];
    forall p: int ensures CoverCount(front, p) == if 0 <= p < sorted[k].hi then 1 else 0 {
      assert CoverCount(front, p) == CoverCount(sorted[..k], p) + Hit(sorted[k], p);
    }
  }

  lemma FillsAll(sorted: seq<Range>, payload: int, end: int)
    requires Fills(sorted, |sorted|, end) && CoversOnce(sorted, payload) && end <= payload
    ensures end == payload
  {
    assert sorted[..|sorted|] == sorted;
    assert end < payload ==> CoverCount(sorted, end) == 1;
    assert CoverCount(sorted, end) == 0;
  }

  lemma {:induction false} ChainFills(sorted: seq<Range>, payload: int, k: nat)
    requires Chained(sorted, payload) && Proper(sorted, payload) && k < |sorted|
    ensures Fills(sorted, k + 1, sorted[k].hi)
  {
    if k == 0 {
      assert Fills(sorted, 0, 0);
    } else {
      ChainFills(sorted, payload, k - 1);
    }
    FillsStep(sorted, k, sorted[k].lo);
  }

  lemma {:induction false} CoverAtLeast(ranges: seq<Range>, k: nat, p: int)
    requires k <= |ranges|
    ensures CoverCount(ranges[..k], p) <= CoverCount(ranges, p)
    ensures k < |ranges| ==> CoverCount(ranges[..k], p) + Hit(ranges[k], p) <= CoverCount(ranges, p)
  {
    if k == |ranges| {
      assert ranges[..k] == ranges;
    } else {
      var front := ranges[..|ranges| - 1];
      CoverAtLeast(front, k, p);
      assert front[..k] == ranges[..k];
    }
  }

  lemma {:induction false} CoveredBy(ranges: seq<Range>, p: int) returns (j: nat)
    requires CoverCount(ranges, p) >= 1
    ensures j < |ranges| && Hit(ranges[j], p) == 1
  {
    var n := |ranges| - 1;
    if Hit(ranges[n], p) == 1 { j := n; } else { j := CoveredBy(ranges[..n], p); }
  }

  /** After a filled start, the next sorted range begins where the start ends. */
  lemma NextMeets(sorted: seq<Range>, payload: int, k: nat, end: int)
    requires Sorted(sorted) && Proper(sorted, payload) && CoversOnce(sorted, payload)
    requires k < |sorted| && Fills(sorted, k, end)
    ensures sorted[k].lo == end
  {
    CoverAtLeast(sorted, k, sorted[k].lo);
    assert CoverCount(sorted, sorted[k].lo) == 1;
    assert sorted[k].lo >= end;
    if end < payload {
      assert CoverCount(sorted, end) == 1;
      var j := CoveredBy(sorted, end);
      if j < k { NotInFront(sorted, k, end, j); }
    }
  }

  /** A byte that the first k ranges do not hold lies in none of them. */
  lemma {:induction false} NotInFront(ranges: seq<Range>, k: nat, p: int, j: nat)
    requires j < k <= |ranges| && CoverCount(ranges[..k], p) == 0
    ensures Hit(ranges[j], p) == 0
  {
    var front := ranges[..k];
    CoverAtLeast(front, j, p);
    assert front[j] == ranges[j];
  }

  lemma {:induction false} OnceFills(sorted: seq<Range>, payload: int, k: nat)
    requires Sorted(sorted) && Proper(sorted, payload) && CoversOnce(sorted, payload) && k < |sorted|
    ensures sorted[k].lo == (if k == 0 then 0 else sorted[k - 1].hi)
    ensures Fills(sorted, k + 1, sorted[k].hi)
  {
    if k == 0 {
      assert Fills(sorted, 0, 0);
      NextMeets(sorted, payload, 0, 0);
    } else {
      OnceFills(sorted, payload, k - 1);
      NextMeets(sorted, payload, k, sorted[k - 1].hi);
    }
    FillsStep(sorted, k, sorted[k].lo);
  }

  lemma OnceChains(sorted: seq<Range>, payload: int)
    requires Sorted(sorted) && Proper(sorted, payload) && sorted != [] && CoversOnce(sorted, payload)
    ensures Chained(sorted, payload)
  {
    var n := |sorted| - 1;
    OnceFills(sorted, payload, 0);
    OnceFills(sorted, payload, n);
    FillsAll(sorted, payload, sorted[n].hi);
    forall i, j | 0 <= i < |sorted| && 0 <= j < |sorted| && j == i + 1 ensures sorted[i].hi == sorted[j].lo {
      OnceFills(sorted, payload, j);
    }
  }

  /** Meeting end to start is covering every byte once. */
  lemma ChainedIffOnce(sorted: seq<Range>, payload: int)
    requires Sorted(sorted) && Proper(sorted, payload)
    ensures Chained(sorted, payload) <==> sorted != [] && CoversOnce(sorted, payload)
    ensures Chained(sorted, payload) ==> TotalLength(sorted) == payload
  {
    if Chained(sorted, payload) {
      ChainFills(sorted, payload, |sorted| - 1);
      assert sorted[..|sorted|] == sorted;
    }
    if sorted != [] && CoversOnce(sorted, payload) {
      OnceChains(sorted, payload);
    }
  }

  // ----- The check -----

  lemma {:induction false} RangesProper(members: seq<Member>, payload: int)
    requires Readable(members, payload)
    ensures Proper(Ranges(members, payload), payload)
  {
    if members != [] {
      RangesProper(members[..|members| - 1], payload);
    }
  }

  /** The tensor's offsets are exactly two integers that bound a non-empty part of the payload. */
  ghost predicate Bounds(member: Member, payload: int) {
    exists lo, hi :: member.offsets == Some([IntOffset(lo), IntOffset(hi)]) && 0 <= lo < hi <= payload
  }

  lemma {:induction false} RangesEmpty(members: seq<Member>, payload: int)
    requires Readable(members, payload)
    ensures Ranges(members, payload) == [] <==> forall i | 0 <= i < |members| :: members[i].name == "__metadata__"
  {
    if members != [] {
      RangesEmpty(members[..|members| - 1], payload);
      assert members == members[..|members| - 1] + [members[|members| - 1]];
    }
  }

  /** A tiling has a tensor, and every member but the metadata is one with proper bounds. */
  lemma TilingsHaveBounds(members: seq<Member>, payload: int)
    requires Tiles(members, payload)
    ensures exists i | 0 <= i < |members| :: members[i].name != "__metadata__"
    ensures forall i | 0 <= i < |members| && members[i].name != "__metadata__" :: Bounds(members[i], payload)
  {
    RangesEmpty(members, payload);
    forall i | 0 <= i < |members| && members[i].name != "__metadata__" ensures Bounds(members[i], payload) {
      var offsets := members[i].offsets.value;
      assert offsets == [IntOffset(offsets[0].value), IntOffset(offsets[1].value)];
    }
  }

  /** Accepts exactly the tilings, and then the lengths add up to the payload. */
  method CheckTensors(members: seq<Member>, payload: int) returns (ok: bool)
    ensures ok <==> Tiles(members, payload)
    ensures ok ==> TotalLength(Ranges(members, payload)) == payload
  {
    var ranges := [];
    for i := 0 to |members|
      invariant Readable(members[..i], payload) && ranges == Ranges(members[..i], payload)
    {
      assert members[..i + 1][..i] == members[..i];
      if members[i].name != MetadataName {
        var offsets := members[i].offsets;
        if offsets.None? || |offsets.value| != 2 || !offsets.value[0].IntOffset? || !offsets.value[1].IntOffset?
           || !(0 <= offsets.value[0].value < offsets.value[1].value <= payload) {
          return false;
        }
        ranges := ranges + [Range(offsets.value[0].value, offsets.value[1].value)];
      }
    }
    assert members[..|members|] == members;
    RangesProper(members, payload);
    var sorted := SortRanges(ranges, payload);
    ChainedIffOnce(sorted, payload);
    assert CoversOnce(sorted, payload) <==> CoversOnce(ranges, payload);
    if sorted == [] || sorted[0].lo != 0 || sorted[|sorted| - 1].hi != payload {
      return false;
    }
    for i := 0 to |sorted| - 1
      invariant forall a, b | 0 <= a < i && b == a + 1 :: sorted[a].hi == sorted[b].lo
    {
      if sorted[i].hi != sorted[i + 1].lo {
        return false;
      }
    }
    return true;
  }

  /** The whole file: the length prefix, the header object, then the tensors. */
  method VerifyWeights(f: File) returns (ok: bool)
    ensures ok <==> f.headerLength.Some? && 2 <= f.headerLength.value <= 16_777_216 && f.header.Some?
                    && Tiles(f.header.value, f.size - 8 - f.headerLength.value)
  {
    if f.headerLength.None? || f.headerLength.value > MaxHeader || f.headerLength.value < 2 || f.header.None? {
      return false;
    }
    ok := CheckTensors(f.header.value, f.size - 8 - f.headerLength.value);
  }
}
