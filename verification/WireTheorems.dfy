/** Round trips, soundness and prefix behaviour of the wire format. */
module WireTheorems {
  import opened Bytes
  import opened Utf8
  import opened Wire

  // ---------------------------------------------------------------- reading back what was written

  lemma {:induction false} HoldsSplit(block: seq<Byte>, pos: nat, a: seq<Byte>, b: seq<Byte>)
    ensures Holds(block, pos, a + b) <==> Holds(block, pos, a) && Holds(block, pos + |a|, b)
  {
    if Holds(block, pos, a + b) {
      assert forall k :: 0 <= k < |a| ==> (a + b)[k] == a[k];
      assert forall k :: 0 <= k < |b| ==> (a + b)[|a| + k] == b[k];
    }
  }

  lemma {:induction false} HoldsSlice(block: seq<Byte>, pos: nat, s: seq<Byte>)
    requires Holds(block, pos, s)
    ensures block[pos..pos + |s|] == s
    ensures Clamp(block, pos, pos + |s|) == s
  {
  }

  /** A big-endian field in a block reads back as its number. */
  lemma {:induction false} FieldReadBack(block: seq<Byte>, pos: nat, n: nat, width: nat)
    requires Holds(block, pos, BigEndian(n, width)) && n < Pow256(width)
    ensures pos + width <= |block| && Value(block[pos..pos + width]) == n
  {
    HoldsSlice(block, pos, BigEndian(n, width));
    ValueOfBigEndian(n, width);
  }

  lemma {:induction false} DescReadBack(blob: seq<Byte>, pos: nat, d: Desc)
    requires DescError(d).Ok? && Holds(blob, pos, DescBytes(d))
    ensures pos + DESC_FIXED_SIZE + |d.name| <= |blob|
    ensures blob[pos] == |d.name| && DescAt(blob, pos) == d
  {
    hide Value, BigEndian, ValidUtf8, Pow256, Holds;
    FieldLimits();
    var count, offset, size := BigEndian(|d.name|, 1), BigEndian(d.offset, 8), BigEndian(d.size, 8);
    HoldsSplit(blob, pos, count + offset + size, d.name);
    HoldsSplit(blob, pos, count + offset, size);
    HoldsSplit(blob, pos, count, offset);
    FieldReadBack(blob, pos, |d.name|, 1);
    FieldReadBack(blob, pos + 1, d.offset, 8);
    FieldReadBack(blob, pos + 9, d.size, 8);
    HoldsSlice(blob, pos + 17, d.name);
    OneByte(blob, pos);
  }

  lemma {:induction false} OneByte(blob: seq<Byte>, pos: nat)
    requires pos < |blob|
    ensures Value(blob[pos..pos + 1]) == blob[pos]
  {
    assert blob[pos..pos + 1][..0] == [];
  }

  lemma {:induction false} DescsBytesFront(ds: seq<Desc>)
    requires ds != [] && DescsBytes(ds).Ok?
    ensures DescError(ds[0]).Ok? && DescsBytes(ds[1..]).Ok?
    ensures DescsBytes(ds).value == DescBytes(ds[0]) + DescsBytes(ds[1..]).value
  {
    hide DescError, DescBytes;
    var n := |ds| - 1;
    if n == 0 {
      assert ds[..0] == [] && ds[1..] == [];
    } else {
      DescsBytesFront(ds[..n]);
      assert ds[..n][1..] == ds[1..][..n - 1];
      assert ds[1..][n - 1] == ds[n];
    }
  }

  lemma {:induction false} OneDescReadBack(blob: seq<Byte>, pos: nat, d: Desc, count: nat)
    requires DescError(d).Ok? && Holds(blob, pos, DescBytes(d))
    ensures ParseDescs(blob, pos, count + 1) == After([d], ParseDescs(blob, pos + |DescBytes(d)|, count))
  {
    hide Value, BigEndian, Pow256, DescAt, Holds;
    DescReadBack(blob, pos, d);
  }

  lemma {:induction false} DescsReadBack(blob: seq<Byte>, pos: nat, ds: seq<Desc>, region: seq<Byte>)
    requires DescsBytes(ds) == Ok(region) && Holds(blob, pos, region)
    ensures ParseDescs(blob, pos, |ds|) == Ok(Descs(ds, pos + |region|))
    decreases |ds|
  {
    hide Value, ValidUtf8, DescAt, Holds, DescBytes;
    if ds != [] {
      DescsBytesFront(ds);
      var d, tail := ds[0], ds[1..];
      var rest := DescsBytes(tail).value;
      HoldsSplit(blob, pos, DescBytes(d), rest);
      OneDescReadBack(blob, pos, d, |tail|);
      DescsReadBack(blob, pos + |DescBytes(d)|, tail, rest);
      FirstAndRest(ds);
    }
  }

  lemma {:induction false} FirstAndRest<T>(s: seq<T>)
    requires s != []
    ensures [s[0]] + s[1..] == s
  {
  }

  lemma {:induction false} HeaderFields(h: Header)
    ensures var s := HeaderBytes(h);
            && s[..4] == MAGIC && s[4..6] == BigEndian(VERSION, 2)
            && s[6..8] == BigEndian(h.partCount, 2) && s[8..16] == BigEndian(h.payloadLength, 8)
  {
  }

  lemma {:induction false} HeaderReadBack(blob: seq<Byte>, h: Header)
    requires h.partCount < U16_LIMIT && h.payloadLength < U64_LIMIT
    requires Holds(blob, 0, HeaderBytes(h))
    ensures ParseHeader(Clamp(blob, 0, HEADER_SIZE)) == Ok(h)
  {
    hide Value, BigEndian, Pow256, Holds;
    HoldsSlice(blob, 0, HeaderBytes(h));
    HeaderFields(h);
    FieldLimits();
    ValueOfBigEndian(VERSION, 2);
    ValueOfBigEndian(h.partCount, 2);
    ValueOfBigEndian(h.payloadLength, 8);
  }

  /** Any block that starts with a frame and is long enough parses to that frame's layout,
      whatever else it holds: gaps, other parts' bytes, or leftovers past the end. */
  lemma {:induction false} FramedBlockParses(ds: seq<Desc>, payload: nat, frame: seq<Byte>, block: seq<Byte>)
    requires Frame(ds, payload) == Ok(frame) && Inside(ds, payload)
    requires Holds(block, 0, frame) && |frame| + payload <= |block|
    ensures Parse(block) == Ok(Parsed(LayoutOf(ds, |frame|), |frame|, |frame| + payload))
  {
    hide Value, BigEndian, ParseDescs, ParseHeader, Holds, HeaderBytes, DescsBytes;
    var h := Header(|ds|, payload);
    HoldsSplit(block, 0, HeaderBytes(h), DescsBytes(ds).value);
    HeaderReadBack(block, h);
    DescsReadBack(block, HEADER_SIZE, ds, DescsBytes(ds).value);
  }

  // ---------------------------------------------------------------- round trip of the copying packer

  ghost predicate WithinLimits(parts: seq<Part>) {
    && (forall i :: 0 <= i < |parts| ==> ValidUtf8(parts[i].name) && |parts[i].name| <= 255)
    && |parts| < U16_LIMIT && Sum(PartSizes(parts)) < U64_LIMIT
  }

  lemma {:induction false} PlacedInside(names: seq<Name>, sizes: seq<nat>)
    requires |names| == |sizes|
    ensures Inside(Placed(names, sizes), Sum(sizes))
  {
    forall i | 0 <= i < |sizes| ensures Sum(sizes[..i]) + sizes[i] <= Sum(sizes) {
      SumStep(sizes, i);
      SumMonotone(sizes, i + 1, |sizes|);
      assert sizes[..|sizes|] == sizes;
    }
  }

  lemma {:induction false} PackBlobOk(parts: seq<Part>)
    ensures PackBlob(parts).Ok? <==> WithinLimits(parts)
  {
    var ds, total := Placed(Names(parts), PartSizes(parts)), Sum(PartSizes(parts));
    FrameOk(ds, total);
    PlacedInside(Names(parts), PartSizes(parts));
    if Packable(ds, total) {
      forall i | 0 <= i < |parts| ensures ValidUtf8(parts[i].name) && |parts[i].name| <= 255 {
        assert DescError(ds[i]).Ok?;
      }
    }
  }

  /** Every part of `parts` is where its layout entry says it is. */
  ghost predicate Carries(block: seq<Byte>, layout: seq<PartLayout>, parts: seq<Part>) {
    && |layout| == |parts|
    && forall i :: 0 <= i < |parts| ==>
         && layout[i].name == parts[i].name
         && layout[i].byteCount == |parts[i].data|
         && Holds(block, layout[i].offset, parts[i].data)
  }

  lemma {:induction false} CutIsToMap(layout: seq<PartLayout>, block: seq<Byte>, parts: seq<Part>)
    requires Carries(block, layout, parts)
    ensures Cut(layout, block) == ToMap(parts)
  {
    if parts != [] {
      var n := |parts| - 1;
      CutIsToMap(layout[..n], block, parts[..n]);
      HoldsSlice(block, layout[n].offset, parts[n].data);
    }
  }

  lemma {:induction false} DataHolds(parts: seq<Part>, i: nat)
    requires i < |parts|
    ensures Holds(Data(parts), Sum(PartSizes(parts)[..i]), parts[i].data)
  {
    var n := |parts| - 1;
    var front := parts[..n];
    DataLength(front);
    assert PartSizes(parts)[..n] == PartSizes(front);
    if i < n {
      DataHolds(front, i);
      assert PartSizes(front)[..i] == PartSizes(parts)[..i];
    }
  }

  lemma {:induction false} DataLength(parts: seq<Part>)
    ensures |Data(parts)| == Sum(PartSizes(parts))
  {
    if parts != [] {
      DataLength(parts[..|parts| - 1]);
      assert PartSizes(parts)[..|parts| - 1] == PartSizes(parts[..|parts| - 1]);
    }
  }

  /** A packed blob followed by anything parses to its parts, in order, at consecutive slices. */
  lemma {:induction false} PackedLayout(parts: seq<Part>, blob: seq<Byte>, tail: seq<Byte>)
    requires PackBlob(parts) == Ok(blob)
    ensures Parse(blob + tail).Ok? && Parse(blob + tail).value.payloadEnd == |blob|
    ensures Carries(blob + tail, Parse(blob + tail).value.layout, parts)
  {
    hide Parse, Placed, Data, Frame, Inside, Carries, PartSizes, Sum, Names;
    var names, sizes := Names(parts), PartSizes(parts);
    var ds, data := Placed(names, sizes), Data(parts);
    var frame := Frame(ds, Sum(sizes)).value;
    PlacedInside(names, sizes);
    DataLength(parts);
    var block := blob + tail;
    assert Holds(block, 0, frame + data);
    HoldsSplit(block, 0, frame, data);
    FramedBlockParses(ds, Sum(sizes), frame, block);
    PackedParts(parts, block, |frame|);
  }

  lemma {:induction false} PackedParts(parts: seq<Part>, block: seq<Byte>, start: nat)
    requires Holds(block, start, Data(parts))
    ensures Carries(block, LayoutOf(Placed(Names(parts), PartSizes(parts)), start), parts)
  {
    forall i | 0 <= i < |parts| ensures Holds(block, start + Sum(PartSizes(parts)[..i]), parts[i].data) {
      DataHolds(parts, i);
    }
  }

  /** Unpacking inverts packing for every part map that packs at all (`PackBlobOk` says which), and
      bytes appended to the blob change nothing. */
  lemma {:induction false} RoundTrip(parts: seq<Part>, blob: seq<Byte>, tail: seq<Byte>)
    requires PackBlob(parts) == Ok(blob)
    ensures UnpackBlob(blob + tail) == Ok(ToMap(parts))
  {
    hide PackBlob, Parse, Carries, Cut, ToMap;
    PackedLayout(parts, blob, tail);
    CutIsToMap(ParseLayout(blob + tail).value, blob + tail, parts);
  }

  // ---------------------------------------------------------------- the in-place framing

  /** `block` holds the framing, and every part at the absolute offset the framing reports. */
  ghost predicate WrittenInPlace(block: seq<Byte>, parts: seq<Part>, f: Framing) {
    && f.total <= |block| && Holds(block, 0, f.bytes)
    && forall i :: 0 <= i < |parts| ==>
         parts[i].name in f.absolute && Holds(block, f.absolute[parts[i].name], parts[i].data)
  }

  lemma {:induction false} AbsoluteAt(ds: seq<Desc>, start: nat, i: nat)
    requires i < |ds| && forall j, k :: 0 <= j < k < |ds| ==> ds[j].name != ds[k].name
    ensures ds[i].name in AbsoluteOffsets(ds, start) && AbsoluteOffsets(ds, start)[ds[i].name] == start + ds[i].offset
  {
    var n := |ds| - 1;
    if i < n {
      AbsoluteAt(ds[..n], start, i);
    }
  }

  /** The descriptors a framing call writes, with the payload length it declares. */
  ghost function FramedDescs(names: seq<Name>, sizes: seq<nat>, offsets: Offsets): (seq<Desc>, nat)
    requires |names| == |sizes| && BuildFraming(names, sizes, offsets).Ok?
  {
    if offsets.Unpinned? then (Placed(names, sizes), Sum(sizes))
    else (Pinned(names, sizes, offsets.offsets), MaxEnd(Pinned(names, sizes, offsets.offsets)))
  }

  lemma {:induction false} FramedDescsFit(names: seq<Name>, sizes: seq<nat>, offsets: Offsets)
    requires |names| == |sizes| && BuildFraming(names, sizes, offsets).Ok?
    ensures var (ds, payload) := FramedDescs(names, sizes, offsets);
            && BuildFraming(names, sizes, offsets) == FramingOf(ds, payload)
            && |ds| == |names| && Inside(ds, payload)
            && forall i :: 0 <= i < |ds| ==> ds[i].name == names[i] && ds[i].size == sizes[i]
  {
    if offsets.Unpinned? {
      PlacedInside(names, sizes);
    } else {
      MaxEndCovers(Pinned(names, sizes, offsets.offsets));
    }
  }

  lemma {:induction false} PartsWhereFramed(parts: seq<Part>, ds: seq<Desc>, f: Framing, block: seq<Byte>)
    requires Distinct(parts) && WrittenInPlace(block, parts, f)
    requires f.absolute == AbsoluteOffsets(ds, |f.bytes|) && |ds| == |parts|
    requires forall i :: 0 <= i < |ds| ==> ds[i].name == parts[i].name && ds[i].size == |parts[i].data|
    ensures Carries(block, LayoutOf(ds, |f.bytes|), parts)
  {
    forall i | 0 <= i < |parts| ensures Holds(block, |f.bytes| + ds[i].offset, parts[i].data) {
      AbsoluteAt(ds, |f.bytes|, i);
    }
  }

  /** Framing plus in-place writes unpacks to the parts, for consecutive offsets and for any
      offsets the caller pins, gaps included. */
  lemma {:induction false} InPlaceRoundTrip(parts: seq<Part>, offsets: Offsets, f: Framing, block: seq<Byte>)
    requires Distinct(parts)
    requires BuildFraming(Names(parts), PartSizes(parts), offsets) == Ok(f)
    requires WrittenInPlace(block, parts, f)
    ensures Parse(block).Ok? && Parse(block).value.payloadEnd == f.total
    ensures UnpackBlob(block) == Ok(ToMap(parts))
  {
    hide Parse, Frame, Carries, Holds, BuildFraming;
    FramedDescsFit(Names(parts), PartSizes(parts), offsets);
    var (ds, payload) := FramedDescs(Names(parts), PartSizes(parts), offsets);
    FramedBlockParses(ds, payload, f.bytes, block);
    var layout := LayoutOf(ds, |f.bytes|);
    PartsWhereFramed(parts, ds, f, block);
    CutIsToMap(layout, block, parts);
  }

  /** Two stretches of a block with no byte in common. */
  predicate Apart(a: nat, n: nat, b: nat, m: nat) {
    n == 0 || m == 0 || a + n <= b || b + m <= a
  }

  /** The slot a framing gives a part lies after the framing and before its end. */
  lemma {:induction false} SlotInside(parts: seq<Part>, offsets: Offsets, f: Framing, i: nat)
    requires Distinct(parts) && i < |parts|
    requires BuildFraming(Names(parts), PartSizes(parts), offsets) == Ok(f)
    ensures parts[i].name in f.absolute
    ensures |f.bytes| <= f.absolute[parts[i].name]
    ensures f.absolute[parts[i].name] + |parts[i].data| <= f.total
  {
    hide Frame, BuildFraming;
    FramedDescsFit(Names(parts), PartSizes(parts), offsets);
    var (ds, payload) := FramedDescs(Names(parts), PartSizes(parts), offsets);
    AbsoluteAt(ds, |f.bytes|, i);
  }

  /** No two parts share a byte of the block. */
  ghost predicate SlotsApart(parts: seq<Part>, f: Framing)
    requires forall i :: 0 <= i < |parts| ==> parts[i].name in f.absolute
  {
    forall i, j :: 0 <= i < j < |parts| ==>
      Apart(f.absolute[parts[i].name], |parts[i].data|, f.absolute[parts[j].name], |parts[j].data|)
  }

  /** Without pinned offsets the slots are consecutive, so they never overlap. */
  lemma {:induction false} UnpinnedApart(parts: seq<Part>, f: Framing, i: nat, j: nat)
    requires Distinct(parts) && i < j < |parts|
    requires BuildFraming(Names(parts), PartSizes(parts), Unpinned) == Ok(f)
    ensures parts[i].name in f.absolute && parts[j].name in f.absolute
    ensures f.absolute[parts[i].name] + |parts[i].data| <= f.absolute[parts[j].name]
  {
    hide Frame, Sum;
    var sizes := PartSizes(parts);
    var ds := Placed(Names(parts), sizes);
    AbsoluteAt(ds, |f.bytes|, i);
    AbsoluteAt(ds, |f.bytes|, j);
    SumStep(sizes, i);
    SumMonotone(sizes, i + 1, j);
  }

  /** A write elsewhere in the block disturbs nothing that stands apart from it. */
  lemma {:induction false} HoldsThrough(before: seq<Byte>, after: seq<Byte>, at: nat, n: nat, pos: nat, s: seq<Byte>)
    requires Holds(before, pos, s) && Apart(at, n, pos, |s|) && at + n <= |before| == |after|
    requires after[..at] == before[..at] && after[at + n..] == before[at + n..]
    ensures Holds(after, pos, s)
  {
    forall k | 0 <= k < |s| ensures after[pos + k] == s[k] {
      assert before[pos..pos + |s|][k] == before[pos + k];
      if pos + k < at {
        assert after[pos + k] == after[..at][pos + k];
      } else {
        assert after[pos + k] == after[at + n..][pos + k - at - n];
      }
    }
  }

  /** The framing, then each part into its slot: with slots that do not overlap, gaps allowed, the block
      unpacks to the parts, and nothing past the total is touched. */
  method FillInPlace(block: array<Byte>, parts: seq<Part>, offsets: Offsets, f: Framing)
    requires Distinct(parts) && BuildFraming(Names(parts), PartSizes(parts), offsets) == Ok(f)
    requires f.total <= block.Length
    requires forall i :: 0 <= i < |parts| ==> parts[i].name in f.absolute
    requires SlotsApart(parts, f)
    modifies block
    ensures WrittenInPlace(block[..], parts, f)
    ensures UnpackBlob(block[..]) == Ok(ToMap(parts))
    ensures block[f.total..] == old(block[f.total..])
  {
    hide BuildFraming, UnpackBlob, ToMap, Distinct, Holds, Apart;
    FramingFits(parts, offsets, f);
    WriteAt(block, 0, f.bytes);
    HoldsWhole(block[..], f.bytes);
    var i := 0;
    while i < |parts|
      invariant 0 <= i <= |parts| && Holds(block[..], 0, f.bytes)
      invariant forall k :: 0 <= k < i ==> Holds(block[..], f.absolute[parts[k].name], parts[k].data)
      invariant block[f.total..] == old(block[f.total..])
    {
      WritePart(block, parts, offsets, f, i);
      i := i + 1;
    }
    InPlaceRoundTrip(parts, offsets, f, block[..]);
  }

  lemma {:induction false} FramingFits(parts: seq<Part>, offsets: Offsets, f: Framing)
    requires BuildFraming(Names(parts), PartSizes(parts), offsets) == Ok(f)
    ensures |f.bytes| <= f.total
  {
    hide Frame;
  }

  lemma {:induction false} HoldsWhole(block: seq<Byte>, s: seq<Byte>)
    requires |s| <= |block| && block[..|s|] == s
    ensures Holds(block, 0, s)
  {
  }

  lemma {:induction false} HoldsAt(block: seq<Byte>, at: nat, s: seq<Byte>)
    requires at + |s| <= |block| && block[at..at + |s|] == s
    ensures Holds(block, at, s)
  {
  }

  /** One part's write. */
  method WritePart(block: array<Byte>, parts: seq<Part>, offsets: Offsets, f: Framing, i: nat)
    requires Distinct(parts) && BuildFraming(Names(parts), PartSizes(parts), offsets) == Ok(f)
    requires f.total <= block.Length && i < |parts|
    requires forall k :: 0 <= k < |parts| ==> parts[k].name in f.absolute
    requires SlotsApart(parts, f)
    modifies block
    requires Holds(block[..], 0, f.bytes)
    requires forall k :: 0 <= k < i ==> Holds(block[..], f.absolute[parts[k].name], parts[k].data)
    ensures Holds(block[..], 0, f.bytes)
    ensures forall k :: 0 <= k <= i ==> Holds(block[..], f.absolute[parts[k].name], parts[k].data)
    ensures block[f.total..] == old(block[f.total..])
  {
    hide BuildFraming, Distinct, Holds;
    SlotInside(parts, offsets, f, i);
    ghost var before := block[..];
    var at, data := f.absolute[parts[i].name], parts[i].data;
    WriteAt(block, at, data);
    HoldsAt(block[..], at, data);
    HoldsThrough(before, block[..], at, |data|, 0, f.bytes);
    forall k | 0 <= k < i ensures Holds(block[..], f.absolute[parts[k].name], parts[k].data) {
      HoldsThrough(before, block[..], at, |data|, f.absolute[parts[k].name], parts[k].data);
    }
  }

  lemma {:induction false} PartInPlace(parts: seq<Part>, f: Framing, block: seq<Byte>, i: nat)
    requires Distinct(parts) && WrittenInPlace(block, parts, f) && i < |parts|
    requires f.absolute == AbsoluteOffsets(Placed(Names(parts), PartSizes(parts)), |f.bytes|)
    ensures Holds(block, |f.bytes| + |Data(parts[..i])|, parts[i].data)
  {
    OffsetOfPart(parts, i);
    AbsoluteAt(Placed(Names(parts), PartSizes(parts)), |f.bytes|, i);
  }

  /** Without pinned offsets the in-place form is the copying form, byte for byte. */
  lemma {:induction false} InPlaceEqualsPacked(parts: seq<Part>, f: Framing, block: seq<Byte>)
    requires Distinct(parts)
    requires BuildFraming(Names(parts), PartSizes(parts), Unpinned) == Ok(f)
    requires WrittenInPlace(block, parts, f)
    ensures PackBlob(parts) == Ok(block[..f.total])
  {
    hide Holds, Placed, Frame, Data, AbsoluteOffsets, Distinct, PartSizes, Names, Sum;
    forall i | 0 <= i < |parts| ensures Holds(block, |f.bytes| + |Data(parts[..i])|, parts[i].data) {
      PartInPlace(parts, f, block, i);
    }
    DataFromParts(parts, block, |f.bytes|);
    DataLength(parts);
    HoldsSplit(block, 0, f.bytes, Data(parts));
    HoldsSlice(block, 0, f.bytes + Data(parts));
  }

  lemma {:induction false} OffsetOfPart(parts: seq<Part>, i: nat)
    requires i <= |parts|
    ensures |Data(parts[..i])| == Sum(PartSizes(parts)[..i])
  {
    DataLength(parts[..i]);
    assert PartSizes(parts[..i]) == PartSizes(parts)[..i];
  }

  lemma {:induction false} DataFromParts(parts: seq<Part>, block: seq<Byte>, start: nat)
    requires start <= |block|
    requires forall i :: 0 <= i < |parts| ==> Holds(block, start + |Data(parts[..i])|, parts[i].data)
    ensures Holds(block, start, Data(parts))
  {
    DataFromPrefix(parts, block, start, |parts|);
    assert parts[..|parts|] == parts;
  }

  lemma {:induction false} DataFromPrefix(parts: seq<Part>, block: seq<Byte>, start: nat, n: nat)
    requires start <= |block| && n <= |parts|
    requires forall i :: 0 <= i < |parts| ==> Holds(block, start + |Data(parts[..i])|, parts[i].data)
    ensures Holds(block, start, Data(parts[..n]))
  {
    if n > 0 {
      hide Holds;
      DataFromPrefix(parts, block, start, n - 1);
      assert parts[..n][..n - 1] == parts[..n - 1];
      HoldsSplit(block, start, Data(parts[..n - 1]), parts[n - 1].data);
    }
  }

  // ---------------------------------------------------------------- soundness on arbitrary bytes

  lemma {:induction false} DescsEnd(blob: seq<Byte>, pos: nat, count: nat)
    requires ParseDescs(blob, pos, count).Ok?
    ensures |ParseDescs(blob, pos, count).value.entries| == count
    ensures pos + count * DESC_FIXED_SIZE <= ParseDescs(blob, pos, count).value.end
    decreases count
  {
    hide Value, ValidUtf8, DescAt;
    if count > 0 {
      DescsEnd(blob, pos + DESC_FIXED_SIZE + blob[pos], count - 1);
    }
  }

  /** Whatever the bytes, a layout that is returned stays between the end of the descriptors and
      the end of the declared payload, which lies in the buffer. */
  lemma {:induction false} ParserSound(blob: seq<Byte>)
    requires Parse(blob).Ok?
    ensures var p := Parse(blob).value;
            && HEADER_SIZE + |p.layout| * DESC_FIXED_SIZE <= p.dataStart <= p.payloadEnd <= |blob|
            && forall i :: 0 <= i < |p.layout| ==>
                 p.dataStart <= p.layout[i].offset <= p.layout[i].offset + p.layout[i].byteCount <= p.payloadEnd
  {
    hide Value, ParseDescs, ParseHeader;
    var h := ParseHeader(Clamp(blob, 0, HEADER_SIZE)).value;
    DescsEnd(blob, HEADER_SIZE, h.partCount);
  }

  // ---------------------------------------------------------------- what is accepted

  lemma {:induction false} DescsBytesCons(d: Desc, rest: seq<Desc>)
    requires DescError(d).Ok? && DescsBytes(rest).Ok?
    ensures DescsBytes([d] + rest) == Ok(DescBytes(d) + DescsBytes(rest).value)
  {
    hide DescError, DescBytes;
    var ds := [d] + rest;
    DescsBytesOk(rest);
    DescsBytesOk(ds);
    DescsBytesFront(ds);
    assert ds[0] == d && ds[1..] == rest;
  }

  /** A descriptor that was read is written back as the bytes it was read from. */
  lemma {:induction false} DescRebuild(blob: seq<Byte>, pos: nat)
    requires pos + DESC_FIXED_SIZE <= |blob| && pos + DESC_FIXED_SIZE + blob[pos] <= |blob|
    requires ValidUtf8(DescAt(blob, pos).name)
    ensures DescError(DescAt(blob, pos)).Ok?
    ensures DescBytes(DescAt(blob, pos)) == blob[pos..pos + DESC_FIXED_SIZE + blob[pos]]
  {
    hide Value, BigEndian, ValidUtf8, Pow256;
    var d := DescAt(blob, pos);
    FieldLimits();
    BigEndianOfValue(blob[pos..pos + 1]);
    OneByte(blob, pos);
    BigEndianOfValue(blob[pos + 1..pos + 9]);
    BigEndianOfValue(blob[pos + 9..pos + 17]);
    var end := pos + DESC_FIXED_SIZE + blob[pos];
    assert blob[pos..end] == blob[pos..pos + 1] + blob[pos + 1..pos + 9] + blob[pos + 9..pos + 17] + blob[pos + 17..end];
  }

  lemma {:induction false} DescsRebuild(blob: seq<Byte>, pos: nat, count: nat)
    requires ParseDescs(blob, pos, count).Ok? && ParseDescs(blob, pos, count).value.end <= |blob|
    ensures var d := ParseDescs(blob, pos, count).value;
            pos <= d.end && DescsBytes(d.entries) == Ok(blob[pos..d.end])
    decreases count
  {
    hide Value, ValidUtf8, DescAt, DescError, DescBytes;
    if count > 0 {
      var next := pos + DESC_FIXED_SIZE + blob[pos];
      DescsEnd(blob, next, count - 1);
      DescRebuild(blob, pos);
      DescsRebuild(blob, next, count - 1);
      var rest := ParseDescs(blob, next, count - 1).value;
      DescsBytesCons(DescAt(blob, pos), rest.entries);
      assert blob[pos..rest.end] == blob[pos..next] + blob[next..rest.end];
    } else {
      assert blob[pos..pos] == [];
    }
  }

  lemma {:induction false} HeaderRebuild(blob: seq<Byte>)
    requires |blob| >= HEADER_SIZE && ParseHeader(blob[..HEADER_SIZE]).Ok?
    ensures var h := ParseHeader(blob[..HEADER_SIZE]).value;
            && h.partCount < U16_LIMIT && h.payloadLength < U64_LIMIT && HeaderBytes(h) == blob[..HEADER_SIZE]
  {
    hide Value, BigEndian, Pow256;
    var head := blob[..HEADER_SIZE];
    FieldLimits();
    BigEndianOfValue(head[4..6]);
    BigEndianOfValue(head[6..8]);
    BigEndianOfValue(head[8..16]);
    assert head == head[..4] + head[4..6] + head[6..8] + head[8..16];
  }

  /** The blob begins with the framing of these descriptors, every part inside its payload, and holds it all. */
  ghost predicate FramedAs(blob: seq<Byte>, ds: seq<Desc>, payload: nat) {
    && Frame(ds, payload).Ok? && Inside(ds, payload)
    && |Frame(ds, payload).value| + payload <= |blob|
    && Holds(blob, 0, Frame(ds, payload).value)
  }

  /** An accepted blob begins with exactly the framing of the descriptors read from it. */
  lemma {:induction false} AcceptedIsFramed(blob: seq<Byte>) returns (ds: seq<Desc>, payload: nat)
    requires Parse(blob).Ok?
    ensures FramedAs(blob, ds, payload)
    ensures Parse(blob).value.layout == LayoutOf(ds, |Frame(ds, payload).value|)
    ensures Parse(blob).value.dataStart == |Frame(ds, payload).value|
  {
    hide Value, ParseDescs, ParseHeader, HeaderBytes, DescsBytes;
    ParserSound(blob);
    var h := ParseHeader(Clamp(blob, 0, HEADER_SIZE)).value;
    var d := ParseDescs(blob, HEADER_SIZE, h.partCount).value;
    ds, payload := d.entries, h.payloadLength;
    assert Clamp(blob, 0, HEADER_SIZE) == blob[..HEADER_SIZE];
    HeaderRebuild(blob);
    DescsEnd(blob, HEADER_SIZE, h.partCount);
    DescsRebuild(blob, HEADER_SIZE, h.partCount);
    assert blob[..d.end] == blob[..HEADER_SIZE] + blob[HEADER_SIZE..d.end];
  }

  /** The parser accepts exactly the blobs that begin with a framing whose parts lie in a payload the blob
      holds in full: right magic and version, encodable names, and nothing else. */
  lemma {:induction false} AcceptedExactly(blob: seq<Byte>)
    ensures Parse(blob).Ok? <==> exists ds, payload :: FramedAs(blob, ds, payload)
  {
    hide Parse, FramedAs;
    if Parse(blob).Ok? {
      var ds, payload := AcceptedIsFramed(blob);
    }
    if ds, payload: nat :| FramedAs(blob, ds, payload) {
      FramedIsAccepted(blob, ds, payload);
    }
  }

  lemma {:induction false} FramedIsAccepted(blob: seq<Byte>, ds: seq<Desc>, payload: nat)
    requires FramedAs(blob, ds, payload)
    ensures Parse(blob).Ok?
  {
    hide Parse, Frame, Holds;
    FramedBlockParses(ds, payload, Frame(ds, payload).value, blob);
  }

  /** The first `k` descriptors read, and the next cannot be: it is cut short, or its name is not UTF-8. */
  ghost predicate FailsAt(blob: seq<Byte>, pos: nat, count: nat, k: nat, e: Error) {
    && k < count && ParseDescs(blob, pos, k).Ok?
    && var at := ParseDescs(blob, pos, k).value.end;
       if at + DESC_FIXED_SIZE > |blob| then e == ProtocolError(TruncatedDescriptor)
       else e == UnicodeError && !ValidUtf8(DescAt(blob, at).name)
  }

  lemma {:induction false} FailsOnward(blob: seq<Byte>, pos: nat, count: nat, k: nat, e: Error)
    requires count > 0 && pos + DESC_FIXED_SIZE <= |blob| && ValidUtf8(DescAt(blob, pos).name)
    ensures FailsAt(blob, pos, count, k + 1, e) <==> FailsAt(blob, pos + DESC_FIXED_SIZE + blob[pos], count - 1, k, e)
  {
    hide ValidUtf8, DescAt;
  }

  /** Reading descriptors fails exactly where the first one that cannot be read stands, and with its error. */
  lemma {:induction false} DescsFailWhere(blob: seq<Byte>, pos: nat, count: nat, e: Error)
    ensures ParseDescs(blob, pos, count) == Err(e) <==> exists k: nat :: FailsAt(blob, pos, count, k, e)
    decreases count
  {
    hide ValidUtf8, DescAt;
    if count > 0 && pos + DESC_FIXED_SIZE <= |blob| && ValidUtf8(DescAt(blob, pos).name) {
      var next: nat, rest: nat := pos + DESC_FIXED_SIZE + blob[pos], count - 1;
      DescsFailWhere(blob, next, rest, e);
      if k: nat :| FailsAt(blob, next, rest, k, e) {
        FailsOnward(blob, pos, count, k, e);
      }
      if k: nat :| FailsAt(blob, pos, count, k, e) {
        FailsOnward(blob, pos, count, k - 1, e);
      }
    } else {
      FailsFirst(blob, pos, count, e);
    }
  }

  lemma {:induction false} FailsFirst(blob: seq<Byte>, pos: nat, count: nat, e: Error)
    requires count == 0 || pos + DESC_FIXED_SIZE > |blob| || !ValidUtf8(DescAt(blob, pos).name)
    ensures ParseDescs(blob, pos, count) == Err(e) <==> exists k: nat :: FailsAt(blob, pos, count, k, e)
  {
    hide ValidUtf8, DescAt;
    if ParseDescs(blob, pos, count) == Err(e) {
      assert FailsAt(blob, pos, count, 0, e);
    }
    if k: nat :| FailsAt(blob, pos, count, k, e) {
      assert k > 0 ==> ParseDescs(blob, pos, k).Err?;
    }
  }

  /** So not every malformed blob is a protocol error: a codec error escapes exactly when the header is good and
      the first descriptor that cannot be read is all there but for a name that is not UTF-8. */
  lemma {:induction false} CodecErrorWhen(blob: seq<Byte>)
    ensures Parse(blob) == Err(UnicodeError) <==>
              && |blob| >= HEADER_SIZE && ParseHeader(blob[..HEADER_SIZE]).Ok?
              && exists k: nat :: FailsAt(blob, HEADER_SIZE, ParseHeader(blob[..HEADER_SIZE]).value.partCount, k, UnicodeError)
  {
    hide Value, ParseDescs, FailsAt;
    if |blob| >= HEADER_SIZE && ParseHeader(blob[..HEADER_SIZE]).Ok? {
      DescsFailWhere(blob, HEADER_SIZE, ParseHeader(blob[..HEADER_SIZE]).value.partCount, UnicodeError);
    }
  }

  /** Such a blob: one part, named by the byte 0xFF. */
  lemma {:induction false} CodecErrorEscapes()
    ensures Parse(HeaderBytes(Header(1, 0)) + ([1] + seq(16, i => 0) + [0xFF])) == Err(UnicodeError)
  {
    hide ParseHeader, HeaderBytes, Value;
    var blob: seq<Byte> := HeaderBytes(Header(1, 0)) + ([1] + seq(16, i => 0) + [0xFF]);
    assert blob[..HEADER_SIZE] == HeaderBytes(Header(1, 0));
    HeaderReadBack(blob, Header(1, 0));
    assert blob[16] == 1 && blob[33] == 0xFF;
    assert DescAt(blob, 16).name == [0xFF];
    assert FailsAt(blob, HEADER_SIZE, 1, 0, UnicodeError);
    CodecErrorWhen(blob);
  }

  // ---------------------------------------------------------------- the bytes on the wire

  /** The fields of a descriptor, in order: name length, offset, size, name. */
  lemma {:induction false} DescFields(d: Desc)
    requires DescError(d).Ok?
    ensures var s := DescBytes(d);
            && s[0] == |d.name| && Value(s[1..9]) == d.offset && Value(s[9..17]) == d.size && s[17..] == d.name
  {
    hide Value, Pow256, ValidUtf8;
    FieldLimits();
    ValueOfBigEndian(d.offset, 8);
    ValueOfBigEndian(d.size, 8);
    var s := DescBytes(d);
    assert BigEndian(|d.name|, 1) == [|d.name|];
    hide BigEndian;
    assert s[1..9] == BigEndian(d.offset, 8) && s[9..17] == BigEndian(d.size, 8);
  }

  /** Fields are big-endian: a small number is its last byte. */
  lemma {:induction false} SmallField(n: nat, width: nat)
    requires n < 256 && width > 0
    ensures BigEndian(n, width) == seq(width - 1, i => 0) + [n]
  {
    if width > 1 {
      ZeroField(width - 1);
    }
  }

  lemma {:induction false} ZeroField(width: nat)
    ensures BigEndian(0, width) == seq(width, i => 0)
  {
    if width > 0 {
      ZeroField(width - 1);
    }
  }

  lemma {:induction false} SliceOfPrefix(blob: seq<Byte>, k: nat, i: nat, j: nat)
    requires i <= j <= k <= |blob|
    ensures blob[..k][i..j] == blob[i..j]
  {
  }

  /** A descriptor that lies in a prefix reads the same there. */
  lemma {:induction false} DescOfPrefix(blob: seq<Byte>, k: nat, pos: nat)
    requires pos + DESC_FIXED_SIZE <= k <= |blob|
    ensures blob[..k][pos] == blob[pos]
    ensures pos + DESC_FIXED_SIZE + blob[pos] <= k ==> DescAt(blob[..k], pos) == DescAt(blob, pos)
  {
    SliceOfPrefix(blob, k, pos + 1, pos + 9);
    SliceOfPrefix(blob, k, pos + 9, pos + 17);
    if pos + DESC_FIXED_SIZE + blob[pos] <= k {
      SliceOfPrefix(blob, k, pos + DESC_FIXED_SIZE, pos + DESC_FIXED_SIZE + blob[pos]);
    }
  }

  /** Reading descriptors from a prefix: the same ones when the prefix holds them all, otherwise
      an error or an end past the prefix. */
  lemma {:induction false} DescsOfPrefix(blob: seq<Byte>, k: nat, pos: nat, count: nat)
    requires k <= |blob| && ParseDescs(blob, pos, count).Ok?
    ensures var full, cut := ParseDescs(blob, pos, count), ParseDescs(blob[..k], pos, count);
            if full.value.end <= k then cut == full else (cut.Ok? ==> cut.value.end > k)
    decreases count
  {
    hide Value, ValidUtf8, DescAt;
    if count > 0 {
      var next := pos + DESC_FIXED_SIZE + blob[pos];
      DescsOfPrefix(blob, k, next, count - 1);
      DescsEnd(blob, next, count - 1);
      if pos + DESC_FIXED_SIZE <= k {
        DescOfPrefix(blob, k, pos);
        var cut := ParseDescs(blob[..k], next, count - 1);
        assert cut.Ok? ==> cut.value.end >= next by {
          if cut.Ok? {
            DescsEnd(blob[..k], next, count - 1);
          }
        }
      }
    }
  }

  /** An accepted blob is decided by its bytes up to the end of the declared payload: every longer
      cut parses the same and every shorter one is refused. */
  lemma {:induction false} PrefixDecides(blob: seq<Byte>, k: nat)
    requires Parse(blob).Ok? && k <= |blob|
    ensures if k >= Parse(blob).value.payloadEnd then Parse(blob[..k]) == Parse(blob)
            else Parse(blob[..k]).Err?
  {
    hide Value, ParseDescs;
    ParserSound(blob);
    var h := ParseHeader(Clamp(blob, 0, HEADER_SIZE)).value;
    if k >= HEADER_SIZE {
      assert Clamp(blob[..k], 0, HEADER_SIZE) == Clamp(blob, 0, HEADER_SIZE);
      DescsOfPrefix(blob, k, HEADER_SIZE, h.partCount);
      DescsEnd(blob, HEADER_SIZE, h.partCount);
      if k < Parse(blob).value.payloadEnd {
        var cut := ParseDescs(blob[..k], HEADER_SIZE, h.partCount);
        assert cut.Ok? ==> cut.value.end + h.payloadLength > k;
      }
    }
  }

  /** Descriptors that end inside a buffer read the same in every buffer that extends it. */
  lemma {:induction false} DescsExtend(a: seq<Byte>, tail: seq<Byte>, pos: nat, count: nat)
    requires ParseDescs(a, pos, count).Ok? && ParseDescs(a, pos, count).value.end <= |a|
    ensures ParseDescs(a + tail, pos, count) == ParseDescs(a, pos, count)
    decreases count
  {
    hide Value, ValidUtf8, DescAt;
    if count > 0 {
      var next := pos + DESC_FIXED_SIZE + a[pos];
      DescsEnd(a, next, count - 1);
      assert (a + tail)[..|a|] == a;
      DescOfPrefix(a + tail, |a|, pos);
      DescsExtend(a, tail, next, count - 1);
    }
  }

  /** Bytes after an accepted blob change nothing: it is accepted again, with the same layout. */
  lemma {:induction false} TrailingBytes(a: seq<Byte>, tail: seq<Byte>)
    requires Parse(a).Ok?
    ensures Parse(a + tail) == Parse(a)
  {
    hide Value, ParseDescs, ParseHeader;
    ParserSound(a);
    var h := ParseHeader(Clamp(a, 0, HEADER_SIZE)).value;
    assert Clamp(a + tail, 0, HEADER_SIZE) == Clamp(a, 0, HEADER_SIZE);
    DescsExtend(a, tail, HEADER_SIZE, h.partCount);
  }

  /** A buffer that agrees with an accepted one up to its payload's end is accepted too, with the same
      layout, whatever follows. */
  lemma {:induction false} SamePrefixSameParse(a: seq<Byte>, b: seq<Byte>)
    requires Parse(a).Ok? && Parse(a).value.payloadEnd <= |b|
    requires a[..Parse(a).value.payloadEnd] == b[..Parse(a).value.payloadEnd]
    ensures Parse(a) == Parse(b)
  {
    hide Parse;
    var k := Parse(a).value.payloadEnd;
    ParserSound(a);
    PrefixDecides(a, k);
    TrailingBytes(a[..k], b[k..]);
    assert a[..k] + b[k..] == b;
  }

  /** Every strict prefix of a packed blob is rejected. */
  lemma {:induction false} PackedPrefixRejected(parts: seq<Part>, k: nat)
    requires PackBlob(parts).Ok? && k < |PackBlob(parts).value|
    ensures ParseLayout(PackBlob(parts).value[..k]).Err?
  {
    PackedLayout(parts, PackBlob(parts).value, []);
    assert PackBlob(parts).value + [] == PackBlob(parts).value;
    PrefixDecides(PackBlob(parts).value, k);
  }

  /** Packing loses nothing: equal blobs come from equal part maps. */
  lemma {:induction false} PackInjective(p: seq<Part>, q: seq<Part>)
    requires PackBlob(p).Ok? && PackBlob(p) == PackBlob(q)
    ensures ToMap(p) == ToMap(q)
  {
    RoundTrip(p, PackBlob(p).value, []);
    RoundTrip(q, PackBlob(q).value, []);
  }
}
