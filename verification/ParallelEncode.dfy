/** The producer's parallel encoder: workers fill image slots of a shared block in any order, then
    the parent adds metadata and framing. It refines the copying packer. */
module ParallelEncode {
  import opened Bytes
  import opened Utf8
  import opened Wire
  import opened WireTheorems
  import opened SensorParts

  const EXPECTED_SENSORS: nat := 8
  const META_ALLOWANCE: nat := EXPECTED_SENSORS * 4 * 1024 * 1024

  // ---------------------------------------------------------------- the parts of an exposure

  /** Sensors in the order of their sorted detector ids, each with its image and metadata. */
  datatype Shot = Shot(sensor: Sensor, image: seq<Byte>, meta: seq<Byte>)

  function ImgParts(shots: seq<Shot>): (parts: seq<Part>)
    ensures |parts| == |shots|
  {
    seq(|shots|, i requires 0 <= i < |shots| => Part(ImgName(shots[i].sensor), shots[i].image))
  }

  function MetaParts(shots: seq<Shot>): (parts: seq<Part>)
    ensures |parts| == |shots|
  {
    seq(|shots|, i requires 0 <= i < |shots| => Part(MetaName(shots[i].sensor), shots[i].meta))
  }

  /** Every image first, then every metadata part: the order the dicts are filled in. */
  function WireParts(shots: seq<Shot>): (parts: seq<Part>)
    ensures |parts| == 2 * |shots|
  {
    ImgParts(shots) + MetaParts(shots)
  }

  /** The order the descriptor region is sized in before any metadata exists. */
  function PairedNames(shots: seq<Shot>): (names: seq<Name>)
    ensures |names| == 2 * |shots|
  {
    if shots == [] then [] else
      var last := shots[|shots| - 1];
      PairedNames(shots[..|shots| - 1]) + [ImgName(last.sensor), MetaName(last.sensor)]
  }

  ghost predicate DistinctSensors(shots: seq<Shot>) {
    forall i, j :: 0 <= i < j < |shots| ==> shots[i].sensor != shots[j].sensor
  }

  lemma {:induction false} WirePartsDistinct(shots: seq<Shot>)
    requires DistinctSensors(shots)
    ensures Distinct(WireParts(shots))
  {
    NamingFacts();
    hide ImgName, MetaName, EndsWith, Stem;
  }

  // ---------------------------------------------------------------- sizing the region

  function NameError(name: Name): Result<()> {
    if !ValidUtf8(name) then Err(UnicodeError) else if |name| > 255 then Err(ProtocolError(NameTooLong)) else Ok(())
  }

  function RegionSize(names: seq<Name>): nat {
    if names == [] then 0 else RegionSize(names[..|names| - 1]) + DESC_FIXED_SIZE + |names[|names| - 1]|
  }

  /** The bytes descriptors will take, from the names alone, or the first name's error. */
  function DescriptorRegion(names: seq<Name>): Result<nat> {
    if names == [] then Ok(0) else
      match DescriptorRegion(names[..|names| - 1])
      case Err(e) => Err(e)
      case Ok(total) =>
        match NameError(names[|names| - 1])
        case Err(e) => Err(e)
        case Ok(_) => Ok(total + DESC_FIXED_SIZE + |names[|names| - 1]|)
  }

  lemma {:induction false} DescriptorRegionOk(names: seq<Name>)
    ensures DescriptorRegion(names).Ok? <==> forall i :: 0 <= i < |names| ==> NameError(names[i]).Ok?
    ensures DescriptorRegion(names).Ok? ==> DescriptorRegion(names).value == RegionSize(names)
  {
    if names != [] {
      var front := names[..|names| - 1];
      DescriptorRegionOk(front);
      assert forall i :: 0 <= i < |front| ==> front[i] == names[i];
    }
  }

  lemma {:induction false} FirstNameError(names: seq<Name>, i: nat)
    requires i < |names| && DescriptorRegion(names[..i]).Ok? && NameError(names[i]).Err?
    ensures DescriptorRegion(names) == Err(NameError(names[i]).error)
    decreases |names|
  {
    var front := names[..|names| - 1];
    if i < |front| {
      assert front[..i] == names[..i];
      FirstNameError(front, i);
    } else {
      assert front == names[..i];
    }
  }

  method DescriptorRegionSize(names: seq<Name>) returns (r: Result<nat>)
    ensures r == DescriptorRegion(names)
  {
    var total, i := 0, 0;
    while i < |names|
      invariant 0 <= i <= |names|
      invariant DescriptorRegion(names[..i]) == Ok(total)
    {
      var checked := NameError(names[i]);
      if checked.Err? {
        FirstNameError(names, i);
        return Err(checked.error);
      }
      assert names[..i + 1][..i] == names[..i];
      total := total + DESC_FIXED_SIZE + |names[i]|;
      i := i + 1;
    }
    assert names[..i] == names;
    return Ok(total);
  }

  lemma {:induction false} RegionSizeConcat(a: seq<Name>, b: seq<Name>)
    ensures RegionSize(a + b) == RegionSize(a) + RegionSize(b)
  {
    if b == [] {
      assert a + b == a;
    } else {
      RegionSizeConcat(a, b[..|b| - 1]);
      assert (a + b)[..|a + b| - 1] == a + b[..|b| - 1];
    }
  }

  lemma {:induction false} RegionSizeSnoc(a: seq<Name>, n: Name)
    ensures RegionSize(a + [n]) == RegionSize(a) + DESC_FIXED_SIZE + |n|
  {
    assert (a + [n])[..|a|] == a;
  }

  /** Summing the names pair by pair or all images first gives the same region. */
  lemma {:induction false} RegionSizeOrder(shots: seq<Shot>)
    ensures RegionSize(PairedNames(shots)) == RegionSize(Names(WireParts(shots)))
  {
    RegionSizeHalves(shots);
    assert Names(WireParts(shots)) == Names(ImgParts(shots)) + Names(MetaParts(shots));
    RegionSizeConcat(Names(ImgParts(shots)), Names(MetaParts(shots)));
  }

  lemma {:induction false} NamesSnoc(shots: seq<Shot>)
    requires shots != []
    ensures var front, last := shots[..|shots| - 1], shots[|shots| - 1].sensor;
            && Names(ImgParts(shots)) == Names(ImgParts(front)) + [ImgName(last)]
            && Names(MetaParts(shots)) == Names(MetaParts(front)) + [MetaName(last)]
            && PairedNames(shots) == PairedNames(front) + [ImgName(last)] + [MetaName(last)]
  {
    hide ImgName, MetaName;
  }

  lemma {:induction false} RegionSizeHalves(shots: seq<Shot>)
    ensures RegionSize(PairedNames(shots)) == RegionSize(Names(ImgParts(shots))) + RegionSize(Names(MetaParts(shots)))
  {
    if shots == [] {
      assert Names(ImgParts(shots)) == [] && Names(MetaParts(shots)) == [];
    } else {
      NamesSnoc(shots);
      hide ImgParts, MetaParts, PairedNames, RegionSize, ImgName, MetaName, Names;
      var front, last := shots[..|shots| - 1], shots[|shots| - 1].sensor;
      RegionSizeHalves(front);
      RegionSizeSnoc(PairedNames(front), ImgName(last));
      RegionSizeSnoc(PairedNames(front) + [ImgName(last)], MetaName(last));
      RegionSizeSnoc(Names(ImgParts(front)), ImgName(last));
      RegionSizeSnoc(Names(MetaParts(front)), MetaName(last));
    }
  }

  /** The predicted size is the size of the region the framing writes. */
  lemma {:induction false} RegionSizeOfDescs(ds: seq<Desc>, names: seq<Name>)
    requires |ds| == |names| && forall i :: 0 <= i < |ds| ==> ds[i].name == names[i]
    requires DescsBytes(ds).Ok?
    ensures |DescsBytes(ds).value| == RegionSize(names)
  {
    if ds != [] {
      RegionSizeOfDescs(ds[..|ds| - 1], names[..|ds| - 1]);
    }
  }

  // ---------------------------------------------------------------- the slots

  /** Where the worker of shot `i` writes, known before any pixel is read. */
  function Slot(shots: seq<Shot>, i: nat): nat
    requires i < |shots|
  {
    HEADER_SIZE + RegionSize(PairedNames(shots)) + Sum(PartSizes(ImgParts(shots))[..i])
  }

  function ImgEnd(shots: seq<Shot>): nat {
    HEADER_SIZE + RegionSize(PairedNames(shots)) + Sum(PartSizes(ImgParts(shots)))
  }

  lemma {:induction false} SlotStep(shots: seq<Shot>, i: nat)
    requires i < |shots|
    ensures HEADER_SIZE + RegionSize(PairedNames(shots)) <= Slot(shots, i)
    ensures Slot(shots, i) + |shots[i].image| <= ImgEnd(shots)
    ensures i + 1 < |shots| ==> Slot(shots, i + 1) == Slot(shots, i) + |shots[i].image|
  {
    var sizes := PartSizes(ImgParts(shots));
    SumStep(sizes, i);
    SumMonotone(sizes, i + 1, |sizes|);
    assert sizes[..|sizes|] == sizes;
  }

  /** Image slots do not overlap each other; each lies after the framing and before the metadata. */
  lemma {:induction false} SlotsDisjoint(shots: seq<Shot>, i: nat, j: nat)
    requires i < j < |shots|
    ensures Slot(shots, i) + |shots[i].image| <= Slot(shots, j)
  {
    var sizes := PartSizes(ImgParts(shots));
    SumStep(sizes, i);
    SumMonotone(sizes, i + 1, j);
  }

  // ---------------------------------------------------------------- the workers

  /** One byte written by the worker of shot `shot`. */
  datatype Write = Write(shot: nat, k: nat)

  ghost predicate Scheduled(shots: seq<Shot>, schedule: seq<Write>) {
    forall w :: w in schedule ==> w.shot < |shots| && w.k < |shots[w.shot].image|
  }

  /** Every worker finished: each byte of each image was written at least once. */
  ghost predicate Covers(shots: seq<Shot>, schedule: seq<Write>) {
    && Scheduled(shots, schedule)
    && forall i, k :: 0 <= i < |shots| && 0 <= k < |shots[i].image| ==> Write(i, k) in schedule
  }

  lemma {:induction false} WriteInside(shots: seq<Shot>, schedule: seq<Write>, w: Write)
    requires Scheduled(shots, schedule) && w in schedule
    ensures w.shot < |shots| && w.k < |shots[w.shot].image| && Slot(shots, w.shot) + w.k < ImgEnd(shots)
  {
    SlotStep(shots, w.shot);
  }

  /** The block after the workers' writes, in the order the schedule interleaves them. */
  ghost function Play(block: seq<Byte>, shots: seq<Shot>, schedule: seq<Write>): (b: seq<Byte>)
    requires Scheduled(shots, schedule) && ImgEnd(shots) <= |block|
    ensures |b| == |block|
  {
    if schedule == [] then block else
      var n := |schedule| - 1;
      var w := schedule[n];
      WriteInside(shots, schedule, w);
      Play(block, shots, schedule[..n])[Slot(shots, w.shot) + w.k := shots[w.shot].image[w.k]]
  }

  lemma {:induction false} SamePosition(shots: seq<Shot>, i: nat, k: nat, j: nat, m: nat)
    requires i < |shots| && k < |shots[i].image| && j < |shots| && m < |shots[j].image|
    requires Slot(shots, i) + k == Slot(shots, j) + m
    ensures i == j && k == m
  {
    if i < j {
      SlotsDisjoint(shots, i, j);
    } else if j < i {
      SlotsDisjoint(shots, j, i);
    }
  }

  lemma {:induction false} PlayedByte(block: seq<Byte>, shots: seq<Shot>, schedule: seq<Write>, i: nat, k: nat)
    requires Scheduled(shots, schedule) && ImgEnd(shots) <= |block|
    requires i < |shots| && k < |shots[i].image| && Write(i, k) in schedule
    ensures Slot(shots, i) + k < ImgEnd(shots)
    ensures Play(block, shots, schedule)[Slot(shots, i) + k] == shots[i].image[k]
  {
    hide Slot, ImgEnd;
    WriteInside(shots, schedule, Write(i, k));
    var n := |schedule| - 1;
    var w := schedule[n];
    WriteInside(shots, schedule, w);
    if Slot(shots, w.shot) + w.k == Slot(shots, i) + k {
      SamePosition(shots, w.shot, w.k, i, k);
    } else {
      assert Write(i, k) in schedule[..n];
      PlayedByte(block, shots, schedule[..n], i, k);
    }
  }

  /** Byte `k` of shot `i`'s image goes to position `p`. */
  ghost predicate GoesTo(shots: seq<Shot>, i: nat, k: nat, p: nat) {
    i < |shots| && k < |shots[i].image| && p == Slot(shots, i) + k
  }

  lemma {:induction false} UntouchedByte(block: seq<Byte>, shots: seq<Shot>, schedule: seq<Write>, p: nat)
    requires Scheduled(shots, schedule) && ImgEnd(shots) <= |block| && p < |block|
    requires forall i, k :: !GoesTo(shots, i, k, p)
    ensures Play(block, shots, schedule)[p] == block[p]
  {
    hide Slot, ImgEnd;
    if schedule != [] {
      var w := schedule[|schedule| - 1];
      UntouchedByte(block, shots, schedule[..|schedule| - 1], p);
      WriteInside(shots, schedule, w);
      assert !GoesTo(shots, w.shot, w.k, p);
    }
  }

  /** Whatever the interleaving, a finished fan-out leaves the same block. */
  lemma {:induction false} ScheduleDoesNotMatter(block: seq<Byte>, shots: seq<Shot>, a: seq<Write>, b: seq<Write>)
    requires Covers(shots, a) && Covers(shots, b) && ImgEnd(shots) <= |block|
    ensures Play(block, shots, a) == Play(block, shots, b)
  {
    hide Slot, ImgEnd, Play;
    forall p | 0 <= p < |block| ensures Play(block, shots, a)[p] == Play(block, shots, b)[p] {
      if i: nat, k: nat :| GoesTo(shots, i, k, p) {
        PlayedByte(block, shots, a, i, k);
        PlayedByte(block, shots, b, i, k);
      } else {
        UntouchedByte(block, shots, a, p);
        UntouchedByte(block, shots, b, p);
      }
    }
  }

  lemma {:induction false} ImageInPlace(block: seq<Byte>, shots: seq<Shot>, schedule: seq<Write>, i: nat)
    requires Covers(shots, schedule) && ImgEnd(shots) <= |block| && i < |shots|
    ensures Holds(Play(block, shots, schedule), Slot(shots, i), shots[i].image)
  {
    hide Slot, ImgEnd, Play;
    SlotEnd(shots, i);
    forall k | 0 <= k < |shots[i].image| ensures shots[i].image[k] == Play(block, shots, schedule)[Slot(shots, i) + k] {
      PlayedByte(block, shots, schedule, i, k);
    }
  }

  lemma {:induction false} SlotEnd(shots: seq<Shot>, i: nat)
    requires i < |shots|
    ensures Slot(shots, i) + |shots[i].image| <= ImgEnd(shots)
  {
    SlotStep(shots, i);
  }

  /** After the fan-out the images lie back to back from the end of the region on. */
  lemma {:induction false} ImagesInPlace(block: seq<Byte>, shots: seq<Shot>, schedule: seq<Write>)
    requires Covers(shots, schedule) && ImgEnd(shots) <= |block|
    ensures Holds(Play(block, shots, schedule), HEADER_SIZE + RegionSize(PairedNames(shots)), Data(ImgParts(shots)))
  {
    hide Play, Holds, Sum, PartSizes, Data, RegionSize, PairedNames, Scheduled, ImgName;
    var start, b, parts := HEADER_SIZE + RegionSize(PairedNames(shots)), Play(block, shots, schedule), ImgParts(shots);
    forall i | 0 <= i < |parts| ensures Holds(b, start + |Data(parts[..i])|, parts[i].data) {
      OffsetOfPart(parts, i);
      ImageInPlace(block, shots, schedule, i);
    }
    DataFromParts(parts, b, start);
  }

  method FanOut(block: array<Byte>, shots: seq<Shot>, schedule: seq<Write>)
    requires Scheduled(shots, schedule) && ImgEnd(shots) <= block.Length
    modifies block
    ensures block[..] == Play(old(block[..]), shots, schedule)
  {
    var n := 0;
    assert schedule[..0] == [];
    while n < |schedule|
      invariant 0 <= n <= |schedule|
      invariant Scheduled(shots, schedule[..n])
      invariant block[..] == Play(old(block[..]), shots, schedule[..n])
    {
      var w := schedule[n];
      WriteInside(shots, schedule, w);
      assert schedule[..n + 1][..n] == schedule[..n];
      block[Slot(shots, w.shot) + w.k] := shots[w.shot].image[w.k];
      n := n + 1;
    }
    assert schedule[..n] == schedule;
  }

  // ---------------------------------------------------------------- the parent

  lemma {:induction false} DataConcat(a: seq<Part>, b: seq<Part>)
    ensures Data(a + b) == Data(a) + Data(b)
  {
    if b == [] {
      assert a + b == a;
    } else {
      DataConcat(a, b[..|b| - 1]);
      assert (a + b)[..|a + b| - 1] == a + b[..|b| - 1];
    }
  }

  lemma {:induction false} MaxEndPlaced(names: seq<Name>, sizes: seq<nat>)
    requires |names| == |sizes| && names != []
    ensures MaxEnd(Placed(names, sizes)) == Sum(sizes)
  {
    var ds, n := Placed(names, sizes), |names| - 1;
    PlacedInside(names, sizes);
    MaxEndCovers(ds);
    SumStep(sizes, n);
    assert sizes[..n + 1] == sizes;
    assert ds[n].offset + ds[n].size == Sum(sizes);
  }

  /** The offsets the dicts hold, cursor by cursor: images from 0 on, metadata after the last image. */
  ghost predicate PinsPlaced(shots: seq<Shot>, pins: map<Name, nat>, n: nat)
    requires n <= 2 * |shots|
  {
    forall i :: 0 <= i < n ==>
      Names(WireParts(shots))[i] in pins && pins[Names(WireParts(shots))[i]] == Sum(PartSizes(WireParts(shots))[..i])
  }

  lemma {:induction false} PinNext(shots: seq<Shot>, pins: map<Name, nat>, n: nat)
    requires DistinctSensors(shots) && n < 2 * |shots| && PinsPlaced(shots, pins, n)
    ensures PinsPlaced(shots, pins[Names(WireParts(shots))[n] := Sum(PartSizes(WireParts(shots))[..n])], n + 1)
    ensures Sum(PartSizes(WireParts(shots))[..n + 1])
         == Sum(PartSizes(WireParts(shots))[..n]) + |WireParts(shots)[n].data|
  {
    WirePartsDistinct(shots);
    hide Sum, WireParts, DistinctSensors;
    var parts := WireParts(shots);
    SumStep(PartSizes(parts), n);
    assert forall i :: 0 <= i < n ==> parts[i].name != parts[n].name;
  }

  lemma {:induction false} WirePartAt(shots: seq<Shot>, i: nat)
    requires i < |shots|
    ensures WireParts(shots)[i] == Part(ImgName(shots[i].sensor), shots[i].image)
    ensures WireParts(shots)[|shots| + i] == Part(MetaName(shots[i].sensor), shots[i].meta)
  {
  }

  lemma {:induction false} PinStart(shots: seq<Shot>)
    ensures PinsPlaced(shots, map[], 0) && Sum(PartSizes(WireParts(shots))[..0]) == 0
  {
  }

  method PinShots(shots: seq<Shot>) returns (pins: map<Name, nat>)
    requires DistinctSensors(shots)
    ensures PinsPlaced(shots, pins, 2 * |shots|)
  {
    hide Sum, PinsPlaced, ImgName, MetaName, WireParts, DistinctSensors, PartSizes;
    pins := map[];
    PinStart(shots);
    var cursor, i := 0, 0;
    while i < |shots|
      invariant 0 <= i <= |shots|
      invariant PinsPlaced(shots, pins, i) && cursor == Sum(PartSizes(WireParts(shots))[..i])
    {
      WirePartAt(shots, i);
      PinNext(shots, pins, i);
      pins := pins[ImgName(shots[i].sensor) := cursor];
      cursor := cursor + |shots[i].image|;
      i := i + 1;
    }
    var j := 0;
    while j < |shots|
      invariant 0 <= j <= |shots|
      invariant PinsPlaced(shots, pins, |shots| + j) && cursor == Sum(PartSizes(WireParts(shots))[..|shots| + j])
    {
      WirePartAt(shots, j);
      PinNext(shots, pins, |shots| + j);
      pins := pins[MetaName(shots[j].sensor) := cursor];
      cursor := cursor + |shots[j].meta|;
      j := j + 1;
    }
  }

  /** The framing the parent ends up with, against what the copying packer writes. */
  lemma {:induction false} FramingAgrees(shots: seq<Shot>, pins: map<Name, nat>)
    requires shots != [] && PinsPlaced(shots, pins, 2 * |shots|)
    ensures forall n :: n in Names(WireParts(shots)) ==> n in pins
    ensures BuildFraming(Names(WireParts(shots)), PartSizes(WireParts(shots)), At(pins))
         == FramingOf(Placed(Names(WireParts(shots)), PartSizes(WireParts(shots))), Sum(PartSizes(WireParts(shots))))
  {
    var names, sizes := Names(WireParts(shots)), PartSizes(WireParts(shots));
    MaxEndPlaced(names, sizes);
    hide Sum, WireParts, MaxEnd, FramingOf;
    forall n | n in names ensures n in pins {
      var i :| 0 <= i < |names| && names[i] == n;
    }
    assert Pinned(names, sizes, pins) == Placed(names, sizes);
  }

  /** `f` is the framing of the exposure's parts, one directly after the other. */
  ghost predicate FinalFraming(shots: seq<Shot>, f: Framing) {
    FramingOf(Placed(Names(WireParts(shots)), PartSizes(WireParts(shots))), Sum(PartSizes(WireParts(shots)))) == Ok(f)
  }

  /** The worker slots, computed before the metadata exists, are the offsets the framing declares:
      its region ends exactly where the slots start. */
  lemma {:induction false} SlotsAreFramed(shots: seq<Shot>, f: Framing)
    requires DistinctSensors(shots)
    requires FinalFraming(shots, f)
    ensures |f.bytes| == HEADER_SIZE + RegionSize(PairedNames(shots))
    ensures forall i :: 0 <= i < |shots| ==>
              ImgName(shots[i].sensor) in f.absolute && f.absolute[ImgName(shots[i].sensor)] == Slot(shots, i)
    ensures f.total == ImgEnd(shots) + Sum(PartSizes(MetaParts(shots)))
  {
    RegionOfFraming(shots, f);
    WireSizes(shots);
    forall i | 0 <= i < |shots|
      ensures ImgName(shots[i].sensor) in f.absolute && f.absolute[ImgName(shots[i].sensor)] == Slot(shots, i)
    {
      AbsoluteOf(shots, f, i);
      assert PartSizes(WireParts(shots))[..i] == PartSizes(ImgParts(shots))[..i];
    }
  }

  lemma {:induction false} AbsoluteOf(shots: seq<Shot>, f: Framing, i: nat)
    requires DistinctSensors(shots) && i < 2 * |shots|
    requires FinalFraming(shots, f)
    ensures WireParts(shots)[i].name in f.absolute
    ensures f.absolute[WireParts(shots)[i].name] == |f.bytes| + Sum(PartSizes(WireParts(shots))[..i])
  {
    WirePartsDistinct(shots);
    hide Sum, WireParts, DistinctSensors, Frame;
    AbsoluteAt(Placed(Names(WireParts(shots)), PartSizes(WireParts(shots))), |f.bytes|, i);
  }

  lemma {:induction false} RegionOfFraming(shots: seq<Shot>, f: Framing)
    requires FinalFraming(shots, f)
    ensures |f.bytes| == HEADER_SIZE + RegionSize(PairedNames(shots))
  {
    hide Sum, WireParts;
    var parts := WireParts(shots);
    RegionSizeOfDescs(Placed(Names(parts), PartSizes(parts)), Names(parts));
    RegionSizeOrder(shots);
  }

  lemma {:induction false} SumConcat(a: seq<nat>, b: seq<nat>)
    ensures Sum(a + b) == Sum(a) + Sum(b)
  {
    if b == [] {
      assert a + b == a;
    } else {
      SumConcat(a, b[..|b| - 1]);
      assert (a + b)[..|a + b| - 1] == a + b[..|b| - 1];
    }
  }

  lemma {:induction false} WireSizes(shots: seq<Shot>)
    ensures PartSizes(WireParts(shots)) == PartSizes(ImgParts(shots)) + PartSizes(MetaParts(shots))
    ensures Sum(PartSizes(WireParts(shots))) == Sum(PartSizes(ImgParts(shots))) + Sum(PartSizes(MetaParts(shots)))
  {
    assert PartSizes(WireParts(shots)) == PartSizes(ImgParts(shots)) + PartSizes(MetaParts(shots));
    SumConcat(PartSizes(ImgParts(shots)), PartSizes(MetaParts(shots)));
  }

  lemma {:induction false} WireSizesAt(shots: seq<Shot>, j: nat)
    requires j <= |shots|
    ensures Sum(PartSizes(WireParts(shots))[..|shots| + j])
         == Sum(PartSizes(ImgParts(shots))) + |Data(MetaParts(shots)[..j])|
  {
    WireSizes(shots);
    OffsetOfPart(MetaParts(shots), j);
    var a, b := PartSizes(ImgParts(shots)), PartSizes(MetaParts(shots));
    assert (a + b)[..|shots| + j] == a + b[..j];
    SumConcat(a, b[..j]);
  }

  datatype Mount = NoMount | Free(bytes: nat)

  /** What the encoder finds around it: none of this is the encoder's to decide. */
  datatype Environment = Environment(serialForced: bool, clamped: bool, mount: Mount, creates: bool, workersReturn: bool)

  datatype Why = SerialForced | NoDetectors | Unclamped | MountTooSmall | NoBlock | WorkersFailed | MetadataTooLong

  datatype Encoded = Blob(block: array<Byte>, total: nat) | Unavailable(why: Why) | Failed(error: Error)

  function BlockSize(shots: seq<Shot>): nat {
    ImgEnd(shots) + META_ALLOWANCE
  }

  ghost predicate Able(env: Environment, shots: seq<Shot>) {
    && !env.serialForced && shots != [] && env.clamped
    && (env.mount.Free? ==> BlockSize(shots) <= env.mount.bytes)
    && env.creates && env.workersReturn
  }

  /** The reason given is there, and none that is looked at before it is. */
  ghost predicate Hinders(why: Why, env: Environment, shots: seq<Shot>) {
    && (why.SerialForced? <==> env.serialForced)
    && (why.NoDetectors? <==> !env.serialForced && shots == [])
    && (why.Unclamped? <==> !env.serialForced && shots != [] && !env.clamped)
    && (why.MountTooSmall? ==> env.mount.Free? && env.mount.bytes < BlockSize(shots))
    && (why.NoBlock? || why.WorkersFailed? || why.MetadataTooLong? ==> env.mount.Free? ==> BlockSize(shots) <= env.mount.bytes)
    && (why.NoBlock? ==> !env.creates)
    && (why.WorkersFailed? ==> env.creates && !env.workersReturn)
    && (why.MetadataTooLong? ==> Able(env, shots))
  }

  lemma {:induction false} PairedNamesAreWireNames(shots: seq<Shot>, i: nat)
    requires i < 2 * |shots|
    ensures exists j :: 0 <= j < 2 * |shots| && WireParts(shots)[j].name == PairedNames(shots)[i]
  {
    hide ImgName, MetaName;
    var n := |shots| - 1;
    var last := shots[n].sensor;
    if i < 2 * n {
      PairedNamesAreWireNames(shots[..n], i);
      var j :| 0 <= j < 2 * n && WireParts(shots[..n])[j].name == PairedNames(shots[..n])[i];
      assert WireParts(shots)[if j < n then j else j + 1].name == PairedNames(shots)[i];
    } else if i == 2 * n {
      assert WireParts(shots)[n].name == PairedNames(shots)[i];
    } else {
      assert WireParts(shots)[2 * n + 1].name == PairedNames(shots)[i];
    }
  }

  /** A name the region cannot be sized for is one the copying packer refuses too. */
  lemma {:induction false} RegionErrorBlocksPack(shots: seq<Shot>)
    requires DescriptorRegion(PairedNames(shots)).Err?
    ensures PackBlob(WireParts(shots)).Err?
  {
    hide PairedNames, PackBlob, WireParts, DescriptorRegion;
    PackBlobOk(WireParts(shots));
    DescriptorRegionOk(PairedNames(shots));
    var i :| 0 <= i < |PairedNames(shots)| && NameError(PairedNames(shots)[i]).Err?;
    PairedNamesAreWireNames(shots, i);
  }

  /** What the framing, the images and the metadata add up to. */
  lemma {:induction false} PackFromFraming(shots: seq<Shot>, f: Framing)
    requires FinalFraming(shots, f)
    ensures PackBlob(WireParts(shots)) == Ok(f.bytes + Data(ImgParts(shots)) + Data(MetaParts(shots)))
    ensures f.total == |f.bytes| + |Data(ImgParts(shots))| + |Data(MetaParts(shots))|
  {
    DataConcat(ImgParts(shots), MetaParts(shots));
    DataLength(WireParts(shots));
    hide Data, Frame, Sum, AbsoluteOffsets;
    assert f.bytes + (Data(ImgParts(shots)) + Data(MetaParts(shots))) == f.bytes + Data(ImgParts(shots)) + Data(MetaParts(shots));
  }

  /** The block has room for the packed blob exactly when the metadata keeps to four mebibytes for each of eight
      sensors, all told, whatever the images measure. */
  lemma {:induction false} RoomWhen(shots: seq<Shot>)
    requires PackBlob(WireParts(shots)).Ok?
    ensures |PackBlob(WireParts(shots)).value| <= BlockSize(shots) <==> |Data(MetaParts(shots))| <= 8 * 4 * 1024 * 1024
  {
    hide Data, Frame, Sum, AbsoluteOffsets, WireParts, MetaParts, ImgParts, RegionSize, PairedNames;
    var parts := WireParts(shots);
    var f := FramingOf(Placed(Names(parts), PartSizes(parts)), Sum(PartSizes(parts))).value;
    PackFromFraming(shots, f);
    RegionOfFraming(shots, f);
    DataLength(ImgParts(shots));
  }

  /** Metadata goes in at the offsets the framing reports, directly after the last image. */
  method WriteMetas(block: array<Byte>, shots: seq<Shot>, f: Framing)
    requires DistinctSensors(shots) && FinalFraming(shots, f)
    requires f.total <= block.Length && ImgEnd(shots) <= block.Length
    modifies block
    ensures block[..f.total] == old(block[..ImgEnd(shots)]) + Data(MetaParts(shots))
  {
    hide ImgEnd, FinalFraming, DistinctSensors, MetaName, MetaParts, Data;
    var j := 0;
    NoMetas(shots);
    MetaEnd(shots, f, |shots|);
    while j < |shots|
      invariant 0 <= j <= |shots|
      invariant ImgEnd(shots) + |Data(MetaParts(shots)[..j])| <= block.Length
      invariant block[..ImgEnd(shots) + |Data(MetaParts(shots)[..j])|] == old(block[..ImgEnd(shots)]) + Data(MetaParts(shots)[..j])
    {
      MetaStart(shots, f, j);
      MetaEnd(shots, f, j + 1);
      MetaNext(shots, j);
      WriteAt(block, f.absolute[MetaName(shots[j].sensor)], shots[j].meta);
      j := j + 1;
    }
  }

  lemma {:induction false} NoMetas(shots: seq<Shot>)
    ensures Data(MetaParts(shots)[..0]) == [] && MetaParts(shots)[..|shots|] == MetaParts(shots)
  {
  }

  lemma {:induction false} MetaNext(shots: seq<Shot>, j: nat)
    requires j < |shots|
    ensures Data(MetaParts(shots)[..j + 1]) == Data(MetaParts(shots)[..j]) + shots[j].meta
  {
    assert MetaParts(shots)[..j + 1][..j] == MetaParts(shots)[..j];
  }

  lemma {:induction false} MetaStart(shots: seq<Shot>, f: Framing, j: nat)
    requires DistinctSensors(shots) && j < |shots| && FinalFraming(shots, f)
    ensures MetaName(shots[j].sensor) in f.absolute
    ensures f.absolute[MetaName(shots[j].sensor)] == ImgEnd(shots) + |Data(MetaParts(shots)[..j])|
  {
    hide WireParts, MetaName, FinalFraming, DistinctSensors, RegionSize, Sum, Data, PartSizes, ImgParts, PairedNames;
    WirePartAt(shots, j);
    AbsoluteOf(shots, f, |shots| + j);
    RegionOfFraming(shots, f);
    WireSizesAt(shots, j);
  }

  lemma {:induction false} MetaEnd(shots: seq<Shot>, f: Framing, j: nat)
    requires j <= |shots|
    requires FinalFraming(shots, f)
    ensures ImgEnd(shots) + |Data(MetaParts(shots)[..j])| <= f.total
    ensures j == |shots| ==> ImgEnd(shots) + |Data(MetaParts(shots)[..j])| == f.total
  {
    RegionOfFraming(shots, f);
    WireSizes(shots);
    OffsetOfPart(MetaParts(shots), j);
    var sizes := PartSizes(MetaParts(shots));
    SumMonotone(sizes, j, |sizes|);
    assert sizes[..|sizes|] == sizes;
  }

  /** The parent's part, once the workers have returned. */
  method FinishBlob(block: array<Byte>, shots: seq<Shot>) returns (r: Encoded)
    requires DistinctSensors(shots) && shots != [] && block.Length == BlockSize(shots)
    requires Holds(block[..], HEADER_SIZE + RegionSize(PairedNames(shots)), Data(ImgParts(shots)))
    modifies block
    ensures r.Blob? <==> PackBlob(WireParts(shots)).Ok? && |PackBlob(WireParts(shots)).value| <= BlockSize(shots)
    ensures r.Blob? ==> r.block == block && r.total <= block.Length && PackBlob(WireParts(shots)) == Ok(block[..r.total])
    ensures r.Failed? <==> PackBlob(WireParts(shots)).Err?
    ensures r.Failed? ==> PackBlob(WireParts(shots)) == Err(r.error)
    ensures r.Unavailable? ==> r.why == MetadataTooLong
  {
    var pins := PinShots(shots);
    FramingAgrees(shots, pins);
    WirePartsDistinct(shots);
    var parts := WireParts(shots);
    hide WireParts, PinsPlaced, Sum, RegionSize, PairedNames, Holds, BuildFraming;
    var framing := BuildFramingLoop(Names(parts), PartSizes(parts), At(pins));
    if framing.Err? {
      return Failed(framing.error);
    }
    PackFromFraming(shots, framing.value);
    if framing.value.total > block.Length {
      return Unavailable(MetadataTooLong);
    }
    WriteFraming(block, shots, framing.value);
    r := Blob(block, framing.value.total);
  }

  method WriteFraming(block: array<Byte>, shots: seq<Shot>, f: Framing)
    requires DistinctSensors(shots) && FinalFraming(shots, f) && f.total <= block.Length == BlockSize(shots)
    requires Holds(block[..], HEADER_SIZE + RegionSize(PairedNames(shots)), Data(ImgParts(shots)))
    modifies block
    ensures block[..f.total] == f.bytes + Data(ImgParts(shots)) + Data(MetaParts(shots))
  {
    hide FinalFraming, DistinctSensors, RegionSize, PairedNames, Holds, Data, Sum;
    RegionOfFraming(shots, f);
    DataLength(ImgParts(shots));
    ghost var images := Data(ImgParts(shots));
    HoldsSlice(block[..], |f.bytes|, images);
    WriteAt(block, 0, f.bytes);
    FramedImages(block, f.bytes, images, old(block[..]));
    WriteMetas(block, shots, f);
  }

  lemma {:induction false} FramedImages(block: array<Byte>, frame: seq<Byte>, images: seq<Byte>, before: seq<Byte>)
    requires |frame| + |images| <= block.Length == |before|
    requires before[|frame|..|frame| + |images|] == images
    requires block[..|frame|] == frame && block[|frame|..] == before[|frame|..]
    ensures block[..|frame| + |images|] == frame + images
  {
    assert block[|frame|..|frame| + |images|] == before[|frame|..][..|images|];
  }

  /** The parallel encoder, for any schedule of its workers. It returns a block exactly when the
      environment lets it, the copying packer accepts the same parts and the metadata fits the
      allowance; the block then starts with the copying packer's bytes. It fails outright exactly when it
      gets as far as a name or a framing that the copying packer refuses too, and is otherwise unavailable. */
  method BuildPartsParallel(shots: seq<Shot>, schedule: seq<Write>, env: Environment) returns (r: Encoded)
    requires DistinctSensors(shots) && Covers(shots, schedule)
    ensures r.Blob? <==> Able(env, shots) && PackBlob(WireParts(shots)).Ok?
                         && |PackBlob(WireParts(shots)).value| <= BlockSize(shots)
    ensures r.Blob? ==> fresh(r.block) && r.total <= r.block.Length && PackBlob(WireParts(shots)) == Ok(r.block[..r.total])
    ensures r.Failed? ==> PackBlob(WireParts(shots)).Err?
    ensures r.Failed? <==>
              && !env.serialForced && shots != [] && env.clamped
              && (DescriptorRegion(PairedNames(shots)).Err? || (Able(env, shots) && PackBlob(WireParts(shots)).Err?))
    ensures r.Unavailable? ==> Hinders(r.why, env, shots)
  {
    hide PackBlob, WireParts, RegionSize, PairedNames, Sum, DistinctSensors, DescriptorRegion;
    if env.serialForced {
      return Unavailable(SerialForced);
    }
    if shots == [] {
      return Unavailable(NoDetectors);
    }
    if !env.clamped {
      return Unavailable(Unclamped);
    }
    var region := DescriptorRegionSize(PairedNames(shots));
    if region.Err? {
      RegionErrorBlocksPack(shots);
      return Failed(region.error);
    }
    DescriptorRegionOk(PairedNames(shots));
    var blockSize := HEADER_SIZE + region.value + Sum(PartSizes(ImgParts(shots))) + META_ALLOWANCE;
    if env.mount.Free? && env.mount.bytes < blockSize {
      return Unavailable(MountTooSmall);
    }
    if !env.creates {
      return Unavailable(NoBlock);
    }
    var block := new Byte[blockSize];
    if !env.workersReturn {
      return Unavailable(WorkersFailed);
    }
    ghost var fresh0 := block[..];
    FanOut(block, shots, schedule);
    ImagesInPlace(fresh0, shots, schedule);
    r := FinishBlob(block, shots);
  }

  ghost function PairsOf(shots: seq<Shot>): Sensors
    requires DistinctSensors(shots)
  {
    map i | 0 <= i < |shots| :: shots[i].sensor := Pair(shots[i].image, shots[i].meta)
  }

  lemma {:induction false} WireLookup(shots: seq<Shot>, i: nat)
    requires DistinctSensors(shots) && i < |shots|
    ensures var p := ToMap(WireParts(shots));
            && ImgName(shots[i].sensor) in p && p[ImgName(shots[i].sensor)] == shots[i].image
            && MetaName(shots[i].sensor) in p && p[MetaName(shots[i].sensor)] == shots[i].meta
  {
    WirePartsDistinct(shots);
    WirePartAt(shots, i);
    hide WireParts, DistinctSensors, ImgName, MetaName, ToMap;
    ToMapLookup(WireParts(shots));
    assert WireParts(shots)[i].name in ToMap(WireParts(shots));
    assert WireParts(shots)[|shots| + i].name in ToMap(WireParts(shots));
  }

  lemma {:induction false} WireNames(shots: seq<Shot>, n: Name) returns (i: nat)
    requires DistinctSensors(shots) && n in ToMap(WireParts(shots))
    ensures i < |shots| && (n == ImgName(shots[i].sensor) || n == MetaName(shots[i].sensor))
  {
    WirePartsDistinct(shots);
    ToMapLookup(WireParts(shots));
    hide ToMap, ImgName, MetaName;
    var j :| 0 <= j < 2 * |shots| && WireParts(shots)[j].name == n;
    i := if j < |shots| then j else j - |shots|;
  }

  lemma {:induction false} WireSuffixed(shots: seq<Shot>)
    requires DistinctSensors(shots)
    ensures AllSuffixed(ToMap(WireParts(shots)))
  {
    NamingFacts();
    hide ImgName, MetaName, EndsWith, Stem, ToMap, WireParts;
    forall n | n in ToMap(WireParts(shots)) ensures HasSuffix(n) {
      var i := WireNames(shots, n);
    }
  }

  lemma {:induction false} WireSensor(shots: seq<Shot>, s: Sensor) returns (i: nat)
    requires DistinctSensors(shots) && Named(ToMap(WireParts(shots)), s)
    ensures i < |shots| && shots[i].sensor == s
  {
    NamingFacts();
    hide ImgName, MetaName, ToMap, WireParts;
    i := WireNames(shots, if ImgName(s) in ToMap(WireParts(shots)) then ImgName(s) else MetaName(s));
  }

  lemma {:induction false} PairOfShot(shots: seq<Shot>, i: nat)
    requires DistinctSensors(shots) && i < |shots|
    ensures PairOf(ToMap(WireParts(shots)), PairsOf(shots), shots[i].sensor)
  {
    hide ImgName, MetaName, ToMap, WireParts;
    WireLookup(shots, i);
  }

  /** The part map of an exposure regroups to each sensor's own image and metadata. */
  lemma {:induction false} WireRegroups(shots: seq<Shot>)
    requires DistinctSensors(shots)
    ensures Regroups(ToMap(WireParts(shots)), PairsOf(shots))
  {
    hide ToMap, WireParts, AllSuffixed, Named, PairOf, Complete;
    var p := ToMap(WireParts(shots));
    WireSuffixed(shots);
    forall s | s in PairsOf(shots) ensures PairOf(p, PairsOf(shots), s) {
      var i :| 0 <= i < |shots| && shots[i].sensor == s;
      PairOfShot(shots, i);
    }
    forall s | Named(p, s) ensures PairOf(p, PairsOf(shots), s) {
      var i := WireSensor(shots, s);
      PairOfShot(shots, i);
    }
  }

  /** Whoever receives the block decodes exactly the shots: the same part map as packing the same
      parts serially in any order, which regroups to each sensor's image and metadata. */
  lemma {:induction false} EncodedBlockDecodes(shots: seq<Shot>, blob: seq<Byte>, serial: seq<Part>, serialBlob: seq<Byte>)
    requires DistinctSensors(shots) && PackBlob(WireParts(shots)) == Ok(blob)
    requires PackBlob(serial) == Ok(serialBlob) && ToMap(serial) == ToMap(WireParts(shots))
    ensures UnpackBlob(blob) == UnpackBlob(serialBlob)
    ensures UnpackBlob(blob).Ok? && Regroups(UnpackBlob(blob).value, PairsOf(shots))
  {
    hide PackBlob, UnpackBlob, ToMap, WireParts, Regroups, PairsOf, DistinctSensors;
    RoundTrip(WireParts(shots), blob, []);
    RoundTrip(serial, serialBlob, []);
    assert blob + [] == blob && serialBlob + [] == serialBlob;
    WireRegroups(shots);
  }
}
