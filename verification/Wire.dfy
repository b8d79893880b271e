/** The push blob: framing, copying packer, in-place framing, and the zero-copy parser. */
module Wire {
  import opened Bytes
  import opened Utf8

  /** A part name is modelled by its encoded form; the encoder is then the identity on the byte
      strings that are UTF-8 and fails on the others (names that hold a lone surrogate). */
  type Name = seq<Byte>

  datatype Reason =
    | HeaderTooShort | BadMagic | BadVersion
    | NameTooLong | NoOffset
    | TruncatedDescriptor | BlobTooShort | PartOutsidePayload
    | UnknownSuffix | MissingHalf

  /** What the protocol functions raise: their own error, a codec error on a name, `struct.error`
      on a field that does not fit, and the `ValueError` of `max` over nothing. */
  datatype Error = ProtocolError(reason: Reason) | UnicodeError | StructError | EmptyMax

  datatype Result<+T> = Ok(value: T) | Err(error: Error)

  const MAGIC: seq<Byte> := [0x44, 0x57, 0x46, 0x53]
  const VERSION: nat := 2
  const HEADER_SIZE: nat := 16
  const DESC_FIXED_SIZE: nat := 17

  /** `block` holds the bytes `s` from position `pos` on. */
  ghost predicate Holds(block: seq<Byte>, pos: nat, s: seq<Byte>) {
    pos + |s| <= |block| && forall k :: 0 <= k < |s| ==> s[k] == block[pos + k]
  }

  datatype Header = Header(partCount: nat, payloadLength: nat)
  datatype Desc = Desc(name: Name, offset: nat, size: nat)
  datatype PartLayout = PartLayout(name: Name, offset: nat, byteCount: nat)
  datatype Part = Part(name: Name, data: seq<Byte>)

  // ---------------------------------------------------------------- writing frames

  function DescError(d: Desc): Result<()> {
    if !ValidUtf8(d.name) then Err(UnicodeError)
    else if |d.name| > 255 then Err(ProtocolError(NameTooLong))
    else if d.offset >= U64_LIMIT || d.size >= U64_LIMIT then Err(StructError)
    else Ok(())
  }

  function DescBytes(d: Desc): (s: seq<Byte>)
    ensures |s| == DESC_FIXED_SIZE + |d.name|
  {
    BigEndian(|d.name|, 1) + BigEndian(d.offset, 8) + BigEndian(d.size, 8) + d.name
  }

  /** The descriptor region for `ds`, or the error of the first descriptor that cannot be packed. */
  function DescsBytes(ds: seq<Desc>): Result<seq<Byte>> {
    if ds == [] then Ok([]) else
      match DescsBytes(ds[..|ds| - 1])
      case Err(e) => Err(e)
      case Ok(front) =>
        match DescError(ds[|ds| - 1])
        case Err(e) => Err(e)
        case Ok(_) => Ok(front + DescBytes(ds[|ds| - 1]))
  }

  function HeaderBytes(h: Header): (s: seq<Byte>)
    ensures |s| == HEADER_SIZE
  {
    MAGIC + BigEndian(VERSION, 2) + BigEndian(h.partCount, 2) + BigEndian(h.payloadLength, 8)
  }

  /** Header and descriptors of a blob whose parts are `ds`. */
  function Frame(ds: seq<Desc>, payload: nat): Result<seq<Byte>> {
    match DescsBytes(ds)
    case Err(e) => Err(e)
    case Ok(region) =>
      if |ds| >= U16_LIMIT || payload >= U64_LIMIT then Err(StructError)
      else Ok(HeaderBytes(Header(|ds|, payload)) + region)
  }

  /** Exactly when a frame can be written. */
  ghost predicate Packable(ds: seq<Desc>, payload: nat) {
    && (forall i :: 0 <= i < |ds| ==> DescError(ds[i]).Ok?)
    && |ds| < U16_LIMIT && payload < U64_LIMIT
  }

  lemma {:induction false} DescsBytesOk(ds: seq<Desc>)
    ensures DescsBytes(ds).Ok? <==> forall i :: 0 <= i < |ds| ==> DescError(ds[i]).Ok?
  {
    if ds != [] {
      DescsBytesOk(ds[..|ds| - 1]);
      assert forall i :: 0 <= i < |ds| - 1 ==> ds[..|ds| - 1][i] == ds[i];
    }
  }

  lemma {:induction false} FrameOk(ds: seq<Desc>, payload: nat)
    ensures Frame(ds, payload).Ok? <==> Packable(ds, payload)
  {
    DescsBytesOk(ds);
  }

  // ---------------------------------------------------------------- part order and layout

  function Sum(sizes: seq<nat>): nat {
    if sizes == [] then 0 else Sum(sizes[..|sizes| - 1]) + sizes[|sizes| - 1]
  }

  lemma {:induction false} SumMonotone(sizes: seq<nat>, i: nat, j: nat)
    requires i <= j <= |sizes|
    ensures Sum(sizes[..i]) <= Sum(sizes[..j])
  {
    if i < j {
      SumMonotone(sizes, i, j - 1);
      assert sizes[..j][..j - 1] == sizes[..j - 1];
    }
  }

  lemma {:induction false} SumStep(sizes: seq<nat>, i: nat)
    requires i < |sizes|
    ensures Sum(sizes[..i + 1]) == Sum(sizes[..i]) + sizes[i]
  {
    assert sizes[..i + 1][..i] == sizes[..i];
  }

  function PartSizes(parts: seq<Part>): (s: seq<nat>)
    ensures |s| == |parts|
  {
    seq(|parts|, i requires 0 <= i < |parts| => |parts[i].data|)
  }

  /** Parts of the given names and sizes, one directly after the other. */
  function Placed(names: seq<Name>, sizes: seq<nat>): (ds: seq<Desc>)
    requires |names| == |sizes|
    ensures |ds| == |names|
  {
    seq(|names|, i requires 0 <= i < |names| => Desc(names[i], Sum(sizes[..i]), sizes[i]))
  }

  function Names(parts: seq<Part>): (s: seq<Name>)
    ensures |s| == |parts|
  {
    seq(|parts|, i requires 0 <= i < |parts| => parts[i].name)
  }

  function Data(parts: seq<Part>): seq<Byte> {
    if parts == [] then [] else Data(parts[..|parts| - 1]) + parts[|parts| - 1].data
  }

  /** A Python dict, read as the sequence of its items. */
  ghost predicate Distinct(parts: seq<Part>) {
    forall i, j :: 0 <= i < j < |parts| ==> parts[i].name != parts[j].name
  }

  function ToMap(parts: seq<Part>): map<Name, seq<Byte>> {
    if parts == [] then map[]
    else ToMap(parts[..|parts| - 1])[parts[|parts| - 1].name := parts[|parts| - 1].data]
  }

  lemma {:induction false} ToMapLookup(parts: seq<Part>)
    requires Distinct(parts)
    ensures forall n :: n in ToMap(parts) <==> exists i :: 0 <= i < |parts| && parts[i].name == n
    ensures forall i :: 0 <= i < |parts| ==> parts[i].name in ToMap(parts) && ToMap(parts)[parts[i].name] == parts[i].data
  {
    if parts != [] {
      var front, last := parts[..|parts| - 1], parts[|parts| - 1];
      ToMapLookup(front);
      forall n ensures n in ToMap(parts) <==> exists i :: 0 <= i < |parts| && parts[i].name == n {
        if n in ToMap(front) {
          var i :| 0 <= i < |front| && front[i].name == n;
          assert parts[i].name == n;
        }
        if i :| 0 <= i < |parts| && parts[i].name == n {
          assert i < |front| ==> front[i].name == n;
        }
      }
      forall i | 0 <= i < |parts|
        ensures parts[i].name in ToMap(parts) && ToMap(parts)[parts[i].name] == parts[i].data
      {
        if i < |front| {
          assert front[i] == parts[i];
        }
      }
    }
  }

  // ---------------------------------------------------------------- the packers

  function PackBlob(parts: seq<Part>): Result<seq<Byte>> {
    match Frame(Placed(Names(parts), PartSizes(parts)), Sum(PartSizes(parts)))
    case Err(e) => Err(e)
    case Ok(frame) => Ok(frame + Data(parts))
  }

  /** The copying packer: descriptors with a running offset, then the bytes joined. */
  method PackBlobLoop(parts: seq<Part>) returns (r: Result<seq<Byte>>)
    ensures r == PackBlob(parts)
  {
    ghost var ds := Placed(Names(parts), PartSizes(parts));
    var descriptors, rawOffset, i := [], 0, 0;
    while i < |parts|
      invariant 0 <= i <= |parts|
      invariant rawOffset == Sum(PartSizes(parts)[..i])
      invariant DescsBytes(ds[..i]) == Ok(descriptors)
    {
      var desc := Desc(parts[i].name, rawOffset, |parts[i].data|);
      assert desc == ds[i] && ds[..i + 1][..i] == ds[..i];
      var checked := DescError(desc);
      if checked.Err? {
        FirstError(ds, i);
        return Err(checked.error);
      }
      descriptors := descriptors + DescBytes(desc);
      SumStep(PartSizes(parts), i);
      rawOffset := rawOffset + |parts[i].data|;
      i := i + 1;
    }
    assert ds[..i] == ds && PartSizes(parts)[..i] == PartSizes(parts);
    if |parts| >= U16_LIMIT || rawOffset >= U64_LIMIT {
      return Err(StructError);
    }
    var raw := Join(parts);
    return Ok(HeaderBytes(Header(|parts|, rawOffset)) + descriptors + raw);
  }

  method Join(parts: seq<Part>) returns (raw: seq<Byte>)
    ensures raw == Data(parts)
  {
    raw := [];
    var k := 0;
    while k < |parts|
      invariant 0 <= k <= |parts|
      invariant raw == Data(parts[..k])
    {
      assert parts[..k + 1][..k] == parts[..k];
      raw := raw + parts[k].data;
      k := k + 1;
    }
    assert parts[..k] == parts;
  }

  /** The first descriptor that cannot be packed decides the error. */
  lemma {:induction false} FirstError(ds: seq<Desc>, i: nat)
    requires i < |ds| && DescsBytes(ds[..i]).Ok? && DescError(ds[i]).Err?
    ensures DescsBytes(ds) == Err(DescError(ds[i]).error)
    decreases |ds|
  {
    var front := ds[..|ds| - 1];
    if i < |front| {
      assert front[..i] == ds[..i];
      FirstError(front, i);
    } else {
      assert front == ds[..i];
    }
  }

  datatype Framing = Framing(bytes: seq<Byte>, absolute: map<Name, nat>, total: nat)

  function MaxEnd(ds: seq<Desc>): nat
    requires ds != []
  {
    var last := ds[|ds| - 1];
    if |ds| == 1 then last.offset + last.size else
      var m := MaxEnd(ds[..|ds| - 1]);
      if m < last.offset + last.size then last.offset + last.size else m
  }

  lemma {:induction false} MaxEndCovers(ds: seq<Desc>)
    requires ds != []
    ensures Inside(ds, MaxEnd(ds))
    ensures exists i :: 0 <= i < |ds| && MaxEnd(ds) == ds[i].offset + ds[i].size
  {
    var n := |ds| - 1;
    if n > 0 {
      MaxEndCovers(ds[..n]);
      var i :| 0 <= i < n && MaxEnd(ds[..n]) == ds[..n][i].offset + ds[..n][i].size;
      assert ds[..n][i] == ds[i];
      forall k | 0 <= k < |ds| ensures ds[k].offset + ds[k].size <= MaxEnd(ds) {
        assert k < n ==> ds[..n][k] == ds[k];
      }
    }
  }

  function AbsoluteOffsets(ds: seq<Desc>, start: nat): map<Name, nat> {
    if ds == [] then map[]
    else AbsoluteOffsets(ds[..|ds| - 1], start)[ds[|ds| - 1].name := start + ds[|ds| - 1].offset]
  }

  /** Each part's descriptor when its offset is pinned by the caller. */
  function Pinned(names: seq<Name>, sizes: seq<nat>, offsets: map<Name, nat>): (ds: seq<Desc>)
    requires |names| == |sizes| && forall n :: n in names ==> n in offsets
    ensures |ds| == |names|
  {
    seq(|names|, i requires 0 <= i < |names| => Desc(names[i], offsets[names[i]], sizes[i]))
  }

  function FramingOf(ds: seq<Desc>, payload: nat): Result<Framing> {
    match Frame(ds, payload)
    case Err(e) => Err(e)
    case Ok(bytes) => Ok(Framing(bytes, AbsoluteOffsets(ds, |bytes|), |bytes| + payload))
  }

  datatype Offsets = Unpinned | At(offsets: map<Name, nat>)

  function BuildFraming(names: seq<Name>, sizes: seq<nat>, offsets: Offsets): Result<Framing>
    requires |names| == |sizes|
  {
    match offsets
    case Unpinned => FramingOf(Placed(names, sizes), Sum(sizes))
    case At(pins) =>
      if exists n :: n in names && n !in pins then Err(ProtocolError(NoOffset))
      else if names == [] then Err(EmptyMax)
      else FramingOf(Pinned(names, sizes, pins), MaxEnd(Pinned(names, sizes, pins)))
  }

  /** Everything a framing needs: encodable names of at most 255 bytes, and counts, offsets and sizes that fit
      their fields. */
  ghost predicate Fits(names: seq<Name>, sizes: seq<nat>, at: seq<nat>, payload: nat)
    requires |names| == |sizes| == |at|
  {
    && (forall i :: 0 <= i < |names| ==> ValidUtf8(names[i]) && |names[i]| <= 255 && at[i] < U64_LIMIT && sizes[i] < U64_LIMIT)
    && |names| < U16_LIMIT && payload < U64_LIMIT
  }

  function Starts(sizes: seq<nat>): (at: seq<nat>)
    ensures |at| == |sizes|
  {
    seq(|sizes|, i requires 0 <= i < |sizes| => Sum(sizes[..i]))
  }

  function PinsOf(names: seq<Name>, pins: map<Name, nat>): (at: seq<nat>)
    requires forall n :: n in names ==> n in pins
    ensures |at| == |names|
  {
    seq(|names|, i requires 0 <= i < |names| => pins[names[i]])
  }

  lemma {:induction false} PackableFits(ds: seq<Desc>, names: seq<Name>, sizes: seq<nat>, at: seq<nat>, payload: nat)
    requires |ds| == |names| == |sizes| == |at|
    requires forall i :: 0 <= i < |ds| ==> ds[i] == Desc(names[i], at[i], sizes[i])
    ensures Packable(ds, payload) <==> Fits(names, sizes, at, payload)
  {
    hide ValidUtf8;
    forall i | 0 <= i < |ds| ensures DescError(ds[i]).Ok? <==>
        ValidUtf8(names[i]) && |names[i]| <= 255 && at[i] < U64_LIMIT && sizes[i] < U64_LIMIT {
      assert ds[i] == Desc(names[i], at[i], sizes[i]);
    }
  }

  /** A framing is made exactly within those limits; with pinned offsets there must also be some part, and an
      offset for each, and a missing offset is reported before anything else. */
  lemma {:induction false} FramingOkWhen(names: seq<Name>, sizes: seq<nat>, offsets: Offsets)
    requires |names| == |sizes|
    ensures offsets.Unpinned? ==>
              (BuildFraming(names, sizes, offsets).Ok? <==> Fits(names, sizes, Starts(sizes), Sum(sizes)))
    ensures offsets.At? && (exists n :: n in names && n !in offsets.offsets) ==>
              BuildFraming(names, sizes, offsets) == Err(ProtocolError(NoOffset))
    ensures offsets.At? && names == [] ==> BuildFraming(names, sizes, offsets) == Err(EmptyMax)
    ensures offsets.At? && names != [] && (forall n :: n in names ==> n in offsets.offsets) ==>
              (BuildFraming(names, sizes, offsets).Ok? <==>
                 Fits(names, sizes, PinsOf(names, offsets.offsets), MaxEnd(Pinned(names, sizes, offsets.offsets))))
  {
    hide Frame, Sum, Fits, Packable;
    match offsets {
      case Unpinned =>
        FrameOk(Placed(names, sizes), Sum(sizes));
        PackableFits(Placed(names, sizes), names, sizes, Starts(sizes), Sum(sizes));
      case At(pins) =>
        if names != [] && forall n :: n in names ==> n in pins {
          var ds := Pinned(names, sizes, pins);
          FrameOk(ds, MaxEnd(ds));
          PackableFits(ds, names, sizes, PinsOf(names, pins), MaxEnd(ds));
        }
    }
  }

  /** The in-place packer's framing: pin the offsets, write the region, report where parts go. */
  method BuildFramingLoop(names: seq<Name>, sizes: seq<nat>, offsets: Offsets) returns (r: Result<Framing>)
    requires |names| == |sizes|
    requires forall i, j :: 0 <= i < j < |names| ==> names[i] != names[j]
    ensures r == BuildFraming(names, sizes, offsets)
  {
    match offsets {
      case Unpinned =>
        var pins, payload := PinInOrder(names, sizes);
        assert Pinned(names, sizes, pins) == Placed(names, sizes);
        r := FrameWith(names, sizes, pins, payload);
      case At(pins) =>
        if exists n :: n in names && n !in pins {
          return Err(ProtocolError(NoOffset));
        }
        if names == [] {
          return Err(EmptyMax);
        }
        var payload := PayloadCovering(names, sizes, pins);
        r := FrameWith(names, sizes, pins, payload);
    }
  }

  method FrameWith(names: seq<Name>, sizes: seq<nat>, pins: map<Name, nat>, payload: nat) returns (r: Result<Framing>)
    requires |names| == |sizes| && forall n :: n in names ==> n in pins
    ensures r == FramingOf(Pinned(names, sizes, pins), payload)
  {
    hide Pinned, DescsBytes, AbsoluteOffsets;
    var region := WriteRegion(names, sizes, pins);
    if region.Err? {
      return Err(region.error);
    }
    if |names| >= U16_LIMIT || payload >= U64_LIMIT {
      return Err(StructError);
    }
    var dataStart := HEADER_SIZE + |region.value|;
    var absolute := WriteAbsolute(names, sizes, pins, dataStart);
    return Ok(Framing(HeaderBytes(Header(|names|, payload)) + region.value, absolute, dataStart + payload));
  }

  method PinInOrder(names: seq<Name>, sizes: seq<nat>) returns (pins: map<Name, nat>, cursor: nat)
    requires |names| == |sizes|
    requires forall i, j :: 0 <= i < j < |names| ==> names[i] != names[j]
    ensures cursor == Sum(sizes)
    ensures forall k :: 0 <= k < |names| ==> names[k] in pins && pins[names[k]] == Sum(sizes[..k])
  {
    pins, cursor := map[], 0;
    var i := 0;
    while i < |names|
      invariant 0 <= i <= |names|
      invariant cursor == Sum(sizes[..i])
      invariant forall k :: 0 <= k < i ==> names[k] in pins && pins[names[k]] == Sum(sizes[..k])
    {
      pins := pins[names[i] := cursor];
      SumStep(sizes, i);
      cursor := cursor + sizes[i];
      i := i + 1;
    }
    assert sizes[..i] == sizes;
  }

  method PayloadCovering(names: seq<Name>, sizes: seq<nat>, pins: map<Name, nat>) returns (payload: nat)
    requires |names| == |sizes| && names != [] && forall n :: n in names ==> n in pins
    ensures payload == MaxEnd(Pinned(names, sizes, pins))
  {
    ghost var ds := Pinned(names, sizes, pins);
    payload := pins[names[0]] + sizes[0];
    var k := 1;
    assert ds[..1] == [ds[0]];
    while k < |names|
      invariant 1 <= k <= |names|
      invariant payload == MaxEnd(ds[..k])
    {
      assert ds[..k + 1][..k] == ds[..k];
      if payload < pins[names[k]] + sizes[k] {
        payload := pins[names[k]] + sizes[k];
      }
      k := k + 1;
    }
    assert ds[..k] == ds;
  }

  method WriteRegion(names: seq<Name>, sizes: seq<nat>, pins: map<Name, nat>) returns (r: Result<seq<Byte>>)
    requires |names| == |sizes| && forall n :: n in names ==> n in pins
    ensures r == DescsBytes(Pinned(names, sizes, pins))
  {
    ghost var ds := Pinned(names, sizes, pins);
    var descriptors, j := [], 0;
    while j < |names|
      invariant 0 <= j <= |names|
      invariant DescsBytes(ds[..j]) == Ok(descriptors)
    {
      var desc := Desc(names[j], pins[names[j]], sizes[j]);
      assert ds[..j + 1][..j] == ds[..j];
      var checked := DescError(desc);
      if checked.Err? {
        FirstError(ds, j);
        return Err(checked.error);
      }
      descriptors := descriptors + DescBytes(desc);
      j := j + 1;
    }
    assert ds[..j] == ds;
    return Ok(descriptors);
  }

  method WriteAbsolute(names: seq<Name>, sizes: seq<nat>, pins: map<Name, nat>, dataStart: nat)
    returns (absolute: map<Name, nat>)
    requires |names| == |sizes| && forall n :: n in names ==> n in pins
    ensures absolute == AbsoluteOffsets(Pinned(names, sizes, pins), dataStart)
  {
    ghost var ds := Pinned(names, sizes, pins);
    absolute := map[];
    var m := 0;
    while m < |names|
      invariant 0 <= m <= |names|
      invariant absolute == AbsoluteOffsets(ds[..m], dataStart)
    {
      assert ds[..m + 1][..m] == ds[..m];
      absolute := absolute[names[m] := dataStart + pins[names[m]]];
      m := m + 1;
    }
    assert ds[..m] == ds;
  }

  // ---------------------------------------------------------------- the parser

  function ParseHeader(prefix: seq<Byte>): Result<Header> {
    if |prefix| < HEADER_SIZE then Err(ProtocolError(HeaderTooShort))
    else if prefix[..4] != MAGIC then Err(ProtocolError(BadMagic))
    else if Value(prefix[4..6]) != VERSION then Err(ProtocolError(BadVersion))
    else Ok(Header(Value(prefix[6..8]), Value(prefix[8..16])))
  }

  /** A Python slice: bounds past the end are clamped, never an error. */
  function Clamp(blob: seq<Byte>, i: nat, j: nat): (s: seq<Byte>)
    requires i <= j
    ensures j <= |blob| ==> s == blob[i..j]
  {
    if j <= |blob| then blob[i..j] else if i <= |blob| then blob[i..] else []
  }

  datatype Descs = Descs(entries: seq<Desc>, end: nat)

  /** `count` descriptors read from position `pos` on. */
  function ParseDescs(blob: seq<Byte>, pos: nat, count: nat): Result<Descs>
    decreases count
  {
    if count == 0 then Ok(Descs([], pos))
    else if pos + DESC_FIXED_SIZE > |blob| then Err(ProtocolError(TruncatedDescriptor))
    else
      var d := DescAt(blob, pos);
      if !ValidUtf8(d.name) then Err(UnicodeError) else
        After([d], ParseDescs(blob, pos + DESC_FIXED_SIZE + blob[pos], count - 1))
  }

  /** `entries`, then the descriptors still to be read. */
  function After(entries: seq<Desc>, rest: Result<Descs>): Result<Descs> {
    match rest
    case Err(e) => Err(e)
    case Ok(d) => Ok(Descs(entries + d.entries, d.end))
  }

  function DescAt(blob: seq<Byte>, pos: nat): Desc
    requires pos + DESC_FIXED_SIZE <= |blob|
  {
    var at := pos + DESC_FIXED_SIZE;
    Desc(Clamp(blob, at, at + blob[pos]), Value(blob[pos + 1..pos + 9]), Value(blob[pos + 9..pos + 17]))
  }

  ghost predicate Inside(ds: seq<Desc>, payload: nat) {
    forall i :: 0 <= i < |ds| ==> ds[i].offset + ds[i].size <= payload
  }

  function LayoutOf(ds: seq<Desc>, start: nat): (layout: seq<PartLayout>)
    ensures |layout| == |ds|
  {
    seq(|ds|, i requires 0 <= i < |ds| => PartLayout(ds[i].name, start + ds[i].offset, ds[i].size))
  }

  datatype Parsed = Parsed(layout: seq<PartLayout>, dataStart: nat, payloadEnd: nat)

  /** Everything the parser works out about a blob; it returns the layout alone. */
  ghost function Parse(blob: seq<Byte>): Result<Parsed> {
    match ParseHeader(Clamp(blob, 0, HEADER_SIZE))
    case Err(e) => Err(e)
    case Ok(h) =>
      match ParseDescs(blob, HEADER_SIZE, h.partCount)
      case Err(e) => Err(e)
      case Ok(d) =>
        if d.end + h.payloadLength > |blob| then Err(ProtocolError(BlobTooShort))
        else if !Inside(d.entries, h.payloadLength) then Err(ProtocolError(PartOutsidePayload))
        else Ok(Parsed(LayoutOf(d.entries, d.end), d.end, d.end + h.payloadLength))
  }

  ghost function ParseLayout(blob: seq<Byte>): Result<seq<PartLayout>> {
    match Parse(blob)
    case Err(e) => Err(e)
    case Ok(p) => Ok(p.layout)
  }

  /** The zero-copy parser: header, descriptors one by one, then the bounds of each. */
  method ParseLayoutLoop(blob: seq<Byte>) returns (r: Result<seq<PartLayout>>)
    ensures r == ParseLayout(blob)
  {
    var info := ParseHeader(Clamp(blob, 0, HEADER_SIZE));
    if info.Err? {
      return Err(info.error);
    }
    var descs := ReadDescs(blob, HEADER_SIZE, info.value.partCount);
    if descs.Err? {
      return Err(descs.error);
    }
    var dataStart := descs.value.end;
    if dataStart + info.value.payloadLength > |blob| {
      return Err(ProtocolError(BlobTooShort));
    }
    r := BoundParts(descs.value.entries, dataStart, info.value.payloadLength);
  }

  method ReadDescs(blob: seq<Byte>, start: nat, count: nat) returns (r: Result<Descs>)
    ensures r == ParseDescs(blob, start, count)
  {
    var pos: nat, entries, i := start, [], 0;
    hide Value, ValidUtf8, DescAt;
    ghost var all := ParseDescs(blob, start, count);
    assert all.Ok? ==> entries + all.value.entries == all.value.entries;
    while i < count
      invariant 0 <= i <= count
      invariant all == After(entries, ParseDescs(blob, pos, count - i))
    {
      if pos + DESC_FIXED_SIZE > |blob| {
        return Err(ProtocolError(TruncatedDescriptor));
      }
      var d := DescAt(blob, pos);
      if !ValidUtf8(d.name) {
        return Err(UnicodeError);
      }
      AfterOne(entries, d, ParseDescs(blob, pos + DESC_FIXED_SIZE + blob[pos], count - i - 1));
      pos := pos + DESC_FIXED_SIZE + blob[pos];
      entries := entries + [d];
      i := i + 1;
    }
    assert entries + [] == entries;
    return Ok(Descs(entries, pos));
  }

  lemma {:induction false} AfterOne(entries: seq<Desc>, d: Desc, rest: Result<Descs>)
    ensures After(entries, After([d], rest)) == After(entries + [d], rest)
  {
    if rest.Ok? {
      assert entries + ([d] + rest.value.entries) == (entries + [d]) + rest.value.entries;
    }
  }

  method BoundParts(entries: seq<Desc>, dataStart: nat, payload: nat) returns (r: Result<seq<PartLayout>>)
    ensures r == if Inside(entries, payload) then Ok(LayoutOf(entries, dataStart))
                 else Err(ProtocolError(PartOutsidePayload))
  {
    var layout, k := [], 0;
    while k < |entries|
      invariant 0 <= k <= |entries|
      invariant layout == LayoutOf(entries[..k], dataStart)
      invariant Inside(entries[..k], payload)
    {
      if dataStart + entries[k].offset + entries[k].size > dataStart + payload {
        return Err(ProtocolError(PartOutsidePayload));
      }
      layout := layout + [PartLayout(entries[k].name, dataStart + entries[k].offset, entries[k].size)];
      k := k + 1;
    }
    assert entries[..k] == entries;
    return Ok(layout);
  }

  /** The dict of parts a layout cuts out of a block; a repeated name keeps its last part. */
  function Cut(layout: seq<PartLayout>, block: seq<Byte>): map<Name, seq<Byte>> {
    if layout == [] then map[] else
      var last := layout[|layout| - 1];
      Cut(layout[..|layout| - 1], block)[last.name := Clamp(block, last.offset, last.offset + last.byteCount)]
  }

  ghost function UnpackBlob(blob: seq<Byte>): Result<map<Name, seq<Byte>>> {
    match ParseLayout(blob)
    case Err(e) => Err(e)
    case Ok(layout) => Ok(Cut(layout, blob))
  }
}
