/** The push handler's receive path: a chunked body streamed into one reusable block. */
module PushReceive {
  import opened Bytes
  import opened Wire

  datatype JobState = PREPARED | RECEIVING | COMPUTING | ERROR

  /** What the client sees: the layout is dispatched, or the request fails. `Unhandled` is the codec
      error on a part name, which the handler does not catch. */
  datatype Reply = Accepted(layout: seq<PartLayout>) | TooLarge | BadRequest(error: Error) | BodyTooShort | Unhandled

  datatype Outcome = Outcome(reply: Reply, state: JobState)

  function Flat(chunks: seq<seq<Byte>>): seq<Byte> {
    if chunks == [] then [] else chunks[0] + Flat(chunks[1..])
  }

  datatype Filled = Overflow | Filled(got: seq<Byte>, rest: seq<seq<Byte>>)

  /** Absorb chunks one by one; with `untilHeader`, stop as soon as a header has arrived. */
  function Fill(got: seq<Byte>, chunks: seq<seq<Byte>>, size: nat, untilHeader: bool): Filled
    decreases |chunks|
  {
    if chunks == [] || (untilHeader && |got| >= HEADER_SIZE) then Filled(got, chunks)
    else if |got| + |chunks[0]| > size then Overflow
    else Fill(got + chunks[0], chunks[1..], size, untilHeader)
  }

  /** The handler as a function of the chunks it is given. */
  ghost function Receive(chunks: seq<seq<Byte>>, size: nat, cap: nat): Outcome {
    match Fill([], chunks, size, true)
    case Overflow => Outcome(TooLarge, PREPARED)
    case Filled(head, rest) =>
      if |head| < HEADER_SIZE then Outcome(BodyTooShort, PREPARED) else
        match ParseHeader(head[..HEADER_SIZE])
        case Err(e) => Outcome(BadRequest(e), PREPARED)
        case Ok(h) =>
          if h.payloadLength > cap then Outcome(TooLarge, PREPARED) else
            match Fill(head, rest, size, false)
            case Overflow => Outcome(TooLarge, RECEIVING)
            case Filled(body, _) => Parsed(body)
  }

  ghost function Parsed(body: seq<Byte>): Outcome {
    match ParseLayout(body)
    case Ok(layout) => Outcome(Accepted(layout), COMPUTING)
    case Err(UnicodeError) => Outcome(Unhandled, RECEIVING)
    case Err(e) => Outcome(BadRequest(e), ERROR)
  }

  /** The handler itself, writing into the block it shares with the coordinator. */
  method ReceiveIntoBlock(chunks: seq<seq<Byte>>, block: array<Byte>, cap: nat) returns (r: Outcome, received: nat)
    modifies block
    ensures r == Receive(chunks, block.Length, cap)
    ensures received <= block.Length && received <= |Flat(chunks)|
    ensures block[..received] == Flat(chunks)[..received]
    ensures block[received..] == old(block[received..])
    ensures r.reply.Accepted? ==> received == |Flat(chunks)|
  {
    var overflow, next;
    assert chunks[0..] == chunks;
    overflow, received, next := AbsorbChunks(chunks, 0, block, 0, true);
    ghost var first := Fill([], chunks, block.Length, true);
    if overflow {
      return Outcome(TooLarge, PREPARED), received;
    }
    if received < HEADER_SIZE {
      return Outcome(BodyTooShort, PREPARED), received;
    }
    var header := ParseHeader(block[..HEADER_SIZE]);
    assert first.got[..HEADER_SIZE] == block[..HEADER_SIZE];
    if header.Err? {
      return Outcome(BadRequest(header.error), PREPARED), received;
    }
    if header.value.payloadLength > cap {
      return Outcome(TooLarge, PREPARED), received;
    }
    overflow, received, next := AbsorbChunks(chunks, next, block, received, false);
    if overflow {
      return Outcome(TooLarge, RECEIVING), received;
    }
    var layout := ParseLayoutLoop(block[..received]);
    match layout {
      case Ok(l) => r := Outcome(Accepted(l), COMPUTING);
      case Err(UnicodeError) => r := Outcome(Unhandled, RECEIVING);
      case Err(e) => r := Outcome(BadRequest(e), ERROR);
    }
  }

  /** One pass of the absorb loop from chunk `i` on, with `k` bytes already in the block. */
  method AbsorbChunks(chunks: seq<seq<Byte>>, i: nat, block: array<Byte>, k: nat, untilHeader: bool)
    returns (overflow: bool, received: nat, next: nat)
    requires i <= |chunks| && k <= block.Length
    requires k == |Flat(chunks[..i])| && block[..k] == Flat(chunks[..i])
    modifies block
    ensures i <= next <= |chunks| && k <= received <= block.Length
    ensures received == |Flat(chunks[..next])| && block[..received] == Flat(chunks[..next])
    ensures received <= |Flat(chunks)| && Flat(chunks[..next]) == Flat(chunks)[..received]
    ensures block[received..] == old(block[received..])
    ensures Fill(Flat(chunks[..i]), chunks[i..], block.Length, untilHeader)
         == if overflow then Overflow else Filled(Flat(chunks[..next]), chunks[next..])
    ensures !overflow && !untilHeader ==> next == |chunks| && received == |Flat(chunks)|
  {
    received, next, overflow := k, i, false;
    FlatPrefix(chunks, i);
    while next < |chunks| && !(untilHeader && received >= HEADER_SIZE)
      invariant i <= next <= |chunks| && k <= received <= block.Length
      invariant received == |Flat(chunks[..next])| && block[..received] == Flat(chunks[..next])
      invariant received <= |Flat(chunks)| && Flat(chunks[..next]) == Flat(chunks)[..received]
      invariant block[received..] == old(block[received..])
      invariant Fill(Flat(chunks[..i]), chunks[i..], block.Length, untilHeader)
             == Fill(Flat(chunks[..next]), chunks[next..], block.Length, untilHeader)
    {
      var chunk := chunks[next];
      FlatStep(chunks, next);
      FlatPrefix(chunks, next + 1);
      if received + |chunk| > block.Length {
        overflow := true;
        return;
      }
      WriteAt(block, received, chunk);
      received := received + |chunk|;
      next := next + 1;
    }
    assert chunks[..|chunks|] == chunks;
  }

  // ---------------------------------------------------------------- chunks and the whole body

  lemma {:induction false} FlatConcat(a: seq<seq<Byte>>, b: seq<seq<Byte>>)
    ensures Flat(a + b) == Flat(a) + Flat(b)
  {
    if a == [] {
      assert a + b == b;
    } else {
      FlatConcat(a[1..], b);
      assert (a + b)[1..] == a[1..] + b;
    }
  }

  lemma {:induction false} FlatStep(chunks: seq<seq<Byte>>, i: nat)
    requires i < |chunks|
    ensures Flat(chunks[..i + 1]) == Flat(chunks[..i]) + chunks[i]
    ensures chunks[i..] != [] && chunks[i..][0] == chunks[i] && chunks[i..][1..] == chunks[i + 1..]
  {
    assert chunks[..i + 1] == chunks[..i] + [chunks[i]];
    FlatConcat(chunks[..i], [chunks[i]]);
    assert Flat([chunks[i]]) == chunks[i] + Flat([]);
  }

  lemma {:induction false} FlatPrefix(chunks: seq<seq<Byte>>, i: nat)
    requires i <= |chunks|
    ensures |Flat(chunks[..i])| <= |Flat(chunks)|
    ensures Flat(chunks[..i]) == Flat(chunks)[..|Flat(chunks[..i])|]
  {
    assert chunks == chunks[..i] + chunks[i..];
    FlatConcat(chunks[..i], chunks[i..]);
  }

  /** What is absorbed is a prefix of the bytes sent; nothing is dropped, repeated or reordered. */
  lemma {:induction false} FillKeepsBytes(got: seq<Byte>, chunks: seq<seq<Byte>>, size: nat, untilHeader: bool)
    ensures var f := Fill(got, chunks, size, untilHeader);
            && (f.Filled? ==> f.got + Flat(f.rest) == got + Flat(chunks))
            && (f.Filled? ==> f.rest == [] || (untilHeader && |f.got| >= HEADER_SIZE))
            && (f.Filled? && |got| <= size ==> |f.got| <= size)
            && (f.Overflow? ==> |got + Flat(chunks)| > size)
            && (!untilHeader && |got + Flat(chunks)| > size && |got| <= size ==> f.Overflow?)
    decreases |chunks|
  {
    if !(chunks == [] || (untilHeader && |got| >= HEADER_SIZE)) && |got| + |chunks[0]| <= size {
      FillKeepsBytes(got + chunks[0], chunks[1..], size, untilHeader);
      assert (got + chunks[0]) + Flat(chunks[1..]) == got + Flat(chunks);
    }
  }

  ghost predicate Acceptable(body: seq<Byte>, size: nat, cap: nat) {
    && |body| <= size && |body| >= HEADER_SIZE
    && ParseHeader(body[..HEADER_SIZE]).Ok? && ParseHeader(body[..HEADER_SIZE]).value.payloadLength <= cap
    && ParseLayout(body).Ok?
  }

  /** The handler's answer to a body that fits the block, as a function of the body alone. */
  ghost function Whole(body: seq<Byte>, cap: nat): Outcome {
    if |body| < HEADER_SIZE then Outcome(BodyTooShort, PREPARED) else
      match ParseHeader(body[..HEADER_SIZE])
      case Err(e) => Outcome(BadRequest(e), PREPARED)
      case Ok(h) => if h.payloadLength > cap then Outcome(TooLarge, PREPARED) else Parsed(body)
  }

  /** However a body is cut into chunks, empty ones included: one that fits the block gets the same
      answer and job state, error included; one that does not fit is refused, and only which of two
      errors is reported (the size, or a bad header that arrived first) can depend on the cut. */
  lemma {:induction false} ChunkingDoesNotMatter(chunks: seq<seq<Byte>>, size: nat, cap: nat)
    ensures |Flat(chunks)| <= size ==> Receive(chunks, size, cap) == Whole(Flat(chunks), cap)
    ensures |Flat(chunks)| > size ==>
              || Receive(chunks, size, cap).reply == TooLarge
              || (|Flat(chunks)| >= HEADER_SIZE && Receive(chunks, size, cap) == Whole(Flat(chunks), cap)
                  && ParseHeader(Flat(chunks)[..HEADER_SIZE]).Err?)
  {
    hide ParseHeader, ParseLayout;
    var body, first := Flat(chunks), Fill([], chunks, size, true);
    FillKeepsBytes([], chunks, size, true);
    assert [] + body == body;
    if first.Filled? && |first.got| >= HEADER_SIZE {
      assert first.got[..HEADER_SIZE] == body[..HEADER_SIZE];
      FillKeepsBytes(first.got, first.rest, size, false);
      var second := Fill(first.got, first.rest, size, false);
      assert second.Filled? ==> second.got + Flat([]) == second.got;
    } else if first.Filled? {
      assert first.got + Flat([]) == first.got;
    }
  }

  /** Acceptance is a property of the whole body, and so is the layout dispatched. */
  lemma {:induction false} AcceptanceIsWhole(chunks: seq<seq<Byte>>, size: nat, cap: nat)
    ensures Receive(chunks, size, cap).reply.Accepted? <==> Acceptable(Flat(chunks), size, cap)
    ensures Acceptable(Flat(chunks), size, cap) ==>
              Receive(chunks, size, cap) == Outcome(Accepted(ParseLayout(Flat(chunks)).value), COMPUTING)
  {
    hide ParseHeader, ParseLayout, Receive;
    ChunkingDoesNotMatter(chunks, size, cap);
  }

  /** Header complete, good and within the cap. */
  ghost predicate Admissible(body: seq<Byte>, cap: nat) {
    && |body| >= HEADER_SIZE && ParseHeader(body[..HEADER_SIZE]).Ok?
    && ParseHeader(body[..HEADER_SIZE]).value.payloadLength <= cap
  }

  /** What the client is told and the state the job is left in, for every body and every way of cutting it. A
      job fails only for a layout the parser refuses; a codec error or a body found too large once its header
      was admitted leaves it receiving; every other refusal leaves it prepared, to be pushed again. */
  lemma {:induction false} JobLeftIn(chunks: seq<seq<Byte>>, size: nat, cap: nat)
    ensures var body, r, first := Flat(chunks), Receive(chunks, size, cap), Fill([], chunks, size, true);
            && (r.state == COMPUTING <==> r.reply.Accepted?)
            && (r.state == ERROR <==>
                  |body| <= size && Admissible(body, cap) && ParseLayout(body).Err? && ParseLayout(body) != Err(UnicodeError))
            && (r.state == ERROR ==> r.reply == BadRequest(ParseLayout(body).error))
            && (r.reply.Unhandled? <==> |body| <= size && Admissible(body, cap) && ParseLayout(body) == Err(UnicodeError))
            && (r.state == RECEIVING <==>
                  r.reply.Unhandled? || (|body| > size && first.Filled? && Admissible(first.got, cap)))
            && (|body| <= size && |body| < HEADER_SIZE ==> r.reply.BodyTooShort?)
            && (|body| <= size && |body| >= HEADER_SIZE && ParseHeader(body[..HEADER_SIZE]).Err? ==>
                  r.reply == BadRequest(ParseHeader(body[..HEADER_SIZE]).error))
            && (|body| <= size && |body| >= HEADER_SIZE && ParseHeader(body[..HEADER_SIZE]).Ok? && !Admissible(body, cap) ==>
                  r.reply.TooLarge?)
  {
    hide ParseHeader, ParseLayout;
    ChunkingDoesNotMatter(chunks, size, cap);
    if |Flat(chunks)| > size {
      OversizedLeft(chunks, size, cap);
    } else {
      FitsFilled(chunks, size);
    }
  }

  lemma {:induction false} FitsFilled(chunks: seq<seq<Byte>>, size: nat)
    requires |Flat(chunks)| <= size
    ensures Fill([], chunks, size, true).Filled?
  {
    FillKeepsBytes([], chunks, size, true);
    var none: seq<Byte> := [];
    assert none + Flat(chunks) == Flat(chunks);
  }

  lemma {:induction false} OversizedLeft(chunks: seq<seq<Byte>>, size: nat, cap: nat)
    requires |Flat(chunks)| > size
    ensures var r, first := Receive(chunks, size, cap), Fill([], chunks, size, true);
            && (r.reply.TooLarge? || r.reply.BadRequest?) && (r.state == PREPARED || r.state == RECEIVING)
            && (r.state == RECEIVING <==> first.Filled? && Admissible(first.got, cap))
  {
    hide ParseHeader, ParseLayout;
    var first, none: seq<Byte> := Fill([], chunks, size, true), [];
    FillKeepsBytes([], chunks, size, true);
    assert none + Flat(chunks) == Flat(chunks);
    if first.Filled? {
      FillKeepsBytes(first.got, first.rest, size, false);
      EmptyRest(first.got, first.rest);
    }
  }

  lemma {:induction false} EmptyRest(got: seq<Byte>, rest: seq<seq<Byte>>)
    ensures rest == [] ==> got + Flat(rest) == got
  {
  }

  // ---------------------------------------------------------------- when the cut shows

  /** Some two ways of cutting this body into chunks are answered differently. */
  ghost predicate CutMatters(body: seq<Byte>, size: nat, cap: nat) {
    exists a: seq<seq<Byte>>, b: seq<seq<Byte>> ::
      Flat(a) == body && Flat(b) == body && Receive(a, size, cap).reply != Receive(b, size, cap).reply
  }

  /** The body overflows the block, which could have held a header, and its header is bad. */
  ghost predicate BadAndTooLarge(body: seq<Byte>, size: nat) {
    |body| > size >= HEADER_SIZE && ParseHeader(body[..HEADER_SIZE]).Err?
  }

  /** In one piece such a body is too large; with its header first it is a bad header. */
  lemma {:induction false} TwoErrors(body: seq<Byte>, size: nat, cap: nat)
    requires BadAndTooLarge(body, size)
    ensures Flat([body]) == body == Flat([body[..HEADER_SIZE], body[HEADER_SIZE..]])
    ensures Receive([body], size, cap).reply == TooLarge
    ensures Receive([body[..HEADER_SIZE], body[HEADER_SIZE..]], size, cap).reply
            == BadRequest(ParseHeader(body[..HEADER_SIZE]).error)
  {
    hide ParseHeader, ParseLayout;
    var head, rest := body[..HEADER_SIZE], body[HEADER_SIZE..];
    var none: seq<Byte> := [];
    FlatOne(body);
    FlatOne(rest);
    assert [head, rest][1..] == [rest] && head + rest == body;
    assert none + head == head;
    assert Fill(none, [head, rest], size, true) == Fill(head, [rest], size, true) == Filled(head, [rest]);
    assert head[..HEADER_SIZE] == head;
  }

  lemma {:induction false} FlatOne(chunk: seq<Byte>)
    ensures Flat([chunk]) == chunk
  {
    assert Flat([chunk]) == chunk + Flat([]);
  }

  /** Any other body is answered the same however it is cut. */
  lemma {:induction false} OneError(a: seq<seq<Byte>>, b: seq<seq<Byte>>, size: nat, cap: nat)
    requires Flat(a) == Flat(b) && !BadAndTooLarge(Flat(a), size)
    ensures Receive(a, size, cap).reply == Receive(b, size, cap).reply
  {
    hide ParseHeader, ParseLayout, Receive, Whole;
    ChunkingDoesNotMatter(a, size, cap);
    ChunkingDoesNotMatter(b, size, cap);
    if |Flat(a)| > size && size < HEADER_SIZE {
      NoRoomForHeader(a, size, cap);
      NoRoomForHeader(b, size, cap);
    }
  }

  lemma {:induction false} NoRoomForHeader(chunks: seq<seq<Byte>>, size: nat, cap: nat)
    requires |Flat(chunks)| > size && size < HEADER_SIZE
    ensures Receive(chunks, size, cap).reply == TooLarge
  {
    FillKeepsBytes([], chunks, size, true);
    var none: seq<Byte> := [];
    assert none + Flat(chunks) == Flat(chunks);
  }

  /** The reported error depends on the cut exactly for a body that is both too large and headed badly. */
  lemma {:induction false} OversizedErrorDependsOnCut(body: seq<Byte>, size: nat, cap: nat)
    ensures CutMatters(body, size, cap) <==> BadAndTooLarge(body, size)
  {
    hide Receive, BadAndTooLarge, Flat;
    if BadAndTooLarge(body, size) {
      BadHeaderCuts(body, size, cap);
    } else if CutMatters(body, size, cap) {
      var a: seq<seq<Byte>>, b: seq<seq<Byte>> :|
        Flat(a) == body && Flat(b) == body && Receive(a, size, cap).reply != Receive(b, size, cap).reply;
      OneError(a, b, size, cap);
    }
  }

  lemma {:induction false} BadHeaderCuts(body: seq<Byte>, size: nat, cap: nat)
    requires BadAndTooLarge(body, size)
    ensures CutMatters(body, size, cap)
  {
    hide Receive, ParseHeader;
    TwoErrors(body, size, cap);
  }

  /** Such bodies exist: 48 zero bytes, for a block of 32. */
  lemma {:induction false} ZerosAreBoth(cap: nat)
    ensures CutMatters(seq(48, i => 0), 32, cap)
  {
    hide CutMatters;
    var body: seq<Byte> := seq(48, i => 0);
    assert body[..HEADER_SIZE][..4][0] == 0;
    OversizedErrorDependsOnCut(body, 32, cap);
  }
}
