/** From the producer's images to what the coordinator decodes: the parallel encoder, the streamed receive,
    the shared block and the regrouping, composed. */
module Delivery {
  import opened Bytes
  import opened Wire
  import opened WireTheorems
  import opened SensorParts
  import opened ParallelEncode
  import PushReceive
  import SharedBlock

  lemma {:induction false} PackedHeader(parts: seq<Part>, body: seq<Byte>)
    requires PackBlob(parts) == Ok(body)
    ensures |body| >= HEADER_SIZE
    ensures ParseHeader(body[..HEADER_SIZE]) == Ok(Header(|parts|, Sum(PartSizes(parts))))
  {
    hide ParseHeader, Value, BigEndian, Pow256;
    PackBlobOk(parts);
    HeaderReadBack(body, Header(|parts|, Sum(PartSizes(parts))));
  }

  /** A packed blob, cut into chunks in any way, is accepted exactly when it fits the block and its payload
      the cap, and with its own layout. */
  lemma {:induction false} PackedIsAccepted(parts: seq<Part>, body: seq<Byte>, chunks: seq<seq<Byte>>, size: nat, cap: nat)
    requires PackBlob(parts) == Ok(body) && PushReceive.Flat(chunks) == body
    ensures var reply := PushReceive.Receive(chunks, size, cap).reply;
            && (reply.Accepted? <==> |body| <= size && Sum(PartSizes(parts)) <= cap)
            && (reply.Accepted? ==> ParseLayout(body) == Ok(reply.layout))
  {
    hide PackBlob, ParseHeader, Sum, PartSizes, PushReceive.Receive, Parse;
    PackedHeader(parts, body);
    PackedLayout(parts, body, []);
    assert body + [] == body;
    PushReceive.AcceptanceIsWhole(chunks, size, cap);
  }

  /** While the coordinator serves the push of an encoded exposure, whatever came before it through the same
      block, what it cuts out regroups to each sensor's own image and metadata. */
  lemma {:induction false} ExposureIsServed(shots: seq<Shot>, bodies: SharedBlock.Bodies, s: SharedBlock.State,
                                            steps: seq<SharedBlock.Step>, t: SharedBlock.State)
    requires DistinctSensors(shots)
    requires SharedBlock.Init(s) && SharedBlock.Run(bodies, s, steps, t) && t.child.Serving?
    requires t.child.push in bodies && PackBlob(WireParts(shots)) == Ok(bodies[t.child.push])
    ensures Regroups(Cut(t.child.layout, t.block), PairsOf(shots))
  {
    hide PackBlob, WireParts, DistinctSensors, Regroups, PairsOf, SharedBlock.Run, SharedBlock.Init, Cut;
    SharedBlock.ServedPartsArePacked(bodies, s, steps, t, WireParts(shots));
    WireRegroups(shots);
  }

  /** The parts read in place through a layout. */
  function View(layout: seq<PartLayout>, block: seq<Byte>): (parts: seq<Part>)
    ensures |parts| == |layout|
  {
    seq(|layout|, i requires 0 <= i < |layout| =>
      Part(layout[i].name, Clamp(block, layout[i].offset, layout[i].offset + layout[i].byteCount)))
  }

  lemma {:induction false} ViewIsCut(layout: seq<PartLayout>, block: seq<Byte>)
    ensures ToMap(View(layout, block)) == Cut(layout, block)
  {
    if layout != [] {
      var n := |layout| - 1;
      ViewIsCut(layout[..n], block);
      assert View(layout, block)[..n] == View(layout[..n], block);
    }
  }

  datatype Delivered = Delivered(pairs: Sensors) | NotSent(why: Encoded) | Refused(reply: PushReceive.Reply) | Undecodable

  /** One exposure, encoded in parallel under any schedule, streamed in any chunks and decoded out of the
      receiving block: it arrives as it left, or was not sent, or did not fit. */
  method Deliver(shots: seq<Shot>, schedule: seq<Write>, env: Environment, cut: seq<Byte> -> seq<seq<Byte>>,
                 block: array<Byte>, cap: nat) returns (r: Delivered)
    requires DistinctSensors(shots) && Covers(shots, schedule)
    requires forall body: seq<Byte> {:trigger cut(body)} :: PushReceive.Flat(cut(body)) == body
    modifies block
    ensures r.Delivered? <==>
              && Able(env, shots) && PackBlob(WireParts(shots)).Ok?
              && |PackBlob(WireParts(shots)).value| <= BlockSize(shots)
              && |PackBlob(WireParts(shots)).value| <= block.Length && Sum(PartSizes(WireParts(shots))) <= cap
    ensures r.Delivered? ==> r.pairs == PairsOf(shots)
    ensures !r.Undecodable?
  {
    hide PackBlob, WireParts, DistinctSensors, Sum, PartSizes, Able, Covers, Regroups, PairsOf, PushReceive.Receive, Cut,
      PushReceive.Flat, BlockSize, AllSuffixed, AllComplete, Parse;
    var encoded := BuildPartsParallel(shots, schedule, env);
    if !encoded.Blob? {
      return NotSent(encoded);
    }
    var body := encoded.block[..encoded.total];
    var chunks := cut(body);
    PackedIsAccepted(WireParts(shots), body, chunks, block.Length, cap);
    var outcome, received := PushReceive.ReceiveIntoBlock(chunks, block, cap);
    if !outcome.reply.Accepted? {
      return Refused(outcome.reply);
    }
    var layout := outcome.reply.layout;
    assert block[..received] == body;
    ReadBack(shots, body, layout, block[..]);
    var split := SplitParts(View(layout, block[..]));
    match split {
      case Ok(pairs) =>
        RegroupsExact(ToMap(View(layout, block[..])), ToMap(View(layout, block[..])), pairs, PairsOf(shots));
        r := Delivered(pairs);
      case Err(_) => r := Undecodable;
    }
  }

  lemma {:induction false} ReadBack(shots: seq<Shot>, body: seq<Byte>, layout: seq<PartLayout>, block: seq<Byte>)
    requires DistinctSensors(shots) && PackBlob(WireParts(shots)) == Ok(body) && ParseLayout(body) == Ok(layout)
    requires |body| <= |block| && block[..|body|] == body
    ensures Regroups(ToMap(View(layout, block)), PairsOf(shots))
    ensures AllSuffixed(ToMap(View(layout, block))) && AllComplete(ToMap(View(layout, block)))
  {
    hide PackBlob, WireParts, DistinctSensors, PairsOf, Cut, View, ToMap, ParseLayout, PairOf, Named, AllSuffixed;
    SharedBlock.LayoutInside(body, layout);
    SharedBlock.CutOfPrefix(layout, block, body);
    ViewIsCut(layout, block);
    RoundTrip(WireParts(shots), body, []);
    assert body + [] == body;
    WireRegroups(shots);
    RegroupedIsComplete(ToMap(View(layout, block)), PairsOf(shots));
  }

  lemma {:induction false} RegroupedIsComplete(parts: PartMap, sensors: Sensors)
    requires Regroups(parts, sensors)
    ensures AllSuffixed(parts) && AllComplete(parts)
  {
    hide AllSuffixed, Named, Complete;
    forall s | Named(parts, s) ensures Complete(parts, s) {
      assert PairOf(parts, sensors, s);
    }
  }
}
