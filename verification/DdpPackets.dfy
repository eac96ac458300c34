/** The DDP packet plan of one frame (hardware/ddp_output_probe.py): builder, validator and receiver. */
module DdpPackets {
  import opened Wrappers

  const HEADER_LENGTH: nat := 10
  const MAX_DATA_PAYLOAD: nat := 1400
  const MAX_FRAME_PAYLOAD: nat := 1536
  const MAX_DATAGRAMS: nat := 2
  const DESTINATION_ID: Byte := 1
  const RGB24_DATATYPE: Byte := 0x0B
  const VERSION: int := 0x40
  const PUSH: int := 0x01
  const TEST_SEQUENCE: int := 1
  const BLACKOUT_SEQUENCE: int := 2

  predicate IsSequence(sequence: int) {
    sequence == TEST_SEQUENCE || sequence == BLACKOUT_SEQUENCE
  }

  datatype Header = Header(flags: Byte, sequence: Byte, datatype_: Byte, destination: Byte, offset: int, length: int)

  /** Network byte order: one byte each, then a 32-bit offset and a 16-bit length. */
  function Pack(h: Header): (bytes: seq<Byte>)
    requires 0 <= h.offset < 0x1_0000_0000 && 0 <= h.length < 0x1_0000
    ensures |bytes| == HEADER_LENGTH
  {
    [h.flags, h.sequence, h.datatype_, h.destination,
     h.offset / 0x100_0000, h.offset / 0x1_0000 % 0x100, h.offset / 0x100 % 0x100, h.offset % 0x100,
     h.length / 0x100, h.length % 0x100]
  }

  function Unpack(bytes: seq<Byte>): Header
    requires |bytes| == HEADER_LENGTH
  {
    Header(
      bytes[0], bytes[1], bytes[2], bytes[3],
      bytes[4] as int * 0x100_0000 + bytes[5] as int * 0x1_0000 + bytes[6] as int * 0x100 + bytes[7] as int,
      bytes[8] as int * 0x100 + bytes[9] as int)
  }

  lemma HeaderRoundTrip(h: Header)
    requires 0 <= h.offset < 0x1_0000_0000 && 0 <= h.length < 0x1_0000
    ensures Unpack(Pack(h)) == h
  {
    assert h.offset / 0x100 == h.offset / 0x1_0000 * 0x100 + h.offset / 0x100 % 0x100;
    assert h.offset / 0x1_0000 == h.offset / 0x100_0000 * 0x100 + h.offset / 0x1_0000 % 0x100;
  }

  /** The last packet of a frame pushes it to the display. */
  function Flags(last: bool): Byte {
    if last then VERSION + PUSH else VERSION
  }

  function Packet(chunk: seq<Byte>, offset: int, sequence: int, last: bool): (packet: seq<Byte>)
    requires IsSequence(sequence) && 0 <= offset < 0x1_0000_0000 && |chunk| <= MAX_DATA_PAYLOAD
    ensures |packet| == HEADER_LENGTH + |chunk|
  {
    Pack(Header(Flags(last), sequence, RGB24_DATATYPE, DESTINATION_ID, offset, |chunk|)) + chunk
  }

  function BuildPackets(payload: seq<Byte>, sequence: int): (packets: Option<seq<seq<Byte>>>)
    ensures packets.Some? <==> IsSequence(sequence) && 1 <= |payload| <= MAX_FRAME_PAYLOAD
  {
    if !IsSequence(sequence) || payload == [] || |payload| > MAX_FRAME_PAYLOAD then None
    else if |payload| <= MAX_DATA_PAYLOAD then Some([Packet(payload, 0, sequence, true)])
    else Some([
      Packet(payload[..MAX_DATA_PAYLOAD], 0, sequence, false),
      Packet(payload[MAX_DATA_PAYLOAD..], MAX_DATA_PAYLOAD, sequence, true)])
  }

  // ---------- The validator ----------

  function Chunk(packet: seq<Byte>): seq<Byte> {
    if |packet| < HEADER_LENGTH then [] else packet[HEADER_LENGTH..]
  }

  /** What the packets carry, one after the other. */
  function Rebuilt(packets: seq<seq<Byte>>): seq<Byte> {
    if packets == [] then [] else Rebuilt(packets[..|packets| - 1]) + Chunk(packets[|packets| - 1])
  }

  predicate PacketFits(packet: seq<Byte>, last: bool, sequence: int, offset: int) {
    && |packet| >= HEADER_LENGTH
    && var h := Unpack(packet[..HEADER_LENGTH]);
       && h.flags == Flags(last)
       && h.sequence as int == sequence
       && h.datatype_ == RGB24_DATATYPE
       && h.destination == DESTINATION_ID
       && h.offset == offset
       && h.length == |Chunk(packet)|
       && h.length <= MAX_DATA_PAYLOAD
  }

  predicate PlanIsValid(packets: seq<seq<Byte>>, payload: seq<Byte>, sequence: int) {
    && 1 <= |packets| <= MAX_DATAGRAMS
    && (forall i :: 0 <= i < |packets| ==>
          PacketFits(packets[i], i == |packets| - 1, sequence, |Rebuilt(packets[..i])|))
    && Rebuilt(packets) == payload
  }

  method CheckPlan(packets: seq<seq<Byte>>, payload: seq<Byte>, sequence: int) returns (valid: bool)
    ensures valid <==> PlanIsValid(packets, payload, sequence)
  {
    if !(1 <= |packets| <= MAX_DATAGRAMS) {
      return false;
    }
    var rebuilt: seq<Byte> := [];
    for i := 0 to |packets|
      invariant rebuilt == Rebuilt(packets[..i])
      invariant forall j :: 0 <= j < i ==> PacketFits(packets[j], j == |packets| - 1, sequence, |Rebuilt(packets[..j])|)
    {
      if !PacketFits(packets[i], i == |packets| - 1, sequence, |rebuilt|) {
        return false;
      }
      assert packets[..i + 1][..i] == packets[..i];
      rebuilt := rebuilt + Chunk(packets[i]);
    }
    assert packets[..|packets|] == packets;
    return rebuilt == payload;
  }

  lemma PacketParts(chunk: seq<Byte>, offset: int, sequence: int, last: bool)
    requires IsSequence(sequence) && 0 <= offset < 0x1_0000_0000 && |chunk| <= MAX_DATA_PAYLOAD
    ensures var packet := Packet(chunk, offset, sequence, last);
            Chunk(packet) == chunk && PacketFits(packet, last, sequence, offset)
  {
    var h := Header(Flags(last), sequence, RGB24_DATATYPE, DESTINATION_ID, offset, |chunk|);
    HeaderRoundTrip(h);
    assert Packet(chunk, offset, sequence, last)[..HEADER_LENGTH] == Pack(h);
    hide Pack, Unpack;
  }

  /** Whatever is built passes the validator; so building never fails for the frames a probe sends. */
  lemma BuiltPlanIsValid(payload: seq<Byte>, sequence: int)
    requires BuildPackets(payload, sequence).Some?
    ensures PlanIsValid(BuildPackets(payload, sequence).value, payload, sequence)
  {
    var packets := BuildPackets(payload, sequence).value;
    hide Packet, PacketFits, Chunk;
    if |payload| <= MAX_DATA_PAYLOAD {
      PacketParts(payload, 0, sequence, true);
      assert packets[..0] == [];
    } else {
      PacketParts(payload[..MAX_DATA_PAYLOAD], 0, sequence, false);
      PacketParts(payload[MAX_DATA_PAYLOAD..], MAX_DATA_PAYLOAD, sequence, true);
      assert packets[..0] == [] && packets[..1] == [packets[0]];
      assert payload[..MAX_DATA_PAYLOAD] + payload[MAX_DATA_PAYLOAD..] == payload;
    }
  }

  // ---------- The receiver ----------

  /** A display that writes each chunk at its offset and shows the frame on the push flag. */
  function Receive(screen: seq<Byte>, packet: seq<Byte>): (seq<Byte>, bool)
    requires |packet| >= HEADER_LENGTH
  {
    var h, chunk := Unpack(packet[..HEADER_LENGTH]), Chunk(packet);
    if 0 <= h.offset && h.offset + |chunk| <= |screen| then
      (screen[..h.offset] + chunk + screen[h.offset + |chunk|..], h.flags == Flags(true))
    else
      (screen, false)
  }

  function ReceiveAll(screen: seq<Byte>, packets: seq<seq<Byte>>): (seq<Byte>, bool)
    requires forall i :: 0 <= i < |packets| ==> |packets[i]| >= HEADER_LENGTH
  {
    if packets == [] then (screen, false)
    else Receive(ReceiveAll(screen, packets[..|packets| - 1]).0, packets[|packets| - 1])
  }

  /** The first packets of a valid plan bring the head of the payload to the screen. */
  lemma {:induction false} PrefixIsShown(screen: seq<Byte>, packets: seq<seq<Byte>>, payload: seq<Byte>, sequence: int, n: nat)
    requires PlanIsValid(packets, payload, sequence) && |screen| == |payload| && n <= |packets|
    ensures |Rebuilt(packets[..n])| <= |payload|
    ensures var shown := ReceiveAll(screen, packets[..n]);
            && |shown.0| == |payload|
            && shown.0[..|Rebuilt(packets[..n])|] == Rebuilt(packets[..n])
            && (shown.1 <==> n == |packets|)
  {
    hide Unpack, Rebuilt, Chunk, Receive, Flags, PacketFits;
    RebuiltGrows(packets, n);
    RebuiltWhole(packets, payload, sequence);
    if n > 0 {
      PrefixIsShown(screen, packets, payload, sequence, n - 1);
      assert packets[..n][..n - 1] == packets[..n - 1];
      var before := packets[..n - 1];
      OneMoreIsShown(ReceiveAll(screen, before).0, Rebuilt(before), packets[n - 1], n == |packets|, sequence, |payload|);
    } else {
      NothingRebuilt(packets);
    }
  }

  lemma NothingRebuilt(packets: seq<seq<Byte>>)
    ensures Rebuilt(packets[..0]) == []
  {
  }

  lemma RebuiltWhole(packets: seq<seq<Byte>>, payload: seq<Byte>, sequence: int)
    requires PlanIsValid(packets, payload, sequence)
    ensures Rebuilt(packets) == payload
    ensures forall i :: 0 <= i < |packets| ==>
              |packets[i]| >= HEADER_LENGTH && PacketFits(packets[i], i == |packets| - 1, sequence, |Rebuilt(packets[..i])|)
  {
    hide Rebuilt, Unpack;
  }

  /** A packet that fits puts its chunk right after what is shown already. */
  lemma OneMoreIsShown(screen: seq<Byte>, shown: seq<Byte>, packet: seq<Byte>, last: bool, sequence: int, size: nat)
    requires |packet| >= HEADER_LENGTH && PacketFits(packet, last, sequence, |shown|)
    requires |screen| == size && |shown| + |Chunk(packet)| <= size && screen[..|shown|] == shown
    ensures var next := Receive(screen, packet);
            && |next.0| == size && (next.1 <==> last)
            && next.0[..|shown + Chunk(packet)|] == shown + Chunk(packet)
  {
    hide Unpack;
  }

  lemma {:induction false} RebuiltGrows(packets: seq<seq<Byte>>, n: nat)
    requires n <= |packets|
    ensures |Rebuilt(packets[..n])| <= |Rebuilt(packets)|
    ensures n > 0 ==> Rebuilt(packets[..n]) == Rebuilt(packets[..n - 1]) + Chunk(packets[n - 1])
    decreases |packets|
  {
    if n > 0 {
      assert packets[..n][..n - 1] == packets[..n - 1];
    }
    if n < |packets| {
      RebuiltGrows(packets[..|packets| - 1], n);
      assert packets[..|packets| - 1][..n] == packets[..n];
    } else {
      assert packets[..n] == packets;
    }
  }

  /** A valid plan shows exactly its payload, and only its last packet shows it. */
  lemma ValidPlanIsShown(screen: seq<Byte>, packets: seq<seq<Byte>>, payload: seq<Byte>, sequence: int)
    requires PlanIsValid(packets, payload, sequence) && |screen| == |payload|
    ensures ReceiveAll(screen, packets) == (payload, true)
  {
    PrefixIsShown(screen, packets, payload, sequence, |packets|);
    assert packets[..|packets|] == packets;
    var shown := ReceiveAll(screen, packets).0;
    assert shown[..|payload|] == shown;
  }

  // ---------- The two frames of a probe ----------

  const MAX_LEDS: int := 512

  function Frame(rgb: seq<Byte>, leds: nat): (payload: seq<Byte>)
    ensures |payload| == leds * |rgb|
  {
    if leds == 0 then [] else Frame(rgb, leds - 1) + rgb
  }

  /** Every LED of a frame shows the same. */
  lemma {:induction false} FrameIsUniform(rgb: seq<Byte>, leds: nat)
    requires |rgb| == 3
    ensures forall i :: 0 <= i < leds ==> Frame(rgb, leds)[3 * i..3 * i + 3] == rgb
  {
    if leds > 0 {
      FrameIsUniform(rgb, leds - 1);
      forall i | 0 <= i < leds
        ensures Frame(rgb, leds)[3 * i..3 * i + 3] == rgb
      {
        assert i < leds - 1 ==> Frame(rgb, leds)[3 * i..3 * i + 3] == Frame(rgb, leds - 1)[3 * i..3 * i + 3];
      }
    }
  }

  const TEST_RGB: seq<Byte> := [0, 0, 0x10]
  const BLACKOUT_RGB: seq<Byte> := [0, 0, 0]

  function ExpectedPackets(bytes: int): int {
    (bytes + MAX_DATA_PAYLOAD - 1) / MAX_DATA_PAYLOAD
  }

  /** Both frames can always be built, in equally many packets, as many as the result validator expects. */
  lemma FramesAreBuilt(leds: int)
    requires 1 <= leds <= MAX_LEDS
    ensures var test := BuildPackets(Frame(TEST_RGB, leds), TEST_SEQUENCE);
            var blackout := BuildPackets(Frame(BLACKOUT_RGB, leds), BLACKOUT_SEQUENCE);
            && test.Some? && blackout.Some?
            && |test.value| == |blackout.value| == ExpectedPackets(leds * 3)
            && 1 <= |test.value| <= MAX_DATAGRAMS
  {
    hide Frame, Packet;
  }
}
