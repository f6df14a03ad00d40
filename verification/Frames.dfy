/** The byte frames of src/SomeipClient/someip_client.cpp, and the two ways of reading them back: by the length
    field, and by the header stripping of src/main.cpp. */
module Frames {
  type Byte = x: int | 0 <= x < 256

  // The header is copied out of memory, so its numbers are in the order of the host.
  datatype ByteOrder = LittleEndian | BigEndian

  const HEADER_SIZE: nat := 8
  const TWO_TO_16: int := 0x1_0000
  const TWO_TO_32: int := 0x1_0000_0000

  type U16 = x: int | 0 <= x < TWO_TO_16
  type U32 = x: int | 0 <= x < TWO_TO_32

  function Bytes16(o: ByteOrder, n: U16): (b: seq<Byte>)
    ensures |b| == 2
  {
    if o.LittleEndian? then [n % 256, n / 256] else [n / 256, n % 256]
  }

  function Bytes32(o: ByteOrder, n: U32): (b: seq<Byte>)
    ensures |b| == 4
  {
    var low, high := Bytes16(o, n % TWO_TO_16), Bytes16(o, n / TWO_TO_16);
    if o.LittleEndian? then low + high else high + low
  }

  function Number16(o: ByteOrder, b: seq<Byte>): U16
    requires |b| == 2
  {
    var first: int, second: int := b[0], b[1];
    if o.LittleEndian? then first + 256 * second else second + 256 * first
  }

  function Number32(o: ByteOrder, b: seq<Byte>): U32
    requires |b| == 4
  {
    var first: int, second: int := Number16(o, b[..2]), Number16(o, b[2..]);
    if o.LittleEndian? then first + TWO_TO_16 * second else second + TWO_TO_16 * first
  }

  lemma Number32Reads(o: ByteOrder, n: U32)
    ensures Number32(o, Bytes32(o, n)) == n
  {
    var low, high := Bytes16(o, n % TWO_TO_16), Bytes16(o, n / TWO_TO_16);
    assert Number16(o, low) == n % TWO_TO_16 && Number16(o, high) == n / TWO_TO_16;
    var b := Bytes32(o, n);
    assert b[..2] == (if o.LittleEndian? then low else high);
    assert b[2..] == (if o.LittleEndian? then high else low);
  }

  datatype Sender = Sender(order: ByteOrder, serviceId: U16, methodId: U16)

  // The length field holds the payload size cut down to 32 bits.
  function Header(d: Sender, size: nat): (b: seq<Byte>)
    ensures |b| == HEADER_SIZE
  {
    Bytes16(d.order, d.serviceId) + Bytes16(d.order, d.methodId) + Bytes32(d.order, size % TWO_TO_32)
  }

  function Frame(d: Sender, payload: seq<Byte>): (b: seq<Byte>)
    ensures |b| == HEADER_SIZE + |payload|
  {
    Header(d, |payload|) + payload
  }

  // The frame byte by byte: service id, method id, and length as the host keeps them, then the payload.
  predicate LaidOut(d: Sender, payload: seq<Byte>, f: seq<Byte>) {
    && |f| == 8 + |payload| && f[8..] == payload
    && var service: int, operation: int, size: int := d.serviceId, d.methodId, |payload| % 0x1_0000_0000;
       match d.order
       case LittleEndian =>
         && f[0] == service % 0x100 && f[1] == service / 0x100
         && f[2] == operation % 0x100 && f[3] == operation / 0x100
         && f[4] == size % 0x100 && f[5] == size / 0x100 % 0x100
         && f[6] == size / 0x1_0000 % 0x100 && f[7] == size / 0x100_0000
       case BigEndian =>
         && f[0] == service / 0x100 && f[1] == service % 0x100
         && f[2] == operation / 0x100 && f[3] == operation % 0x100
         && f[4] == size / 0x100_0000 && f[5] == size / 0x1_0000 % 0x100
         && f[6] == size / 0x100 % 0x100 && f[7] == size % 0x100
  }

  lemma Quarters(n: U32)
    ensures n % TWO_TO_16 % 256 == n % 0x100
    ensures n % TWO_TO_16 / 256 == n / 0x100 % 0x100
    ensures n / TWO_TO_16 % 256 == n / 0x1_0000 % 0x100
    ensures n / TWO_TO_16 / 256 == n / 0x100_0000
  {
  }

  lemma FrameIsLaidOut(d: Sender, payload: seq<Byte>)
    ensures LaidOut(d, payload, Frame(d, payload))
  {
    Quarters(|payload| % TWO_TO_32);
    assert Frame(d, payload)[8..] == payload;
  }

  // `publish` sizes a buffer and copies header and payload into it.
  method BuildFrame(d: Sender, payload: seq<Byte>) returns (frame: array<Byte>)
    ensures fresh(frame)
    ensures frame[..] == Frame(d, payload) && LaidOut(d, payload, frame[..])
  {
    var header := Header(d, |payload|);
    frame := new Byte[HEADER_SIZE + |payload|](_ => 0);
    for i := 0 to HEADER_SIZE
      invariant forall k :: 0 <= k < i ==> frame[k] == header[k]
    {
      frame[i] := header[i];
    }
    for i := 0 to |payload|
      invariant forall k :: 0 <= k < HEADER_SIZE ==> frame[k] == header[k]
      invariant forall k :: 0 <= k < i ==> frame[HEADER_SIZE + k] == payload[k]
    {
      frame[HEADER_SIZE + i] := payload[i];
    }
    assert frame[..HEADER_SIZE] == header && frame[HEADER_SIZE..] == payload;
    assert frame[..] == frame[..HEADER_SIZE] + frame[HEADER_SIZE..];
    FrameIsLaidOut(d, payload);
  }

  // ----- Reading by the length field -----

  function LengthField(o: ByteOrder, bytes: seq<Byte>): U32
    requires |bytes| >= HEADER_SIZE
  {
    Number32(o, bytes[4..8])
  }

  // The payloads of the whole frames at the front of a stream; an unfinished frame at the end is left out.
  function Decode(o: ByteOrder, bytes: seq<Byte>): seq<seq<Byte>>
    decreases |bytes|
  {
    if |bytes| < HEADER_SIZE then []
    else
      var n := LengthField(o, bytes);
      if |bytes| < HEADER_SIZE + n then []
      else [bytes[HEADER_SIZE..HEADER_SIZE + n]] + Decode(o, bytes[HEADER_SIZE + n..])
  }

  function Stream(d: Sender, payloads: seq<seq<Byte>>): seq<Byte> {
    if payloads == [] then [] else Frame(d, payloads[0]) + Stream(d, payloads[1..])
  }

  lemma LengthFieldReads(d: Sender, payload: seq<Byte>, rest: seq<Byte>)
    ensures LengthField(d.order, Frame(d, payload) + rest) == |payload| % TWO_TO_32
  {
    assert (Frame(d, payload) + rest)[4..8] == Bytes32(d.order, |payload| % TWO_TO_32);
    Number32Reads(d.order, |payload| % TWO_TO_32);
  }

  lemma DecodeFrame(d: Sender, payload: seq<Byte>, rest: seq<Byte>)
    requires |payload| < TWO_TO_32
    ensures Decode(d.order, Frame(d, payload) + rest) == [payload] + Decode(d.order, rest)
  {
    var bytes := Frame(d, payload) + rest;
    LengthFieldReads(d, payload, rest);
    assert |payload| % TWO_TO_32 == |payload|;
    assert bytes[HEADER_SIZE..HEADER_SIZE + |payload|] == payload;
    assert bytes[HEADER_SIZE + |payload|..] == rest;
  }

  // A piece of a frame that is not the whole frame decodes to nothing.
  lemma DecodePartialFrame(d: Sender, payload: seq<Byte>, n: nat)
    requires |payload| < TWO_TO_32 && n < HEADER_SIZE + |payload|
    ensures Decode(d.order, Frame(d, payload)[..n]) == []
  {
    if n >= HEADER_SIZE {
      assert Frame(d, payload)[..n][4..8] == Bytes32(d.order, |payload|);
      Number32Reads(d.order, |payload|);
    }
  }

  // Reading back a stream of whole frames.
  lemma {:induction false} DecodeStream(d: Sender, payloads: seq<seq<Byte>>)
    requires forall i :: 0 <= i < |payloads| ==> |payloads[i]| < TWO_TO_32
    ensures Decode(d.order, Stream(d, payloads)) == payloads
  {
    if payloads != [] {
      DecodeFrame(d, payloads[0], Stream(d, payloads[1..]));
      DecodeStream(d, payloads[1..]);
    }
  }

  // ----- A reader that looks at the whole header -----

  datatype Received = Received(serviceId: U16, methodId: U16, payload: seq<Byte>)

  function Receive(o: ByteOrder, bytes: seq<Byte>): seq<Received>
    decreases |bytes|
  {
    if |bytes| < HEADER_SIZE then []
    else
      var n := LengthField(o, bytes);
      if |bytes| < HEADER_SIZE + n then []
      else
        [Received(Number16(o, bytes[0..2]), Number16(o, bytes[2..4]), bytes[HEADER_SIZE..HEADER_SIZE + n])]
        + Receive(o, bytes[HEADER_SIZE + n..])
  }

  // What was sent, as it should arrive.
  function AsSent(d: Sender, payloads: seq<seq<Byte>>): seq<Received> {
    if payloads == [] then []
    else [Received(d.serviceId, d.methodId, payloads[0])] + AsSent(d, payloads[1..])
  }

  lemma HeaderReads(d: Sender, payload: seq<Byte>, rest: seq<Byte>)
    ensures var bytes := Frame(d, payload) + rest;
      Number16(d.order, bytes[0..2]) == d.serviceId && Number16(d.order, bytes[2..4]) == d.methodId
  {
    var bytes := Frame(d, payload) + rest;
    assert bytes[0..2] == Bytes16(d.order, d.serviceId);
    assert bytes[2..4] == Bytes16(d.order, d.methodId);
  }

  lemma ReceiveFrame(d: Sender, payload: seq<Byte>, rest: seq<Byte>)
    requires |payload| < TWO_TO_32
    ensures Receive(d.order, Frame(d, payload) + rest)
            == [Received(d.serviceId, d.methodId, payload)] + Receive(d.order, rest)
  {
    var bytes := Frame(d, payload) + rest;
    HeaderReads(d, payload, rest);
    LengthFieldReads(d, payload, rest);
    assert |payload| % TWO_TO_32 == |payload|;
    assert bytes[HEADER_SIZE..HEADER_SIZE + |payload|] == payload;
    assert bytes[HEADER_SIZE + |payload|..] == rest;
  }

  // Service id, method id and payload of every frame are recovered from a stream of whole frames.
  lemma {:induction false} ReceiveStream(d: Sender, payloads: seq<seq<Byte>>)
    requires forall i :: 0 <= i < |payloads| ==> |payloads[i]| < TWO_TO_32
    ensures Receive(d.order, Stream(d, payloads)) == AsSent(d, payloads)
  {
    if payloads != [] {
      ReceiveFrame(d, payloads[0], Stream(d, payloads[1..]));
      ReceiveStream(d, payloads[1..]);
    }
  }

  lemma {:induction false} AsSentAt(d: Sender, payloads: seq<seq<Byte>>, i: nat)
    requires i < |payloads|
    ensures |AsSent(d, payloads)| == |payloads|
    ensures AsSent(d, payloads)[i] == Received(d.serviceId, d.methodId, payloads[i])
  {
    if i > 0 {
      AsSentAt(d, payloads[1..], i - 1);
    } else if |payloads| > 1 {
      AsSentAt(d, payloads[1..], 0);
    }
  }

  // Both readers find the same frames.
  lemma {:induction false} ReadersAgree(o: ByteOrder, bytes: seq<Byte>)
    ensures |Receive(o, bytes)| == |Decode(o, bytes)|
    ensures forall i :: 0 <= i < |Decode(o, bytes)| ==> Receive(o, bytes)[i].payload == Decode(o, bytes)[i]
    decreases |bytes|
  {
    if |bytes| >= HEADER_SIZE {
      var n := LengthField(o, bytes);
      if |bytes| >= HEADER_SIZE + n {
        ReadersAgree(o, bytes[HEADER_SIZE + n..]);
      }
    }
  }

  // The length field is cut to 32 bits, and that is the only limit: a frame reads back as its payload exactly
  // when the payload is shorter than 2^32 bytes.
  lemma FrameReadsBackIffShort(d: Sender, payload: seq<Byte>)
    ensures Decode(d.order, Frame(d, payload)) == [payload] <==> |payload| < TWO_TO_32
  {
    var bytes := Frame(d, payload);
    assert bytes + [] == bytes;
    if |payload| < TWO_TO_32 {
      DecodeFrame(d, payload, []);
    } else {
      LengthFieldReads(d, payload, []);
      assert |Decode(d.order, bytes)[0]| == |payload| % TWO_TO_32 < |payload|;
    }
  }

  // ----- A connection and what its sends put on the wire -----

  // One publish: the payload, and what send() returned.
  datatype Send = Send(payload: seq<Byte>, sent: int)

  predicate Possible(x: Send) {
    -1 <= x.sent <= HEADER_SIZE + |x.payload|
  }

  predicate Succeeded(x: Send) {
    x.sent == HEADER_SIZE + |x.payload|
  }

  function OnWire(d: Sender, x: Send): seq<Byte>
    requires Possible(x)
  {
    if x.sent < 0 then [] else Frame(d, x.payload)[..x.sent]
  }

  function Wire(d: Sender, sends: seq<Send>): seq<Byte>
    requires forall i :: 0 <= i < |sends| ==> Possible(sends[i])
  {
    if sends == [] then [] else OnWire(d, sends[0]) + Wire(d, sends[1..])
  }

  lemma {:induction false} WireGrows(d: Sender, sends: seq<Send>, x: Send)
    requires forall i :: 0 <= i < |sends| ==> Possible(sends[i])
    requires Possible(x)
    ensures Wire(d, sends + [x]) == Wire(d, sends) + OnWire(d, x)
  {
    if sends == [] {
      assert Wire(d, [x]) == OnWire(d, x) + Wire(d, []);
    } else {
      WireGrows(d, sends[1..], x);
      assert (sends + [x])[1..] == sends[1..] + [x];
    }
  }

  // The payloads whose publish returned true.
  function Confirmed(sends: seq<Send>): seq<seq<Byte>> {
    if sends == [] then []
    else (if Succeeded(sends[0]) then [sends[0].payload] else []) + Confirmed(sends[1..])
  }

  // The send stopped in the middle of its frame.
  predicate Cut(x: Send) {
    x.sent > 0 && !Succeeded(x)
  }

  // Nothing of the frame went out, or all of it, with a payload the length field can count.
  predicate Whole(x: Send) {
    x.sent <= 0 || (Succeeded(x) && |x.payload| < TWO_TO_32)
  }

  lemma WholeSendReadsBack(d: Sender, x: Send, rest: seq<Byte>)
    requires Possible(x) && Whole(x)
    ensures Decode(d.order, OnWire(d, x) + rest) ==
            (if Succeeded(x) then [x.payload] else []) + Decode(d.order, rest)
  {
    if Succeeded(x) {
      assert OnWire(d, x) == Frame(d, x.payload);
      DecodeFrame(d, x.payload, rest);
    } else {
      assert OnWire(d, x) == [] && [] + rest == rest;
    }
  }

  lemma WireSplits(d: Sender, sends: seq<Send>, rest: seq<Byte>)
    requires forall i :: 0 <= i < |sends| ==> Possible(sends[i])
    requires sends != []
    ensures Wire(d, sends) + rest == OnWire(d, sends[0]) + (Wire(d, sends[1..]) + rest)
  {
  }

  lemma ConfirmedSplits(sends: seq<Send>, more: seq<seq<Byte>>)
    requires sends != []
    ensures Confirmed(sends) + more ==
            (if Succeeded(sends[0]) then [sends[0].payload] else []) + (Confirmed(sends[1..]) + more)
  {
  }

  // As long as every frame went out whole the reader recovers exactly the payloads whose publish returned true,
  // and goes on with whatever comes after them.
  lemma {:induction false} WireReadsBack(d: Sender, sends: seq<Send>, rest: seq<Byte>)
    requires forall i :: 0 <= i < |sends| ==> Possible(sends[i]) && Whole(sends[i])
    ensures Decode(d.order, Wire(d, sends) + rest) == Confirmed(sends) + Decode(d.order, rest)
  {
    if sends == [] {
      assert Wire(d, sends) + rest == rest;
    } else {
      WireReadsBack(d, sends[1..], rest);
      WholeSendReadsBack(d, sends[0], Wire(d, sends[1..]) + rest);
      WireSplits(d, sends, rest);
      ConfirmedSplits(sends, Decode(d.order, rest));
    }
  }

  // And a cut frame at the end of the stream is left out, not misread.
  lemma CutAtTheEndIsLeftOut(d: Sender, sends: seq<Send>, x: Send)
    requires forall i :: 0 <= i < |sends| ==> Possible(sends[i]) && Whole(sends[i])
    requires Possible(x) && Cut(x) && |x.payload| < TWO_TO_32
    ensures Decode(d.order, Wire(d, sends + [x])) == Confirmed(sends)
  {
    WireGrows(d, sends, x);
    WireReadsBack(d, sends, OnWire(d, x));
    DecodePartialFrame(d, x.payload, x.sent);
  }

  lemma {:induction false} WholeFramesOnWire(d: Sender, sends: seq<Send>)
    requires forall i :: 0 <= i < |sends| ==> Possible(sends[i]) && Succeeded(sends[i])
    ensures Wire(d, sends) == Stream(d, Confirmed(sends)) && |Confirmed(sends)| == |sends|
  {
    if sends != [] {
      WholeFramesOnWire(d, sends[1..]);
      assert OnWire(d, sends[0]) == Frame(d, sends[0].payload);
      assert Confirmed(sends)[1..] == Confirmed(sends[1..]);
    }
  }

  // ----- `publish` reports a short send but leaves the connection open: what becomes of the next frame -----

  const EXAMPLE_SENDER := Sender(LittleEndian, 0x1234, 0x0001)
  const EXAMPLE_HEADER: seq<Byte> := [0x34, 0x12, 0x01, 0x00, 0x01, 0x00, 0x00, 0x00]

  lemma ExampleIsMisread()
    ensures Decode(LittleEndian, EXAMPLE_HEADER + (EXAMPLE_HEADER + [2])) == [[0x34]]
  {
    var bytes := EXAMPLE_HEADER + (EXAMPLE_HEADER + [2]);
    assert bytes[4..8] == [0x01, 0x00, 0x00, 0x00];
    assert LengthField(LittleEndian, bytes) == 1;
    assert bytes[8] == EXAMPLE_HEADER[0] && bytes[8..9] == [bytes[8]];
    var rest := bytes[9..];
    assert rest == EXAMPLE_HEADER[1..] + [2];
    assert rest[4..8] == [0x00, 0x00, 0x00, 0x02];
    assert LengthField(LittleEndian, rest) == 0x0200_0000;
    assert Decode(LittleEndian, rest) == [];
  }

  // For example: only the second publish succeeds, with payload 2, and the reader finds the first byte of its
  // header instead.
  lemma ShortSendMisaligns()
    ensures var d := Sender(LittleEndian, 0x1234, 0x0001);
            var sends := [Send([1], 8), Send([2], 9)];
            && (forall i :: 0 <= i < |sends| ==> Possible(sends[i]))
            && Confirmed(sends) == [[2]]
            && Decode(d.order, Wire(d, sends)) == [[0x34]]
  {
    var d := EXAMPLE_SENDER;
    var sends := [Send([1], 8), Send([2], 9)];
    assert Header(d, 1) == EXAMPLE_HEADER;
    assert OnWire(d, sends[0]) == EXAMPLE_HEADER;
    assert OnWire(d, sends[1]) == EXAMPLE_HEADER + [2];
    assert sends[1..] == [sends[1]] && sends[1..][1..] == [];
    assert Wire(d, [sends[1]]) == EXAMPLE_HEADER + [2] + Wire(d, []);
    assert Wire(d, sends) == EXAMPLE_HEADER + (EXAMPLE_HEADER + [2]);
    assert Confirmed([sends[1]]) == [[2]] + Confirmed([]);
    ExampleIsMisread();
  }

  // How many bytes the frames of these payloads take, and how many a history of sends left of cut frames.
  function Size(payloads: seq<seq<Byte>>): nat {
    if payloads == [] then 0 else HEADER_SIZE + |payloads[0]| + Size(payloads[1..])
  }

  function CutBytes(sends: seq<Send>): nat {
    if sends == [] then 0 else (if Cut(sends[0]) then sends[0].sent else 0) + CutBytes(sends[1..])
  }

  lemma {:induction false} WireSize(d: Sender, sends: seq<Send>)
    requires forall i :: 0 <= i < |sends| ==> Possible(sends[i])
    ensures |Wire(d, sends)| == Size(Confirmed(sends)) + CutBytes(sends)
  {
    if sends != [] {
      WireSize(d, sends[1..]);
      var rest := Confirmed(sends[1..]);
      assert ([sends[0].payload] + rest)[1..] == rest && [] + rest == rest;
    }
  }

  lemma {:induction false} NoCutBytesIffNoCut(sends: seq<Send>)
    ensures CutBytes(sends) == 0 <==> forall i :: 0 <= i < |sends| ==> !Cut(sends[i])
  {
    if sends != [] {
      NoCutBytesIffNoCut(sends[1..]);
      assert forall i :: 0 < i < |sends| ==> sends[i] == sends[1..][i - 1];
    }
  }

  lemma {:induction false} ConfirmedAt(sends: seq<Send>, i: nat) returns (k: nat)
    requires i < |sends| && Succeeded(sends[i])
    ensures k < |Confirmed(sends)| && Confirmed(sends)[k] == sends[i].payload
  {
    if i == 0 {
      k := 0;
    } else {
      k := ConfirmedAt(sends[1..], i - 1);
      k := if Succeeded(sends[0]) then k + 1 else k;
    }
  }

  // The last payload read is read where the others end.
  lemma {:induction false} LastIsReadAfterOthers(o: ByteOrder, bytes: seq<Byte>, payloads: seq<seq<Byte>>, q: seq<Byte>)
    requires Decode(o, bytes) == payloads + [q]
    ensures Size(payloads) <= |bytes| && Decode(o, bytes[Size(payloads)..]) == [q]
  {
    if payloads == [] {
      assert bytes[0..] == bytes && payloads + [q] == [q];
    } else {
      var n := LengthField(o, bytes);
      var rest := bytes[HEADER_SIZE + n..];
      assert Decode(o, bytes)[0] == payloads[0] && Decode(o, bytes)[1..] == Decode(o, rest);
      assert (payloads + [q])[1..] == payloads[1..] + [q];
      LastIsReadAfterOthers(o, rest, payloads[1..], q);
      assert bytes[Size(payloads)..] == rest[Size(payloads[1..])..];
    }
  }

  lemma {:induction false} DecodedAreShort(o: ByteOrder, bytes: seq<Byte>, i: nat)
    requires i < |Decode(o, bytes)|
    ensures |Decode(o, bytes)[i]| < TWO_TO_32
  {
    if i > 0 {
      DecodedAreShort(o, bytes[HEADER_SIZE + LengthField(o, bytes)..], i - 1);
    }
  }

  // Where the lowest byte of the length stands in a header.
  function LowByte(o: ByteOrder): nat {
    if o.LittleEndian? then 4 else 7
  }

  lemma LengthHasLowByte(o: ByteOrder, bytes: seq<Byte>)
    requires |bytes| >= HEADER_SIZE
    ensures LengthField(o, bytes) % 256 == bytes[LowByte(o)]
  {
    var b := bytes[4..8];
    assert b[..2][0] == bytes[4] && b[2..][1] == bytes[7];
    var first: int, second: int := Number16(o, b[..2]), Number16(o, b[2..]);
    if o.LittleEndian? {
      var b0: int, b1: int := b[..2][0], b[..2][1];
      assert LengthField(o, bytes) == b0 + 256 * (b1 + 256 * second);
    } else {
      var b2: int, b3: int := b[2..][0], b[2..][1];
      assert LengthField(o, bytes) == b3 + 256 * (b2 + 256 * first);
    }
  }

  // The headers of an empty payload and of a one-byte payload differ in that byte only.
  lemma HeadersDifferInLowByte(d: Sender, j: nat)
    requires j < HEADER_SIZE && j != LowByte(d.order)
    ensures Header(d, 0)[j] == Header(d, 1)[j]
  {
    assert 0 % TWO_TO_32 == 0 && 1 % TWO_TO_32 == 1;
    assert Bytes32(LittleEndian, 0) == [0, 0, 0, 0] && Bytes32(LittleEndian, 1) == [1, 0, 0, 0];
    assert Bytes32(BigEndian, 0) == [0, 0, 0, 0] && Bytes32(BigEndian, 1) == [0, 0, 0, 1];
  }

  lemma LowByteIsShifted(d: Sender, left: seq<Byte>)
    requires left != []
    ensures (left + Frame(d, []))[LowByte(d.order)] == (left + Frame(d, [0]))[LowByte(d.order)]
  {
    if |left| <= LowByte(d.order) {
      HeadersDifferInLowByte(d, LowByte(d.order) - |left|);
    }
  }

  // Bytes left over in front of a frame always spoil it for some payload: they shift the length field, so the
  // lowest byte of the length the reader sees cannot follow the payload.
  lemma LeftoverSpoilsNextFrame(d: Sender, left: seq<Byte>)
    requires Decode(d.order, left + Frame(d, [])) == [[]]
    requires Decode(d.order, left + Frame(d, [0])) == [[0]]
    ensures left == []
  {
    var none, one := left + Frame(d, []), left + Frame(d, [0]);
    LengthHasLowByte(d.order, none);
    LengthHasLowByte(d.order, one);
    assert |Decode(d.order, none)[0]| == LengthField(d.order, none);
    assert |Decode(d.order, one)[0]| == LengthField(d.order, one);
    if left != [] {
      LowByteIsShifted(d, left);
    }
  }

  // The next frame, if it holds `q`, will be read back after all that was confirmed before it.
  predicate NextReadsBack(d: Sender, sends: seq<Send>, q: seq<Byte>)
    requires forall i :: 0 <= i < |sends| ==> Possible(sends[i])
  {
    Decode(d.order, Wire(d, sends) + Frame(d, q)) == Confirmed(sends) + [q]
  }

  // And so it will whatever it holds.
  ghost predicate ReadsOn(d: Sender, sends: seq<Send>)
    requires forall i :: 0 <= i < |sends| ==> Possible(sends[i])
  {
    forall q: seq<Byte> {:trigger NextReadsBack(d, sends, q)} | |q| < TWO_TO_32 :: NextReadsBack(d, sends, q)
  }

  lemma WholeReadsOn(d: Sender, sends: seq<Send>)
    requires forall i :: 0 <= i < |sends| ==> Possible(sends[i]) && Whole(sends[i])
    ensures ReadsOn(d, sends)
  {
    forall q: seq<Byte> | |q| < TWO_TO_32
      ensures NextReadsBack(d, sends, q)
    {
      WireReadsBack(d, sends, Frame(d, q));
      FrameReadsBackIffShort(d, q);
    }
  }

  // What is left of the wire behind the confirmed frames would stand in front of the next frame.
  lemma ReadAfterConfirmed(d: Sender, sends: seq<Send>, q: seq<Byte>)
    requires forall i :: 0 <= i < |sends| ==> Possible(sends[i])
    requires NextReadsBack(d, sends, q)
    ensures Size(Confirmed(sends)) <= |Wire(d, sends)|
    ensures Decode(d.order, Wire(d, sends)[Size(Confirmed(sends))..] + Frame(d, q)) == [q]
  {
    var wire, n := Wire(d, sends), Size(Confirmed(sends));
    WireSize(d, sends);
    LastIsReadAfterOthers(d.order, wire + Frame(d, q), Confirmed(sends), q);
    assert (wire + Frame(d, q))[n..] == wire[n..] + Frame(d, q);
  }

  lemma NothingLeft(d: Sender, sends: seq<Send>)
    requires forall i :: 0 <= i < |sends| ==> Possible(sends[i])
    requires NextReadsBack(d, sends, []) && NextReadsBack(d, sends, [0])
    ensures |Wire(d, sends)| == Size(Confirmed(sends))
  {
    ReadAfterConfirmed(d, sends, []);
    ReadAfterConfirmed(d, sends, [0]);
    LeftoverSpoilsNextFrame(d, Wire(d, sends)[Size(Confirmed(sends))..]);
  }

  lemma ReadsOnIsUncut(d: Sender, sends: seq<Send>)
    requires forall i :: 0 <= i < |sends| ==> Possible(sends[i])
    requires NextReadsBack(d, sends, []) && NextReadsBack(d, sends, [0])
    ensures forall i :: 0 <= i < |sends| ==> !Cut(sends[i])
  {
    NothingLeft(d, sends);
    WireSize(d, sends);
    NoCutBytesIffNoCut(sends);
  }

  lemma ReadsOnIsShort(d: Sender, sends: seq<Send>, i: nat)
    requires forall i :: 0 <= i < |sends| ==> Possible(sends[i])
    requires NextReadsBack(d, sends, [])
    requires i < |sends| && Succeeded(sends[i])
    ensures |sends[i].payload| < TWO_TO_32
  {
    var bytes := Wire(d, sends) + Frame(d, []);
    var k := ConfirmedAt(sends, i);
    DecodedAreShort(d.order, bytes, k);
  }

  lemma ReadsOnAt(d: Sender, sends: seq<Send>, q: seq<Byte>)
    requires forall i :: 0 <= i < |sends| ==> Possible(sends[i])
    requires ReadsOn(d, sends) && |q| < TWO_TO_32
    ensures NextReadsBack(d, sends, q)
  {
  }

  lemma NextReadsBackIsWhole(d: Sender, sends: seq<Send>, i: nat)
    requires forall i :: 0 <= i < |sends| ==> Possible(sends[i])
    requires NextReadsBack(d, sends, []) && NextReadsBack(d, sends, [0]) && i < |sends|
    ensures Whole(sends[i])
  {
    ReadsOnIsUncut(d, sends);
    if Succeeded(sends[i]) {
      ReadsOnIsShort(d, sends, i);
    }
  }

  lemma ReadsOnIsWhole(d: Sender, sends: seq<Send>, i: nat)
    requires forall i :: 0 <= i < |sends| ==> Possible(sends[i])
    requires ReadsOn(d, sends) && i < |sends|
    ensures Whole(sends[i])
  {
    ReadsOnAt(d, sends, []);
    ReadsOnAt(d, sends, [0]);
    NextReadsBackIsWhole(d, sends, i);
  }

  // Exactly when every frame so far went out whole or not at all, and none was too long for its length field:
  // one cut is enough, and nothing sent later on the connection ever repairs it.
  lemma ReadsOnIffAllWhole(d: Sender, sends: seq<Send>)
    requires forall i :: 0 <= i < |sends| ==> Possible(sends[i])
    ensures ReadsOn(d, sends) <==> forall i :: 0 <= i < |sends| ==> Whole(sends[i])
  {
    if ReadsOn(d, sends) {
      forall i | 0 <= i < |sends|
        ensures Whole(sends[i])
      {
        ReadsOnIsWhole(d, sends, i);
      }
    } else if forall i :: 0 <= i < |sends| ==> Whole(sends[i]) {
      WholeReadsOn(d, sends);
    }
  }

  // So a cut is for ever: whether the connection can still be read changes only with the next send being cut.
  lemma OnlyACutSpoils(d: Sender, sends: seq<Send>, x: Send)
    requires forall i :: 0 <= i < |sends| ==> Possible(sends[i])
    requires Possible(x)
    ensures ReadsOn(d, sends + [x]) <==> ReadsOn(d, sends) && Whole(x)
  {
    var all := sends + [x];
    ReadsOnIffAllWhole(d, sends);
    ReadsOnIffAllWhole(d, all);
    assert forall i :: 0 <= i < |sends| ==> all[i] == sends[i];
    assert all[|sends|] == x;
  }

  // ----- The cloud listener -----

  // What runCloudListener makes of `received` bytes in its buffer. If they are the first bytes of one frame, it
  // shows exactly as much of the payload as has arrived.
  method StripHeader(buffer: array<Byte>, received: int) returns (payload: seq<Byte>)
    requires buffer.Length == 2048 && -1 <= received <= 2048
    ensures payload == if received <= 8 then [] else buffer[8..received]
    ensures forall d: Sender, sent: seq<Byte> ::
              0 <= received <= |Frame(d, sent)| && buffer[..received] == Frame(d, sent)[..received] ==>
                payload == sent[..if received <= 8 then 0 else received - 8]
  {
    payload := [];
    if received > 0 {
      var payloadSize := if received - HEADER_SIZE > 0 then received - HEADER_SIZE else 0;
      var payloadOffset := if received < HEADER_SIZE then received else HEADER_SIZE;
      if payloadSize > 0 {
        payload := buffer[payloadOffset..payloadOffset + payloadSize];
      }
    }
    forall d: Sender, sent: seq<Byte> |
        0 <= received <= |Frame(d, sent)| && buffer[..received] == Frame(d, sent)[..received]
      ensures payload == sent[..if received <= HEADER_SIZE then 0 else received - HEADER_SIZE]
    {
      if received > HEADER_SIZE {
        assert buffer[HEADER_SIZE..received] == buffer[..received][HEADER_SIZE..];
        assert Frame(d, sent)[..received][HEADER_SIZE..] == sent[..received - HEADER_SIZE];
      }
    }
  }
}
