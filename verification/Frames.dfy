/** WebSocket frames as the benchmark client prints and reads them (RFC 6455, sections 5.2 and 5.3). */
module Frames {
  import opened Prelude

  type Byte = b: nat | b < 256
  type Bytes = seq<Byte>

  // ---- Lengths

  function Power(k: nat): nat {
    if k == 0 then 1 else 256 * Power(k - 1)
  }

  /** `k` bytes in network order. */
  function BigEndian(n: nat, k: nat): (r: Bytes)
    ensures |r| == k
  {
    if k == 0 then [] else BigEndian(n / 256, k - 1) + [n % 256]
  }

  function Value(bs: Bytes): nat {
    if bs == [] then 0 else 256 * Value(bs[..|bs| - 1]) + bs[|bs| - 1]
  }

  lemma {:induction false} BigEndianValue(n: nat, k: nat)
    requires n < Power(k)
    ensures Value(BigEndian(n, k)) == n
  {
    if k > 0 {
      BigEndianValue(n / 256, k - 1);
      var r := BigEndian(n, k);
      assert r[..|r| - 1] == BigEndian(n / 256, k - 1);
    }
  }

  // ---- Reading

  /** Where the payload starts and how long it is. */
  datatype Header = Header(offset: nat, length: nat)

  function ReadHeader(b: Bytes): Option<Header> {
    if |b| < 2 then None
    else
      var short := b[1] % 128;
      if short == 126 then if |b| < 4 then None else Some(Header(4, Value(b[2..4])))
      else if short == 127 then if |b| < 10 then None else Some(Header(10, Value(b[2..10])))
      else Some(Header(2, short))
  }

  function End(h: Header): nat { h.offset + h.length }

  /** The buffer starts with a whole frame. */
  predicate Complete(b: Bytes) {
    ReadHeader(b).Some? && End(ReadHeader(b).value) <= |b|
  }

  function First(b: Bytes): Bytes
    requires Complete(b)
  {
    b[ReadHeader(b).value.offset..End(ReadHeader(b).value)]
  }

  function Rest(b: Bytes): (r: Bytes)
    requires Complete(b)
    ensures |r| < |b|
  {
    b[End(ReadHeader(b).value)..]
  }

  datatype Parsed = Parsed(frames: seq<Bytes>, rest: Bytes)

  function Parse(b: Bytes): Parsed
    decreases |b|
  {
    if !Complete(b) then Parsed([], b)
    else
      var p := Parse(Rest(b));
      Parsed([First(b)] + p.frames, p.rest)
  }

  lemma LongerHeader(b: Bytes, more: Bytes)
    requires ReadHeader(b).Some?
    ensures ReadHeader(b + more) == ReadHeader(b)
  {
    if |b| >= 4 {
      assert (b + more)[2..4] == b[2..4];
    }
    if |b| >= 10 {
      assert (b + more)[2..10] == b[2..10];
    }
  }

  lemma LongerFrame(b: Bytes, more: Bytes)
    requires Complete(b)
    ensures Complete(b + more) && First(b + more) == First(b) && Rest(b + more) == Rest(b) + more
  {
    LongerHeader(b, more);
  }

  lemma RegroupFrames(a: seq<Bytes>, f: Bytes, c: seq<Bytes>)
    ensures a + ([f] + c) == a + [f] + c
  {
  }

  /** Reading is incremental: what has been read never changes, and reading can go on from the remainder. */
  lemma {:induction false} ParseIsIncremental(a: Bytes, b: Bytes)
    ensures var first := Parse(a);
      var second := Parse(first.rest + b);
      Parse(a + b) == Parsed(first.frames + second.frames, second.rest)
    decreases |a|
  {
    hide Complete, First, Rest;
    if Complete(a) {
      LongerFrame(a, b);
      ParseIsIncremental(Rest(a), b);
      var p := Parse(Rest(a));
      assert [First(a)] + (p.frames + Parse(p.rest + b).frames) == [First(a)] + p.frames + Parse(p.rest + b).frames;
    } else {
      assert [] + Parse(a + b).frames == Parse(a + b).frames;
    }
  }

  lemma Regroup(a: Bytes, b: Bytes, c: Bytes)
    ensures (a + b) + c == a + (b + c)
  {
  }

  /** The remainder has no whole frame at its start, and all bytes before it were whole frames. */
  lemma {:induction false} RemainderIsIncomplete(b: Bytes) returns (used: Bytes)
    ensures var p := Parse(b);
      b == used + p.rest && !Complete(p.rest) && Parse(used) == Parsed(p.frames, [])
    decreases |b|
  {
    used := [];
    assert !Complete([]);
    hide Complete, First, Rest, ReadHeader;
    if Complete(b) {
      var middle := RemainderIsIncomplete(Rest(b));
      var start := FirstAndRest(b);
      used := start + middle;
      Regroup(start, middle, Parse(Rest(b)).rest);
      LongerFrame(start, middle);
      assert [] + middle == middle;
    }
  }

  lemma FirstAndRest(b: Bytes) returns (start: Bytes)
    requires Complete(b)
    ensures b == start + Rest(b) && Complete(start) && First(start) == First(b) && Rest(start) == []
  {
    start := b[..End(ReadHeader(b).value)];
    StartIsComplete(b);
    hide ReadHeader;
  }

  lemma StartIsComplete(b: Bytes)
    requires Complete(b)
    ensures var start := b[..End(ReadHeader(b).value)];
      Complete(start) && First(start) == First(b) && Rest(start) == []
  {
    var h := ReadHeader(b).value;
    var start := b[..End(h)];
    if h.offset == 4 {
      assert start[2..4] == b[2..4];
    } else if h.offset == 10 {
      assert start[2..10] == b[2..10];
    }
    assert ReadHeader(start) == ReadHeader(b);
  }

  // ---- Printing

  /** The longest payload a 64-bit length can announce, and one more. */
  const TOO_LONG := 0x1_0000_0000_0000_0000

  /** The top bit of a byte over its lower seven. */
  function TopBit(on: bool, low: nat): Byte
    requires low < 128
  {
    (if on then 128 else 0) + low
  }

  function PrintHeader(opcode: Byte, masked: bool, length: nat): Bytes
    requires opcode < 16
  {
    [TopBit(true, opcode)] +
    if length < 126 then [TopBit(masked, length)]
    else if length < 65536 then [TopBit(masked, 126)] + BigEndian(length, 2)
    else [TopBit(masked, 127)] + BigEndian(length, 8)
  }

  /** The header byte by byte: the final bit over the opcode; the mask bit over the length or over 126 or 127; the
      longer lengths in two or eight bytes, the highest first. */
  lemma HeaderIs(opcode: Byte, masked: bool, length: nat)
    requires opcode < 16
    ensures var h, m := PrintHeader(opcode, masked, length), if masked then 128 else 0;
      && |h| >= 2 && h[0] == 128 + opcode
      && (length < 126 ==> h == [h[0], m + length])
      && (126 <= length < 65536 ==> h == [h[0], m + 126, length / 256, length % 256])
      && (length >= 65536 ==> |h| == 10 && h[1] == m + 127 && h[2..] == BigEndian(length, 8))
  {
    if 126 <= length < 65536 {
      assert BigEndian(length / 256, 1) == BigEndian(length / 256 / 256, 0) + [length / 256];
      assert BigEndian(length, 2) == [length / 256, length % 256];
    }
  }

  /** An unmasked frame, as a server sends it. */
  function ServerFrame(opcode: Byte, payload: Bytes): Bytes
    requires opcode < 16
  {
    PrintHeader(opcode, false, |payload|) + payload
  }

  lemma LongLengths(n: nat)
    ensures n < 65536 ==> Value(BigEndian(n, 2)) == n
    ensures n < TOO_LONG ==> Value(BigEndian(n, 8)) == n
  {
    assert Power(2) == 65536;
    assert Power(8) == 65536 * 65536 * 65536 * 65536;
    if n < 65536 {
      BigEndianValue(n, 2);
    }
    if n < TOO_LONG {
      BigEndianValue(n, 8);
    }
  }

  lemma LongHeader(first: Byte, masked: bool, length: nat, k: nat, more: Bytes)
    requires (k == 2 && 126 <= length < 65536) || (k == 8 && 65536 <= length < TOO_LONG)
    ensures var h := [first, TopBit(masked, if k == 2 then 126 else 127)] + BigEndian(length, k);
      ReadHeader(h + more) == Some(Header(|h|, length))
  {
    LongLengths(length);
    hide Value, BigEndian;
    var h := [first, TopBit(masked, if k == 2 then 126 else 127)] + BigEndian(length, k);
    assert (h + more)[2..2 + k] == BigEndian(length, k);
  }

  /** Every length form is read back, whatever follows. */
  lemma HeaderRoundTrip(opcode: Byte, masked: bool, length: nat, more: Bytes)
    requires opcode < 16 && length < TOO_LONG
    ensures var h := PrintHeader(opcode, masked, length);
      ReadHeader(h + more) == Some(Header(|h|, length))
  {
    var first := TopBit(true, opcode);
    if length < 126 {
      assert PrintHeader(opcode, masked, length) == [first, TopBit(masked, length)];
    } else {
      var k := if length < 65536 then 2 else 8;
      var second := TopBit(masked, if k == 2 then 126 else 127);
      assert [first] + ([second] + BigEndian(length, k)) == [first, second] + BigEndian(length, k);
      LongHeader(first, masked, length, k, more);
      hide ReadHeader, BigEndian;
    }
  }

  lemma FrameRoundTrip(opcode: Byte, payload: Bytes, more: Bytes)
    requires opcode < 16 && |payload| < TOO_LONG
    ensures var f := ServerFrame(opcode, payload);
      Complete(f + more) && First(f + more) == payload && Rest(f + more) == more
  {
    var h := PrintHeader(opcode, false, |payload|);
    HeaderRoundTrip(opcode, false, |payload|, payload + more);
    assert h + payload + more == h + (payload + more);
  }

  function Stream(opcode: Byte, payloads: seq<Bytes>): Bytes
    requires opcode < 16
  {
    if payloads == [] then [] else ServerFrame(opcode, payloads[0]) + Stream(opcode, payloads[1..])
  }

  /** A stream of printed frames, cut off anywhere, is read back as its whole frames and the cut-off one. */
  lemma {:induction false} StreamRoundTrip(opcode: Byte, payloads: seq<Bytes>, tail: Bytes)
    requires forall i :: 0 <= i < |payloads| ==> |payloads[i]| < TOO_LONG
    requires opcode < 16 && !Complete(tail)
    ensures Parse(Stream(opcode, payloads) + tail) == Parsed(payloads, tail)
    decreases |payloads|
  {
    hide Complete, First, Rest, ServerFrame;
    if payloads == [] {
      assert [] + tail == tail;
    } else {
      var rest := Stream(opcode, payloads[1..]) + tail;
      var f := ServerFrame(opcode, payloads[0]);
      FrameRoundTrip(opcode, payloads[0], rest);
      assert Stream(opcode, payloads) + tail == f + rest;
      StreamRoundTrip(opcode, payloads[1..], tail);
      assert [payloads[0]] + payloads[1..] == payloads;
    }
  }

  /** No proper beginning of a frame is taken for a whole one. */
  lemma NoFrameTooEarly(opcode: Byte, payload: Bytes, cut: nat)
    requires opcode < 16 && |payload| < TOO_LONG && cut < |ServerFrame(opcode, payload)|
    ensures !Complete(ServerFrame(opcode, payload)[..cut])
  {
    var f := ServerFrame(opcode, payload);
    FrameRoundTrip(opcode, payload, []);
    assert f + [] == f && f[..cut] + f[cut..] == f;
    if Complete(f[..cut]) {
      LongerFrame(f[..cut], f[cut..]);
      assert false;
    }
  }

  // ---- Masking

  /** Exclusive or of the lowest `bits` bits. */
  function Xor(a: nat, b: nat, bits: nat): (r: nat)
    ensures r < Two(bits)
  {
    if bits == 0 then 0 else 2 * Xor(a / 2, b / 2, bits - 1) + if a % 2 == b % 2 then 0 else 1
  }

  function Two(bits: nat): nat {
    if bits == 0 then 1 else 2 * Two(bits - 1)
  }

  lemma Halves(q: nat, r: nat)
    requires r < 2
    ensures (2 * q + r) / 2 == q && (2 * q + r) % 2 == r
  {
  }

  lemma {:induction false} XorTwice(a: nat, b: nat, bits: nat)
    requires a < Two(bits)
    ensures Xor(Xor(a, b, bits), b, bits) == a
  {
    if bits > 0 {
      Halves(Xor(a / 2, b / 2, bits - 1), if a % 2 == b % 2 then 0 else 1);
      XorTwice(a / 2, b / 2, bits - 1);
    }
  }

  function Bit(n: nat, k: nat): nat {
    if k == 0 then n % 2 else Bit(n / 2, k - 1)
  }

  /** A bit of the result is set exactly when that of one, and only one, of the two is. */
  lemma {:induction false} XorBit(a: nat, b: nat, bits: nat, k: nat)
    requires k < bits
    ensures Bit(Xor(a, b, bits), k) == if Bit(a, k) == Bit(b, k) then 0 else 1
    decreases k
  {
    Halves(Xor(a / 2, b / 2, bits - 1), if a % 2 == b % 2 then 0 else 1);
    if k > 0 {
      XorBit(a / 2, b / 2, bits - 1, k - 1);
    }
  }

  function XorByte(a: Byte, b: Byte): Byte {
    assert Two(8) == 256;
    Xor(a, b, 8)
  }

  function Masked(payload: Bytes, mask: Bytes): (r: Bytes)
    requires |mask| == 4
    ensures |r| == |payload|
  {
    seq(|payload|, i requires 0 <= i < |payload| => XorByte(payload[i], mask[i % 4]))
  }

  /** Masking is its own inverse. */
  lemma MaskTwice(payload: Bytes, mask: Bytes)
    requires |mask| == 4
    ensures Masked(Masked(payload, mask), mask) == payload
  {
    forall i | 0 <= i < |payload| ensures Masked(Masked(payload, mask), mask)[i] == payload[i] {
      assert Two(8) == 256;
      XorTwice(payload[i], mask[i % 4], 8);
    }
  }

  /** `client_frame`. */
  function ClientFrame(opcode: Byte, payload: Bytes, mask: Bytes): Bytes
    requires opcode < 16 && |mask| == 4
  {
    PrintHeader(opcode, true, |payload|) + mask + Masked(payload, mask)
  }

  /** How the standard reads a masked frame: header, key, payload. */
  function ReadMasked(b: Bytes): Option<Bytes> {
    var h := ReadHeader(b);
    if h.None? || b[1] < 128 || End(h.value) + 4 > |b| then None
    else Some(Masked(b[h.value.offset + 4..End(h.value) + 4], b[h.value.offset..h.value.offset + 4]))
  }

  lemma ClientFrameRoundTrip(opcode: Byte, payload: Bytes, mask: Bytes, more: Bytes)
    requires opcode < 16 && |payload| < TOO_LONG && |mask| == 4
    ensures ReadMasked(ClientFrame(opcode, payload, mask) + more) == Some(payload)
  {
    var h := PrintHeader(opcode, true, |payload|);
    var b := ClientFrame(opcode, payload, mask) + more;
    HeaderRoundTrip(opcode, true, |payload|, mask + Masked(payload, mask) + more);
    assert b == h + (mask + Masked(payload, mask) + more);
    assert b[|h|..|h| + 4] == mask;
    assert b[|h| + 4..|h| + 4 + |payload|] == Masked(payload, mask);
    MaskTwice(payload, mask);
  }

  // ---- The loops

  /** The header is built by appending. */
  method PrintClientFrame(payload: Bytes, opcode: Byte, mask: Bytes) returns (frame: Bytes)
    requires opcode < 16 && |mask| == 4
    ensures frame == ClientFrame(opcode, payload, mask)
  {
    var length := |payload|;
    var header: Bytes := [TopBit(true, opcode)];
    if length < 126 {
      header := header + [TopBit(true, length)];
    } else if length < 65536 {
      header := header + ([TopBit(true, 126)] + BigEndian(length, 2));
    } else {
      header := header + ([TopBit(true, 127)] + BigEndian(length, 8));
    }
    frame := header + mask + Masked(payload, mask);
  }

  /** One whole frame more. */
  lemma ParseFirst(frames: seq<Bytes>, b: Bytes)
    requires Complete(b)
    ensures frames + Parse(b).frames == frames + [First(b)] + Parse(Rest(b)).frames
    ensures Parse(b).rest == Parse(Rest(b)).rest
  {
    hide Complete, First, Rest;
    RegroupFrames(frames, First(b), Parse(Rest(b)).frames);
  }

  lemma ParseNothing(frames: seq<Bytes>, b: Bytes)
    requires !Complete(b)
    ensures frames + Parse(b).frames == frames && Parse(b).rest == b
  {
    hide Complete;
  }

  /** The length and where the payload starts, if they are there. */
  method TakeHeader(b: Bytes) returns (header: Option<Header>)
    requires |b| >= 2
    ensures header == ReadHeader(b)
  {
    var length := b[1] % 128;
    var offset := 2;
    if length == 126 {
      if |b| < 4 {
        return None;
      }
      length := Value(b[2..4]);
      offset := 4;
    } else if length == 127 {
      if |b| < 10 {
        return None;
      }
      length := Value(b[2..10]);
      offset := 10;
    }
    return Some(Header(offset, length));
  }

  method ServerFrames(b: Bytes) returns (frames: seq<Bytes>, rest: Bytes)
    ensures Parsed(frames, rest) == Parse(b)
  {
    frames, rest := [], b;
    assert [] + Parse(b).frames == Parse(b).frames;
    assert forall short: Bytes :: |short| < 2 ==> !Complete(short);
    hide Parse, ReadHeader;
    while |rest| >= 2
      invariant Parse(b).frames == frames + Parse(rest).frames && Parse(b).rest == Parse(rest).rest
      decreases |rest|
    {
      var header := TakeHeader(rest);
      if header.None? || |rest| < End(header.value) {
        break;
      }
      ParseFirst(frames, rest);
      frames := frames + [rest[header.value.offset..End(header.value)]];
      rest := rest[End(header.value)..];
    }
    ParseNothing(frames, rest);
  }

  /** What a read of the socket gives: bytes, perhaps the last ones, or nothing in time. */
  datatype Arrival = Arrival(data: Bytes, ended: bool) | Timeout

  function Flat(arrivals: seq<Arrival>): Bytes {
    if arrivals == [] then []
    else (if arrivals[0].Timeout? then [] else arrivals[0].data) + Flat(arrivals[1..])
  }

  /** Nothing arrives after the end. */
  predicate EndsOnce(arrivals: seq<Arrival>) {
    forall i :: 0 <= i < |arrivals| && arrivals[i].Arrival? && arrivals[i].ended ==> i == |arrivals| - 1
  }

  /** One connection of the client; `socket` are the reads still to come. */
  class Client {
    var buffer: Bytes
    var incoming: seq<Bytes>
    var socket: seq<Arrival>

    constructor (arrivals: seq<Arrival>)
      ensures Pending() == Parse(Flat(arrivals)).frames && socket == arrivals
    {
      hide Parse, Flat;
      buffer, incoming, socket := [], [], arrivals;
      new;
      assert [] + Flat(arrivals) == Flat(arrivals);
      assert [] + Parse(Flat(arrivals)).frames == Parse(Flat(arrivals)).frames;
    }

    /** Every frame not yet handed out, in order. */
    ghost function Pending(): seq<Bytes>
      reads this
    {
      incoming + Parse(buffer + Flat(socket)).frames
    }

    method ParseBuffer()
      modifies this`buffer, this`incoming
      ensures Pending() == old(Pending())
      ensures !Complete(buffer)
    {
      hide Complete, First, Rest;
      ParseIsIncremental(buffer, Flat(socket));
      var _ := RemainderIsIncomplete(buffer);
      var frames, rest := ServerFrames(buffer);
      ghost var later := Parse(rest + Flat(socket)).frames;
      assert incoming + (frames + later) == incoming + frames + later;
      buffer := rest;
      incoming := incoming + frames;
    }

    method Pop() returns (frame: Bytes)
      requires incoming != []
      modifies this`incoming
      ensures old(Pending()) == [frame] + Pending()
    {
      frame := incoming[0];
      incoming := incoming[1..];
      assert [frame] + incoming == old(incoming);
    }

    /** `recv`, and the events it gives rise to. */
    method ReadSocket() returns (arrival: Arrival)
      requires socket != []
      modifies this`buffer, this`socket
      ensures socket == old(socket)[1..] && arrival == old(socket)[0] && Pending() == old(Pending())
    {
      arrival := socket[0];
      ghost var data := if arrival.Timeout? then [] else arrival.data;
      assert buffer + Flat(socket) == buffer + data + Flat(socket[1..]);
      if arrival.Arrival? {
        buffer := buffer + arrival.data;
      } else {
        assert buffer + [] == buffer;
      }
      socket := socket[1..];
    }

    /** The next frame. Nothing is returned only when no whole frame is still to come, or when the read just made has
        timed out; then whatever is still to come still is. */
    method Receive() returns (frame: Option<Bytes>, ghost taken: nat)
      requires EndsOnce(socket)
      modifies this
      ensures taken <= |old(socket)| && socket == old(socket)[taken..]
      ensures old(Pending()) == (if frame.Some? then [frame.value] else []) + Pending()
      ensures frame.None? ==> Pending() == [] || (taken > 0 && old(socket)[taken - 1].Timeout?)
    {
      hide Pending;
      ghost var was := Pending();
      taken, frame := 0, None;
      while true
        invariant taken <= |old(socket)| && socket == old(socket)[taken..] && Pending() == was
        decreases |socket|
      {
        if incoming == [] {
          ParseBuffer();
        }
        if incoming != [] {
          var popped := Pop();
          frame := Some(popped);
          return;
        }
        if socket == [] {
          NothingPending();
          return;
        }
        var arrival := ReadSocket();
        taken := taken + 1;
        if arrival.Timeout? {
          return;
        }
        if arrival.ended && buffer == [] {
          assert socket == [];
          NothingPending();
          return;
        }
      }
    }

    lemma NothingPending()
      requires incoming == [] && socket == [] && !Complete(buffer)
      ensures Pending() == []
    {
      assert buffer + Flat(socket) == buffer;
    }
  }
}
