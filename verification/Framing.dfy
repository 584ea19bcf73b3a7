/** RFC 6455 frames (sections 5.2 to 5.4) as the Python client writes and reads them. */
module Framing {
  import opened Prelude

  type Bytes = seq<Byte>

  /** Bitwise exclusive or of two numbers of `bits` bits. */
  function XorBits(a: nat, b: nat, bits: nat): nat {
    if bits == 0 then 0 else (a % 2 + b % 2) % 2 + 2 * XorBits(a / 2, b / 2, bits - 1)
  }

  function Pow2(n: nat): nat {
    if n == 0 then 1 else 2 * Pow2(n - 1)
  }

  lemma {:induction false} XorBound(a: nat, b: nat, bits: nat)
    ensures XorBits(a, b, bits) < Pow2(bits)
  {
    if bits > 0 {
      XorBound(a / 2, b / 2, bits - 1);
    }
  }

  lemma LowBit(low: nat, high: nat)
    requires low < 2
    ensures (low + 2 * high) % 2 == low && (low + 2 * high) / 2 == high
  {
  }

  lemma {:induction false} XorTwice(a: nat, b: nat, bits: nat)
    requires a < Pow2(bits)
    ensures XorBits(XorBits(a, b, bits), b, bits) == a
  {
    if bits > 0 {
      XorTwice(a / 2, b / 2, bits - 1);
      LowBit((a % 2 + b % 2) % 2, XorBits(a / 2, b / 2, bits - 1));
      assert ((a % 2 + b % 2) % 2 + b % 2) % 2 == a % 2;
    }
  }

  lemma Pow2Of8()
    ensures Pow2(8) == 256
  {
    assert Pow2(4) == 16;
    assert Pow2(8) == 16 * Pow2(4);
  }

  function Xor(a: Byte, b: Byte): Byte {
    XorBound(a, b, 8);
    Pow2Of8();
    XorBits(a, b, 8)
  }

  lemma XorUndone(a: Byte, b: Byte)
    ensures Xor(Xor(a, b), b) == a
  {
    Pow2Of8();
    XorTwice(a, b, 8);
  }

  /** Masking, section 5.3: octet `i` against mask octet `i mod 4`. */
  function Masked(payload: Bytes, mask: Bytes): Bytes
    requires |mask| == 4
  {
    seq(|payload|, i requires 0 <= i < |payload| => Xor(payload[i], mask[i % 4]))
  }

  lemma MaskedTwice(payload: Bytes, mask: Bytes)
    requires |mask| == 4
    ensures Masked(Masked(payload, mask), mask) == payload
  {
    forall i | 0 <= i < |payload|
      ensures Masked(Masked(payload, mask), mask)[i] == payload[i]
    {
      XorUndone(payload[i], mask[i % 4]);
    }
  }

  /** `n` in `k` bytes, most significant first. */
  function ToBytes(n: nat, k: nat): Bytes {
    if k == 0 then [] else ToBytes(n / 256, k - 1) + [n % 256]
  }

  function FromBytes(b: Bytes): nat {
    if b == [] then 0 else FromBytes(b[..|b| - 1]) * 256 + b[|b| - 1]
  }

  function Capacity(k: nat): nat {
    if k == 0 then 1 else 256 * Capacity(k - 1)
  }

  lemma {:induction false} BytesRoundTrip(n: nat, k: nat)
    requires n < Capacity(k)
    ensures |ToBytes(n, k)| == k && FromBytes(ToBytes(n, k)) == n
  {
    if k > 0 {
      BytesRoundTrip(n / 256, k - 1);
      var init := ToBytes(n / 256, k - 1);
      assert (init + [n % 256])[..k - 1] == init;
    }
  }

  lemma Capacities()
    ensures Capacity(2) == 0x1_0000 && Capacity(8) == 0x1_0000_0000_0000_0000
  {
    assert Capacity(2) == 256 * Capacity(1) && Capacity(1) == 256;
    assert Capacity(4) == 256 * 256 * Capacity(2);
    assert Capacity(8) == 256 * 256 * 256 * 256 * Capacity(4);
  }

  const FIN: nat := 0x80
  const MASK_BIT: nat := 0x80
  const MAX_LENGTH: nat := 0x1_0000_0000_0000_0000

  /** The length octet and its extension: seven, sixteen or sixty-four bits. */
  function LengthField(n: nat, maskBit: nat): Bytes
    requires n < MAX_LENGTH && (maskBit == 0 || maskBit == MASK_BIT)
  {
    if n < 126 then [maskBit + n]
    else if n < 65536 then [maskBit + 126] + ToBytes(n, 2)
    else [maskBit + 127] + ToBytes(n, 8)
  }

  datatype WsFrame = WsFrame(fin: bool, opcode: nat, payload: Bytes)

  datatype Read = Read(frame: WsFrame, rest: Bytes)

  datatype LengthRead = LengthRead(n: nat, rest: Bytes)

  /** The payload length after the first octet. */
  function ReadLength(b: Bytes): Option<LengthRead>
    requires b != []
  {
    var short := b[0] % 128;
    var extra := if short == 126 then 2 else if short == 127 then 8 else 0;
    if |b| < 1 + extra then None
    else Some(LengthRead(if extra == 0 then short else FromBytes(b[1..1 + extra]), b[1 + extra..]))
  }

  /** A frame read as section 5.2 says, masked or not. */
  function ReadFrame(b: Bytes): Option<Read> {
    if |b| < 2 then None
    else
      var length := ReadLength(b[1..]);
      if length.None? then None
      else
        var n, body := length.value.n, length.value.rest;
        if b[1] >= MASK_BIT then
          if |body| < 4 + n then None
          else Some(Read(WsFrame(b[0] >= FIN, b[0] % 16, Masked(body[4..4 + n], body[..4])), body[4 + n..]))
        else if |body| < n then None
        else Some(Read(WsFrame(b[0] >= FIN, b[0] % 16, body[..n]), body[n..]))
  }

  /** What `_recv_frame` makes of the bytes: it takes every frame for unmasked. */
  function ClientFrame(b: Bytes): Option<Read> {
    if |b| < 2 then None
    else
      var length := ReadLength(b[1..]);
      if length.None? || |length.value.rest| < length.value.n then None
      else
        var n, body := length.value.n, length.value.rest;
        Some(Read(WsFrame(b[0] >= FIN, b[0] % 16, body[..n]), body[n..]))
  }

  lemma {:induction false} FromBytesBound(b: Bytes)
    ensures FromBytes(b) < Capacity(|b|)
  {
    if b != [] {
      FromBytesBound(b[..|b| - 1]);
    }
  }

  /** A payload that was read can be sent back. */
  lemma ClientPayloadBound(b: Bytes)
    ensures ClientFrame(b).Some? ==> |ClientFrame(b).value.frame.payload| < MAX_LENGTH
  {
    Capacities();
    if |b| >= 4 {
      FromBytesBound(b[1..][1..3]);
    }
    if |b| >= 10 {
      FromBytesBound(b[1..][1..9]);
    }
  }

  lemma ClientReadsUnmasked(b: Bytes)
    requires |b| >= 2 && b[1] < MASK_BIT
    ensures ClientFrame(b) == ReadFrame(b)
  {
  }

  lemma Octets(fin: nat, opcode: nat, maskBit: nat, short: nat)
    requires (fin == 0 || fin == FIN) && opcode < 16 && (maskBit == 0 || maskBit == MASK_BIT) && short < 128
    ensures (fin + opcode) % 16 == opcode && (fin + opcode >= FIN <==> fin == FIN)
    ensures (maskBit + short) % 128 == short && (maskBit + short >= MASK_BIT <==> maskBit == MASK_BIT)
  {
  }

  /** The length field reads back, whatever follows. */
  lemma LengthReadsBack(n: nat, maskBit: nat, rest: Bytes)
    requires n < MAX_LENGTH && (maskBit == 0 || maskBit == MASK_BIT)
    ensures ReadLength(LengthField(n, maskBit) + rest) == Some(LengthRead(n, rest))
    ensures LengthField(n, maskBit)[0] >= MASK_BIT <==> maskBit == MASK_BIT
  {
    var b := LengthField(n, maskBit) + rest;
    Capacities();
    if n < 126 {
      Octets(0, 0, maskBit, n);
      assert b[1..] == rest;
    } else {
      var k := if n < 65536 then 2 else 8;
      Octets(0, 0, maskBit, if k == 2 then 126 else 127);
      BytesRoundTrip(n, k);
      assert b[1..1 + k] == ToBytes(n, k);
      assert b[1 + k..] == rest;
    }
  }

  /** The bytes `_send_frame` puts on the wire. */
  function SentFrame(opcode: nat, payload: Bytes, mask: Bytes): Bytes
    requires opcode < 16 && |payload| < MAX_LENGTH && |mask| == 4
  {
    [FIN + opcode] + (LengthField(|payload|, MASK_BIT) + (mask + Masked(payload, mask)))
  }

  /** `_send_frame`: build the header in steps, then the masked payload. */
  method SendFrame(opcode: nat, payload: Bytes, mask: Bytes) returns (wire: Bytes)
    requires opcode < 16 && |payload| < MAX_LENGTH && |mask| == 4
    ensures wire == SentFrame(opcode, payload, mask)
  {
    var header: Bytes := [FIN + opcode];
    var n := |payload|;
    if n < 126 {
      header := header + [MASK_BIT + n];
    } else if n < 65536 {
      header := header + [MASK_BIT + 126];
      header := header + ToBytes(n, 2);
    } else {
      header := header + [MASK_BIT + 127];
      header := header + ToBytes(n, 8);
    }
    assert header == [FIN + opcode] + LengthField(n, MASK_BIT);
    header := header + mask;
    var masked: Bytes := [];
    for i := 0 to n
      invariant masked == Masked(payload, mask)[..i]
    {
      masked := masked + [Xor(payload[i], mask[i % 4])];
    }
    wire := header + masked;
  }

  /** Any payload, in any of the three length forms and under any mask, reads back as sent. */
  lemma SentReadsBack(opcode: nat, payload: Bytes, mask: Bytes, rest: Bytes)
    requires opcode < 16 && |payload| < MAX_LENGTH && |mask| == 4
    ensures ReadFrame(SentFrame(opcode, payload, mask) + rest) == Some(Read(WsFrame(true, opcode, payload), rest))
  {
    var b := SentFrame(opcode, payload, mask) + rest;
    var body := mask + Masked(payload, mask) + rest;
    Octets(FIN, opcode, 0, 0);
    assert b[1..] == LengthField(|payload|, MASK_BIT) + body;
    LengthReadsBack(|payload|, MASK_BIT, body);
    assert body[..4] == mask && body[4..4 + |payload|] == Masked(payload, mask) && body[4 + |payload|..] == rest;
    MaskedTwice(payload, mask);
  }

  predicate WellFormed(f: WsFrame) {
    f.opcode < 16 && |f.payload| < MAX_LENGTH
  }

  /** A frame as a server sends it: never masked. */
  function ServerFrame(f: WsFrame): Bytes
    requires WellFormed(f)
  {
    [(if f.fin then FIN else 0) + f.opcode] + (LengthField(|f.payload|, 0) + f.payload)
  }

  lemma ServerReadsBack(f: WsFrame, rest: Bytes)
    requires WellFormed(f)
    ensures ClientFrame(ServerFrame(f) + rest) == Some(Read(f, rest))
  {
    var b := ServerFrame(f) + rest;
    Octets(if f.fin then FIN else 0, f.opcode, 0, 0);
    assert b[1..] == LengthField(|f.payload|, 0) + (f.payload + rest);
    LengthReadsBack(|f.payload|, 0, f.payload + rest);
    assert (f.payload + rest)[..|f.payload|] == f.payload && (f.payload + rest)[|f.payload|..] == rest;
  }
}
