/** The WebSocket client of experiments/codex-paginated-gate-bridge-probe.ts: a frame writer, and a reader that
    is given its bytes in whatever pieces the socket delivers them. Frames are those of sections 5.2 and 5.3
    of RFC 6455. */
module GateProbe {
  import opened Common

  newtype byte = x: int | 0 <= x < 256

  function Pow2(k: nat): nat {
    if k == 0 then 1 else 2 * Pow2(k - 1)
  }

  /** Exclusive or of the low k bits, bit by bit. */
  function XorBits(k: nat, a: nat, b: nat): (r: nat)
    ensures r < Pow2(k)
  {
    if k == 0 then 0 else 2 * XorBits(k - 1, a / 2, b / 2) + (a + b) % 2
  }

  lemma {:induction false} Parity(x: nat, a: nat, m: nat)
    ensures (2 * x + (a + m) % 2) / 2 == x
    ensures (2 * x + (a + m) % 2 + m) % 2 == a % 2
  {
    var half, low := (a + m) / 2, (a + m) % 2;
    var most := a / 2;
    assert a + m == 2 * half + low && a == 2 * most + a % 2;
    assert 2 * x + low + m == 2 * (x + half + low - most) - a % 2;
  }

  lemma {:induction false} XorBitsTwice(k: nat, a: nat, m: nat)
    requires a < Pow2(k)
    ensures XorBits(k, XorBits(k, a, m), m) == a
  {
    if k > 0 {
      var x := XorBits(k - 1, a / 2, m / 2);
      XorBitsTwice(k - 1, a / 2, m / 2);
      Parity(x, a, m);
      assert XorBits(k, a, m) == 2 * x + (a + m) % 2;
    }
  }

  function Xor(a: byte, b: byte): byte {
    assert Pow2(8) == 256;
    XorBits(8, a as nat, b as nat) as byte
  }

  /** A bit of a number, the lowest being bit 0. */
  function BitOf(a: nat, j: nat): (bit: nat)
    ensures bit < 2
  {
    if j == 0 then a % 2 else BitOf(a / 2, j - 1)
  }

  /** Two bytes that differ in exactly the bits that are set in a third. */
  predicate Flipped(a: byte, b: byte, key: byte) {
    forall j | 0 <= j < 8 :: FlippedAt(a, b, key, j)
  }

  predicate FlippedAt(a: byte, b: byte, key: byte, j: nat) {
    BitOf(a as nat, j) != BitOf(b as nat, j) <==> BitOf(key as nat, j) == 1
  }

  lemma {:induction false} XorBitsAre(k: nat, a: nat, b: nat, j: nat)
    requires j < k
    ensures BitOf(XorBits(k, a, b), j) != BitOf(a, j) <==> BitOf(b, j) == 1
  {
    var x := XorBits(k - 1, a / 2, b / 2);
    assert XorBits(k, a, b) / 2 == x;
    assert XorBits(k, a, b) % 2 == (a + b) % 2;
    if j > 0 {
      XorBitsAre(k - 1, a / 2, b / 2, j - 1);
    } else {
      SumParity(a, b);
    }
  }

  lemma {:induction false} SumParity(a: nat, b: nat)
    ensures (a + b) % 2 != a % 2 <==> b % 2 == 1
  {
  }

  lemma {:induction false} BitsDecide(k: nat, a: nat, b: nat)
    requires a < Pow2(k) && b < Pow2(k) && forall j | 0 <= j < k :: BitOf(a, j) == BitOf(b, j)
    ensures a == b
  {
    if k > 0 {
      assert a % 2 == BitOf(a, 0) && b % 2 == BitOf(b, 0);
      assert forall j | 0 <= j < k - 1 :: BitOf(a / 2, j) == BitOf(a, j + 1) && BitOf(b / 2, j) == BitOf(b, j + 1);
      BitsDecide(k - 1, a / 2, b / 2);
    }
  }

  lemma {:induction false} XorFlips(a: byte, b: byte, key: byte)
    ensures Xor(a, key) == b <==> Flipped(a, b, key)
  {
    assert Pow2(8) == 256;
    var x := Xor(a, key);
    forall j | 0 <= j < 8
      ensures FlippedAt(a, x, key, j)
    {
      XorBitsAre(8, a as nat, key as nat, j);
    }
    hide XorBits;
    if Flipped(a, b, key) {
      var m, n := x as nat, b as nat;
      forall j | 0 <= j < 8
        ensures BitOf(m, j) == BitOf(n, j)
      {
        assert FlippedAt(a, b, key, j) && FlippedAt(a, x, key, j);
      }
      BitsDecide(8, m, n);
    }
  }

  // --- Lengths -------------------------------------------------------------------------------------

  function Pow256(k: nat): nat {
    if k == 0 then 1 else 256 * Pow256(k - 1)
  }

  /** An unsigned integer in network order. */
  function Number(bytes: seq<byte>): nat {
    if bytes == [] then 0 else 256 * Number(bytes[..|bytes| - 1]) + bytes[|bytes| - 1] as nat
  }

  function BigEndian(n: nat, k: nat): (bytes: seq<byte>)
    ensures |bytes| == k
  {
    if k == 0 then [] else BigEndian(n / 256, k - 1) + [(n % 256) as byte]
  }

  lemma {:induction false} NumberOfBigEndian(n: nat, k: nat)
    requires n < Pow256(k)
    ensures Number(BigEndian(n, k)) == n
  {
    if k > 0 {
      assert n / 256 < Pow256(k - 1);
      NumberOfBigEndian(n / 256, k - 1);
      NumberLonger(BigEndian(n / 256, k - 1), (n % 256) as byte);
      hide Number, Pow256;
    }
  }

  lemma {:induction false} NumberLonger(bytes: seq<byte>, last: byte)
    ensures Number(bytes + [last]) == 256 * Number(bytes) + last as nat
  {
    assert (bytes + [last])[..|bytes|] == bytes;
  }

  /** Section 5.2: the payload length is seven bits, or 126 and two bytes, or 127 and eight. */
  datatype Length = Length(size: nat, header: nat)

  function ReadLength(bytes: seq<byte>): Option<Length>
    requires |bytes| >= 2
  {
    var seven := bytes[1] as nat % 128;
    if seven == 126 then
      if |bytes| < 4 then None else Some(Length(Number(bytes[2..4]), 4))
    else if seven == 127 then
      if |bytes| < 10 then None else Some(Length(Number(bytes[2..10]), 10))
    else Some(Length(seven, 2))
  }

  // --- The writer ----------------------------------------------------------------------------------

  /** Section 5.3: byte i of the payload is combined with byte i mod 4 of the key. */
  function Masked(key: seq<byte>, data: seq<byte>): (r: seq<byte>)
    requires |key| == 4
    ensures |r| == |data|
  {
    seq(|data|, i requires 0 <= i < |data| => Xor(data[i], key[i % 4]))
  }

  /** Section 5.3, said of the bits: of each byte the key's byte for its place has flipped exactly the bits it has
      set. */
  predicate Flips(key: seq<byte>, sent: seq<byte>, payload: seq<byte>)
    requires |key| == 4
  {
    |sent| == |payload| && forall i | 0 <= i < |payload| :: Flipped(sent[i], payload[i], key[i % 4])
  }

  lemma {:induction false} MaskedFlips(key: seq<byte>, sent: seq<byte>, payload: seq<byte>)
    requires |key| == 4
    ensures Masked(key, sent) == payload <==> Flips(key, sent, payload)
  {
    hide Xor, Flipped;
    forall i | 0 <= i < |sent| && i < |payload|
      ensures Xor(sent[i], key[i % 4]) == payload[i] <==> Flipped(sent[i], payload[i], key[i % 4])
    {
      XorFlips(sent[i], payload[i], key[i % 4]);
    }
    if Flips(key, sent, payload) {
      assert forall i | 0 <= i < |payload| :: Masked(key, sent)[i] == payload[i];
    }
  }

  /** The number in two bytes, and in eight, the most significant first. */
  function Two(b: seq<byte>): nat
    requires |b| == 2
  {
    256 * b[0] as nat + b[1] as nat
  }

  function Eight(b: seq<byte>): nat
    requires |b| == 8
  {
    0x1_0000_0000 * (0x100_0000 * b[0] as nat + 0x1_0000 * b[1] as nat + 256 * b[2] as nat + b[3] as nat)
    + (0x100_0000 * b[4] as nat + 0x1_0000 * b[5] as nat + 256 * b[6] as nat + b[7] as nat)
  }

  lemma {:induction false} NumberIsTwo(b: seq<byte>)
    requires |b| == 2
    ensures Number(b) == Two(b)
  {
    TwoBytes(b[0], b[1]);
    assert b == [b[0], b[1]];
  }

  lemma {:induction false} NumberIsEight(b: seq<byte>)
    requires |b| == 8
    ensures Number(b) == Eight(b)
  {
    FourBytes(b[0], b[1], b[2], b[3]);
    var four := [b[0], b[1], b[2], b[3]];
    Append(four, b[4]);
    Append(four + [b[4]], b[5]);
    Append(four + [b[4]] + [b[5]], b[6]);
    Append(four + [b[4]] + [b[5]] + [b[6]], b[7]);
    assert b == four + [b[4]] + [b[5]] + [b[6]] + [b[7]];
  }

  /** One masked, final text frame with this payload, as sections 5.2 and 5.3 lay it out: the length in the fewest
      bytes, the key, and the payload with the bits of the key flipped. */
  predicate Carries(frame: seq<byte>, payload: seq<byte>) {
    && |frame| >= 2 && frame[0] == 0x81 && frame[1] >= 128
    && var seven, n := frame[1] as nat - 128, |payload|;
      var header := if seven == 126 then 4 else if seven == 127 then 10 else 2;
      && |frame| == header + 4 + n
      && (if seven == 126 then n == Two(frame[2..4]) && n >= 126
          else if seven == 127 then n == Eight(frame[2..10]) && 65536 <= n < 0x8000_0000_0000_0000
          else n == seven)
      && Flips(frame[header..header + 4], frame[header + 4..], payload)
  }

  lemma {:induction false} ReceivedExactly(frame: seq<byte>, payload: seq<byte>)
    ensures Received(frame) == Some(payload) <==> Carries(frame, payload)
  {
    hide Masked, Flips, Number, Two, Eight;
    if |frame| >= 2 && frame[0] == 0x81 && frame[1] >= 128 {
      var seven := frame[1] as nat - 128;
      assert frame[1] as nat % 128 == seven;
      if seven == 126 && |frame| >= 4 { NumberIsTwo(frame[2..4]); }
      if seven == 127 && |frame| >= 10 { NumberIsEight(frame[2..10]); }
      var header := if seven == 126 then 4 else if seven == 127 then 10 else 2;
      if |frame| >= header + 4 {
        MaskedFlips(frame[header..header + 4], frame[header + 4..], payload);
        FlipsLength(frame[header..header + 4], frame[header + 4..], payload);
      }
    }
  }

  lemma {:induction false} FlipsLength(key: seq<byte>, sent: seq<byte>, payload: seq<byte>)
    requires |key| == 4
    ensures Flips(key, sent, payload) ==> |sent| == |payload|
  {
  }

  /** What a server makes of one masked, final text frame: section 5.2 also asks for the shortest length. */
  function Received(bytes: seq<byte>): Option<seq<byte>> {
    if |bytes| < 2 || bytes[0] != 0x81 || bytes[1] < 128 then None
    else
      var length := ReadLength(bytes);
      if length.None? then None
      else
        var Length(size, header) := length.value;
        if (header == 4 && size < 126) || (header == 10 && (size < 65536 || size >= 0x8000_0000_0000_0000)) then None
        else if |bytes| != header + 4 + size then None
        else Some(Masked(bytes[header..header + 4], bytes[header + 4..]))
  }

  lemma {:induction false} MaskedTwice(key: seq<byte>, data: seq<byte>)
    requires |key| == 4
    ensures Masked(key, Masked(key, data)) == data
  {
    forall i | 0 <= i < |data|
      ensures Xor(Xor(data[i], key[i % 4]), key[i % 4]) == data[i]
    {
      assert Pow2(8) == 256;
      XorBitsTwice(8, data[i] as nat, key[i % 4] as nat);
    }
  }

  function Header(n: nat): seq<byte> {
    if n < 126 then [0x81, (128 + n) as byte]
    else if n <= 65535 then [0x81, 0xfe, (n / 256) as byte, (n % 256) as byte]
    else [0x81, 0xff, 0, 0, 0, 0, (n / 0x100_0000 % 256) as byte, (n / 0x1_0000 % 256) as byte, (n / 256 % 256) as byte,
          (n % 256) as byte]
  }

  lemma {:induction false} TwoBytes(a: byte, b: byte)
    ensures Number([a, b]) == 256 * a as nat + b as nat
  {
    assert [a, b][..1] == [a] && [a][..0] == [];
    assert Number([a]) == a as nat;
  }

  lemma {:induction false} Append(bytes: seq<byte>, b: byte)
    ensures Number(bytes + [b]) == 256 * Number(bytes) + b as nat
  {
    assert (bytes + [b])[..|bytes|] == bytes;
  }

  lemma {:induction false} LeadingZero(bytes: seq<byte>)
    ensures Number([0] + bytes) == Number(bytes)
  {
    if bytes == [] {
      assert [0] + bytes == bytes + [0];
      Append(bytes, 0);
    } else {
      var n := |bytes| - 1;
      LeadingZero(bytes[..n]);
      Append([0] + bytes[..n], bytes[n]);
      assert ([0] + bytes[..n]) + [bytes[n]] == [0] + bytes;
    }
  }

  lemma {:induction false} FourBytes(a: byte, b: byte, c: byte, d: byte)
    ensures Number([a, b, c, d]) == 0x100_0000 * a as nat + 0x1_0000 * b as nat + 256 * c as nat + d as nat
  {
    TwoBytes(a, b);
    Append([a, b], c);
    Append([a, b, c], d);
    assert [a, b] + [c] == [a, b, c] && [a, b, c] + [d] == [a, b, c, d];
  }

  lemma {:induction false} EightBytes(bytes: seq<byte>)
    ensures Number([0, 0, 0, 0] + bytes) == Number(bytes)
  {
    var zero: seq<byte> := [0];
    LeadingZero(bytes);
    LeadingZero(zero + bytes);
    LeadingZero(zero + (zero + bytes));
    LeadingZero(zero + (zero + (zero + bytes)));
    assert [0, 0, 0, 0] + bytes == zero + (zero + (zero + (zero + bytes)));
  }

  lemma {:induction false} FourDigits(n: nat)
    ensures 0x100_0000 * (n / 0x100_0000 % 256) + 0x1_0000 * (n / 0x1_0000 % 256) + 256 * (n / 256 % 256) + n % 256 ==
      n % 0x1_0000_0000
  {
    assert n / 0x1_0000 == n / 256 / 256 && n / 0x100_0000 == n / 0x1_0000 / 256
      && n / 0x1_0000_0000 == n / 0x100_0000 / 256;
  }

  /** What the length field of a header says. */
  lemma {:induction false} HeaderSays(n: nat, rest: seq<byte>)
    ensures var frame := Header(n) + rest;
      |frame| >= 2 && frame[0] == 0x81 && frame[1] >= 128 &&
      ReadLength(frame) == Some(Length(if n <= 65535 then n else n % 0x1_0000_0000, |Header(n)|))
    ensures |Header(n)| == if n < 126 then 2 else if n <= 65535 then 4 else 10
  {
    var frame := Header(n) + rest;
    if 126 <= n <= 65535 {
      assert frame[2..4] == [(n / 256) as byte, (n % 256) as byte];
      TwoBytes((n / 256) as byte, (n % 256) as byte);
    } else if 65535 < n {
      var a, b, c, d := (n / 0x100_0000 % 256) as byte, (n / 0x1_0000 % 256) as byte, (n / 256 % 256) as byte,
        (n % 256) as byte;
      assert frame[2..10] == [0, 0, 0, 0] + [a, b, c, d];
      EightBytes([a, b, c, d]);
      FourBytes(a, b, c, d);
      FourDigits(n);
    }
  }

  /** The frame `call` writes: the masking loop and the header by size. What a server receives is the payload,
      exactly when the payload is shorter than four gigabytes, which is all the header's arithmetic can say. */
  method Frame(payload: seq<byte>, mask: seq<byte>) returns (frame: seq<byte>)
    requires |mask| == 4
    ensures Carries(frame, payload) <==> |payload| < 0x1_0000_0000
    ensures |frame| >= 4 + |payload| && Flips(mask, frame[|frame| - |payload|..], payload)
  {
    var n := |payload|;
    var header := if n < 126 then [0x81, (128 + n) as byte]
      else if n <= 65535 then [0x81, 0xfe, (n / 256) as byte, (n % 256) as byte]
      else [0x81, 0xff, 0, 0, 0, 0,
            (n / 0x100_0000 % 256) as byte, (n / 0x1_0000 % 256) as byte, (n / 256 % 256) as byte, (n % 256) as byte];
    var masked: seq<byte> := [];
    for i := 0 to n
      invariant masked == Masked(mask, payload)[..i]
    {
      masked := masked + [Xor(payload[i], mask[i % 4])];
    }
    frame := header + mask + masked;
    FrameIsReceived(payload, mask, frame);
    ReceivedExactly(frame, payload);
    assert frame[|frame| - n..] == Masked(mask, payload);
    MaskedTwice(mask, payload);
    MaskedFlips(mask, frame[|frame| - n..], payload);
  }

  lemma {:induction false} FrameIsReceived(payload: seq<byte>, mask: seq<byte>, frame: seq<byte>)
    requires |mask| == 4 && frame == Header(|payload|) + mask + Masked(mask, payload)
    ensures Received(frame) == Some(payload) <==> |payload| < 0x1_0000_0000
  {
    var n, header := |payload|, |Header(|payload|)|;
    HeaderSays(n, mask + Masked(mask, payload));
    hide Header, Masked, ReadLength;
    assert frame == Header(n) + (mask + Masked(mask, payload));
    assert frame[header..header + 4] == mask && frame[header + 4..] == Masked(mask, payload);
    MaskedTwice(mask, payload);
  }

  // --- The reader ----------------------------------------------------------------------------------

  /** JSON.parse, as a partial function: nothing when it throws, otherwise the message's number if it has one. */
  type Parser = seq<byte> -> Option<Option<int>>

  datatype Opening = Unsettled | Resolved | Rejected

  /** The fields the data handler works on, with a log of what it did: every payload parsed, and every call
      resolved with the payload it was given. An exception in the handler ends the process. */
  datatype Reader = Reader(
    buffer: seq<byte>,
    ready: bool,
    opening: Opening,
    pending: set<int>,
    sequence: nat,
    parsed: seq<seq<byte>>,
    resolved: seq<(int, seq<byte>)>,
    crashed: bool)

  const NEW := Reader([], false, Unsettled, {}, 0, [], [], false)

  datatype Scan = Wait | Unexpected | Whole(header: nat, size: nat)

  function FirstFrame(buffer: seq<byte>): (scan: Scan)
    ensures scan.Whole? ==> 2 <= scan.header <= scan.header + scan.size <= |buffer|
  {
    if |buffer| < 2 then Wait
    else if buffer[0] % 16 != 1 || buffer[1] >= 128 then Unexpected
    else
      var length := ReadLength(buffer);
      if length.None? || |buffer| < length.value.header + length.value.size then Wait
      else Whole(length.value.header, length.value.size)
  }

  function Settled(opening: Opening, now: Opening): Opening {
    if opening.Unsettled? then now else opening
  }

  function Taken(r: Reader, payload: seq<byte>, rest: seq<byte>, id: Option<int>): Reader {
    var t := r.(buffer := rest, parsed := r.parsed + [payload]);
    if id.Some? && id.value in r.pending
    then t.(pending := r.pending - {id.value}, resolved := r.resolved + [(id.value, payload)])
    else t
  }

  /** The loop over the frames that have arrived whole. */
  function Drained(r: Reader, parse: Parser): Reader
    decreases |r.buffer|
  {
    var scan := FirstFrame(r.buffer);
    if scan.Wait? then r
    else if scan.Unexpected? then r.(opening := Settled(r.opening, Rejected))
    else
      var payload := r.buffer[scan.header..scan.header + scan.size];
      var message := parse(payload);
      if message.None? then r.(buffer := [], crashed := true)
      else Drained(Taken(r, payload, r.buffer[scan.header + scan.size..], message.value), parse)
  }

  lemma {:induction false} OneTurn(r: Reader, parse: Parser)
    ensures var scan := FirstFrame(r.buffer);
      if scan.Wait? then Drained(r, parse) == r
      else if scan.Unexpected? then Drained(r, parse) == r.(opening := Settled(r.opening, Rejected))
      else
        var payload := r.buffer[scan.header..scan.header + scan.size];
        if parse(payload).None? then Drained(r, parse) == r.(buffer := [], crashed := true)
        else
          var t := Taken(r, payload, r.buffer[scan.header + scan.size..], parse(payload).value);
          Drained(r, parse) == Drained(t, parse)
  {
    hide FirstFrame, Taken;
  }

  const BLANK_LINE: seq<byte> := [13, 10, 13, 10]
  const SWITCHING: seq<byte> := [72, 84, 84, 80, 47, 49, 46, 49, 32, 49, 48, 49]

  /** Where the blank line begins. */
  function HeadEnd(buffer: seq<byte>): (end: Option<nat>)
    ensures end.Some? ==> end.value + 4 <= |buffer| && buffer[end.value..end.value + 4] == BLANK_LINE
  {
    if |buffer| < 4 then None
    else if buffer[..4] == BLANK_LINE then Some(0)
    else
      var later := HeadEnd(buffer[1..]);
      if later.None? then None else Some(later.value + 1)
  }

  /** Decoding as ASCII drops the top bit of every byte. */
  predicate Accepts(head: seq<byte>) {
    |head| >= |SWITCHING| && forall i | 0 <= i < |SWITCHING| :: head[i] % 128 == SWITCHING[i]
  }

  function Progress(r: Reader, parse: Parser): Reader {
    if r.ready then Drained(r, parse)
    else
      var end := HeadEnd(r.buffer);
      if end.None? then r
      else if !Accepts(r.buffer[..end.value]) then r.(opening := Settled(r.opening, Rejected))
      else Drained(r.(buffer := r.buffer[end.value + 4..], ready := true, opening := Settled(r.opening, Resolved)),
                   parse)
  }

  /** One data event. */
  function Fed(r: Reader, chunk: seq<byte>, parse: Parser): Reader {
    if r.crashed then r else Progress(r.(buffer := r.buffer + chunk), parse)
  }

  // --- The pieces do not matter --------------------------------------------------------------------

  lemma {:induction false} LongerReadsTheSame(bytes: seq<byte>, more: seq<byte>)
    requires |bytes| >= 2
    ensures ReadLength(bytes).Some? ==> ReadLength(bytes + more) == ReadLength(bytes)
  {
    if |bytes| >= 4 { assert (bytes + more)[2..4] == bytes[2..4]; }
    if |bytes| >= 10 { assert (bytes + more)[2..10] == bytes[2..10]; }
  }

  lemma {:induction false} LongerScansTheSame(buffer: seq<byte>, more: seq<byte>)
    ensures !FirstFrame(buffer).Wait? ==> FirstFrame(buffer + more) == FirstFrame(buffer)
  {
    if |buffer| >= 2 {
      LongerReadsTheSame(buffer, more);
    }
  }

  lemma {:induction false} LongerEndsTheSame(buffer: seq<byte>, more: seq<byte>)
    ensures HeadEnd(buffer).Some? ==> HeadEnd(buffer + more) == HeadEnd(buffer)
  {
    if |buffer| >= 4 {
      assert (buffer + more)[..4] == buffer[..4];
      assert (buffer + more)[1..] == buffer[1..] + more;
      LongerEndsTheSame(buffer[1..], more);
    }
  }

  lemma {:induction false} TakenLeavesTheRest(r: Reader, payload: seq<byte>, rest: seq<byte>, id: Option<int>,
                                              more: seq<byte>)
    ensures var t := Taken(r, payload, rest, id);
      && t.buffer == rest && t.ready == r.ready && t.crashed == r.crashed
      && t.(buffer := rest + more) == Taken(r.(buffer := r.buffer + more), payload, rest + more, id)
  {
  }

  lemma {:induction false} DrainedInTwo(r: Reader, more: seq<byte>, parse: Parser)
    requires r.ready && !r.crashed
    ensures Fed(Drained(r, parse), more, parse) == Drained(r.(buffer := r.buffer + more), parse)
    ensures Drained(r, parse).ready
    decreases |r.buffer|
  {
    var whole := r.(buffer := r.buffer + more);
    var scan := FirstFrame(r.buffer);
    LongerScansTheSame(r.buffer, more);
    hide FirstFrame, Taken, HeadEnd, Accepts;
    if scan.Whole? {
      var n := scan.header + scan.size;
      assert whole.buffer[scan.header..n] == r.buffer[scan.header..n];
      assert whole.buffer[n..] == r.buffer[n..] + more;
      var payload := r.buffer[scan.header..n];
      var message := parse(payload);
      if message.Some? {
        var t := Taken(r, payload, r.buffer[n..], message.value);
        TakenLeavesTheRest(r, payload, r.buffer[n..], message.value, more);
        DrainedInTwo(t, more, parse);
      }
    }
  }

  /** However the socket splits the bytes, the reader ends in the same state, with the same calls resolved. */
  lemma {:induction false} FedInTwo(r: Reader, a: seq<byte>, b: seq<byte>, parse: Parser)
    ensures Fed(Fed(r, a, parse), b, parse) == Fed(r, a + b, parse)
  {
    hide Drained, Accepts, HeadEnd;
    var first := r.(buffer := r.buffer + a);
    assert (r.buffer + a) + b == r.buffer + (a + b);
    if !r.crashed {
      if r.ready {
        DrainedInTwo(first, b, parse);
      } else {
        LongerEndsTheSame(first.buffer, b);
        var end := HeadEnd(first.buffer);
        if end.Some? {
          assert (first.buffer + b)[..end.value] == first.buffer[..end.value];
          assert (first.buffer + b)[end.value + 4..] == first.buffer[end.value + 4..] + b;
          if Accepts(first.buffer[..end.value]) {
            DrainedInTwo(first.(buffer := first.buffer[end.value + 4..], ready := true,
                                opening := Settled(r.opening, Resolved)), b, parse);
          }
        }
      }
    }
  }

  function Joined(chunks: seq<seq<byte>>): seq<byte> {
    if chunks == [] then [] else chunks[0] + Joined(chunks[1..])
  }

  function FedAll(r: Reader, chunks: seq<seq<byte>>, parse: Parser): Reader
    decreases |chunks|
  {
    if chunks == [] then r else FedAll(Fed(r, chunks[0], parse), chunks[1..], parse)
  }

  /** Nothing whole is waiting, so another look at the buffer changes nothing. */
  predicate Idle(r: Reader, parse: Parser) {
    Fed(r, [], parse) == r
  }

  lemma {:induction false} ChunkingDoesNotMatter(r: Reader, chunks: seq<seq<byte>>, parse: Parser)
    requires Idle(r, parse)
    ensures FedAll(r, chunks, parse) == Fed(r, Joined(chunks), parse)
    decreases |chunks|
  {
    if chunks != [] {
      hide Fed;
      var t := Fed(r, chunks[0], parse);
      FedInTwo(r, chunks[0], [], parse);
      assert chunks[0] + [] == chunks[0];
      ChunkingDoesNotMatter(t, chunks[1..], parse);
      FedInTwo(r, chunks[0], Joined(chunks[1..]), parse);
    }
  }

  // --- What is refused ---------------------------------------------------------------------------------

  predicate BlankAt(b: seq<byte>, i: nat) {
    i + 4 <= |b| && b[i] == 13 && b[i + 1] == 10 && b[i + 2] == 13 && b[i + 3] == 10
  }

  /** The head ends at the first blank line. */
  lemma {:induction false} HeadEndExactly(buffer: seq<byte>)
    ensures HeadEnd(buffer).None? ==> forall i: nat :: !BlankAt(buffer, i)
    ensures HeadEnd(buffer).Some? ==>
      BlankAt(buffer, HeadEnd(buffer).value) && forall i: nat | i < HeadEnd(buffer).value :: !BlankAt(buffer, i)
  {
    assert |buffer| >= 4 ==> (buffer[..4] == BLANK_LINE <==> BlankAt(buffer, 0)) by {
      assert |buffer| >= 4 ==> buffer[..4] == [buffer[0], buffer[1], buffer[2], buffer[3]];
    }
    if |buffer| >= 4 && buffer[..4] != BLANK_LINE {
      HeadEndExactly(buffer[1..]);
      forall i: nat
        ensures i > 0 ==> (BlankAt(buffer, i) <==> BlankAt(buffer[1..], i - 1))
      {
      }
    }
  }

  /** The bytes of "HTTP/1.1 101", the top bit aside, begin a head that is accepted. */
  lemma {:induction false} AcceptsExactly(head: seq<byte>)
    ensures Accepts(head) <==>
      && |head| >= 12
      && head[0] % 128 == 'H' as byte && head[1] % 128 == 'T' as byte && head[2] % 128 == 'T' as byte
      && head[3] % 128 == 'P' as byte && head[4] % 128 == '/' as byte && head[5] % 128 == '1' as byte
      && head[6] % 128 == '.' as byte && head[7] % 128 == '1' as byte && head[8] % 128 == ' ' as byte
      && head[9] % 128 == '1' as byte && head[10] % 128 == '0' as byte && head[11] % 128 == '1' as byte
  {
    assert |SWITCHING| == 12;
    assert SWITCHING[0] == 'H' as byte && SWITCHING[1] == 'T' as byte && SWITCHING[2] == 'T' as byte;
    assert SWITCHING[3] == 'P' as byte && SWITCHING[4] == '/' as byte && SWITCHING[5] == '1' as byte;
    assert SWITCHING[6] == '.' as byte && SWITCHING[7] == '1' as byte && SWITCHING[8] == ' ' as byte;
    assert SWITCHING[9] == '1' as byte && SWITCHING[10] == '0' as byte && SWITCHING[11] == '1' as byte;
  }

  /** The connection is refused and nothing is read, however the bytes arrive, when the upgrade is not accepted; and
      once it was, a frame that is no text frame of a server's ends the reading. */
  lemma {:induction false} RefusedExactly(r: Reader, chunk: seq<byte>, parse: Parser)
    requires !r.crashed
    ensures var buffer, t := r.buffer + chunk, Fed(r, chunk, parse);
      && (!r.ready && HeadEnd(buffer).None? ==> t == r.(buffer := buffer))
      && (!r.ready && HeadEnd(buffer).Some? && !Accepts(buffer[..HeadEnd(buffer).value]) ==>
            t == r.(buffer := buffer, opening := if r.opening.Unsettled? then Rejected else r.opening))
      && (r.ready && |buffer| >= 2 && (buffer[0] % 16 != 1 || buffer[1] >= 128) ==>
            t == r.(buffer := buffer, opening := if r.opening.Unsettled? then Rejected else r.opening))
      && (!r.ready && HeadEnd(buffer).Some? && Accepts(buffer[..HeadEnd(buffer).value]) ==>
            t.ready && t.opening == if r.opening.Unsettled? then Resolved else r.opening)
  {
    hide Accepts, HeadEnd;
    var buffer := r.buffer + chunk;
    if !r.ready && HeadEnd(buffer).Some? {
      DrainedSettles(r.(buffer := buffer[HeadEnd(buffer).value + 4..], ready := true,
                        opening := Settled(r.opening, Resolved)), parse);
    }
  }

  lemma {:induction false} DrainedSettles(r: Reader, parse: Parser)
    requires !r.opening.Unsettled?
    ensures Drained(r, parse).ready == r.ready && Drained(r, parse).opening == r.opening
    decreases |r.buffer|
  {
    hide FirstFrame;
    var scan := FirstFrame(r.buffer);
    if scan.Whole? {
      var payload, rest := r.buffer[scan.header..scan.header + scan.size], r.buffer[scan.header + scan.size..];
      if parse(payload).Some? {
        DrainedSettles(Taken(r, payload, rest, parse(payload).value), parse);
      }
    }
  }

  // --- Calls ---------------------------------------------------------------------------------------

  /** A call is numbered when the connection is open; its timer may give it up; data arrives in pieces. */
  datatype Event = Call | Expire(id: int) | Data(chunk: seq<byte>)

  function Happened(r: Reader, event: Event, parse: Parser): Reader {
    match event
    case Call =>
      if r.opening.Resolved? && !r.crashed then r.(sequence := r.sequence + 1, pending := r.pending + {r.sequence + 1})
        else r
    case Expire(id) => r.(pending := r.pending - {id})
    case Data(chunk) => Fed(r, chunk, parse)
  }

  function Run(r: Reader, events: seq<Event>, parse: Parser): Reader
    decreases |events|
  {
    if events == [] then r else Run(Happened(r, events[0], parse), events[1..], parse)
  }

  /** A call goes out, under the next number, exactly once the upgrade was accepted and while the reader lives. */
  lemma {:induction false} CallIsNumbered(r: Reader, parse: Parser)
    ensures var t := Happened(r, Call, parse);
      && (t.sequence != r.sequence <==> r.opening == Resolved && !r.crashed)
      && (t != r ==> t.sequence == r.sequence + 1 && t.pending == r.pending + {t.sequence}
                     && t.(sequence := r.sequence, pending := r.pending) == r)
  {
  }

  predicate Answered(answer: (int, seq<byte>), pending: set<int>, sequence: nat, parsed: seq<seq<byte>>,
                     parse: Parser) {
    && parse(answer.1) == Some(Some(answer.0))
    && answer.1 in parsed
    && answer.0 <= sequence && answer.0 !in pending
  }

  predicate MatchedLog(pending: set<int>, sequence: nat, parsed: seq<seq<byte>>, resolved: seq<(int, seq<byte>)>,
                       parse: Parser) {
    && (forall id <- pending :: id <= sequence)
    && (forall i | 0 <= i < |resolved| :: Answered(resolved[i], pending, sequence, parsed, parse))
    && (forall i, j | 0 <= i < j < |resolved| :: resolved[i].0 != resolved[j].0)
  }

  /** Each call is resolved at most once, with a message that carries its number. */
  predicate Matched(r: Reader, parse: Parser) {
    MatchedLog(r.pending, r.sequence, r.parsed, r.resolved, parse)
  }

  lemma {:induction false} TakenKeepsMatched(r: Reader, payload: seq<byte>, rest: seq<byte>, parse: Parser)
    requires Matched(r, parse) && parse(payload).Some?
    ensures Matched(Taken(r, payload, rest, parse(payload).value), parse)
  {
    var t := Taken(r, payload, rest, parse(payload).value);
    forall i | 0 <= i < |t.resolved|
      ensures Answered(t.resolved[i], t.pending, t.sequence, t.parsed, parse)
    {
      if i < |r.resolved| { assert Answered(r.resolved[i], r.pending, r.sequence, r.parsed, parse); }
    }
    forall i, j | 0 <= i < j < |t.resolved|
      ensures t.resolved[i].0 != t.resolved[j].0
    {
      assert Answered(r.resolved[i], r.pending, r.sequence, r.parsed, parse);
    }
  }

  lemma {:induction false} DrainedKeepsMatched(r: Reader, parse: Parser)
    requires Matched(r, parse)
    ensures Matched(Drained(r, parse), parse)
    decreases |r.buffer|
  {
    hide Taken, FirstFrame, MatchedLog;
    var scan := FirstFrame(r.buffer);
    if scan.Whole? {
      var n := scan.header + scan.size;
      var payload := r.buffer[scan.header..n];
      if parse(payload).Some? {
        TakenKeepsMatched(r, payload, r.buffer[n..], parse);
        TakenLeavesTheRest(r, payload, r.buffer[n..], parse(payload).value, []);
        DrainedKeepsMatched(Taken(r, payload, r.buffer[n..], parse(payload).value), parse);
      }
    }
  }

  lemma {:induction false} CallingKeepsMatched(r: Reader, event: Event, parse: Parser)
    requires Matched(r, parse) && !event.Data?
    ensures Matched(Happened(r, event, parse), parse)
  {
    var t := Happened(r, event, parse);
    forall i | 0 <= i < |t.resolved|
      ensures Answered(t.resolved[i], t.pending, t.sequence, t.parsed, parse)
    {
      assert Answered(r.resolved[i], r.pending, r.sequence, r.parsed, parse);
    }
  }

  lemma {:induction false} StepKeepsMatched(r: Reader, event: Event, parse: Parser)
    requires Matched(r, parse)
    ensures Matched(Happened(r, event, parse), parse)
  {
    hide Drained, HeadEnd, Accepts, MatchedLog;
    if event.Data? {
      var t := r.(buffer := r.buffer + event.chunk);
      DrainedKeepsMatched(t, parse);
      if HeadEnd(t.buffer).Some? {
        DrainedKeepsMatched(
          t.(buffer := t.buffer[HeadEnd(t.buffer).value + 4..], ready := true, opening := Settled(t.opening, Resolved)),
            parse);
      }
    } else {
      CallingKeepsMatched(r, event, parse);
    }
  }

  lemma {:induction false} EachCallResolvedAtMostOnce(events: seq<Event>, parse: Parser)
    ensures Matched(Run(NEW, events, parse), parse)
  {
    RunKeepsMatched(NEW, events, parse);
  }

  lemma {:induction false} RunKeepsMatched(r: Reader, events: seq<Event>, parse: Parser)
    requires Matched(r, parse)
    ensures Matched(Run(r, events, parse), parse)
    decreases |events|
  {
    hide Matched, Happened;
    if events != [] {
      StepKeepsMatched(r, events[0], parse);
      RunKeepsMatched(Happened(r, events[0], parse), events[1..], parse);
    }
  }

  // --- Which message a call is given -------------------------------------------------------------------

  /** The first payload that carries a number. */
  function FirstWith(payloads: seq<seq<byte>>, id: int, parse: Parser): Option<seq<byte>> {
    if payloads == [] then None
    else if parse(payloads[0]) == Some(Some(id)) then Some(payloads[0])
    else FirstWith(payloads[1..], id, parse)
  }

  /** What one call was resolved with. */
  function GivenTo(resolved: seq<(int, seq<byte>)>, id: int): seq<seq<byte>> {
    if resolved == [] then []
    else (if resolved[0].0 == id then [resolved[0].1] else []) + GivenTo(resolved[1..], id)
  }

  predicate Grown(r: Reader, t: Reader) {
    && |r.parsed| <= |t.parsed| && t.parsed[..|r.parsed|] == r.parsed
    && |r.resolved| <= |t.resolved| && t.resolved[..|r.resolved|] == r.resolved
    && r.sequence <= t.sequence
  }

  /** From one reader to a later one: a pending call was given the first payload with its number, if one was parsed, and
      stays pending otherwise; a call that is not pending was given nothing. */
  predicate Answers(r: Reader, t: Reader, id: int, parse: Parser) {
    && Grown(r, t)
    && var first := FirstWith(t.parsed[|r.parsed|..], id, parse);
      && (id in t.pending <==> id in r.pending && first.None?)
      && GivenTo(t.resolved[|r.resolved|..], id) ==
           if id in r.pending && first.Some? then [first.value] else []
  }

  lemma {:induction false} FirstOfBoth(a: seq<seq<byte>>, b: seq<seq<byte>>, id: int, parse: Parser)
    ensures FirstWith(a + b, id, parse) ==
      if FirstWith(a, id, parse).Some? then FirstWith(a, id, parse) else FirstWith(b, id, parse)
  {
    if a == [] {
      assert a + b == b;
    } else {
      assert (a + b)[1..] == a[1..] + b;
      FirstOfBoth(a[1..], b, id, parse);
    }
  }

  lemma {:induction false} GivenInBoth(a: seq<(int, seq<byte>)>, b: seq<(int, seq<byte>)>, id: int)
    ensures GivenTo(a + b, id) == GivenTo(a, id) + GivenTo(b, id)
  {
    if a == [] {
      assert a + b == b;
    } else {
      assert (a + b)[0] == a[0] && (a + b)[1..] == a[1..] + b;
      GivenInBoth(a[1..], b, id);
      var one := if a[0].0 == id then [a[0].1] else [];
      assert one + (GivenTo(a[1..], id) + GivenTo(b, id)) == one + GivenTo(a[1..], id) + GivenTo(b, id);
    }
  }

  lemma {:induction false} Cut<T>(a: seq<T>, b: seq<T>, c: seq<T>)
    requires |a| <= |b| <= |c| && b[..|a|] == a && c[..|b|] == b
    ensures c[..|a|] == a && c[|a|..] == b[|a|..] + c[|b|..]
  {
    assert c == b + c[|b|..] && b == a + b[|a|..];
  }

  lemma {:induction false} AnswersJoin(r: Reader, s: Reader, t: Reader, id: int, parse: Parser)
    requires Answers(r, s, id, parse) && Answers(s, t, id, parse)
    ensures Answers(r, t, id, parse)
  {
    Cut(r.parsed, s.parsed, t.parsed);
    Cut(r.resolved, s.resolved, t.resolved);
    FirstOfBoth(s.parsed[|r.parsed|..], t.parsed[|s.parsed|..], id, parse);
    GivenInBoth(s.resolved[|r.resolved|..], t.resolved[|s.resolved|..], id);
    hide FirstWith, GivenTo;
  }

  /** Nothing was parsed, nobody was given anything. */
  lemma {:induction false} NothingParsed(r: Reader, t: Reader, id: int, parse: Parser)
    requires t.parsed == r.parsed && t.resolved == r.resolved && r.sequence <= t.sequence
    requires id in t.pending <==> id in r.pending
    ensures Answers(r, t, id, parse)
  {
    assert t.parsed[|r.parsed|..] == [] && t.resolved[|r.resolved|..] == [];
    assert t.parsed[..|r.parsed|] == r.parsed && t.resolved[..|r.resolved|] == r.resolved;
  }

  lemma {:induction false} TakenAnswers(r: Reader, payload: seq<byte>, rest: seq<byte>, id: int, parse: Parser)
    requires parse(payload).Some?
    ensures Answers(r, Taken(r, payload, rest, parse(payload).value), id, parse)
  {
    var t := Taken(r, payload, rest, parse(payload).value);
    assert t.parsed[|r.parsed|..] == [payload] && t.parsed[..|r.parsed|] == r.parsed;
    assert [payload][1..] == [];
    var number := parse(payload).value;
    if number.Some? && number.value in r.pending {
      var answer := (number.value, payload);
      assert t.resolved[|r.resolved|..] == [answer] && t.resolved[..|r.resolved|] == r.resolved && [answer][1..] == [];
    } else {
      assert t.resolved[|r.resolved|..] == [] && t.resolved[..|r.resolved|] == r.resolved;
    }
  }

  lemma {:induction false} DrainedAnswers(r: Reader, id: int, parse: Parser)
    ensures Answers(r, Drained(r, parse), id, parse)
    decreases |r.buffer|
  {
    hide FirstFrame, Answers;
    var scan := FirstFrame(r.buffer);
    if scan.Whole? {
      var n := scan.header + scan.size;
      var payload := r.buffer[scan.header..n];
      if parse(payload).Some? {
        var t := Taken(r, payload, r.buffer[n..], parse(payload).value);
        TakenAnswers(r, payload, r.buffer[n..], id, parse);
        DrainedAnswers(t, id, parse);
        AnswersJoin(r, t, Drained(t, parse), id, parse);
      } else {
        NothingParsed(r, Drained(r, parse), id, parse);
      }
    } else {
      NothingParsed(r, Drained(r, parse), id, parse);
    }
  }

  lemma {:induction false} FedAnswers(r: Reader, chunk: seq<byte>, id: int, parse: Parser)
    ensures Answers(r, Fed(r, chunk, parse), id, parse)
  {
    hide Drained, Answers, HeadEnd, Accepts;
    var t := r.(buffer := r.buffer + chunk);
    NothingParsed(r, t, id, parse);
    if r.crashed {
      NothingParsed(r, r, id, parse);
    } else if r.ready {
      DrainedAnswers(t, id, parse);
      AnswersJoin(r, t, Drained(t, parse), id, parse);
    } else if HeadEnd(t.buffer).Some? && Accepts(t.buffer[..HeadEnd(t.buffer).value]) {
      var u := t.(buffer := t.buffer[HeadEnd(t.buffer).value + 4..], ready := true,
                  opening := Settled(t.opening, Resolved));
      NothingParsed(r, u, id, parse);
      DrainedAnswers(u, id, parse);
      AnswersJoin(r, u, Drained(u, parse), id, parse);
    } else {
      NothingParsed(r, Fed(r, chunk, parse), id, parse);
    }
  }

  lemma {:induction false} StepAnswers(r: Reader, event: Event, id: int, parse: Parser)
    requires id <= r.sequence && event != Expire(id)
    ensures Answers(r, Happened(r, event, parse), id, parse)
  {
    hide Fed, Answers;
    if event.Data? {
      FedAnswers(r, event.chunk, id, parse);
    } else {
      NothingParsed(r, Happened(r, event, parse), id, parse);
    }
  }

  lemma {:induction false} RunAnswers(r: Reader, events: seq<Event>, id: int, parse: Parser)
    requires id <= r.sequence && (Expire(id) in events ==> id !in r.pending)
    ensures Answers(r, Run(r, events, parse), id, parse)
    decreases |events|
  {
    hide Happened, FirstWith, GivenTo;
    if events == [] {
      NothingParsed(r, r, id, parse);
    } else {
      var t := Happened(r, events[0], parse);
      if events[0] == Expire(id) {
        ExpiredAnswers(r, id, parse);
      } else {
        StepAnswers(r, events[0], id, parse);
      }
      assert events == [events[0]] + events[1..];
      RunAnswers(t, events[1..], id, parse);
      AnswersJoin(r, t, Run(t, events[1..], parse), id, parse);
    }
  }

  lemma {:induction false} ExpiredAnswers(r: Reader, id: int, parse: Parser)
    requires id !in r.pending
    ensures Answers(r, Happened(r, Expire(id), parse), id, parse)
  {
    NothingParsed(r, Happened(r, Expire(id), parse), id, parse);
  }

  /** How many events come before a call's timer gives it up. */
  function Patience(events: seq<Event>, id: int): (n: nat)
    ensures n <= |events| && Expire(id) !in events[..n] && (n < |events| ==> events[n] == Expire(id))
  {
    if events == [] || events[0] == Expire(id) then 0
    else
      var n := 1 + Patience(events[1..], id);
      assert events[..n] == [events[0]] + events[1..][..n - 1];
      n
  }

  lemma {:induction false} RunsJoin(r: Reader, a: seq<Event>, b: seq<Event>, parse: Parser)
    ensures Run(r, a + b, parse) == Run(Run(r, a, parse), b, parse)
    decreases |a|
  {
    hide Happened;
    if a == [] {
      assert a + b == b;
    } else {
      assert (a + b)[1..] == a[1..] + b;
      RunsJoin(Happened(r, a[0], parse), a[1..], b, parse);
    }
  }

  lemma {:induction false} NotGivenYet(r: Reader, id: int, parse: Parser)
    requires Matched(r, parse) && id > r.sequence
    ensures GivenTo(r.resolved, id) == []
  {
    forall i | 0 <= i < |r.resolved|
      ensures r.resolved[i].0 != id
    {
      assert Answered(r.resolved[i], r.pending, r.sequence, r.parsed, parse);
    }
    NobodyGiven(r.resolved, id);
  }

  lemma {:induction false} NobodyGiven(resolved: seq<(int, seq<byte>)>, id: int)
    requires forall i | 0 <= i < |resolved| :: resolved[i].0 != id
    ensures GivenTo(resolved, id) == []
  {
    if resolved != [] {
      NobodyGiven(resolved[1..], id);
    }
  }

  /** Over every run: a call is given the first payload with its number that is parsed after the call and before its
      timer gives it up, and nothing if there is none. */
  lemma {:induction false} EachCallIsGivenTheFirst(before: seq<Event>, later: seq<Event>, parse: Parser)
    requires var r := Run(NEW, before, parse);
      r.opening.Resolved? && !r.crashed
    ensures var r := Run(NEW, before, parse);
      var id := r.sequence + 1;
      var called := Happened(r, Call, parse);
      var expiring := Run(called, later[..Patience(later, id)], parse);
      && |r.parsed| <= |expiring.parsed|
      && var first := FirstWith(expiring.parsed[|r.parsed|..], id, parse);
        GivenTo(Run(called, later, parse).resolved, id) == if first.Some? then [first.value] else []
  {
    hide Run, Fed, FirstWith, GivenTo, Matched;
    var r := Run(NEW, before, parse);
    var id := r.sequence + 1;
    EachCallResolvedAtMostOnce(before, parse);
    NotGivenYet(r, id, parse);
    PendingIsGivenTheFirst(Happened(r, Call, parse), later, id, parse);
  }

  lemma {:induction false} PendingIsGivenTheFirst(r: Reader, later: seq<Event>, id: int, parse: Parser)
    requires id in r.pending && id <= r.sequence && GivenTo(r.resolved, id) == []
    ensures var expiring := Run(r, later[..Patience(later, id)], parse);
      && |r.parsed| <= |expiring.parsed|
      && var first := FirstWith(expiring.parsed[|r.parsed|..], id, parse);
        GivenTo(Run(r, later, parse).resolved, id) == if first.Some? then [first.value] else []
  {
    hide Run, FirstWith, GivenTo, Patience, Happened;
    var n := Patience(later, id);
    var expiring := Run(r, later[..n], parse);
    RunAnswers(r, later[..n], id, parse);
    GivenSoFar(r, expiring, id, parse);
    assert later == later[..n] + later[n..];
    RunsJoin(r, later[..n], later[n..], parse);
    var t := Run(expiring, later[n..], parse);
    Afterwards(expiring, later[n..], id, parse);
    GivenSoFar(expiring, t, id, parse);
    hide Answers, Grown;
  }

  lemma {:induction false} GivenSoFar(r: Reader, t: Reader, id: int, parse: Parser)
    requires Grown(r, t)
    ensures GivenTo(t.resolved, id) == GivenTo(r.resolved, id) + GivenTo(t.resolved[|r.resolved|..], id)
  {
    assert t.resolved == r.resolved + t.resolved[|r.resolved|..];
    GivenInBoth(r.resolved, t.resolved[|r.resolved|..], id);
  }

  /** A call that was given up is given nothing any more. */
  lemma {:induction false} Afterwards(r: Reader, events: seq<Event>, id: int, parse: Parser)
    requires id <= r.sequence && (events != [] ==> events[0] == Expire(id))
    ensures var t := Run(r, events, parse);
      Grown(r, t) && GivenTo(t.resolved[|r.resolved|..], id) == []
  {
    if events == [] {
      NothingParsed(r, r, id, parse);
      assert r.resolved[|r.resolved|..] == [];
    } else {
      var t := Happened(r, Expire(id), parse);
      RunAnswers(t, events[1..], id, parse);
      hide FirstWith, GivenTo;
    }
  }

  // --- What a well-formed stream delivers ----------------------------------------------------------

  /** The unmasked, final text frame of section 5.2 that carries a payload. */
  function TextFrame(payload: seq<byte>): seq<byte> {
    var n := |payload|;
    (if n < 126 then [0x81, n as byte]
     else if n < 0x1_0000 then [0x81, 126] + BigEndian(n, 2)
     else [0x81, 127] + BigEndian(n, 8)) + payload
  }

  function TextFrames(payloads: seq<seq<byte>>): seq<byte> {
    if payloads == [] then [] else TextFrame(payloads[0]) + TextFrames(payloads[1..])
  }

  /** Payloads a frame can carry and the client can parse. */
  predicate Sendable(payloads: seq<seq<byte>>, parse: Parser) {
    forall i | 0 <= i < |payloads| :: |payloads[i]| < 0x8000_0000_0000_0000 && parse(payloads[i]).Some?
  }

  lemma {:induction false} Powers()
    ensures Pow256(2) == 0x1_0000 && Pow256(8) == 0x1_0000_0000_0000_0000
  {
    assert Pow256(4) == 256 * (256 * Pow256(2));
    assert Pow256(8) == 256 * (256 * (256 * (256 * Pow256(4))));
  }

  lemma {:induction false} FramePieces(prefix: seq<byte>, number: seq<byte>, payload: seq<byte>, rest: seq<byte>)
    requires |prefix| == 2
    ensures var buffer, header := prefix + number + payload + rest, 2 + |number|;
      && buffer[0] == prefix[0] && buffer[1] == prefix[1] && buffer[2..header] == number
      && buffer[header..header + |payload|] == payload && buffer[header + |payload|..] == rest
  {
  }

  lemma {:induction false} TextFrameScans(payload: seq<byte>, rest: seq<byte>)
    requires |payload| < 0x8000_0000_0000_0000
    ensures var buffer := TextFrame(payload) + rest;
      var scan := FirstFrame(buffer);
      scan.Whole? && buffer[scan.header..scan.header + scan.size] == payload
        && buffer[scan.header + scan.size..] == rest
  {
    hide BigEndian, Number;
    var n := |payload|;
    Powers();
    if n < 126 {
      assert [0x81, n as byte] + [] == [0x81, n as byte];
      FramePieces([0x81, n as byte], [], payload, rest);
    } else if n < 0x1_0000 {
      NumberOfBigEndian(n, 2);
      FramePieces([0x81, 126], BigEndian(n, 2), payload, rest);
    } else {
      NumberOfBigEndian(n, 8);
      FramePieces([0x81, 127], BigEndian(n, 8), payload, rest);
    }
  }

  lemma {:induction false} DrainedOne(r: Reader, payload: seq<byte>, rest: seq<byte>, parse: Parser)
    requires r.buffer == TextFrame(payload) + rest && |payload| < 0x8000_0000_0000_0000 && parse(payload).Some?
    ensures Drained(r, parse) == Drained(Taken(r, payload, rest, parse(payload).value), parse)
  {
    TextFrameScans(payload, rest);
    hide FirstFrame, TextFrame, Taken;
  }

  lemma {:induction false} DrainedNone(r: Reader, parse: Parser)
    requires r.buffer == []
    ensures Drained(r, parse) == r
  {
  }

  lemma {:induction false} DrainedFrames(r: Reader, payloads: seq<seq<byte>>, parse: Parser)
    requires r.buffer == TextFrames(payloads) && Sendable(payloads, parse)
    ensures var t := Drained(r, parse);
      t.buffer == [] && t.parsed == r.parsed + payloads && t.opening == r.opening && t.crashed == r.crashed
    decreases |payloads|
  {
    hide Drained, TextFrame;
    if payloads == [] {
      DrainedNone(r, parse);
    } else {
      var rest := TextFrames(payloads[1..]);
      DrainedOne(r, payloads[0], rest, parse);
      DrainedFrames(Taken(r, payloads[0], rest, parse(payloads[0]).value), payloads[1..], parse);
      assert r.parsed + [payloads[0]] + payloads[1..] == r.parsed + payloads;
    }
  }

  /** An upgrade response whose first blank line ends it, then text frames. */
  predicate UpgradeHead(head: seq<byte>) {
    Accepts(head) && HeadEnd(head + BLANK_LINE) == Some(|head|)
  }

  /** What does not depend on the calls in flight. */
  predicate SameStream(a: Reader, b: Reader) {
    a.buffer == b.buffer && a.ready == b.ready && a.opening == b.opening && a.parsed == b.parsed
      && a.crashed == b.crashed
  }

  lemma {:induction false} DrainedSameStream(a: Reader, b: Reader, parse: Parser)
    requires SameStream(a, b)
    ensures SameStream(Drained(a, parse), Drained(b, parse))
    decreases |a.buffer|
  {
    hide FirstFrame;
    var scan := FirstFrame(a.buffer);
    if scan.Whole? {
      var n := scan.header + scan.size;
      var payload := a.buffer[scan.header..n];
      if parse(payload).Some? {
        DrainedSameStream(Taken(a, payload, a.buffer[n..], parse(payload).value),
                          Taken(b, payload, b.buffer[n..], parse(payload).value), parse);
      }
    }
  }

  lemma {:induction false} FedSameStream(a: Reader, b: Reader, chunk: seq<byte>, parse: Parser)
    requires SameStream(a, b)
    ensures SameStream(Fed(a, chunk, parse), Fed(b, chunk, parse))
  {
    hide Drained, HeadEnd, Accepts;
    var buffer := a.buffer + chunk;
    DrainedSameStream(a.(buffer := buffer), b.(buffer := buffer), parse);
    if HeadEnd(buffer).Some? {
      var rest := buffer[HeadEnd(buffer).value + 4..];
      DrainedSameStream(a.(buffer := rest, ready := true, opening := Settled(a.opening, Resolved)),
                        b.(buffer := rest, ready := true, opening := Settled(b.opening, Resolved)), parse);
    }
  }

  function DataOf(events: seq<Event>): seq<seq<byte>> {
    if events == [] then []
    else (if events[0].Data? then [events[0].chunk] else []) + DataOf(events[1..])
  }

  lemma {:induction false} CallsLeaveTheStream(a: Reader, b: Reader, events: seq<Event>, parse: Parser)
    requires SameStream(a, b)
    ensures SameStream(Run(a, events, parse), FedAll(b, DataOf(events), parse))
    decreases |events|
  {
    hide Fed;
    if events != [] {
      if events[0].Data? {
        FedSameStream(a, b, events[0].chunk, parse);
        var chunks := DataOf(events[1..]);
        assert ([events[0].chunk] + chunks)[1..] == chunks;
        CallsLeaveTheStream(Happened(a, events[0], parse), Fed(b, events[0].chunk, parse), events[1..], parse);
      } else {
        assert [] + DataOf(events[1..]) == DataOf(events[1..]);
        CallsLeaveTheStream(Happened(a, events[0], parse), b, events[1..], parse);
      }
    }
  }

  /** However the server's bytes are split, and whatever calls are made or given up meanwhile: an upgrade
      response followed by text frames opens the connection and delivers every payload, once and in order. */
  lemma {:induction false} StreamIsDelivered(events: seq<Event>, head: seq<byte>, payloads: seq<seq<byte>>,
                                             parse: Parser)
    requires UpgradeHead(head) && Sendable(payloads, parse)
    requires Joined(DataOf(events)) == head + BLANK_LINE + TextFrames(payloads)
    ensures var t := Run(NEW, events, parse);
      t.opening == Resolved && t.parsed == payloads && t.buffer == [] && !t.crashed
  {
    hide Fed;
    CallsLeaveTheStream(NEW, NEW, events, parse);
    NewIsIdle(parse);
    ChunkingDoesNotMatter(NEW, DataOf(events), parse);
    UpgradedThenDrained(head, payloads, parse);
  }

  lemma {:induction false} NewIsIdle(parse: Parser)
    ensures Idle(NEW, parse)
  {
    assert NEW.buffer + [] == NEW.buffer;
  }

  lemma {:induction false} UpgradedThenDrained(head: seq<byte>, payloads: seq<seq<byte>>, parse: Parser)
    requires UpgradeHead(head) && Sendable(payloads, parse)
    ensures var t := Fed(NEW, head + BLANK_LINE + TextFrames(payloads), parse);
      t.opening == Resolved && t.parsed == payloads && t.buffer == [] && !t.crashed
  {
    hide Drained, HeadEnd, Accepts, TextFrames, Sendable;
    var stream := head + BLANK_LINE + TextFrames(payloads);
    assert NEW.buffer + stream == stream;
    LongerEndsTheSame(head + BLANK_LINE, TextFrames(payloads));
    assert stream[..|head|] == head && stream[|head| + 4..] == TextFrames(payloads);
    DrainedFrames(NEW.(buffer := TextFrames(payloads), ready := true, opening := Resolved), payloads, parse);
  }

  // --- The probe itself ----------------------------------------------------------------------------

  class Probe {
    var buffer: seq<byte>
    var ready: bool
    var opening: Opening
    var pending: set<int>
    var sequence: nat
    var crashed: bool
    ghost var parsed: seq<seq<byte>>
    ghost var resolved: seq<(int, seq<byte>)>

    ghost function Now(): Reader
      reads this
    {
      Reader(buffer, ready, opening, pending, sequence, parsed, resolved, crashed)
    }

    constructor ()
      ensures Now() == NEW
    {
      buffer, ready, opening, pending, sequence, crashed := [], false, Unsettled, {}, 0, false;
      parsed, resolved := [], [];
    }

    /** A promise is settled once. */
    method Settle(now: Opening)
      modifies `opening
      ensures opening == Settled(old(opening), now)
    {
      if opening.Unsettled? {
        opening := now;
      }
    }

    method Reply(id: int, payload: seq<byte>)
      modifies `pending, `resolved
      ensures if id in old(pending)
        then pending == old(pending) - {id} && resolved == old(resolved) + [(id, payload)]
        else pending == old(pending) && resolved == old(resolved)
    {
      if id in pending {
        pending := pending - {id};
        resolved := resolved + [(id, payload)];
      }
    }

    /** One turn of the frame loop, on a frame that has arrived whole. */
    method TakeFrame(header: nat, size: nat, parse: Parser)
      requires 2 <= header <= header + size <= |buffer|
      modifies this
      ensures var payload := old(buffer)[header..header + size];
        Now() == if parse(payload).None? then old(Now()).(buffer := [], crashed := true)
                 else Taken(old(Now()), payload, old(buffer)[header + size..], parse(payload).value)
      ensures crashed == (old(crashed) || parse(old(buffer)[header..header + size]).None?)
      ensures crashed || buffer == old(buffer)[header + size..]
    {
      var payload := buffer[header..header + size];
      var message := parse(payload);
      if message.None? {
        buffer, crashed := [], true;
        return;
      }
      buffer := buffer[header + size..];
      parsed := parsed + [payload];
      if message.value.Some? {
        Reply(message.value.value, payload);
      }
    }

    method TakeFrames(parse: Parser)
      requires !crashed
      modifies this
      ensures Now() == Drained(old(Now()), parse)
    {
      hide Drained, Taken, ReadLength;
      while true
        invariant !crashed && Drained(Now(), parse) == Drained(old(Now()), parse)
        decreases |buffer|
      {
        OneTurn(Now(), parse);
        if |buffer| < 2 {
          return;
        }
        if buffer[0] % 16 != 1 || buffer[1] >= 128 {
          Settle(Rejected);
          return;
        }
        var length := ReadLength(buffer);
        if length.None? || |buffer| < length.value.header + length.value.size {
          return;
        }
        TakeFrame(length.value.header, length.value.size, parse);
        if crashed {
          return;
        }
      }
    }

    /** The data handler. */
    method OnData(chunk: seq<byte>, parse: Parser)
      modifies this
      ensures Now() == Fed(old(Now()), chunk, parse)
    {
      hide Drained;
      if crashed {
        return;
      }
      buffer := buffer + chunk;
      if !ready {
        var end := HeadEnd(buffer);
        if end.None? {
          return;
        }
        if !Accepts(buffer[..end.value]) {
          Settle(Rejected);
          return;
        }
        buffer := buffer[end.value + 4..];
        ready := true;
        Settle(Resolved);
      }
      TakeFrames(parse);
    }

    /** A call once the connection is open: numbered, remembered, and written as one masked frame. */
    method Send(render: nat -> seq<byte>, mask: seq<byte>) returns (id: nat, frame: seq<byte>)
      requires opening.Resolved? && !crashed && |mask| == 4
      modifies this
      ensures forall parse: Parser :: Now() == Happened(old(Now()), Call, parse)
      ensures id == sequence && id in pending
      ensures Carries(frame, render(id)) <==> |render(id)| < 0x1_0000_0000
    {
      sequence := sequence + 1;
      id := sequence;
      pending := pending + {id};
      frame := Frame(render(id), mask);
    }
  }
}
