/** jpeg_dimensions in experiments/host-action-acceptance.py: a walk over the marker segments of a JPEG image,
    sections B.1.1 and B.2.2 of ITU-T T.81. */
module Jpeg {
  import opened Common

  type Image = b: seq<int> | forall i | 0 <= i < |b| :: 0 <= b[i] < 256 witness []

  const FILL := 0xFF

  /** Markers the walk takes to stand alone: RST, SOI and EOI. */
  predicate Alone(marker: int) {
    0xD0 <= marker <= 0xD9
  }

  predicate FrameHeader(marker: int) {
    marker == 0xC0 || marker == 0xC1 || marker == 0xC2
  }

  /** int.from_bytes of at most two bytes, big end first. */
  function Number(b: seq<int>): int {
    if |b| == 0 then 0 else if |b| == 1 then b[0] else 256 * b[0] + b[1]
  }

  /** A slice, which stops at the end. */
  function Slice(b: seq<int>, from: nat, to: nat): seq<int>
    requires from <= to
  {
    if from >= |b| then [] else if to >= |b| then b[from..] else b[from..to]
  }

  /** Past the fill bytes, if something follows them. */
  function Filled(b: seq<int>, offset: nat): (r: Option<nat>)
    ensures r.Some? ==> offset <= r.value < |b| && b[r.value] != FILL
    ensures r.Some? ==> forall k | offset <= k < r.value :: b[k] == FILL
    decreases |b| - offset
  {
    if offset >= |b| then None
    else if b[offset] == FILL then Filled(b, offset + 1)
    else Some(offset)
  }

  /** What a marker leads to: an end without a size, a size, or the offset to go on from. */
  datatype Turn = Fails | Sizes(width: int, height: int) | Goes(next: nat)

  function TurnAt(b: seq<int>, at: nat): (t: Turn)
    requires at < |b|
    ensures t.Goes? ==> at < t.next <= |b|
  {
    var next := at + 1;
    if Alone(b[at]) then Goes(next)
    else
      var length := Number(Slice(b, next, next + 2));
      if length < 2 || next + length > |b| then Fails
      else if FrameHeader(b[at]) then Sizes(Number(Slice(b, next + 5, next + 7)), Number(Slice(b, next + 3, next + 5)))
      else Goes(next + length)
  }

  /** The walk from an offset; nothing stands for every failed assertion and index out of range. */
  function Walk(b: seq<int>, offset: nat): Option<(int, int)>
    decreases |b| - offset
  {
    if offset >= |b| || b[offset] != FILL then None
    else
      var at := Filled(b, offset);
      if at.None? then None
      else
        match TurnAt(b, at.value)
        case Fails => None
        case Sizes(width, height) => Some((width, height))
        case Goes(next) => Walk(b, next)
  }

  method SkipFill(image: Image, from: nat) returns (at: Option<nat>)
    requires from < |image|
    ensures at == Filled(image, from)
  {
    var offset := from;
    while image[offset] == FILL
      invariant from <= offset < |image| && Filled(image, offset) == Filled(image, from)
      decreases |image| - offset
    {
      offset := offset + 1;
      if offset == |image| {
        return None;
      }
    }
    return Some(offset);
  }

  method TakeTurn(image: Image, at: nat) returns (turn: Turn)
    requires at < |image|
    ensures turn == TurnAt(image, at)
  {
    var marker := image[at];
    var offset := at + 1;
    if Alone(marker) {
      return Goes(offset);
    }
    var length := Number(Slice(image, offset, offset + 2));
    if length < 2 || offset + length > |image| {
      return Fails;
    }
    if FrameHeader(marker) {
      return Sizes(Number(Slice(image, offset + 5, offset + 7)), Number(Slice(image, offset + 3, offset + 5)));
    }
    return Goes(offset + length);
  }

  method Dimensions(image: Image) returns (size: Option<(int, int)>)
    ensures size == if |image| >= 2 && image[0] == 0xFF && image[1] == 0xD8 then Walk(image, 2) else None
  {
    hide TurnAt, Filled;
    if |image| < 2 || image[0] != 0xFF || image[1] != 0xD8 {
      return None;
    }
    var offset := 2;
    while offset < |image|
      invariant 2 <= offset
      invariant Walk(image, offset) == Walk(image, 2)
      decreases |image| - offset
    {
      if image[offset] != FILL {
        return None;
      }
      var filled := SkipFill(image, offset);
      if filled.None? {
        return None;
      }
      var turn := TakeTurn(image, filled.value);
      match turn
      case Fails => return None;
      case Sizes(width, height) => return Some((width, height));
      case Goes(next) => offset := next;
    }
    return None;
  }

  // --- Images made of marker segments ---------------------------------------------------------------

  /** Section B.1.1: a marker may be preceded by any number of fill bytes; most are followed by a segment whose
      length counts its own two bytes. */
  datatype Segment =
    | Marker(fill: nat, marker: int)
    | Sized(fill: nat, marker: int, body: seq<int>)

  function Fill(n: nat): (b: seq<int>)
    ensures |b| == n + 1
  {
    seq(n + 1, _ => FILL)
  }

  function LengthBytes(n: nat): (b: seq<int>)
    ensures |b| == 2
  {
    [n / 256, n % 256]
  }

  function Bytes(s: Segment): seq<int> {
    match s
    case Marker(fill, marker) => Fill(fill) + [marker]
    case Sized(fill, marker, body) => Fill(fill) + [marker] + LengthBytes(|body| + 2) + body
  }

  function AllBytes(segments: seq<Segment>): seq<int> {
    if segments == [] then [] else Bytes(segments[0]) + AllBytes(segments[1..])
  }

  /** A segment the walk passes over. */
  predicate Passed(s: Segment) {
    match s
    case Marker(_, marker) => Alone(marker)
    case Sized(_, marker, body) => !Alone(marker) && !FrameHeader(marker) && 0 <= marker < FILL && |body| + 2 < 0x1_0000
  }

  predicate AllPassed(segments: seq<Segment>) {
    forall i | 0 <= i < |segments| :: Passed(segments[i])
  }

  /** A frame header's segment, with all that follows it in the image. Section B.2.2: the sample precision, then the
      height and the width, two bytes each. */
  datatype Frame = Frame(fill: nat, marker: int, length: nat, after: seq<int>)

  predicate Framing(f: Frame) {
    FrameHeader(f.marker) && 2 <= f.length < 0x1_0000 && f.length - 2 <= |f.after|
  }

  function FrameBytes(f: Frame): seq<int> {
    Fill(f.fill) + [f.marker] + LengthBytes(f.length) + f.after
  }

  function FrameSize(f: Frame): (int, int) {
    (Number(Slice(f.after, 3, 5)), Number(Slice(f.after, 1, 3)))
  }

  /** What a marker leads to: RST0 to RST7, SOI and EOI to the next byte, SOF0, SOF1 and SOF2 to a size, and any other
      past the length behind it; a length below two or beyond the image leads nowhere. */
  lemma {:induction false} TurnExactly(b: seq<int>, at: nat)
    requires at + 2 < |b|
    ensures var marker, length := b[at], 256 * b[at + 1] + b[at + 2];
      && (TurnAt(b, at) == Goes(at + 1) <==> marker in {0xD0, 0xD1, 0xD2, 0xD3, 0xD4, 0xD5, 0xD6, 0xD7, 0xD8, 0xD9})
      && (TurnAt(b, at).Sizes? <==> marker in {0xC0, 0xC1, 0xC2} && 2 <= length < |b| - at)
      && (marker !in {0xC0, 0xC1, 0xC2} && !(0xD0 <= marker <= 0xD9) ==>
            TurnAt(b, at) == if 2 <= length < |b| - at then Goes(at + 1 + length) else Fails)
  {
    SecondOf(b, at + 1);
  }

  /** A size is two bytes each, the height's first, of what there is behind the precision. */
  lemma {:induction false} SizeExactly(f: Frame)
    ensures var after := f.after;
      FrameSize(f) ==
        if |after| >= 5 then (256 * after[3] + after[4], 256 * after[1] + after[2])
        else if |after| == 4 then (after[3], 256 * after[1] + after[2])
        else if |after| == 3 then (0, 256 * after[1] + after[2])
        else if |after| == 2 then (0, after[1]) else (0, 0)
  {
    if |f.after| >= 5 {
      SecondOf(f.after, 3);
    }
    if |f.after| >= 3 {
      SecondOf(f.after, 1);
    }
  }

  lemma {:induction false} FilledUpTo(b: seq<int>, offset: nat, at: nat)
    requires offset <= at < |b| && b[at] != FILL && forall k | offset <= k < at :: b[k] == FILL
    ensures Filled(b, offset) == Some(at)
    decreases at - offset
  {
    if offset < at {
      FilledUpTo(b, offset + 1, at);
    }
  }

  lemma {:induction false} SliceOfSlice(b: seq<int>, at: nat, from: nat, to: nat)
    requires at <= |b| && from <= to
    ensures Slice(b[at..], from, to) == Slice(b, at + from, at + to)
  {
  }

  /** One turn of the walk, over whatever begins with fill bytes and a marker. */
  lemma {:induction false} WalkOne(b: seq<int>, offset: nat, n: nat)
    requires offset + n + 1 < |b| && b[offset..offset + n + 1] == Fill(n) && b[offset + n + 1] != FILL
    ensures Walk(b, offset) ==
      match TurnAt(b, offset + n + 1)
      case Fails => None
      case Sizes(width, height) => Some((width, height))
      case Goes(next) => Walk(b, next)
  {
    hide TurnAt, Filled;
    assert forall k | offset <= k < offset + n + 1 :: b[k] == b[offset..offset + n + 1][k - offset];
    FilledUpTo(b, offset, offset + n + 1);
  }

  /** Where fill bytes, a marker and two more bytes stand in an image. */
  lemma {:induction false} Header(b: seq<int>, offset: nat, n: nat, marker: int, x: int, y: int, rest: seq<int>)
    requires offset <= |b| && b[offset..] == Fill(n) + [marker] + [x, y] + rest
    ensures var next := offset + n + 2;
      && |b| == next + 2 + |rest| && b[offset..offset + n + 1] == Fill(n)
      && b[next - 1] == marker && Slice(b, next, next + 2) == [x, y] && b[next + 2..] == rest
  {
    var tail := b[offset..];
    assert tail[..n + 1] == Fill(n) && tail[n + 1] == marker && tail[n + 2] == x && tail[n + 3] == y
      && tail[n + 4..] == rest;
  }

  lemma {:induction false} WalkPassesMarker(b: seq<int>, offset: nat, n: nat, marker: int, rest: seq<int>)
    requires offset <= |b| && b[offset..] == Fill(n) + [marker] + rest && Alone(marker)
    ensures offset + n + 2 <= |b| && b[offset + n + 2..] == rest
    ensures Walk(b, offset) == Walk(b, offset + n + 2)
  {
    hide Walk, Slice;
    var tail := b[offset..];
    assert tail[..n + 1] == Fill(n) && tail[n + 1] == marker && tail[n + 2..] == rest;
    WalkOne(b, offset, n);
  }

  lemma {:induction false} WalkPassesSized(b: seq<int>, offset: nat, n: nat, marker: int, body: seq<int>,
                                           rest: seq<int>)
    requires offset <= |b| && b[offset..] == Fill(n) + [marker] + LengthBytes(|body| + 2) + (body + rest)
    requires Passed(Sized(n, marker, body))
    ensures offset + n + 4 + |body| <= |b| && b[offset + n + 4 + |body|..] == rest
    ensures Walk(b, offset) == Walk(b, offset + n + 4 + |body|)
  {
    hide Walk, Slice;
    Header(b, offset, n, marker, (|body| + 2) / 256, (|body| + 2) % 256, body + rest);
    WalkOne(b, offset, n);
    assert TurnAt(b, offset + n + 1) == Goes(offset + n + 4 + |body|);
    assert b[offset + n + 4 + |body|..] == b[offset + n + 4..][|body|..];
  }

  lemma {:induction false} WalkPasses(b: seq<int>, offset: nat, s: Segment, rest: seq<int>)
    requires offset <= |b| && b[offset..] == Bytes(s) + rest && Passed(s)
    ensures offset + |Bytes(s)| <= |b| && b[offset + |Bytes(s)|..] == rest
    ensures Walk(b, offset) == Walk(b, offset + |Bytes(s)|)
  {
    hide Walk, Fill, LengthBytes;
    match s
    case Marker(n, marker) => WalkPassesMarker(b, offset, n, marker, rest);
    case Sized(n, marker, body) =>
      assert Bytes(s) + rest == Fill(n) + [marker] + LengthBytes(|body| + 2) + (body + rest);
      WalkPassesSized(b, offset, n, marker, body, rest);
  }

  lemma {:induction false} WalkFrame(b: seq<int>, offset: nat, f: Frame)
    requires offset <= |b| && b[offset..] == FrameBytes(f) && Framing(f)
    ensures Walk(b, offset) == Some(FrameSize(f))
  {
    hide Walk, Slice;
    var n, next := f.fill, offset + f.fill + 2;
    Header(b, offset, n, f.marker, f.length / 256, f.length % 256, f.after);
    WalkOne(b, offset, n);
    SliceOfSlice(b, next + 2, 3, 5);
    SliceOfSlice(b, next + 2, 1, 3);
  }

  lemma {:induction false} WalkReaches(b: seq<int>, offset: nat, segments: seq<Segment>, f: Frame)
    requires offset <= |b| && b[offset..] == AllBytes(segments) + FrameBytes(f) && AllPassed(segments) && Framing(f)
    ensures Walk(b, offset) == Some(FrameSize(f))
    decreases |segments|
  {
    hide Walk, Bytes, FrameBytes, Framing, FrameSize;
    if segments == [] {
      assert AllBytes(segments) + FrameBytes(f) == FrameBytes(f);
      WalkFrame(b, offset, f);
    } else {
      var rest := AllBytes(segments[1..]) + FrameBytes(f);
      assert AllBytes(segments) + FrameBytes(f) == Bytes(segments[0]) + rest;
      WalkPasses(b, offset, segments[0], rest);
      WalkReaches(b, offset + |Bytes(segments[0])|, segments[1..], f);
    }
  }

  // --- And nothing else ----------------------------------------------------------------------------

  predicate Described(b: seq<int>, segments: seq<Segment>, f: Frame) {
    b == AllBytes(segments) + FrameBytes(f) && AllPassed(segments) && Framing(f)
  }

  lemma {:induction false} SplitAt(b: Image, offset: nat, at: nat)
    requires offset < at < |b| && forall k | offset <= k < at :: b[k] == FILL
    ensures b[offset..] == Fill(at - offset - 1) + [b[at]] + b[at + 1..]
  {
    assert b[offset..] == b[offset..at] + [b[at]] + b[at + 1..];
  }

  lemma {:induction false} ShortSlice(b: Image, next: nat)
    requires next <= |b| && next + Number(Slice(b, next, next + 2)) <= |b| && Number(Slice(b, next, next + 2)) >= 2
    ensures next + 2 <= |b|
  {
  }

  lemma {:induction false} LengthOf(b: Image, next: nat)
    requires next + 2 <= |b|
    ensures var length := Number(Slice(b, next, next + 2));
      0 <= length < 0x1_0000 && LengthBytes(length) == [b[next], b[next + 1]]
    ensures b[next..] == [b[next], b[next + 1]] + b[next + 2..]
  {
  }

  lemma {:induction false} Regroup(a: seq<int>, b: seq<int>, c: seq<int>, d: seq<int>)
    ensures a + (b + (c + d)) == a + b + c + d
  {
  }

  /** A turn that goes on passes over one segment. */
  lemma {:induction false} GoesOver(b: Image, offset: nat, at: nat) returns (s: Segment)
    requires offset < at < |b| && b[at] != FILL && (forall k | offset <= k < at :: b[k] == FILL) && TurnAt(b, at).Goes?
    ensures Passed(s) && b[offset..] == Bytes(s) + b[TurnAt(b, at).next..]
  {
    hide Slice, Number, Fill, LengthBytes;
    SplitAt(b, offset, at);
    var n, next := at - offset - 1, at + 1;
    if Alone(b[at]) {
      s := Marker(n, b[at]);
    } else {
      var end := TurnAt(b, at).next;
      ShortSlice(b, next);
      LengthOf(b, next);
      s := Sized(n, b[at], b[next + 2..end]);
      assert b[next + 2..] == b[next + 2..end] + b[end..];
      assert LengthBytes(end - next) == [b[next], b[next + 1]];
      Regroup(Fill(n) + [b[at]], [b[next], b[next + 1]], b[next + 2..end], b[end..]);
    }
  }

  lemma {:induction false} SizesFrame(b: Image, offset: nat, at: nat) returns (f: Frame)
    requires offset < at < |b| && b[at] != FILL && (forall k | offset <= k < at :: b[k] == FILL) && TurnAt(b, at).Sizes?
    ensures Framing(f) && b[offset..] == FrameBytes(f) && FrameSize(f) == (TurnAt(b, at).width, TurnAt(b, at).height)
  {
    hide Slice, Number, Fill, LengthBytes;
    SplitAt(b, offset, at);
    var n, next := at - offset - 1, at + 1;
    var length := Number(Slice(b, next, next + 2));
    ShortSlice(b, next);
    LengthOf(b, next);
    f := Frame(n, b[at], length, b[next + 2..]);
    assert Fill(n) + [b[at]] + b[next..] == Fill(n) + [b[at]] + LengthBytes(length) + f.after;
    SliceOfSlice(b, next + 2, 3, 5);
    SliceOfSlice(b, next + 2, 1, 3);
  }

  lemma {:induction false} WalkIsDescribed(b: Image, offset: nat) returns (segments: seq<Segment>, f: Frame)
    requires offset <= |b| && Walk(b, offset).Some?
    ensures Described(b[offset..], segments, f) && FrameSize(f) == Walk(b, offset).value
    decreases |b| - offset
  {
    hide Bytes, FrameBytes, Passed, Framing, FrameSize, TurnAt;
    var at := Filled(b, offset).value;
    if TurnAt(b, at).Goes? {
      var s := GoesOver(b, offset, at);
      var rest;
      rest, f := WalkIsDescribed(b, TurnAt(b, at).next);
      segments := [s] + rest;
      assert segments[1..] == rest;
      assert Bytes(s) + (AllBytes(rest) + FrameBytes(f)) == AllBytes(segments) + FrameBytes(f);
    } else {
      f := SizesFrame(b, offset, at);
      segments := [];
      assert AllBytes(segments) + FrameBytes(f) == FrameBytes(f);
    }
  }

  /** From any offset: the walk gives a size exactly where what follows is segments it passes over and then a frame
      header of that size. */
  lemma {:induction false} WalkExactly(image: Image, offset: nat, size: (int, int))
    requires offset <= |image|
    ensures Walk(image, offset) == Some(size) <==>
      exists segments, f :: Described(image[offset..], segments, f) && FrameSize(f) == size
  {
    if Walk(image, offset) == Some(size) {
      var segments, f := WalkIsDescribed(image, offset);
    }
    forall segments, f | Described(image[offset..], segments, f)
      ensures Walk(image, offset) == Some(FrameSize(f))
    {
      WalkReaches(image, offset, segments, f);
    }
  }

  /** The walk gives a width and a height exactly for images that begin with segments it passes over, with fill bytes
      and standalone markers allowed, up to a first SOF0, SOF1 or SOF2 header that says so. */
  lemma {:induction false} DimensionsExactly(image: Image, size: (int, int))
    requires |image| >= 2
    ensures Walk(image, 2) == Some(size) <==> exists segments, f ::
      Described(image[2..], segments, f) && FrameSize(f) == size
  {
    WalkExactly(image, 2, size);
  }

  // --- The one standalone marker the walk does not know ----------------------------------------------

  const TEM := 0x01

  lemma {:induction false} WalkPassesAll(b: seq<int>, offset: nat, segments: seq<Segment>, rest: seq<int>)
    requires offset <= |b| && b[offset..] == AllBytes(segments) + rest && AllPassed(segments)
    ensures offset + |AllBytes(segments)| <= |b| && b[offset + |AllBytes(segments)|..] == rest
    ensures Walk(b, offset) == Walk(b, offset + |AllBytes(segments)|)
    decreases |segments|
  {
    hide Walk, Bytes;
    if segments == [] {
      assert AllBytes(segments) + rest == rest;
    } else {
      assert AllBytes(segments) + rest == Bytes(segments[0]) + (AllBytes(segments[1..]) + rest);
      WalkPasses(b, offset, segments[0], AllBytes(segments[1..]) + rest);
      WalkPassesAll(b, offset + |Bytes(segments[0])|, segments[1..], rest);
    }
  }

  /** Where the walk goes on from a TEM with `rest` after it: the fill byte and the byte that follow it are taken for a
      length, of at least 65280. */
  function Landing(image: seq<int>, rest: seq<int>): int
    requires |rest| >= 2
  {
    |image| - |rest| + 0xFF00 + rest[1]
  }

  lemma {:induction false} FirstTwo(a: seq<int>, b: seq<int>, rest: seq<int>)
    requires |rest| >= 2
    ensures a + b + rest == a + b + [rest[0], rest[1]] + rest[2..]
  {
    assert rest == [rest[0], rest[1]] + rest[2..];
  }

  lemma {:induction false} TemLands(image: Image, segments: seq<Segment>, n: nat, rest: seq<int>)
    requires |image| >= 2 && image[2..] == AllBytes(segments) + (Fill(n) + [TEM] + rest) && AllPassed(segments)
    requires |rest| >= 2 && rest[0] == FILL
    ensures rest[1] >= 0 && Landing(image, rest) >= 2
    ensures Walk(image, 2) == if Landing(image, rest) > |image| then None else Walk(image, Landing(image, rest))
  {
    hide Walk, Slice, AllBytes, Fill, Passed;
    WalkPassesAll(image, 2, segments, Fill(n) + [TEM] + rest);
    var offset := 2 + |AllBytes(segments)|;
    FirstTwo(Fill(n), [TEM], rest);
    Header(image, offset, n, TEM, rest[0], rest[1], rest[2..]);
    assert image[offset + n + 3] == Slice(image, offset + n + 2, offset + n + 4)[1] by {
      SecondOf(image, offset + n + 2);
    }
    WalkOne(image, offset, n);
  }

  /** An image with TEM before its frame header, and less than 65280 bytes after it, is refused. */
  lemma {:induction false} TemIsRefused(image: Image, segments: seq<Segment>, n: nat, rest: seq<int>)
    requires |image| >= 2 && image[2..] == AllBytes(segments) + (Fill(n) + [TEM] + rest) && AllPassed(segments)
    requires 2 <= |rest| < 0xFF00 && rest[0] == FILL
    ensures Walk(image, 2) == None
  {
    hide Walk;
    TemLands(image, segments, n, rest);
  }

  lemma {:induction false} SecondOf(b: seq<int>, at: nat)
    requires at + 2 <= |b|
    ensures Slice(b, at, at + 2) == [b[at], b[at + 1]]
  {
  }

  // --- Images as the standard has them ---------------------------------------------------------------

  /** Section B.1.1.3: RST, SOI, EOI and TEM stand alone, and no marker is zero. Before the frame header of an image of
      this kind comes no other. */
  predicate Standard(s: Segment) {
    match s
    case Marker(_, marker) => Alone(marker) || marker == TEM
    case Sized(_, marker, _) => Passed(s) && marker != TEM && marker != 0
  }

  predicate AllStandard(segments: seq<Segment>) {
    forall i | 0 <= i < |segments| :: Standard(segments[i])
  }

  predicate IsTem(s: Segment) {
    s.marker == TEM
  }

  /** How many segments there are before the first TEM. */
  function FirstTem(segments: seq<Segment>): (k: nat)
    ensures k <= |segments| && (k < |segments| ==> IsTem(segments[k]))
    ensures forall i | 0 <= i < k :: !IsTem(segments[i])
  {
    if segments == [] || IsTem(segments[0]) then 0 else 1 + FirstTem(segments[1..])
  }

  predicate HasTem(segments: seq<Segment>) {
    exists i :: 0 <= i < |segments| && IsTem(segments[i])
  }

  lemma {:induction false} AllBytesJoin(a: seq<Segment>, b: seq<Segment>)
    ensures AllBytes(a + b) == AllBytes(a) + AllBytes(b)
    decreases |a|
  {
    hide Bytes;
    if a == [] {
      assert a + b == b;
    } else {
      assert (a + b)[1..] == a[1..] + b;
      AllBytesJoin(a[1..], b);
    }
  }

  lemma {:induction false} BeginsWithFill(segments: seq<Segment>, f: Frame)
    ensures var rest := AllBytes(segments) + FrameBytes(f);
      |rest| >= 4 && rest[0] == FILL
  {
    if segments != [] {
      assert Bytes(segments[0])[0] == Fill(segments[0].fill)[0];
    }
  }

  /** What follows the first TEM. */
  function AfterTem(segments: seq<Segment>, f: Frame): seq<int>
    requires HasTem(segments)
  {
    AllBytes(segments[FirstTem(segments) + 1..]) + FrameBytes(f)
  }

  lemma {:induction false} SplitAtTem(segments: seq<Segment>, f: Frame)
    requires AllStandard(segments) && HasTem(segments)
    ensures var k := FirstTem(segments);
      && AllPassed(segments[..k])
      && AllBytes(segments) + FrameBytes(f) ==
        AllBytes(segments[..k]) + (Fill(segments[k].fill) + [TEM] + AfterTem(segments, f))
  {
    hide FrameBytes, Bytes, Fill, Passed;
    var k := FirstTem(segments);
    var s := segments[k];
    StandardIsPassed(segments, k);
    TemBytes(s);
    assert segments == segments[..k] + ([s] + segments[k + 1..]);
    AllBytesJoin(segments[..k], [s] + segments[k + 1..]);
    assert ([s] + segments[k + 1..])[1..] == segments[k + 1..];
    Reassociate(AllBytes(segments[..k]), Bytes(s), AllBytes(segments[k + 1..]), FrameBytes(f));
  }

  lemma {:induction false} StandardIsPassed(segments: seq<Segment>, k: nat)
    requires AllStandard(segments) && k <= FirstTem(segments)
    ensures AllPassed(segments[..k])
  {
    assert forall i | 0 <= i < k :: Standard(segments[i]) && !IsTem(segments[i]);
  }

  lemma {:induction false} TemBytes(s: Segment)
    requires Standard(s) && IsTem(s)
    ensures Bytes(s) == Fill(s.fill) + [TEM]
  {
  }

  lemma {:induction false} Reassociate(a: seq<int>, b: seq<int>, c: seq<int>, d: seq<int>)
    ensures a + (b + c) + d == a + (b + (c + d))
  {
  }

  /** For an image of standard segments up to a frame header, of any size: without a TEM the walk gives that header's
      size. With one, it gives what it finds at the landing, which is past the end in a short image; so it is right by
      chance alone, exactly when segments to pass over and a header of the same size happen to begin there. */
  lemma {:induction false} StandardImage(image: Image, segments: seq<Segment>, f: Frame)
    requires |image| >= 2 && image[2..] == AllBytes(segments) + FrameBytes(f) && AllStandard(segments) && Framing(f)
    ensures !HasTem(segments) ==> Walk(image, 2) == Some(FrameSize(f))
    ensures HasTem(segments) ==>
      && |AfterTem(segments, f)| >= 2
      && var at := Landing(image, AfterTem(segments, f));
        && 2 <= at
        && (Walk(image, 2) == Some(FrameSize(f)) <==>
              at <= |image| && exists others, g :: Described(image[at..], others, g) && FrameSize(g) == FrameSize(f))
  {
    hide Walk, FrameSize, Described, Bytes, FrameBytes;
    if HasTem(segments) {
      var k, rest := FirstTem(segments), AfterTem(segments, f);
      BeginsWithFill(segments[k + 1..], f);
      SplitAtTem(segments, f);
      TemLands(image, segments[..k], segments[k].fill, rest);
      var at := Landing(image, rest);
      if at <= |image| {
        WalkExactly(image, at, FrameSize(f));
      }
    } else {
      assert forall i | 0 <= i < |segments| :: Standard(segments[i]) && !IsTem(segments[i]) && Passed(segments[i]);
      WalkReaches(image, 2, segments, f);
    }
  }

  /** An image shorter than 65280 bytes, of standard segments up to a frame header, is given that header's size exactly
      when there is no TEM before it. */
  lemma {:induction false} ShortStandardImage(image: Image, segments: seq<Segment>, f: Frame)
    requires |image| >= 2 && image[2..] == AllBytes(segments) + FrameBytes(f) && AllStandard(segments) && Framing(f)
    requires |image| < 0xFF00
    ensures Walk(image, 2) == Some(FrameSize(f)) <==> !HasTem(segments)
  {
    hide Walk, FrameSize, Described, Bytes, FrameBytes;
    StandardImage(image, segments, f);
    if HasTem(segments) {
      SplitAtTem(segments, f);
      TailOf(image, segments, f);
    }
  }

  lemma {:induction false} TailOf(image: Image, segments: seq<Segment>, f: Frame)
    requires |image| >= 2 && image[2..] == AllBytes(segments) + FrameBytes(f) && AllStandard(segments)
      && HasTem(segments)
    ensures 2 <= |AfterTem(segments, f)| <= |image| && Landing(image, AfterTem(segments, f)) >= 0xFF00
  {
    hide Bytes, FrameBytes;
    var k, rest := FirstTem(segments), AfterTem(segments, f);
    BeginsWithFill(segments[k + 1..], f);
    SplitAtTem(segments, f);
    assert image[2..][|image| - 2 - |rest|..] == rest;
    assert rest[1] == image[|image| - |rest| + 1];
  }
}
