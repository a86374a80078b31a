/** The newline-delimited JSON-RPC reader, JsonRpc in experiments/host-action-acceptance.py: bytes arrive in pieces,
    each line becomes a message, and a call waits for the message with its number. */
module JsonLines {
  import opened Common

  /** A message as far as the reader looks at it: its number, whether it reports an error, its result, and the item
      of a completed tool call. `content` stands for the rest. */
  datatype Message = Message(id: Option<int>, isError: bool, result: Option<string>, item: Option<string>,
                             content: string)

  /** What reading a line gives: nothing when it is no JSON; a message; or one of a shape the reader keeps and then
      fails on when it looks inside. */
  datatype Parsed = Unreadable | Odd(odd: Message) | Fine(message: Message)

  type Parser = seq<int> -> Parsed

  const NEWLINE := 10

  datatype Reader = Reader(buffer: seq<int>, messages: seq<Message>, items: seq<string>, raised: bool)

  const NEW := Reader([], [], [], false)

  function FirstNewline(buffer: seq<int>): (k: Option<nat>)
    ensures k.Some? ==> k.value < |buffer| && buffer[k.value] == NEWLINE && NEWLINE !in buffer[..k.value]
    ensures k.None? ==> NEWLINE !in buffer
  {
    if buffer == [] then None
    else if buffer[0] == NEWLINE then Some(0)
    else
      var later := FirstNewline(buffer[1..]);
      if later.None? then None
      else
        assert buffer[..later.value + 1] == [buffer[0]] + buffer[1..][..later.value];
        Some(later.value + 1)
  }

  function Heard(r: Reader, line: seq<int>, parse: Parser): Reader {
    if line == [] then r
    else
      match parse(line)
      case Unreadable => r.(raised := true)
      case Odd(m) => r.(messages := r.messages + [m], raised := true)
      case Fine(m) => r.(messages := r.messages + [m], items := r.items + (if m.item.Some? then [m.item.value] else []))
  }

  /** The loop of `pump` over the whole lines in the buffer. */
  function Drained(r: Reader, parse: Parser): Reader
    decreases |r.buffer|
  {
    var k := FirstNewline(r.buffer);
    if r.raised || k.None? then r
    else Drained(Heard(r.(buffer := r.buffer[k.value + 1..]), r.buffer[..k.value], parse), parse)
  }

  /** One read. An exception ends the run. */
  function Fed(r: Reader, data: seq<int>, parse: Parser): Reader {
    if r.raised then r else Drained(r.(buffer := r.buffer + data), parse)
  }

  function FedAll(r: Reader, chunks: seq<seq<int>>, parse: Parser): Reader
    decreases |chunks|
  {
    if chunks == [] then r else FedAll(Fed(r, chunks[0], parse), chunks[1..], parse)
  }

  function Joined(chunks: seq<seq<int>>): seq<int> {
    if chunks == [] then [] else chunks[0] + Joined(chunks[1..])
  }

  // --- What a stream of lines says, whatever the pieces ----------------------------------------------

  /** The lines of a stream, each ended, and what follows the last. */
  function Stream(lines: seq<seq<int>>, tail: seq<int>): seq<int> {
    if lines == [] then tail else lines[0] + [NEWLINE] + Stream(lines[1..], tail)
  }

  predicate Unbroken(lines: seq<seq<int>>) {
    forall i | 0 <= i < |lines| :: NEWLINE !in lines[i]
  }

  /** What the lines say one after the other, up to the first that cannot be read. */
  function HeardAll(r: Reader, lines: seq<seq<int>>, parse: Parser): Reader
    decreases |lines|
  {
    if r.raised || lines == [] then r else HeardAll(Heard(r, lines[0], parse), lines[1..], parse)
  }

  /** Equal in all that is left once an exception has ended the run, and in the buffer otherwise. */
  predicate Same(a: Reader, b: Reader) {
    a.messages == b.messages && a.items == b.items && a.raised == b.raised && (!a.raised ==> a.buffer == b.buffer)
  }

  lemma {:induction false} NewlineIsFirst(line: seq<int>, rest: seq<int>)
    requires NEWLINE !in line
    ensures FirstNewline(line + [NEWLINE] + rest) == Some(|line|)
  {
    var k := FirstNewline(line + [NEWLINE] + rest);
    assert (line + [NEWLINE] + rest)[|line|] == NEWLINE;
    assert forall i | 0 <= i < |line| :: (line + [NEWLINE] + rest)[i] == line[i];
  }

  lemma {:induction false} LongerHasTheSameLine(buffer: seq<int>, more: seq<int>)
    ensures FirstNewline(buffer).Some? ==> FirstNewline(buffer + more) == FirstNewline(buffer)
  {
    var k := FirstNewline(buffer);
    if k.Some? {
      NewlineIsFirst(buffer[..k.value], buffer[k.value + 1..] + more);
      assert buffer + more == buffer[..k.value] + [NEWLINE] + (buffer[k.value + 1..] + more);
    }
  }

  lemma {:induction false} DrainedInTwo(r: Reader, more: seq<int>, parse: Parser)
    requires !r.raised
    ensures Same(Fed(Drained(r, parse), more, parse), Drained(r.(buffer := r.buffer + more), parse))
    decreases |r.buffer|
  {
    hide Heard;
    LongerHasTheSameLine(r.buffer, more);
    var k := FirstNewline(r.buffer);
    if k.Some? {
      var whole := r.buffer + more;
      assert whole[..k.value] == r.buffer[..k.value] && whole[k.value + 1..] == r.buffer[k.value + 1..] + more;
      var t := Heard(r.(buffer := r.buffer[k.value + 1..]), r.buffer[..k.value], parse);
      HeardLeavesTheBuffer(r, r.buffer[k.value + 1..], whole[k.value + 1..], r.buffer[..k.value], parse);
      if !t.raised {
        DrainedInTwo(t, more, parse);
      }
    }
  }

  lemma {:induction false} HeardLeavesTheBuffer(r: Reader, a: seq<int>, b: seq<int>, line: seq<int>, parse: Parser)
    ensures Heard(r.(buffer := a), line, parse).buffer == a
    ensures Heard(r.(buffer := a), line, parse).(buffer := b) == Heard(r.(buffer := b), line, parse)
  {
  }

  lemma {:induction false} SameFed(a: Reader, b: Reader, data: seq<int>, parse: Parser)
    requires Same(a, b)
    ensures Same(Fed(a, data, parse), Fed(b, data, parse))
  {
  }

  lemma {:induction false} FedInTwo(r: Reader, a: seq<int>, b: seq<int>, parse: Parser)
    ensures Same(Fed(Fed(r, a, parse), b, parse), Fed(r, a + b, parse))
  {
    if !r.raised {
      DrainedInTwo(r.(buffer := r.buffer + a), b, parse);
      assert (r.buffer + a) + b == r.buffer + (a + b);
    }
  }

  predicate Idle(r: Reader) {
    r.raised || NEWLINE !in r.buffer
  }

  lemma {:induction false} DrainedIsIdle(r: Reader, parse: Parser)
    ensures Idle(Drained(r, parse))
    decreases |r.buffer|
  {
    hide Heard;
    var k := FirstNewline(r.buffer);
    if !r.raised && k.Some? {
      HeardLeavesTheBuffer(r, r.buffer[k.value + 1..], [], r.buffer[..k.value], parse);
      DrainedIsIdle(Heard(r.(buffer := r.buffer[k.value + 1..]), r.buffer[..k.value], parse), parse);
    }
  }

  lemma {:induction false} ChunksDoNotMatter(a: Reader, b: Reader, chunks: seq<seq<int>>, parse: Parser)
    requires Same(a, b) && Idle(b)
    ensures Same(FedAll(a, chunks, parse), Fed(b, Joined(chunks), parse))
    decreases |chunks|
  {
    hide Drained;
    if chunks == [] {
      IdleFedNothing(b, parse);
    } else {
      var t := Fed(b, chunks[0], parse);
      SameFed(a, b, chunks[0], parse);
      DrainedIsIdle(b.(buffer := b.buffer + chunks[0]), parse);
      ChunksDoNotMatter(Fed(a, chunks[0], parse), t, chunks[1..], parse);
      FedInTwo(b, chunks[0], Joined(chunks[1..]), parse);
    }
  }

  lemma {:induction false} IdleFedNothing(r: Reader, parse: Parser)
    requires Idle(r)
    ensures Fed(r, [], parse) == r
  {
    assert r.buffer + [] == r.buffer;
  }

  lemma {:induction false} DrainedStream(r: Reader, lines: seq<seq<int>>, tail: seq<int>, parse: Parser)
    requires !r.raised && r.buffer == Stream(lines, tail) && Unbroken(lines) && NEWLINE !in tail
    ensures Same(Drained(r, parse), HeardAll(r, lines, parse).(buffer := tail))
    decreases |lines|
  {
    hide Heard;
    if lines != [] {
      var rest := Stream(lines[1..], tail);
      NewlineIsFirst(lines[0], rest);
      assert r.buffer[..|lines[0]|] == lines[0] && r.buffer[|lines[0]| + 1..] == rest;
      var t := Heard(r.(buffer := rest), lines[0], parse);
      HeardLeavesTheBuffer(r, rest, r.buffer, lines[0], parse);
      if !t.raised {
        DrainedStream(t, lines[1..], tail, parse);
      }
      HeardAllLeavesTheBuffer(t, r.buffer, lines[1..], parse);
      assert r.(buffer := r.buffer) == r;
    }
  }

  lemma {:induction false} HeardAllLeavesTheBuffer(r: Reader, b: seq<int>, lines: seq<seq<int>>, parse: Parser)
    ensures HeardAll(r, lines, parse).(buffer := b) == HeardAll(r.(buffer := b), lines, parse)
    decreases |lines|
  {
    if !r.raised && lines != [] {
      HeardLeavesTheBuffer(r, r.buffer, b, lines[0], parse);
      assert r.(buffer := r.buffer) == r;
      HeardAllLeavesTheBuffer(Heard(r, lines[0], parse), b, lines[1..], parse);
    }
  }

  /** A line that says something, and what. */
  predicate Says(line: seq<int>, parse: Parser, m: Message) {
    line != [] && (parse(line) == Fine(m) || parse(line) == Odd(m))
  }

  predicate Readable(line: seq<int>, parse: Parser) {
    line == [] || parse(line).Fine?
  }

  /** The reading got through `n` lines; it stopped at the end, or at a line it cannot read. */
  predicate ReadUpTo(lines: seq<seq<int>>, n: nat, raised: bool, parse: Parser) {
    && n <= |lines| && (forall i | 0 <= i < n :: Readable(lines[i], parse))
    && (raised <==> n < |lines|) && (n < |lines| ==> !Readable(lines[n], parse))
  }

  /** The messages are those of the lines at these places, which are all the lines that were read and say something, in
      their order. */
  predicate SaidAt(messages: seq<Message>, lines: seq<seq<int>>, from: nat, n: nat, places: seq<nat>, parse: Parser) {
    && |places| == |messages|
    && (forall i, j | 0 <= i < j < |places| :: places[i] < places[j])
    && (forall i | 0 <= i < |places| :: from <= places[i] < |lines| && Says(lines[places[i]], parse, messages[i]))
    && (forall k | from <= k < |lines| :: k in places <==> k <= n && lines[k] != [] && !parse(lines[k]).Unreadable?)
  }

  /** The items are those of completed calls among the lines that could be read, in their order. */
  predicate ItemsAt(items: seq<string>, lines: seq<seq<int>>, from: nat, n: nat, places: seq<nat>, parse: Parser) {
    && |places| == |items|
    && (forall i, j | 0 <= i < j < |places| :: places[i] < places[j])
    && (forall i | 0 <= i < |places| ::
          from <= places[i] < |lines| && lines[places[i]] != []
          && parse(lines[places[i]]).Fine? && parse(lines[places[i]]).message.item == Some(items[i]))
    && (forall k | from <= k < |lines| ::
          k in places <==> k < n && lines[k] != [] && parse(lines[k]).Fine? && parse(lines[k]).message.item.Some?)
  }

  lemma {:induction false} HeardFrom(r: Reader, lines: seq<seq<int>>, from: nat, parse: Parser)
    returns (n: nat, places: seq<nat>, marks: seq<nat>)
    requires !r.raised && from <= |lines| && forall i | 0 <= i < from :: Readable(lines[i], parse)
    ensures var t := HeardAll(r, lines[from..], parse);
      && from <= n && ReadUpTo(lines, n, t.raised, parse)
      && r.messages <= t.messages && SaidAt(t.messages[|r.messages|..], lines, from, n, places, parse)
      && r.items <= t.items && ItemsAt(t.items[|r.items|..], lines, from, n, marks, parse)
    decreases |lines| - from
  {
    hide SaidAt, ItemsAt;
    n := from;
    if from == |lines| {
      places, marks := [], [];
      NothingSaid(lines, from, parse);
      assert HeardAll(r, lines[from..], parse) == r;
      assert r.messages[|r.messages|..] == [] && r.items[|r.items|..] == [];
    } else {
      var line, t := lines[from], HeardAll(r, lines[from..], parse);
      assert lines[from..][1..] == lines[from + 1..] && lines[from..][0] == line;
      if line != [] && !parse(line).Fine? {
        places, marks := if parse(line).Odd? then [from] else [], [];
        StoppedAt(lines, from, parse);
        var s := Heard(r, line, parse);
        assert s.raised && HeardAll(s, lines[from + 1..], parse) == s && t == s;
        assert t.messages[|r.messages|..] == if parse(line).Odd? then [parse(line).odd] else [];
        assert t.items[|r.items|..] == [];
      } else {
        var s := Heard(r, line, parse);
        var rest, seen;
        n, rest, seen := HeardFrom(s, lines, from + 1, parse);
        if line == [] {
          places, marks := rest, seen;
          SaidSkipped(t.messages[|s.messages|..], lines, from, n, rest, parse);
          ItemsSkipped(t.items[|s.items|..], lines, from, n, seen, parse);
        } else {
          var m := parse(line).message;
          places := [from] + rest;
          Tail(r.messages, [m], t.messages);
          SaidLonger(m, t.messages[|s.messages|..], lines, from, n, rest, parse);
          if m.item.Some? {
            marks := [from] + seen;
            Tail(r.items, [m.item.value], t.items);
            ItemsLonger(m.item.value, t.items[|s.items|..], lines, from, n, seen, parse);
          } else {
            marks := seen;
            assert s.items == r.items;
            ItemsSkipped(t.items[|s.items|..], lines, from, n, seen, parse);
          }
        }
      }
    }
  }

  lemma {:induction false} Tail<T>(a: seq<T>, b: seq<T>, c: seq<T>)
    requires a + b <= c
    ensures a <= c && c[|a|..] == b + c[|a + b|..]
  {
    assert c == a + b + c[|a + b|..];
  }

  lemma {:induction false} NothingSaid(lines: seq<seq<int>>, from: nat, parse: Parser)
    requires from == |lines|
    ensures SaidAt([], lines, from, from, [], parse) && ItemsAt([], lines, from, from, [], parse)
  {
  }

  lemma {:induction false} StoppedAt(lines: seq<seq<int>>, from: nat, parse: Parser)
    requires from < |lines| && lines[from] != [] && !parse(lines[from]).Fine?
    ensures ItemsAt([], lines, from, from, [], parse)
    ensures var odd := parse(lines[from]);
      SaidAt(if odd.Odd? then [odd.odd] else [], lines, from, from, if odd.Odd? then [from] else [], parse)
  {
    var odd := parse(lines[from]);
    var places: seq<nat> := if odd.Odd? then [from] else [];
    forall k | from <= k < |lines|
      ensures k in places <==> k <= from && lines[k] != [] && !parse(lines[k]).Unreadable?
    {
    }
  }

  lemma {:induction false} OneMore(places: seq<nat>, from: nat, k: nat)
    ensures k in [from] + places <==> k == from || k in places
  {
  }

  lemma {:induction false} SaidLonger(m: Message, messages: seq<Message>, lines: seq<seq<int>>, from: nat, n: nat,
                                      places: seq<nat>, parse: Parser)
    requires from < |lines| && from <= n && SaidAt(messages, lines, from + 1, n, places, parse)
    requires Says(lines[from], parse, m)
    ensures SaidAt([m] + messages, lines, from, n, [from] + places, parse)
  {
    var all, said := [from] + places, [m] + messages;
    forall i | 0 <= i < |all|
      ensures from <= all[i] < |lines| && Says(lines[all[i]], parse, said[i])
    {
      if i > 0 { assert all[i] == places[i - 1] && said[i] == messages[i - 1]; }
    }
    forall k | from <= k < |lines|
      ensures k in all <==> k <= n && lines[k] != [] && !parse(lines[k]).Unreadable?
    {
      OneMore(places, from, k);
      assert from !in places;
    }
  }

  lemma {:induction false} SaidSkipped(messages: seq<Message>, lines: seq<seq<int>>, from: nat, n: nat,
                                       places: seq<nat>, parse: Parser)
    requires from < |lines| && SaidAt(messages, lines, from + 1, n, places, parse) && lines[from] == []
    ensures SaidAt(messages, lines, from, n, places, parse)
  {
    assert from !in places;
  }

  lemma {:induction false} ItemsLonger(item: string, items: seq<string>, lines: seq<seq<int>>, from: nat, n: nat,
                                       marks: seq<nat>, parse: Parser)
    requires from < |lines| && from < n && ItemsAt(items, lines, from + 1, n, marks, parse)
    requires lines[from] != [] && parse(lines[from]).Fine? && parse(lines[from]).message.item == Some(item)
    ensures ItemsAt([item] + items, lines, from, n, [from] + marks, parse)
  {
    var all, said := [from] + marks, [item] + items;
    forall i | 0 <= i < |all|
      ensures from <= all[i] < |lines| && lines[all[i]] != []
              && parse(lines[all[i]]).Fine? && parse(lines[all[i]]).message.item == Some(said[i])
    {
      if i > 0 { assert all[i] == marks[i - 1] && said[i] == items[i - 1]; }
    }
    forall k | from <= k < |lines|
      ensures k in all <==> k < n && lines[k] != [] && parse(lines[k]).Fine? && parse(lines[k]).message.item.Some?
    {
      OneMore(marks, from, k);
      assert from !in marks;
    }
  }

  lemma {:induction false} ItemsSkipped(items: seq<string>, lines: seq<seq<int>>, from: nat, n: nat, marks: seq<nat>,
                                        parse: Parser)
    requires from < |lines| && from < n && ItemsAt(items, lines, from + 1, n, marks, parse)
    requires lines[from] == [] || (parse(lines[from]).Fine? && parse(lines[from]).message.item.None?)
    ensures ItemsAt(items, lines, from, n, marks, parse)
  {
    assert from !in marks;
  }

  /** What the lines say, line by line: the messages and the items of all that are read, each once and in their order,
      up to the first that cannot be read. */
  lemma {:induction false} HeardInOrder(lines: seq<seq<int>>, parse: Parser)
    returns (n: nat, places: seq<nat>, marks: seq<nat>)
    ensures var t := HeardAll(NEW, lines, parse);
      && ReadUpTo(lines, n, t.raised, parse)
      && SaidAt(t.messages, lines, 0, n, places, parse) && ItemsAt(t.items, lines, 0, n, marks, parse)
  {
    assert lines[0..] == lines;
    n, places, marks := HeardFrom(NEW, lines, 0, parse);
    var t := HeardAll(NEW, lines, parse);
    assert t.messages[0..] == t.messages && t.items[0..] == t.items;
    hide SaidAt, ItemsAt, ReadUpTo, HeardAll;
  }

  /** For every split of a stream of lines into reads: the messages are those of its lines in order, up to the first
      that cannot be read, and when all can, the buffer holds the unfinished line. */
  lemma {:induction false} LinesAreHeard(chunks: seq<seq<int>>, lines: seq<seq<int>>, tail: seq<int>, parse: Parser)
    requires Joined(chunks) == Stream(lines, tail) && Unbroken(lines) && NEWLINE !in tail
    ensures Same(FedAll(NEW, chunks, parse), HeardAll(NEW, lines, parse).(buffer := tail))
  {
    ChunksDoNotMatter(NEW, NEW, chunks, parse);
    assert [] + Joined(chunks) == Stream(lines, tail);
    var r := NEW.(buffer := Stream(lines, tail));
    DrainedStream(r, lines, tail, parse);
    HeardAllLeavesTheBuffer(NEW, r.buffer, lines, parse);
    HeardAllKeeps(NEW, r.buffer, tail, lines, parse);
  }

  lemma {:induction false} HeardAllKeeps(r: Reader, b: seq<int>, c: seq<int>, lines: seq<seq<int>>, parse: Parser)
    ensures HeardAll(r.(buffer := b), lines, parse).(buffer := c) == HeardAll(r, lines, parse).(buffer := c)
  {
    HeardAllLeavesTheBuffer(r, b, lines, parse);
  }

  // --- Calls ---------------------------------------------------------------------------------------

  /** One wait of at most a tenth of a second: nothing came, the other side closed, or bytes came. */
  datatype Arrival = Nothing | End | Bytes(data: seq<int>)

  function Waited(r: Reader, arrival: Arrival, parse: Parser): Reader {
    if r.raised then r
    else
      match arrival
      case Nothing => r
      case End => r.(raised := true)
      case Bytes(data) => Fed(r, data, parse)
  }

  function WaitedAll(r: Reader, arrivals: seq<Arrival>, parse: Parser): Reader
    decreases |arrivals|
  {
    if arrivals == [] then r
    else Waited(WaitedAll(r, arrivals[..|arrivals| - 1], parse), arrivals[|arrivals| - 1], parse)
  }

  /** The pieces that came. */
  function Pieces(arrivals: seq<Arrival>): seq<seq<int>> {
    if arrivals == [] then []
    else
      var n := |arrivals| - 1;
      Pieces(arrivals[..n]) + (if arrivals[n].Bytes? then [arrivals[n].data] else [])
  }

  /** However long a call waits, it has read just the pieces that came, up to the end of the stream if that came; the
      end is an exception, and nothing is read behind one. */
  lemma {:induction false} WaitedTells(r: Reader, arrivals: seq<Arrival>, parse: Parser)
    ensures End !in arrivals ==> WaitedAll(r, arrivals, parse) == FedAll(r, Pieces(arrivals), parse)
    ensures forall k | 0 <= k < |arrivals| && arrivals[k].End? && End !in arrivals[..k] ::
      WaitedAll(r, arrivals, parse) == FedAll(r, Pieces(arrivals[..k]), parse).(raised := true)
    decreases |arrivals|
  {
    if arrivals != [] {
      var n := |arrivals| - 1;
      var before := arrivals[..n];
      WaitedTells(r, before, parse);
      FedOneMore(r, Pieces(before), parse);
      forall k | 0 <= k < |arrivals| && arrivals[k].End? && End !in arrivals[..k]
        ensures WaitedAll(r, arrivals, parse) == FedAll(r, Pieces(arrivals[..k]), parse).(raised := true)
      {
        if k < n {
          assert before[..k] == arrivals[..k];
          WaitedTells(r, arrivals[..k], parse);
        }
      }
    }
  }

  lemma {:induction false} FedOneMore(r: Reader, chunks: seq<seq<int>>, parse: Parser)
    ensures forall chunk :: FedAll(r, chunks + [chunk], parse) == Fed(FedAll(r, chunks, parse), chunk, parse)
    ensures FedAll(r, chunks + [], parse) == FedAll(r, chunks, parse)
    decreases |chunks|
  {
    assert chunks + [] == chunks;
    forall chunk
      ensures FedAll(r, chunks + [chunk], parse) == Fed(FedAll(r, chunks, parse), chunk, parse)
    {
      if chunks != [] {
        FedOneMore(Fed(r, chunks[0], parse), chunks[1..], parse);
        assert (chunks + [chunk])[1..] == chunks[1..] + [chunk];
      }
    }
  }

  predicate Awaited(messages: seq<Message>, id: int, k: nat) {
    k < |messages| && messages[k].id == Some(id) && forall i | 0 <= i < k :: messages[i].id != Some(id)
  }

  predicate Unanswered(messages: seq<Message>, id: int) {
    forall i | 0 <= i < |messages| :: messages[i].id != Some(id)
  }

  datatype Outcome = Reply(result: string) | Refused | NoResult | Raised | TimedOut

  function Answer(m: Message): Outcome {
    if m.isError then Refused else if m.result.None? then NoResult else Reply(m.result.value)
  }

  class JsonRpc {
    var buffer: seq<int>
    var messages: seq<Message>
    var items: seq<string>
    var raised: bool

    function Now(): Reader
      reads this
    {
      Reader(buffer, messages, items, raised)
    }

    constructor ()
      ensures Now() == NEW
    {
      buffer, messages, items, raised := [], [], [], false;
    }

    method Hear(line: seq<int>, parse: Parser)
      modifies this
      ensures Now() == Heard(old(Now()), line, parse)
    {
      if line == [] {
        return;
      }
      match parse(line)
      case Unreadable => raised := true;
      case Odd(m) =>
        messages := messages + [m];
        raised := true;
      case Fine(m) =>
        messages := messages + [m];
        if m.item.Some? {
          items := items + [m.item.value];
        }
    }

    method Pump(arrival: Arrival, parse: Parser)
      requires !raised
      modifies this
      ensures Now() == Waited(old(Now()), arrival, parse)
    {
      if arrival.Nothing? {
        return;
      }
      if arrival.End? {
        raised := true;
        return;
      }
      buffer := buffer + arrival.data;
      ghost var r := Now();
      while !raised && FirstNewline(buffer).Some?
        invariant Drained(Now(), parse) == Drained(r, parse)
        decreases |buffer|
      {
        var k := FirstNewline(buffer).value;
        var line := buffer[..k];
        ghost var before := Now();
        buffer := buffer[k + 1..];
        HeardLeavesTheBuffer(before, before.buffer[k + 1..], [], line, parse);
        Hear(line, parse);
      }
    }

    /** The call takes the earliest message with its number among all received, as soon as there is one, and leaves all
        others in order. `arrivals` are the waits that fit before the deadline; `used` are those made. */
    method Call(id: int, arrivals: seq<Arrival>, parse: Parser) returns (outcome: Outcome, used: nat, ghost k: nat)
      requires !raised
      modifies this
      ensures used <= |arrivals|
      ensures forall n | 0 < n < used :: Unanswered(WaitedAll(old(Now()), arrivals[..n], parse).messages, id)
      ensures var heard := WaitedAll(old(Now()), arrivals[..used], parse);
        match outcome
        case TimedOut => used == |arrivals| && Now() == heard && (used > 0 ==> Unanswered(messages, id))
        case Raised => Now() == heard && heard.raised
        case _ => Awaited(heard.messages, id, k)
                  && (outcome.Refused? <==> heard.messages[k].isError)
                  && (outcome.Reply? ==> heard.messages[k].result == Some(outcome.result))
                  && (outcome.NoResult? ==> heard.messages[k].result == None)
                  && Now() == heard.(messages := heard.messages[..k] + heard.messages[k + 1..])
    {
      hide Waited;
      used, k := 0, 0;
      ghost var start := Now();
      while used < |arrivals|
        invariant used <= |arrivals| && !raised
        invariant Now() == WaitedAll(start, arrivals[..used], parse)
        invariant forall n | 0 < n <= used :: Unanswered(WaitedAll(start, arrivals[..n], parse).messages, id)
      {
        assert arrivals[..used + 1][..used] == arrivals[..used];
        Pump(arrivals[used], parse);
        used := used + 1;
        if raised {
          return Raised, used, 0;
        }
        var found := Earliest(messages, id);
        if found.Some? {
          var m := messages[found.value];
          messages := messages[..found.value] + messages[found.value + 1..];
          return Answer(m), used, found.value;
        }
      }
      assert arrivals[..used] == arrivals;
      return TimedOut, used, 0;
    }

    static method Earliest(messages: seq<Message>, id: int) returns (k: Option<nat>)
      ensures if k.Some? then Awaited(messages, id, k.value) else Unanswered(messages, id)
    {
      for i := 0 to |messages|
        invariant forall j | 0 <= j < i :: messages[j].id != Some(id)
      {
        if messages[i].id == Some(id) {
          return Some(i);
        }
      }
      k := None;
    }
  }
}
