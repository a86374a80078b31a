/** Captured generations of a saved thread, experiments/codex-paginated-generation-prototype.py: a coordinator
    copies an owner's thread under a token, and pages the copy while the owner goes on writing. */
module Generations {
  import opened Common
  import B = Base64Url

  datatype Turn = Turn(name: string)

  /** What the first line of a rollout says of its thread; `based` when it goes on from another thread's history. */
  datatype Meta = Meta(id: string, mode: string, based: bool)

  /** A line of a rollout: its ordinal, the thread it begins, and the turn it records, where it has them. */
  datatype Record = Record(ordinal: Option<int>, meta: Option<Meta>, turn: Option<Turn>)

  type Path = seq<string>

  datatype Row = Row(path: Path, mode: string, archived: int)

  /** The owner's files: the two databases, each with its log, and the rollouts under its sessions directory. */
  datatype Name = StateFile | HistoryFile | RolloutFile(path: Path)

  datatype Body =
    | Rows(rows: map<string, Row>)
    | Checkpoints(at: map<string, (int, int)>)
    | Lines(records: seq<Record>, size: nat, complete: bool)

  /** A file's identity, times and size are one stamp; its digest is taken to be the body itself. */
  datatype File = File(stamp: nat, body: Body)

  type Owner = map<Name, File>

  /** A snapshot directory: the rollout and the databases copied into it. */
  datatype Content = Content(records: seq<Record>, state: Body, history: Body)

  datatype Generation = Generation(threadId: string, captured: Content, expiresAt: int)

  datatype State = State(
    alive: bool,
    writers: nat,
    generations: map<string, Generation>,
    directories: map<string, Content>)

  function TurnsOf(records: seq<Record>): seq<Turn> {
    if records == [] then []
    else (if records[0].turn.Some? then [records[0].turn.value] else []) + TurnsOf(records[1..])
  }

  /** The positions of a rollout that hold a turn, from the first on. */
  ghost predicate TurnPlaces(records: seq<Record>, places: seq<nat>) {
    && (forall i, j | 0 <= i < j < |places| :: places[i] < places[j])
    && (forall i | 0 <= i < |places| :: places[i] < |records|)
    && (forall k | 0 <= k < |records| :: records[k].turn.Some? <==> k in places)
  }

  lemma {:induction false} TurnsFrom(records: seq<Record>, n: nat) returns (places: seq<nat>)
    requires n <= |records|
    ensures |places| == |TurnsOf(records[n..])|
    ensures forall i, j | 0 <= i < j < |places| :: places[i] < places[j]
    ensures forall i | 0 <= i < |places| ::
      n <= places[i] < |records| && records[places[i]].turn == Some(TurnsOf(records[n..])[i])
    ensures forall k | n <= k < |records| :: records[k].turn.Some? ==> k in places
    decreases |records| - n
  {
    places := [];
    if n < |records| {
      var rest := TurnsFrom(records, n + 1);
      assert records[n..][1..] == records[n + 1..] && records[n..][0] == records[n];
      places := (if records[n].turn.Some? then [n] else []) + rest;
    }
  }

  /** These are turns of the rollout, from its first on, each once and in the order of its lines; all of them, or
      not. */
  ghost predicate Delivered(got: seq<Turn>, records: seq<Record>, all: bool) {
    exists places: seq<nat> :: TurnPlaces(records, places) && Placed(got, records, places)
      && (all ==> |got| == |places|)
  }

  predicate Placed(got: seq<Turn>, records: seq<Record>, places: seq<nat>) {
    |got| <= |places| && forall n | 0 <= n < |got| :: places[n] < |records| && records[places[n]].turn == Some(got[n])
  }

  lemma {:induction false} TurnsAreDelivered(got: seq<Turn>, records: seq<Record>)
    requires got <= TurnsOf(records)
    ensures Delivered(got, records, got == TurnsOf(records))
  {
    var places := TurnsFrom(records, 0);
    assert records[0..] == records;
    assert TurnPlaces(records, places) && Placed(got, records, places);
  }

  // --- What an opening sees of the owner -------------------------------------------------------------

  /** The owner at every instant of an opening, whatever it writes, and the instants the opening looks: a digest up to
      `first`, the row, the checkpoint, the rollout's size and lines, the copied databases, and a digest from `second`
      on. A digest that raised is none; `linked` is what the walk along the path saw, `copied` that nothing else
      raised. */
  datatype Looking = Looking(
    views: seq<Owner>, before: Option<Owner>, first: nat, row: nat, checkpoint: nat, stat: nat, data: nat,
    state: nat, history: nat, second: nat, after: Option<Owner>, linked: bool, copied: bool)

  predicate Timely(l: Looking) {
    l.first <= l.row <= l.checkpoint <= l.stat <= l.data <= l.state <= l.history <= l.second < |l.views|
  }

  type Look = l: Looking | Timely(l) witness Looking([map[]], None, 0, 0, 0, 0, 0, 0, 0, 0, None, false, false)

  /** Stamps are not used again: a file found twice under one stamp was there in between, and the same. */
  ghost predicate Stamped(views: seq<Owner>) {
    forall i, j, k, name | 0 <= i <= j <= k < |views| :: Kept(views[i], views[j], views[k], name)
  }

  predicate Kept(early: Owner, now: Owner, late: Owner, name: Name) {
    name in early && name in late && early[name].stamp == late[name].stamp ==> name in now && now[name] == early[name]
  }

  /** Every file of a digest was as digested at some instant of it, and the databases are always digested. */
  ghost predicate DigestOf(digest: Owner, views: seq<Owner>, from: nat, to: nat) {
    && StateFile in digest && HistoryFile in digest
    && forall name | name in digest :: FoundAs(digest[name], name, views, from, to)
  }

  ghost predicate FoundAs(file: File, name: Name, views: seq<Owner>, from: nat, to: nat) {
    exists i :: from <= i <= to && i < |views| && name in views[i] && views[i][name] == file
  }

  ghost predicate Honest(l: Look) {
    && Stamped(l.views)
    && (l.before.Some? ==> DigestOf(l.before.value, l.views, 0, l.first))
    && (l.after.Some? ==> DigestOf(l.after.value, l.views, l.second, |l.views|))
  }

  function RowAt(owner: Owner, threadId: string): Option<Row> {
    if StateFile in owner && owner[StateFile].body.Rows? && threadId in owner[StateFile].body.rows
    then Some(owner[StateFile].body.rows[threadId]) else None
  }

  function CheckpointAt(owner: Owner, threadId: string): Option<(int, int)> {
    if HistoryFile in owner && owner[HistoryFile].body.Checkpoints? && threadId in owner[HistoryFile].body.at
    then Some(owner[HistoryFile].body.at[threadId]) else None
  }

  function LinesAt(owner: Owner, path: Path): Option<Body> {
    if RolloutFile(path) in owner && owner[RolloutFile(path)].body.Lines?
    then Some(owner[RolloutFile(path)].body) else None
  }

  const SESSIONS: Path := ["/", "fixture", "sessions"]
  const LIMIT: nat := 64 * 1024 * 1024

  predicate EndsWith(s: string, end: string) {
    |end| <= |s| && s[|s| - |end|..] == end
  }

  /** An active thread with a rollout of its own under the sessions directory. */
  predicate Supported(row: Row, threadId: string) {
    && row.mode == "paginated" && row.archived == 0
    && SESSIONS < row.path
    && EndsWith(row.path[|row.path| - 1], "-" + threadId + ".jsonl")
    && "." !in row.path[3..] && ".." !in row.path[3..]
  }

  predicate Contiguous(records: seq<Record>) {
    forall i | 0 <= i < |records| :: records[i].ordinal == Some(i)
  }

  predicate Begins(record: Record, threadId: string) {
    record.meta == Some(Meta(threadId, "paginated", false))
  }

  /** Lines that can be captured: a complete bounded prefix, the thread's own, without ordinal gaps, that the history's
      checkpoint agrees with. */
  predicate Whole(lines: Body, checkpoint: (int, int), threadId: string) {
    && lines.Lines? && 0 < lines.size <= LIMIT && lines.complete
    && Contiguous(lines.records) && (lines.records != [] ==> Begins(lines.records[0], threadId))
    && checkpoint == (lines.size, |lines.records|)
  }

  /** What an opening is after: the path and lines of a thread that can be captured. */
  function Found(l: Look, threadId: string): Option<(Path, Body)> {
    var row, checkpoint := RowAt(l.views[l.row], threadId), CheckpointAt(l.views[l.checkpoint], threadId);
    if row.None? || checkpoint.None? || !Supported(row.value, threadId) || l.linked then None
    else
      var path := row.value.path[3..];
      var sized, lines := LinesAt(l.views[l.stat], path), LinesAt(l.views[l.data], path);
      if sized.None? || sized.value.size > LIMIT || lines.None? || !Whole(lines.value, checkpoint.value, threadId)
      then None else Some((path, lines.value))
  }

  // --- Cursors -------------------------------------------------------------------------------------

  predicate Ascii(s: string) {
    forall i | 0 <= i < |s| :: s[i] < 128 as char
  }

  function BytesOf(s: string): B.Bytes
    requires Ascii(s)
  {
    seq(|s|, i requires 0 <= i < |s| => s[i] as int)
  }

  function Text(bytes: B.Bytes): Option<string> {
    if forall i | 0 <= i < |bytes| :: bytes[i] < 128
    then Some(seq(|bytes|, i requires 0 <= i < |bytes| => bytes[i] as char)) else None
  }

  /** Bytes below 128 are text, byte by byte, and no others are. */
  lemma {:induction false} TextExactly(bytes: B.Bytes, s: string)
    ensures Text(bytes) == Some(s) <==>
      |s| == |bytes| && forall i | 0 <= i < |bytes| :: bytes[i] < 128 && s[i] as int == bytes[i]
  {
    assert Text(bytes).Some? ==>
      |Text(bytes).value| == |bytes| && forall i | 0 <= i < |bytes| :: Text(bytes).value[i] as int == bytes[i];
    if |s| == |bytes| && forall i | 0 <= i < |bytes| :: bytes[i] < 128 && s[i] as int == bytes[i] {
      assert forall i | 0 <= i < |bytes| :: Text(bytes).value[i] == s[i];
      assert Text(bytes).value == s;
    }
  }

  function Wrap(token: string, mark: string): string
    requires Ascii(mark)
  {
    token + "." + B.Encode(BytesOf(mark))
  }

  function Unwrap(token: string, cursor: string): Option<string> {
    var prefix := token + ".";
    if |cursor| < |prefix| || cursor[..|prefix|] != prefix then None
    else
      var bytes := B.Decode(cursor[|prefix|..]);
      if bytes.None? then None else Text(bytes.value)
  }

  predicate Plain(token: string) {
    '.' !in token
  }

  lemma {:induction false} OnePrefix(token: string, issuer: string, rest: string)
    requires Plain(token) && Plain(issuer) && token + "." <= issuer + "." + rest
    ensures token == issuer
  {
    var prefix, cursor := token + ".", issuer + "." + rest;
    assert prefix[|token|] == '.' && cursor[|issuer|] == '.';
    assert forall i | 0 <= i < |prefix| :: prefix[i] == cursor[i];
    assert forall i | 0 <= i < |token| :: token[i] == prefix[i];
    assert forall i | 0 <= i < |issuer| :: issuer[i] == cursor[i];
    assert |token| == |issuer| ==> token == issuer;
  }

  /** A cursor is accepted only by the token that issued it, and gives that token its own mark back. */
  lemma {:induction false} CursorsStayWithTheirToken(issuer: string, token: string, mark: string)
    requires Plain(issuer) && Plain(token) && Ascii(mark)
    ensures Unwrap(token, Wrap(issuer, mark)) == if token == issuer then Some(mark) else None
  {
    var cursor := Wrap(issuer, mark);
    var prefix := token + ".";
    B.RoundTrip(BytesOf(mark));
    if token == issuer {
      assert cursor[..|prefix|] == prefix && cursor[|prefix|..] == B.Encode(BytesOf(mark));
      assert Text(BytesOf(mark)).value == mark;
    } else if |prefix| <= |cursor| && cursor[..|prefix|] == prefix {
      OnePrefix(token, issuer, B.Encode(BytesOf(mark)));
      assert false;
    }
  }

  // --- The page helper -----------------------------------------------------------------------------

  /** The helper names a position in a list by a mark of its own. */
  datatype Helper = Helper(mark: nat -> string, place: string -> Option<nat>)

  ghost predicate Lawful(h: Helper) {
    forall n: nat :: h.place(h.mark(n)) == Some(n) && Ascii(h.mark(n))
  }

  datatype Page = Page(turns: seq<Turn>, next: Option<string>)

  function Least(a: int, b: int): int {
    if a < b then a else b
  }

  /** thread/turns/list over a captured list: at most `limit` turns from the cursor, and a cursor for the rest. */
  function ReadPage(h: Helper, turns: seq<Turn>, cursor: Option<string>, limit: nat): Option<Page> {
    var start := if cursor.None? then Some(0) else h.place(cursor.value);
    if start.None? || start.value > |turns| then None
    else
      var end := Least(start.value + limit, |turns|);
      Some(Page(turns[start.value..end], if end < |turns| then Some(h.mark(end)) else None))
  }

  // --- The coordinator's operations ------------------------------------------------------------------

  function Closed(s: State, token: string): State {
    if token in s.generations
    then s.(generations := s.generations - {token}, directories := s.directories - {token})
    else s
  }

  function Copied(l: Look, lines: Body): Option<Content>
    requires lines.Lines?
  {
    var state, history := l.views[l.state], l.views[l.history];
    if !l.copied || StateFile !in state || HistoryFile !in history then None
    else Some(Content(lines.records, state[StateFile].body, history[HistoryFile].body))
  }

  /** A generation is registered only when both digests were taken and are the same. */
  function Opening(s: State, threadId: string, token: string, now: int, l: Look): State {
    var found := Found(l, threadId);
    if !s.alive || s.writers < 2 || l.before.None? || found.None? || token in s.directories then s
    else
      var content := Copied(l, found.value.1);
      if content.None? || l.after != l.before then s
      else s.(generations := s.generations[token := Generation(threadId, content.value, now + 30)],
              directories := s.directories[token := content.value])
  }

  function Wrapped(token: string, page: Page): Option<Page> {
    if page.next.None? then Some(page)
    else if !Ascii(page.next.value) then None
    else Some(page.(next := Some(Wrap(token, page.next.value))))
  }

  /** `after` is what the snapshot directory holds once the page has been read. */
  function Paging(h: Helper, s: State, token: string, cursor: Option<string>, limit: nat, now: int,
                  after: Content): (State, Option<Page>) {
    if token !in s.generations || now >= s.generations[token].expiresAt then (Closed(s, token), None)
    else if !s.alive then (s, None)
    else
      var mark := if cursor.None? then None else Unwrap(token, cursor.value);
      var g := s.generations[token];
      if (cursor.Some? && mark.None?) || token !in s.directories || s.directories[token] != g.captured then (s, None)
      else
        var page := ReadPage(h, TurnsOf(s.directories[token].records), mark, limit);
        var t := s.(directories := s.directories[token := after]);
        (t, if page.None? || after != g.captured then None else Wrapped(token, page.value))
  }

  /** What the owner writes needs no event: an opening has its own view of it, and pages are read from the copy. */
  datatype Event =
    | OwnerTurn(ok: bool)
    | OwnerEnds
    | Open(threadId: string, token: string, now: int, look: Look)
    | Read(token: string, cursor: Option<string>, limit: nat, now: int, after: Content)
    | Close(token: string)
    | Tamper(token: string, content: Content)

  function Happened(h: Helper, s: State, event: Event): State {
    match event
    case OwnerTurn(ok) => if s.alive && ok then s.(writers := s.writers + 1) else s
    case OwnerEnds => s.(alive := false)
    case Open(threadId, token, now, look) => Opening(s, threadId, token, now, look)
    case Read(token, cursor, limit, now, after) => Paging(h, s, token, cursor, limit, now, after).0
    case Close(token) => Closed(s, token)
    case Tamper(token, content) => if token in s.directories then s.(directories := s.directories[token := content])
      else s
  }

  function Run(h: Helper, s: State, events: seq<Event>): State
    decreases |events|
  {
    if events == [] then s else Run(h, Happened(h, s, events[0]), events[1..])
  }

  // --- What every run keeps ------------------------------------------------------------------------

  /** Snapshot directories are exactly those of the registered tokens. */
  predicate Registered(s: State) {
    s.directories.Keys == s.generations.Keys
  }

  lemma {:induction false} RunKeepsRegistered(h: Helper, s: State, events: seq<Event>)
    requires Registered(s)
    ensures Registered(Run(h, s, events))
    decreases |events|
  {
    if events != [] {
      StepKeepsRegistered(h, s, events[0]);
      hide Happened;
      RunKeepsRegistered(h, Happened(h, s, events[0]), events[1..]);
    }
  }

  lemma {:induction false} StepKeepsRegistered(h: Helper, s: State, event: Event)
    requires Registered(s)
    ensures Registered(Happened(h, s, event))
  {
    hide ReadPage, Wrapped, Unwrap, Found, Copied;
  }

  // --- What one event and a whole run change -------------------------------------------------------

  /** A token is registered after an event exactly when it was opened by it, or was registered and neither closed by it
      nor found expired; a generation never changes, and a snapshot only where it is read, opened or tampered with. */
  lemma {:induction false} EventExactly(h: Helper, s: State, event: Event, token: string)
    requires Registered(s)
    ensures var t := Happened(h, s, event);
      && (token !in s.generations && !(event.Open? && event.token == token) ==> token !in t.generations)
      && (token in s.generations ==>
            (token in t.generations <==>
              && event != Close(token)
              && !(event.Read? && event.token == token && event.now >= s.generations[token].expiresAt)))
      && (token in s.generations && token in t.generations ==> t.generations[token] == s.generations[token])
      && (token in s.generations && token in t.generations && token in s.directories && token in t.directories ==>
            || t.directories[token] == s.directories[token]
            || (event.Tamper? && event.token == token && t.directories[token] == event.content)
            || (event.Read? && event.token == token && t.directories[token] == event.after))
  {
    hide ReadPage, Wrapped, Unwrap, Found, Copied;
  }

  /** The turns the owner saved before it ended. */
  function Saved(events: seq<Event>): nat {
    if events == [] || events[0].OwnerEnds? then 0
    else (if events[0] == OwnerTurn(true) then 1 else 0) + Saved(events[1..])
  }

  /** The owner lives until it ends, and two turns are two that it saved. */
  lemma {:induction false} OwnerTells(h: Helper, s: State, events: seq<Event>)
    ensures Run(h, s, events).alive <==> s.alive && OwnerEnds !in events
    ensures Run(h, s, events).writers == s.writers + (if s.alive then Saved(events) else 0)
    decreases |events|
  {
    if events != [] {
      OwnerMoves(h, s, events[0]);
      hide Happened;
      OwnerTells(h, Happened(h, s, events[0]), events[1..]);
    }
  }

  lemma {:induction false} OwnerMoves(h: Helper, s: State, event: Event)
    ensures var t := Happened(h, s, event);
      && (t.alive <==> s.alive && event != OwnerEnds)
      && t.writers == s.writers + (if s.alive && event == OwnerTurn(true) then 1 else 0)
  {
    hide ReadPage, Wrapped, Unwrap, Found, Copied;
  }

  // --- Following the cursors -----------------------------------------------------------------------

  /** Somebody paging one token: what was received, the cursor to go on from, and whether it ended or failed. */
  datatype Client = Client(got: seq<Turn>, held: Option<string>, done: bool, failed: bool)

  const BEGIN := Client([], None, false, false)

  /** The client's own page request, or anything else that happens. */
  datatype Step = Next(limit: nat, now: int, after: Content) | Other(event: Event)

  function Fetched(h: Helper, s: State, c: Client, token: string, step: Step): (State, Client) {
    match step
    case Other(event) => (Happened(h, s, event), c)
    case Next(limit, now, after) =>
      if c.done || c.failed then (s, c)
      else
        var (t, page) := Paging(h, s, token, c.held, limit, now, after);
        if page.None? then (t, c.(failed := true))
        else (t, Client(c.got + page.value.turns, page.value.next, page.value.next.None?, false))
  }

  function Follow(h: Helper, s: State, c: Client, token: string, steps: seq<Step>): (State, Client)
    decreases |steps|
  {
    if steps == [] then (s, c)
    else
      var (t, d) := Fetched(h, s, c, token, steps[0]);
      Follow(h, t, d, token, steps[1..])
  }

  /** Where a client can be that has followed the cursors of a captured list. */
  ghost predicate OnTrack(h: Helper, c: Client, token: string, turns: seq<Turn>)
    requires Lawful(h)
  {
    && |c.got| <= |turns| && c.got == turns[..|c.got|]
    && (c.done ==> c.got == turns)
    && (c.done || c.failed || c.held == (if c.held.None? then None else Some(Wrap(token, h.mark(|c.got|)))))
    && (c.held.None? && !c.done && !c.failed ==> c.got == [])
  }

  /** No later generation is drawn under the same token. */
  predicate DrawnOnce(token: string, steps: seq<Step>) {
    forall i | 0 <= i < |steps| :: steps[i].Other? && steps[i].event.Open? ==> steps[i].event.token != token
  }

  predicate Capturing(s: State, token: string, captured: Content) {
    token in s.generations ==> s.generations[token].captured == captured
  }

  lemma {:induction false} OtherStaysOnTrack(h: Helper, s: State, token: string, event: Event, captured: Content)
    requires Capturing(s, token, captured) && (event.Open? ==> event.token != token)
    ensures Capturing(Happened(h, s, event), token, captured)
  {
    hide TurnsOf, Found, Unwrap, ReadPage, Wrapped;
  }

  lemma {:induction false} PageStaysOnTrack(h: Helper, s: State, c: Client, token: string, limit: nat, now: int,
                                            after: Content, captured: Content)
    requires Lawful(h) && Plain(token) && Capturing(s, token, captured)
      && OnTrack(h, c, token, TurnsOf(captured.records))
    ensures var (t, d) := Fetched(h, s, c, token, Next(limit, now, after));
      Capturing(t, token, captured) && OnTrack(h, d, token, TurnsOf(captured.records))
  {
    var turns := TurnsOf(captured.records);
    hide TurnsOf, Unwrap, Wrap;
    if !c.done && !c.failed {
      CursorsStayWithTheirToken(token, token, h.mark(|c.got|));
      var end := Least(|c.got| + limit, |turns|);
      assert turns[..|c.got|] + turns[|c.got|..end] == turns[..end];
      assert turns[..|turns|] == turns;
    }
  }

  lemma {:induction false} StepStaysOnTrack(h: Helper, s: State, c: Client, token: string, step: Step,
                                            captured: Content)
    requires Lawful(h) && Plain(token) && Capturing(s, token, captured)
      && OnTrack(h, c, token, TurnsOf(captured.records))
    requires step.Other? && step.event.Open? ==> step.event.token != token
    ensures var (t, d) := Fetched(h, s, c, token, step);
      Capturing(t, token, captured) && OnTrack(h, d, token, TurnsOf(captured.records))
  {
    match step
    case Next(limit, now, after) => PageStaysOnTrack(h, s, c, token, limit, now, after, captured);
    case Other(event) =>
      OtherStaysOnTrack(h, s, token, event, captured);
      hide Happened, OnTrack, Capturing;
  }

  /** Whatever turns, openings, pages, closings and tampering happen in between, following the cursors of one token
      gives the captured turns from the first on, once each and in order, and all of them when it ends. */
  lemma {:induction false} FollowingEnumerates(h: Helper, s: State, c: Client, token: string, steps: seq<Step>,
                                               captured: Content)
    requires Lawful(h) && Plain(token) && Capturing(s, token, captured)
      && OnTrack(h, c, token, TurnsOf(captured.records))
    requires DrawnOnce(token, steps)
    ensures OnTrack(h, Follow(h, s, c, token, steps).1, token, TurnsOf(captured.records))
    ensures var d := Follow(h, s, c, token, steps).1;
      Delivered(d.got, captured.records, d.done)
    decreases |steps|
  {
    if steps != [] {
      StepStaysOnTrack(h, s, c, token, steps[0], captured);
      hide Fetched, OnTrack, Capturing;
      var (t, d) := Fetched(h, s, c, token, steps[0]);
      FollowingEnumerates(h, t, d, token, steps[1..], captured);
    } else {
      TurnsAreDelivered(c.got, captured.records);
      hide TurnPlaces, Placed;
    }
  }

  // --- Getting to the end ----------------------------------------------------------------------------

  predicate Serving(s: State, token: string, g: Generation) {
    && s.alive && token in s.generations && s.generations[token] == g
    && token in s.directories && s.directories[token] == g.captured
  }

  /** The owner lives, and the generation neither expires nor is closed, changed or drawn again. */
  predicate Undisturbed(step: Step, token: string, g: Generation) {
    match step
    case Next(limit, now, after) => limit >= 1 && now < g.expiresAt && after == g.captured
    case Other(event) =>
      match event
      case OwnerEnds => false
      case Open(_, drawn, _, _) => drawn != token
      case Read(read, _, _, now, after) => read == token ==> now < g.expiresAt && after == g.captured
      case Close(closed) => closed != token
      case Tamper(changed, _) => changed != token
      case _ => true
  }

  predicate AllUndisturbed(steps: seq<Step>, token: string, g: Generation) {
    forall i | 0 <= i < |steps| :: Undisturbed(steps[i], token, g)
  }

  function Requests(steps: seq<Step>): nat
    decreases |steps|
  {
    if steps == [] then 0 else (if steps[0].Next? then 1 else 0) + Requests(steps[1..])
  }

  /** There is more to come, and nothing went wrong. */
  predicate Underway(c: Client, turns: seq<Turn>) {
    !c.done && !c.failed && (c == BEGIN || |c.got| < |turns|)
  }

  lemma {:induction false} OtherServes(h: Helper, s: State, token: string, event: Event, g: Generation)
    requires Serving(s, token, g) && Undisturbed(Other(event), token, g)
    ensures Serving(Happened(h, s, event), token, g)
  {
    hide TurnsOf, Found, Copied, Unwrap, ReadPage, Wrapped;
  }

  /** A page that is asked for comes, and is the last or brings at least one turn. */
  lemma {:induction false} PageServes(h: Helper, s: State, c: Client, token: string, step: Step, g: Generation)
    requires Lawful(h) && Plain(token) && Serving(s, token, g) && step.Next? && Undisturbed(step, token, g)
    requires OnTrack(h, c, token, TurnsOf(g.captured.records)) && Underway(c, TurnsOf(g.captured.records))
    ensures var (t, d) := Fetched(h, s, c, token, step);
      && Serving(t, token, g) && !d.failed
      && (d.done || (Underway(d, TurnsOf(g.captured.records)) && |d.got| > |c.got|))
  {
    var turns := TurnsOf(g.captured.records);
    hide TurnsOf, Unwrap, Wrap;
    CursorsStayWithTheirToken(token, token, h.mark(|c.got|));
  }

  lemma {:induction false} FollowingGoesOn(h: Helper, s: State, c: Client, token: string, steps: seq<Step>,
                                           g: Generation)
    requires Lawful(h) && Plain(token) && Serving(s, token, g) && AllUndisturbed(steps, token, g)
    requires OnTrack(h, c, token, TurnsOf(g.captured.records))
    requires !c.failed && (c.done || Underway(c, TurnsOf(g.captured.records)))
    ensures var d := Follow(h, s, c, token, steps).1;
      && !d.failed && (c.done ==> d.done)
      && (d.done || (Underway(d, TurnsOf(g.captured.records)) && |d.got| >= |c.got| + Requests(steps)))
    decreases |steps|
  {
    if steps != [] {
      var (t, d) := Fetched(h, s, c, token, steps[0]);
      StepStaysOnTrack(h, s, c, token, steps[0], g.captured);
      GoingOn(h, s, c, token, steps[0], g);
      hide Fetched, OnTrack, Serving, Underway, Undisturbed, TurnsOf;
      FollowingGoesOn(h, t, d, token, steps[1..], g);
    }
  }

  lemma {:induction false} GoingOn(h: Helper, s: State, c: Client, token: string, step: Step, g: Generation)
    requires Lawful(h) && Plain(token) && Serving(s, token, g) && Undisturbed(step, token, g)
    requires OnTrack(h, c, token, TurnsOf(g.captured.records))
    requires !c.failed && (c.done || Underway(c, TurnsOf(g.captured.records)))
    ensures var (t, d) := Fetched(h, s, c, token, step);
      && Serving(t, token, g) && !d.failed && (c.done ==> d.done)
      && (d.done || (Underway(d, TurnsOf(g.captured.records))
                     && |d.got| >= |c.got| + (if step.Next? then 1 else 0)))
  {
    if step.Other? {
      OtherServes(h, s, token, step.event, g);
    } else if !c.done {
      PageServes(h, s, c, token, step, g);
    }
    hide Happened, Serving, Underway, OnTrack, Paging, TurnsOf;
  }

  /** While the owner lives and nobody disturbs the generation, a client that asks for as many pages as there are turns,
      and for one at least, has them all, whatever their limits and whatever else happens. */
  lemma {:induction false} FollowingEnds(h: Helper, s: State, token: string, steps: seq<Step>, g: Generation)
    requires Lawful(h) && Plain(token) && Serving(s, token, g) && AllUndisturbed(steps, token, g)
    requires Requests(steps) >= 1 && Requests(steps) >= |TurnsOf(g.captured.records)|
    ensures var d := Follow(h, s, BEGIN, token, steps).1;
      d.done && Delivered(d.got, g.captured.records, true)
  {
    FollowingGoesOn(h, s, BEGIN, token, steps, g);
    forall i | 0 <= i < |steps|
      ensures steps[i].Other? && steps[i].event.Open? ==> steps[i].event.token != token
    {
      assert Undisturbed(steps[i], token, g);
    }
    FollowingEnumerates(h, s, BEGIN, token, steps, g.captured);
    hide Follow, TurnsOf;
  }

  // --- What was captured -----------------------------------------------------------------------------

  /** Two equal digests: each file of theirs was as digested at every instant between them. */
  lemma {:induction false} DigestedStill(l: Look, name: Name)
    requires Honest(l) && l.before.Some? && l.after == l.before && name in l.before.value
    ensures forall i | l.first <= i <= l.second :: name in l.views[i] && l.views[i][name] == l.before.value[name]
  {
    var file := l.before.value[name];
    assert FoundAs(file, name, l.views, 0, l.first) && FoundAs(file, name, l.views, l.second, |l.views|);
    var early :| 0 <= early <= l.first && name in l.views[early] && l.views[early][name] == file;
    var late :| l.second <= late < |l.views| && name in l.views[late] && l.views[late][name] == file;
    hide Timely, DigestOf, FoundAs;
    forall i | l.first <= i <= l.second
      ensures name in l.views[i] && l.views[i][name] == file
    {
      assert Kept(l.views[early], l.views[i], l.views[late], name);
    }
  }

  /** At every instant between the digests the owner has this thread, at this path, saved up to these lines. */
  predicate SavedThroughout(l: Look, threadId: string, path: Path, lines: Body) {
    lines.Lines? &&
    forall i | l.first <= i <= l.second ::
      && RowAt(l.views[i], threadId).Some? && RowAt(l.views[i], threadId).value.path == SESSIONS + path
      && CheckpointAt(l.views[i], threadId) == Some((lines.size, |lines.records|))
  }

  predicate FileThroughout(l: Look, name: Name, body: Body) {
    forall i | l.first <= i <= l.second :: name in l.views[i] && l.views[i][name].body == body
  }

  lemma {:induction false} RegisteredIsFound(s: State, threadId: string, token: string, now: int, l: Look)
    requires token !in s.generations && token in Opening(s, threadId, token, now, l).generations
    ensures l.before.Some? && l.after == l.before && Found(l, threadId).Some?
    ensures var content := Copied(l, Found(l, threadId).value.1);
      content.Some? && Opening(s, threadId, token, now, l).generations[token].captured == content.value
  {
    hide Copied;
  }

  lemma {:induction false} FoundIsSaved(l: Look, threadId: string)
    requires Honest(l) && l.before.Some? && l.after == l.before && Found(l, threadId).Some?
    ensures var (path, lines) := Found(l, threadId).value;
      LinesAt(l.views[l.data], path) == Some(lines) && SavedThroughout(l, threadId, path, lines)
  {
    DigestedStill(l, StateFile);
    DigestedStill(l, HistoryFile);
    hide Honest, Contiguous, Begins, EndsWith;
    var (path, lines) := Found(l, threadId).value;
    var row := RowAt(l.views[l.row], threadId).value;
    assert row.path == row.path[..3] + row.path[3..];
    forall i | l.first <= i <= l.second
      ensures RowAt(l.views[i], threadId) == RowAt(l.views[l.row], threadId)
      ensures CheckpointAt(l.views[i], threadId) == CheckpointAt(l.views[l.checkpoint], threadId)
    {
    }
  }

  lemma {:induction false} CopyIsThroughout(l: Look, lines: Body)
    requires Honest(l) && l.before.Some? && l.after == l.before && lines.Lines? && Copied(l, lines).Some?
    ensures var captured := Copied(l, lines).value;
      FileThroughout(l, StateFile, captured.state) && FileThroughout(l, HistoryFile, captured.history)
  {
    DigestedStill(l, StateFile);
    DigestedStill(l, HistoryFile);
  }

  lemma {:induction false} ListedIsThroughout(l: Look, threadId: string)
    requires Honest(l) && l.before.Some? && l.after == l.before && Found(l, threadId).Some?
    ensures var (path, lines) := Found(l, threadId).value;
      RolloutFile(path) in l.before.value ==> FileThroughout(l, RolloutFile(path), lines)
  {
    var (path, _) := Found(l, threadId).value;
    if RolloutFile(path) in l.before.value {
      DigestedStill(l, RolloutFile(path));
    }
    hide Honest, Supported, Whole;
  }

  /** What a registered generation holds was all of the thread's saved lines at the instant they were read, and its
      databases the owner's, at every instant between the digests; and when the first digest found the rollout, the
      owner had exactly these lines all that time. */
  lemma {:induction false} SourceStoodStill(s: State, threadId: string, token: string, now: int, l: Look)
    requires Honest(l) && token !in s.generations && token in Opening(s, threadId, token, now, l).generations
    ensures Found(l, threadId).Some? && l.before.Some?
    ensures var (path, lines) := Found(l, threadId).value;
      var captured := Opening(s, threadId, token, now, l).generations[token].captured;
      && LinesAt(l.views[l.data], path) == Some(lines) && captured.records == lines.records
      && SavedThroughout(l, threadId, path, lines)
      && FileThroughout(l, StateFile, captured.state) && FileThroughout(l, HistoryFile, captured.history)
      && (RolloutFile(path) in l.before.value ==> FileThroughout(l, RolloutFile(path), lines))
  {
    RegisteredIsFound(s, threadId, token, now, l);
    FoundIsSaved(l, threadId);
    CopyIsThroughout(l, Found(l, threadId).value.1);
    ListedIsThroughout(l, threadId);
    hide Honest, Opening, Found, SavedThroughout, FileThroughout, LinesAt, Timely;
  }

  // --- Exactly when an opening registers, and when a page is given ------------------------------------

  /** An active thread saved in one rollout of its own, small enough and complete, with ordinals from zero on, that says
      whose it is and ends where the history's checkpoint does. */
  ghost predicate CanBeCaptured(l: Look, threadId: string, row: Row, checkpoint: (int, int), sized: Body, lines: Body) {
    && RowAt(l.views[l.row], threadId) == Some(row) && CheckpointAt(l.views[l.checkpoint], threadId) == Some(checkpoint)
    && row.mode == "paginated" && row.archived == 0
    && |row.path| > 3 && row.path[0] == "/" && row.path[1] == "fixture" && row.path[2] == "sessions"
    && (exists before: string :: row.path[|row.path| - 1] == before + "-" + threadId + ".jsonl")
    && (forall i | 3 <= i < |row.path| :: row.path[i] != "." && row.path[i] != "..")
    && !l.linked
    && LinesAt(l.views[l.stat], row.path[3..]) == Some(sized) && sized.size <= 67_108_864
    && LinesAt(l.views[l.data], row.path[3..]) == Some(lines) && 0 < lines.size <= 67_108_864 && lines.complete
    && (forall i | 0 <= i < |lines.records| :: lines.records[i].ordinal == Some(i))
    && (|lines.records| > 0 ==> lines.records[0].meta == Some(Meta(threadId, "paginated", false)))
    && checkpoint.0 == lines.size && checkpoint.1 == |lines.records|
  }

  lemma {:induction false} EndsWithExactly(s: string, end: string)
    ensures EndsWith(s, end) <==> exists before: string :: s == before + end
  {
    if EndsWith(s, end) {
      assert s == s[..|s| - |end|] + end;
    }
  }

  lemma {:induction false} SupportedExactly(row: Row, threadId: string)
    ensures Supported(row, threadId) <==>
      && row.mode == "paginated" && row.archived == 0
      && |row.path| > 3 && row.path[0] == "/" && row.path[1] == "fixture" && row.path[2] == "sessions"
      && (exists before: string :: row.path[|row.path| - 1] == before + "-" + threadId + ".jsonl")
      && (forall i | 3 <= i < |row.path| :: row.path[i] != "." && row.path[i] != "..")
  {
    if |row.path| > 3 {
      var name, end := row.path[|row.path| - 1], "-" + threadId + ".jsonl";
      EndsWithExactly(name, end);
      assert forall before: string :: before + "-" + threadId + ".jsonl" == before + end;
      assert row.path[..3] == [row.path[0], row.path[1], row.path[2]];
      assert SESSIONS < row.path <==> row.path[..3] == SESSIONS;
      hide EndsWith;
      InTail(row.path, ".");
      InTail(row.path, "..");
    }
  }

  lemma {:induction false} InTail(path: Path, part: string)
    requires |path| >= 3
    ensures part in path[3..] <==> exists i :: 3 <= i < |path| && path[i] == part
  {
    if exists i :: 3 <= i < |path| && path[i] == part {
      var i :| 3 <= i < |path| && path[i] == part;
      assert path[3..][i - 3] == part;
    }
  }

  lemma {:induction false} FoundExactly(l: Look, threadId: string)
    ensures Found(l, threadId).Some? <==>
      exists row, checkpoint, sized, lines :: CanBeCaptured(l, threadId, row, checkpoint, sized, lines)
  {
    hide Supported, EndsWith, RowAt, CheckpointAt;
    var row, checkpoint := RowAt(l.views[l.row], threadId), CheckpointAt(l.views[l.checkpoint], threadId);
    if row.Some? && checkpoint.Some? {
      SupportedExactly(row.value, threadId);
      if |row.value.path| > 3 {
        var sized, lines := LinesAt(l.views[l.stat], row.value.path[3..]),
          LinesAt(l.views[l.data], row.value.path[3..]);
        if sized.Some? && lines.Some? {
          assert Found(l, threadId).Some? <==>
            CanBeCaptured(l, threadId, row.value, checkpoint.value, sized.value, lines.value);
        }
      }
    }
  }

  /** A token is registered, for thirty seconds, exactly when the owner lives and took two turns, both digests were
      taken and are the same, nothing raised, the directory is new, and the thread can be captured. */
  lemma {:induction false} RegisteredExactly(s: State, threadId: string, token: string, now: int, l: Look)
    requires token !in s.generations
    ensures token in Opening(s, threadId, token, now, l).generations <==>
      && s.alive && s.writers >= 2 && l.before.Some? && l.after == l.before && l.copied && token !in s.directories
      && StateFile in l.views[l.state] && HistoryFile in l.views[l.history]
      && exists row, checkpoint, sized, lines :: CanBeCaptured(l, threadId, row, checkpoint, sized, lines)
    ensures var t := Opening(s, threadId, token, now, l);
      if token in t.generations then
        t.generations[token].expiresAt == now + 30 && t.generations[token].threadId == threadId
        && t.directories == s.directories[token := t.generations[token].captured]
      else t == s
  {
    FoundExactly(l, threadId);
    hide Found, CanBeCaptured;
  }

  /** A page is given exactly for a token that is registered and not expired, while the owner lives, from a cursor of
      that token or none, when the copy is what was captured before and after; an expired token is closed. */
  lemma {:induction false} PagedExactly(h: Helper, s: State, token: string, cursor: Option<string>, limit: nat,
                                        now: int, after: Content)
    requires Lawful(h)
    ensures var (t, page) := Paging(h, s, token, cursor, limit, now, after);
      && (page.Some? <==>
            && s.alive && token in s.generations && now < s.generations[token].expiresAt
            && token in s.directories && s.directories[token] == s.generations[token].captured
            && after == s.generations[token].captured
            && (cursor.Some? ==> Unwrap(token, cursor.value).Some?)
            && var mark := if cursor.None? then None else Unwrap(token, cursor.value);
              ReadPage(h, TurnsOf(after.records), mark, limit).Some?)
      && (page.Some? ==> |page.value.turns| <= limit)
      && (token in s.generations && now >= s.generations[token].expiresAt ==>
            token !in t.generations && token !in t.directories)
  {
    hide TurnsOf, Unwrap, Wrap;
  }

  // --- A rollout that came and went ------------------------------------------------------------------

  /** An opening of these lines at this path, between two digests that are both `before`. */
  ghost predicate Registers(l: Look, s: State, threadId: string, token: string, now: int, before: Owner, path: Path,
                            lines: Body) {
    && Honest(l) && l.before == Some(before)
    && token in Opening(s, threadId, token, now, l).generations
    && Found(l, threadId) == Some((path, lines))
  }

  /** An owner whose rollout is there at the second of three instants only. */
  function Visit(before: Owner, path: Path, lines: Body): Look {
    var visited := before[RolloutFile(path) := File(0, lines)];
    Looking([before, visited, before], Some(before), 0, 1, 1, 1, 1, 1, 1, 2, Some(before), false, true)
  }

  lemma {:induction false} VisitIsHonest(before: Owner, path: Path, lines: Body)
    requires StateFile in before && HistoryFile in before && RolloutFile(path) !in before
    ensures Honest(Visit(before, path, lines))
  {
    var l := Visit(before, path, lines);
    forall name | name in before
      ensures FoundAs(before[name], name, l.views, 0, 0) && FoundAs(before[name], name, l.views, 2, 3)
    {
      assert l.views[0] == before && l.views[2] == before;
    }
  }

  lemma {:induction false} VisitRegisters(s: State, threadId: string, token: string, now: int, before: Owner,
                                          path: Path, lines: Body)
    requires s.alive && s.writers >= 2 && token !in s.directories
    requires StateFile in before && HistoryFile in before && RolloutFile(path) !in before
    requires RowAt(before, threadId).Some? && Supported(RowAt(before, threadId).value, threadId)
    requires RowAt(before, threadId).value.path == SESSIONS + path && CheckpointAt(before, threadId).Some?
    requires Whole(lines, CheckpointAt(before, threadId).value, threadId)
    ensures Registers(Visit(before, path, lines), s, threadId, token, now, before, path, lines)
  {
    VisitIsHonest(before, path, lines);
    assert (SESSIONS + path)[3..] == path;
    hide Honest, Supported, Contiguous, Begins;
  }

  /** What two digests that are both `before` say of a thread whose opening they enclose. */
  lemma {:induction false} RegisteredInDigest(l: Look, s: State, threadId: string, token: string, now: int,
                                              before: Owner, path: Path, lines: Body)
    requires token !in s.generations && Registers(l, s, threadId, token, now, before, path, lines)
    ensures s.alive && s.writers >= 2 && StateFile in before && HistoryFile in before
    ensures RowAt(before, threadId).Some? && Supported(RowAt(before, threadId).value, threadId)
    ensures RowAt(before, threadId).value.path == SESSIONS + path && CheckpointAt(before, threadId).Some?
    ensures Whole(lines, CheckpointAt(before, threadId).value, threadId)
  {
    RegisteredIsFound(s, threadId, token, now, l);
    DigestedStill(l, StateFile);
    DigestedStill(l, HistoryFile);
    var row := RowAt(l.views[l.row], threadId).value;
    assert row.path == row.path[..3] + row.path[3..];
    assert RowAt(before, threadId) == RowAt(l.views[l.row], threadId);
    assert CheckpointAt(before, threadId) == CheckpointAt(l.views[l.checkpoint], threadId);
    hide Honest, Contiguous, Begins, EndsWith, RowAt, CheckpointAt;
  }

  /** Two equal digests show that the captured rollout stood still exactly when they tell of it: then, whatever the
      owner did meanwhile, it had these lines at every instant between them; otherwise the same digests enclose an
      opening of the same lines at which the rollout came after the first and was gone before the second. */
  lemma {:induction false} StoodStillExactly(l0: Look, s: State, threadId: string, token: string, now: int, path: Path,
                                             lines: Body)
    requires token !in s.generations && token !in s.directories
    requires l0.before.Some? && Registers(l0, s, threadId, token, now, l0.before.value, path, lines)
    ensures
      (forall l: Look | Registers(l, s, threadId, token, now, l0.before.value, path, lines) ::
         FileThroughout(l, RolloutFile(path), lines)) <==> RolloutFile(path) in l0.before.value
  {
    var before := l0.before.value;
    if RolloutFile(path) in before {
      forall l: Look | Registers(l, s, threadId, token, now, before, path, lines)
        ensures FileThroughout(l, RolloutFile(path), lines)
      {
        SourceStoodStill(s, threadId, token, now, l);
      }
    } else {
      RegisteredInDigest(l0, s, threadId, token, now, before, path, lines);
      VisitRegisters(s, threadId, token, now, before, path, lines);
      var l := Visit(before, path, lines);
      assert l.views[l.first] == before;
      assert !FileThroughout(l, RolloutFile(path), lines);
      hide Registers, Visit;
    }
  }

  /** There are openings of a rollout neither digest tells of, for every thread: the databases told of it all along. */
  lemma {:induction false} CameAndWent(threadId: string, token: string, now: int, s: State)
    returns (before: Owner, path: Path, lines: Body)
    requires s.alive && s.writers >= 2 && token !in s.directories
    ensures RolloutFile(path) !in before
    ensures Registers(Visit(before, path, lines), s, threadId, token, now, before, path, lines)
  {
    var name, end := "r-" + threadId + ".jsonl", "-" + threadId + ".jsonl";
    path, lines := [name], Lines([Record(Some(0), Some(Meta(threadId, "paginated", false)), None)], 1, true);
    var row := Row(SESSIONS + path, "paginated", 0);
    before := map[
      StateFile := File(0, Rows(map[threadId := row])),
      HistoryFile := File(1, Checkpoints(map[threadId := (1, 1)]))];
    assert name == "r" + end && name[1..] == end;
    assert row.path[3..] == path && row.path[..3] == SESSIONS && row.path[|row.path| - 1] == name;
    assert |name| >= 8 && "." != name && ".." != name;
    assert Supported(row, threadId);
    VisitRegisters(s, threadId, token, now, before, path, lines);
    hide Registers, Supported;
  }

  /** What is delivered under a token is the turns the owner had saved when the token was opened. */
  lemma {:induction false} CapturedTurnsAreDelivered(h: Helper, s: State, threadId: string, token: string, now: int,
                                                     l: Look, steps: seq<Step>)
    requires Lawful(h) && Plain(token) && DrawnOnce(token, steps) && Honest(l)
    requires token !in s.generations && token in Opening(s, threadId, token, now, l).generations
    ensures Found(l, threadId).Some?
    ensures var (path, lines) := Found(l, threadId).value;
      var client := Follow(h, Opening(s, threadId, token, now, l), BEGIN, token, steps).1;
      && LinesAt(l.views[l.data], path) == Some(lines) && SavedThroughout(l, threadId, path, lines)
      && Delivered(client.got, lines.records, client.done)
  {
    SourceStoodStill(s, threadId, token, now, l);
    var t := Opening(s, threadId, token, now, l);
    hide Opening, Follow, Found, SavedThroughout, FileThroughout, Honest, LinesAt, Timely, TurnsOf;
    FollowingEnumerates(h, t, BEGIN, token, steps, t.generations[token].captured);
  }

  // --- The coordinator itself ----------------------------------------------------------------------

  class Coordinator {
    const helper: Helper
    var alive: bool
    var writers: nat
    var generations: map<string, Generation>
    var directories: map<string, Content>

    function Now(): State
      reads this
    {
      State(alive, writers, generations, directories)
    }

    constructor (helper: Helper)
      ensures Now() == State(true, 0, map[], map[]) && Registered(Now()) && this.helper == helper
    {
      this.helper, alive, writers, generations, directories := helper, true, 0, map[], map[];
    }

    /** A coordinated turn; `ok` when the call to the owner returned. */
    method TakeTurn(ok: bool)
      modifies this
      ensures Now() == Happened(helper, old(Now()), OwnerTurn(ok))
    {
      if alive && ok {
        writers := writers + 1;
      }
    }

    /** The loop over the lines of a rollout: each ordinal follows the one before, and the first begins the thread. */
    static method NoGaps(records: seq<Record>, threadId: string) returns (ok: bool, ordinal: int)
      ensures ok == (Contiguous(records) && (records != [] ==> Begins(records[0], threadId)))
      ensures ok ==> ordinal == |records| - 1
    {
      ordinal := -1;
      for i := 0 to |records|
        invariant ordinal == i - 1 && forall j | 0 <= j < i :: records[j].ordinal == Some(j)
        invariant i > 0 ==> Begins(records[0], threadId)
      {
        if records[i].ordinal != Some(ordinal + 1) {
          return false, ordinal;
        }
        if i == 0 && !Begins(records[0], threadId) {
          return false, ordinal;
        }
        ordinal := ordinal + 1;
      }
      ok := true;
    }

    /** The lines to be captured, or none where the source raises. */
    static method Select(threadId: string, l: Look) returns (lines: Option<Body>)
      ensures lines == (if Found(l, threadId).Some? then Some(Found(l, threadId).value.1) else None)
      ensures lines.Some? ==> lines.value.Lines?
    {
      var row, checkpoint := RowAt(l.views[l.row], threadId), CheckpointAt(l.views[l.checkpoint], threadId);
      if row.None? || checkpoint.None? || !Supported(row.value, threadId) || l.linked {
        return None;
      }
      var path := row.value.path[3..];
      var sized, data := LinesAt(l.views[l.stat], path), LinesAt(l.views[l.data], path);
      if sized.None? || sized.value.size > LIMIT || data.None? {
        return None;
      }
      if data.value.size == 0 || data.value.size > LIMIT || !data.value.complete {
        return None;
      }
      var contiguous, ordinal := NoGaps(data.value.records, threadId);
      if !contiguous || checkpoint.value != (data.value.size, ordinal + 1) {
        return None;
      }
      return data;
    }

    method OpenGeneration(threadId: string, token: string, now: int, l: Look) returns (ok: bool)
      requires Registered(Now())
      modifies this
      ensures Now() == Opening(old(Now()), threadId, token, now, l) && Registered(Now())
      ensures ok == (token in generations && token !in old(generations))
    {
      hide Found, Timely;
      if !alive || writers < 2 || l.before.None? {
        return false;
      }
      var lines := Select(threadId, l);
      // mkdir refuses a directory that is there.
      if lines.None? || token in directories {
        return false;
      }
      var content := Copied(l, lines.value);
      if content.None? {
        return false;
      }
      directories := directories[token := content.value];
      if l.after != l.before {
        directories := directories - {token};
        return false;
      }
      generations := generations[token := Generation(threadId, content.value, now + 30)];
      return true;
    }

    method ReadOne(token: string, cursor: Option<string>, limit: nat, now: int, after: Content)
      returns (page: Option<Page>)
      requires Registered(Now())
      modifies this
      ensures (Now(), page) == Paging(helper, old(Now()), token, cursor, limit, now, after) && Registered(Now())
    {
      if token !in generations || now >= generations[token].expiresAt {
        CloseGeneration(token);
        return None;
      }
      if !alive {
        return None;
      }
      var mark: Option<string> := None;
      if cursor.Some? {
        mark := Unwrap(token, cursor.value);
        if mark.None? {
          return None;
        }
      }
      var captured := generations[token].captured;
      if directories[token] != captured {
        return None;
      }
      var result := ReadPage(helper, TurnsOf(directories[token].records), mark, limit);
      directories := directories[token := after];
      if result.None? || directories[token] != captured {
        return None;
      }
      return Wrapped(token, result.value);
    }

    method CloseGeneration(token: string)
      requires Registered(Now())
      modifies this
      ensures Now() == Closed(old(Now()), token) && Registered(Now())
    {
      if token in generations {
        generations := generations - {token};
        directories := directories - {token};
      }
    }
  }
}
