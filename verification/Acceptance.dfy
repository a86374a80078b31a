/** The manual acceptance controller, experiments/efficiency-native-acceptance.ts: what it sends to the native
    tools over a whole run, whatever the person asks for and however the tools answer. */
module Acceptance {
  import opened Common

  const APPLICATION := "org.gnome.Calculator.desktop"

  datatype Tool =
    | Open | Handoff | Act | Resume
    | Applications | Monitors | Candidates | Status | Observe | Pause | Journal | Narrow | Stop

  datatype Action = Action(kind: string, appId: Option<string>, windowId: Option<string>)

  /** The `actions` argument: left out, not a list, or a list whose members may not be objects. */
  datatype Listed = Absent | Malformed | List(items: seq<Option<Action>>)

  /** The arguments the controller looks at; `rest` stands for all others. */
  datatype Args = Args(
    applicationId: Option<string>, requestId: Option<string>, workspace: Option<int>,
    address: Option<string>, stableId: Option<string>, sessionId: Option<string>,
    action: Option<Action>, actions: Listed, capture: bool,
    scope: Option<string>, appId: Option<string>, windowId: Option<string>, rest: string)

  const NO_ARGS: Args := Args(None, None, None, None, None, None, None, Absent, false, None, None, None, "")
  const DISCOVERY: Args := NO_ARGS.(rest := "Calculator")
  const MINE: Args := NO_ARGS.(scope := Some("mine"))

  datatype Scoped = Scoped(appId: Option<string>, windowId: Option<string>, workspace: Option<int>, scope: string)
  /** A process number that is no safe integer is none. */
  datatype App = App(
    id: string, registrationIds: seq<string>, availability: string, runningPids: Option<seq<Option<int>>>)
  datatype Candidate = Candidate(address: Option<string>, stableId: Option<string>, xwayland: Option<bool>)
  datatype Monitor = Monitor(name: Option<string>, focused: Option<bool>, workspace: Option<int>, blank: bool)

  /** The structured content of a reply, as far as the controller reads it. */
  datatype Data = Data(
    ok: Option<bool>, captureError: bool,
    hasOpened: bool, workspace: Option<int>, windowProtocol: string, identityEvidence: string,
    address: Option<string>, stableId: Option<string>, pid: Option<int>,
    sessionId: Option<string>, handoff: Option<Scoped>,
    truncated: Option<bool>, applications: Option<seq<Option<App>>>,
    candidates: Option<seq<Option<Candidate>>>, monitors: Option<seq<Option<Monitor>>>)

  /** One use of the world: whether use is enabled when asked; the reply, if it comes; and whether the images
      and the record of the reply could be kept. */
  datatype Answer = Answer(enabled: bool, reply: Option<(bool, Data)>, kept: bool)

  type World = nat -> Answer

  /** A request that was sent, and what came of it. */
  datatype Entry = Entry(tool: Tool, args: Args, reply: Option<(bool, Data)>, kept: bool)

  datatype Window = Window(address: string, stableId: string, pid: int)

  /** The windows that were there before the opening: the addresses and identities of the candidates listed then. */
  type Baseline = seq<(string, string)>

  datatype Handles = Handles(appId: string, windowId: string)

  predicate Mutates(tool: Tool) {
    tool.Open? || tool.Handoff? || tool.Act? || tool.Resume?
  }

  predicate HexDigit(c: char) {
    '0' <= c <= '9' || 'a' <= c <= 'f'
  }

  predicate Hex(s: string, least: nat, most: nat) {
    least <= |s| <= most && forall i | 0 <= i < |s| :: HexDigit(s[i])
  }

  predicate Address(s: string) {
    |s| >= 2 && s[..2] == "0x" && Hex(s[2..], 1, 16)
  }

  // --- What a reply acknowledges -------------------------------------------------------------------

  function OpenedWindow(data: Data, workspace: int): Option<Window> {
    if data.workspace == Some(workspace) && data.windowProtocol == "wayland"
      && data.identityEvidence in ["launch-ancestry", "activation-token"]
      && data.address.Some? && Address(data.address.value)
      && data.stableId.Some? && Hex(data.stableId.value, 1, 16)
      && data.pid.Some? && data.pid.value > 0
    then Some(Window(data.address.value, data.stableId.value, data.pid.value)) else None
  }

  function GivenHandles(data: Data, workspace: int): Option<(string, Handles)> {
    if data.sessionId.Some? && data.handoff.Some?
      && data.handoff.value.appId.Some? && Hex(data.handoff.value.appId.value, 32, 32)
      && data.handoff.value.windowId.Some? && Hex(data.handoff.value.windowId.value, 32, 32)
      && data.handoff.value.workspace == Some(workspace) && data.handoff.value.scope == "entire-wayland-client"
    then Some((data.sessionId.value, Handles(data.handoff.value.appId.value, data.handoff.value.windowId.value)))
      else None
  }

  /** An entry whose reply came and was not an error. */
  predicate Replied(e: Entry) {
    e.reply.Some? && !e.reply.value.0
  }

  predicate ClaimsOpened(e: Entry) {
    e.tool.Open? && Replied(e) && e.reply.value.1.hasOpened
  }

  function AcknowledgedWindow(e: Entry, workspace: int): Option<Window> {
    if ClaimsOpened(e) then OpenedWindow(e.reply.value.1, workspace) else None
  }

  function AcknowledgedHandles(e: Entry, workspace: int): Option<(string, Handles)> {
    if e.tool.Handoff? && Replied(e) then GivenHandles(e.reply.value.1, workspace) else None
  }

  // --- What a log of requests says, entry by entry --------------------------------------------------

  /** The windows openings have acknowledged. */
  function Windows(log: seq<Entry>, workspace: int): set<Window> {
    if log == [] then {}
    else
      var w := AcknowledgedWindow(log[|log| - 1], workspace);
      Windows(log[..|log| - 1], workspace) + (if w.Some? then {w.value} else {})
  }

  function StoppedBy(active: map<string, Handles>, e: Entry): map<string, Handles> {
    if !e.tool.Stop? || !Replied(e) then active
    else if e.args.scope == Some("mine") then map[]
    else if e.args.sessionId.Some? then active - {e.args.sessionId.value}
    else active
  }

  /** The sessions a handoff has acknowledged and no stop has ended since, with the handles each was given. */
  function Active(log: seq<Entry>, workspace: int): map<string, Handles> {
    if log == [] then map[]
    else
      var e := log[|log| - 1];
      var active := StoppedBy(Active(log[..|log| - 1], workspace), e);
      var h := AcknowledgedHandles(e, workspace);
      if h.Some? then active[h.value.0 := h.value.1] else active
  }

  predicate WasThere(w: Window, baseline: Baseline) {
    (w.address, w.stableId) in baseline
  }

  /** An effect nobody can be sure of: no reply, an error, a reply that says it failed, a reply that could not be
      kept, or an acknowledgement of something other than what was asked for: for an opening, of a window that was
      there before or that is not the one acknowledged earlier. */
  predicate Uncertain(log: seq<Entry>, e: Entry, workspace: int, baseline: Baseline) {
    Mutates(e.tool) &&
    (!Replied(e) || e.reply.value.1.ok == Some(false) || e.reply.value.1.captureError || !e.kept
     || (ClaimsOpened(e) &&
         var w := AcknowledgedWindow(e, workspace);
         w.None? || WasThere(w.value, baseline)
         || (Windows(log, workspace) != {} && w.value !in Windows(log, workspace)))
     || (e.tool.Handoff? && AcknowledgedHandles(e, workspace).None?))
  }

  predicate Doubtful(log: seq<Entry>, workspace: int, baseline: Baseline) {
    log != [] && (Doubtful(log[..|log| - 1], workspace, baseline)
                  || Uncertain(log[..|log| - 1], log[|log| - 1], workspace, baseline))
  }

  /** The actions the controller takes a request to carry: `actions` when it is given, otherwise `action`. */
  function Effective(args: Args): Option<seq<Option<Action>>> {
    match args.actions
    case Absent => Some([args.action])
    case Malformed => None
    case List(items) => Some(items)
  }

  predicate HasClose(items: seq<Option<Action>>) {
    exists i :: 0 <= i < |items| && items[i].Some? && items[i].value.kind == "close-window"
  }

  predicate Closes(e: Entry) {
    e.tool.Act? && Effective(e.args).Some? && HasClose(Effective(e.args).value)
  }

  predicate ClosedBefore(log: seq<Entry>) {
    log != [] && (ClosedBefore(log[..|log| - 1]) || Closes(log[|log| - 1]))
  }

  function OpenArgs(log: seq<Entry>): set<Args> {
    if log == [] then {}
    else OpenArgs(log[..|log| - 1]) + (if log[|log| - 1].tool.Open? then {log[|log| - 1].args} else {})
  }

  /** An action on the window a session was given: listing windows names no window, every other names that one. */
  predicate OnTarget(item: Option<Action>, h: Handles) {
    item.Some? && item.value.appId == Some(h.appId)
    && item.value.windowId == (if item.value.kind == "windows" then None else Some(h.windowId))
    && item.value.kind != "close-application"
  }

  predicate AllOnTarget(items: seq<Option<Action>>, h: Handles) {
    items != [] && forall i | 0 <= i < |items| :: OnTarget(items[i], h)
  }

  /** Whether a request belongs after a log: this is the controller's promise, request by request. */
  predicate Fits(log: seq<Entry>, e: Entry, workspace: int, baseline: Baseline) {
    && (Mutates(e.tool) ==> !Doubtful(log, workspace, baseline))
    && (e.tool.Open? ==>
          && OpenArgs(log) <= {e.args} && e.args.applicationId == Some(APPLICATION)
          && e.args.workspace == Some(workspace))
    && (Closes(e) ==> !ClosedBefore(log) && |Effective(e.args).value| == 1)
    && (e.tool.Act? ==>
          && Effective(e.args).Some? && e.args.sessionId.Some? && e.args.sessionId.value in Active(log, workspace)
          && AllOnTarget(Effective(e.args).value, Active(log, workspace)[e.args.sessionId.value]))
    && (e.tool.Handoff? ==>
          && Active(log, workspace) == map[] && e.args.workspace == Some(workspace)
          && exists w ::
            w in Windows(log, workspace) && e.args.address == Some(w.address) && e.args.stableId == Some(w.stableId))
  }

  predicate Safe(log: seq<Entry>, workspace: int, baseline: Baseline) {
    log == [] || (Safe(log[..|log| - 1], workspace, baseline)
                  && Fits(log[..|log| - 1], log[|log| - 1], workspace, baseline))
  }

  lemma {:induction false} Extended(log: seq<Entry>, e: Entry, workspace: int, baseline: Baseline)
    ensures var longer := log + [e];
      && Windows(longer, workspace) == Windows(log, workspace) +
           (if AcknowledgedWindow(e, workspace).Some? then {AcknowledgedWindow(e, workspace).value} else {})
      && Active(longer, workspace) == (
           var active := StoppedBy(Active(log, workspace), e);
           var h := AcknowledgedHandles(e, workspace);
           if h.Some? then active[h.value.0 := h.value.1] else active)
      && Doubtful(longer, workspace, baseline) == (Doubtful(log, workspace, baseline)
                                                   || Uncertain(log, e, workspace, baseline))
      && ClosedBefore(longer) == (ClosedBefore(log) || Closes(e))
      && OpenArgs(longer) == OpenArgs(log) + (if e.tool.Open? then {e.args} else {})
      && Safe(longer, workspace, baseline) == (Safe(log, workspace, baseline) && Fits(log, e, workspace, baseline))
  {
    assert (log + [e])[..|log|] == log;
  }

  /** Before any opening it makes no difference what was there. */
  lemma {:induction false} NothingOpenedYet(log: seq<Entry>, workspace: int, b: Baseline, c: Baseline)
    requires OpenArgs(log) == {}
    ensures Safe(log, workspace, b) == Safe(log, workspace, c)
    ensures Doubtful(log, workspace, b) == Doubtful(log, workspace, c)
  {
    if log != [] {
      NothingOpenedYet(log[..|log| - 1], workspace, b, c);
      hide Windows, Active, ClosedBefore;
    }
  }

  // --- What the promise means ----------------------------------------------------------------------

  lemma {:induction false} SafePrefix(log: seq<Entry>, n: nat, workspace: int, baseline: Baseline)
    requires Safe(log, workspace, baseline) && n <= |log|
    ensures Safe(log[..n], workspace, baseline)
    decreases |log|
  {
    if n < |log| {
      SafePrefix(log[..|log| - 1], n, workspace, baseline);
      assert log[..|log| - 1][..n] == log[..n];
    } else {
      assert log[..n] == log;
    }
  }

  lemma {:induction false} SafeAt(log: seq<Entry>, i: nat, workspace: int, baseline: Baseline)
    requires Safe(log, workspace, baseline) && i < |log|
    ensures Fits(log[..i], log[i], workspace, baseline)
  {
    SafePrefix(log, i + 1, workspace, baseline);
    assert log[..i + 1][..i] == log[..i];
  }

  lemma {:induction false} SeenBefore(log: seq<Entry>, i: nat, workspace: int, baseline: Baseline)
    requires i < |log|
    ensures Closes(log[i]) ==> ClosedBefore(log)
    ensures log[i].tool.Open? ==> log[i].args in OpenArgs(log)
    ensures Uncertain(log[..i], log[i], workspace, baseline) ==> Doubtful(log, workspace, baseline)
    decreases |log|
  {
    if i < |log| - 1 {
      SeenBefore(log[..|log| - 1], i, workspace, baseline);
      assert log[..|log| - 1][..i] == log[..i];
    }
  }

  // --- What the acknowledgements say, in so many words -----------------------------------------------

  const HEX := "0123456789abcdef"

  lemma {:induction false} HexExactly(s: string, least: nat, most: nat)
    ensures Hex(s, least, most) <==> least <= |s| <= most && forall c <- s :: c in HEX
  {
    forall c: char
      ensures HexDigit(c) <==> c in HEX
    {
      if '0' <= c <= '9' {
        assert HEX[(c - '0') as int] == c;
      } else if 'a' <= c <= 'f' {
        assert HEX[(c - 'a') as int + 10] == c;
      }
    }
    assert forall i | 0 <= i < |s| :: s[i] in s;
  }

  /** An address: `0x` and one to sixteen hexadecimal digits. */
  ghost predicate IsAddress(s: string) {
    exists digits: string :: s == "0x" + digits && 1 <= |digits| <= 16 && forall c <- digits :: c in HEX
  }

  lemma {:induction false} AddressOf(s: string, digits: string)
    requires s == "0x" + digits
    ensures Address(s) <==> 1 <= |digits| <= 16 && forall c <- digits :: c in HEX
  {
    assert s[2..] == digits && s[..2] == "0x";
    HexExactly(digits, 1, 16);
    hide Hex;
  }

  lemma {:induction false} AddressBegins(s: string)
    requires Address(s)
    ensures |s| >= 2 && s == "0x" + s[2..]
  {
    hide Hex;
  }

  lemma {:induction false} AddressExactly(s: string)
    ensures Address(s) <==> IsAddress(s)
  {
    hide Address;
    if Address(s) {
      AddressBegins(s);
      AddressOf(s, s[2..]);
    }
    if IsAddress(s) {
      var digits: string :|
        s == "0x" + digits && 1 <= |digits| <= 16 && forall c <- digits :: c in HEX;
      AddressOf(s, digits);
    }
  }

  /** An opening acknowledges a window exactly when the reply proves a Wayland window on the workspace, of an identity
      the host vouches for. */
  lemma {:induction false} OpenedExactly(data: Data, workspace: int, w: Window)
    ensures OpenedWindow(data, workspace) == Some(w) <==>
      && data.workspace == Some(workspace) && data.windowProtocol == "wayland"
      && (data.identityEvidence == "launch-ancestry" || data.identityEvidence == "activation-token")
      && data.address == Some(w.address) && data.stableId == Some(w.stableId) && data.pid == Some(w.pid) && w.pid >= 1
      && IsAddress(w.address) && 1 <= |w.stableId| <= 16 && forall c <- w.stableId :: c in HEX
  {
    AddressExactly(w.address);
    HexExactly(w.stableId, 1, 16);
  }

  /** A handoff acknowledges handles exactly when the reply scopes a session to the whole of one Wayland client on the
      workspace. */
  lemma {:induction false} GivenExactly(data: Data, workspace: int, s: string, h: Handles)
    ensures GivenHandles(data, workspace) == Some((s, h)) <==>
      && data.sessionId == Some(s)
      && data.handoff == Some(Scoped(Some(h.appId), Some(h.windowId), Some(workspace), "entire-wayland-client"))
      && |h.appId| == |h.windowId| == 32 && (forall c <- h.appId :: c in HEX) && (forall c <- h.windowId :: c in HEX)
  {
    HexExactly(h.appId, 32, 32);
    HexExactly(h.windowId, 32, 32);
  }

  // --- What the histories are, entry by entry --------------------------------------------------------

  lemma {:induction false} SafeExactly(log: seq<Entry>, workspace: int, baseline: Baseline)
    ensures Safe(log, workspace, baseline) <==> forall i | 0 <= i < |log| :: Fits(log[..i], log[i], workspace, baseline)
  {
    hide Fits;
    if log != [] {
      var n := |log| - 1;
      SafeExactly(log[..n], workspace, baseline);
      assert forall i | 0 <= i < n :: log[..n][..i] == log[..i] && log[..n][i] == log[i];
    }
  }

  lemma {:induction false} DoubtfulExactly(log: seq<Entry>, workspace: int, baseline: Baseline)
    ensures Doubtful(log, workspace, baseline) <==>
      exists i :: 0 <= i < |log| && Uncertain(log[..i], log[i], workspace, baseline)
  {
    hide Uncertain;
    if log != [] {
      var n := |log| - 1;
      DoubtfulExactly(log[..n], workspace, baseline);
      assert forall i | 0 <= i < n :: log[..n][..i] == log[..i] && log[..n][i] == log[i];
    }
  }

  lemma {:induction false} ClosedExactly(log: seq<Entry>)
    ensures ClosedBefore(log) <==> exists i :: 0 <= i < |log| && Closes(log[i])
  {
    hide Closes;
    if log != [] {
      ClosedExactly(log[..|log| - 1]);
    }
  }

  lemma {:induction false} WindowsExactly(log: seq<Entry>, w: Window, workspace: int)
    ensures w in Windows(log, workspace) <==>
      exists i :: 0 <= i < |log| && AcknowledgedWindow(log[i], workspace) == Some(w)
  {
    hide AcknowledgedWindow;
    if log != [] {
      WindowsExactly(log[..|log| - 1], w, workspace);
    }
  }

  lemma {:induction false} OpenArgsExactly(log: seq<Entry>, args: Args)
    ensures args in OpenArgs(log) <==> exists i :: 0 <= i < |log| && log[i].tool.Open? && log[i].args == args
  {
    if log != [] {
      OpenArgsExactly(log[..|log| - 1], args);
    }
  }

  /** An acknowledged stop of everything, or of this session. */
  predicate Stops(e: Entry, s: string) {
    e.tool.Stop? && Replied(e) && (e.args.scope == Some("mine") || e.args.sessionId == Some(s))
  }

  /** The handoff that gave a session its handles, with no stop and no other handoff of it since. */
  predicate LastGiven(log: seq<Entry>, i: int, s: string, h: Handles, workspace: int) {
    && 0 <= i < |log| && AcknowledgedHandles(log[i], workspace) == Some((s, h))
    && forall j | i < j < |log| ::
      !Stops(log[j], s)
      && (AcknowledgedHandles(log[j], workspace).Some? ==> AcknowledgedHandles(log[j], workspace).value.0 != s)
  }

  /** A session is live exactly when a handoff acknowledged it and no stop has been acknowledged since; its handles are
      those it was given last. */
  lemma {:induction false} ActiveExactly(log: seq<Entry>, s: string, h: Handles, workspace: int)
    ensures s in Active(log, workspace) && Active(log, workspace)[s] == h <==>
      exists i :: LastGiven(log, i, s, h, workspace)
  {
    if log != [] {
      var n := |log| - 1;
      var before := log[..n];
      ActiveExactly(before, s, h, workspace);
      var given := AcknowledgedHandles(log[n], workspace);
      hide GivenHandles;
      if given.Some? && given.value.0 == s {
        assert LastGiven(log, n, s, given.value.1, workspace);
        assert forall i :: LastGiven(log, i, s, h, workspace) ==> i == n;
      } else if Stops(log[n], s) {
        assert forall i :: LastGiven(log, i, s, h, workspace) ==> i == n;
      } else {
        assert forall i | 0 <= i < n :: LastGiven(before, i, s, h, workspace) <==> LastGiven(log, i, s, h, workspace);
        assert !LastGiven(log, n, s, h, workspace);
      }
    }
  }

  /** At most one request that closes the window is ever sent. */
  lemma {:induction false} OneClose(log: seq<Entry>, i: nat, j: nat, workspace: int, baseline: Baseline)
    requires Safe(log, workspace, baseline) && i < j < |log| && Closes(log[i])
    ensures !Closes(log[j])
  {
    SafeAt(log, j, workspace, baseline);
    SeenBefore(log[..j], i, workspace, baseline);
  }

  /** Nothing that changes anything is sent after an effect that is uncertain. */
  lemma {:induction false} NothingAfterDoubt(log: seq<Entry>, i: nat, j: nat, workspace: int, baseline: Baseline)
    requires Safe(log, workspace, baseline) && i < j < |log| && Uncertain(log[..i], log[i], workspace, baseline)
    ensures !Mutates(log[j].tool)
  {
    SafeAt(log, j, workspace, baseline);
    SeenBefore(log[..j], i, workspace, baseline);
    assert log[..j][..i] == log[..i];
  }

  /** After a request for input that failed, went unanswered or could not be recorded, none is sent again. */
  lemma {:induction false} NothingAfterFailure(log: seq<Entry>, i: nat, j: nat, workspace: int, baseline: Baseline)
    requires Safe(log, workspace, baseline) && i < j < |log|
    requires log[i].tool.Open? || log[i].tool.Handoff? || log[i].tool.Act? || log[i].tool.Resume?
    requires log[i].reply.None? || log[i].reply.value.0 || log[i].reply.value.1.ok == Some(false)
      || log[i].reply.value.1.captureError || !log[i].kept
    ensures !log[j].tool.Open? && !log[j].tool.Handoff? && !log[j].tool.Act? && !log[j].tool.Resume?
  {
    NothingAfterDoubt(log, i, j, workspace, baseline);
  }

  lemma {:induction false} CertainWindows(log: seq<Entry>, workspace: int, baseline: Baseline)
    requires !Doubtful(log, workspace, baseline)
    ensures forall v, w :: v in Windows(log, workspace) && w in Windows(log, workspace) ==> v == w
    ensures forall w :: w in Windows(log, workspace) ==> !WasThere(w, baseline)
  {
    if log != [] {
      CertainWindows(log[..|log| - 1], workspace, baseline);
      hide OpenedWindow;
    }
  }

  /** A handoff is only ever of the one window openings acknowledged, and of none that was there before. */
  lemma {:induction false} HandoffIsNew(log: seq<Entry>, i: nat, workspace: int, baseline: Baseline)
    requires Safe(log, workspace, baseline) && i < |log| && log[i].tool.Handoff?
    ensures exists w :: Windows(log[..i], workspace) == {w} && !WasThere(w, baseline)
                        && log[i].args.address == Some(w.address) && log[i].args.stableId == Some(w.stableId)
  {
    SafeAt(log, i, workspace, baseline);
    CertainWindows(log[..i], workspace, baseline);
    hide Safe, Doubtful, Windows, Active;
    var w :| w in Windows(log[..i], workspace)
      && log[i].args.address == Some(w.address) && log[i].args.stableId == Some(w.stableId);
    assert Windows(log[..i], workspace) == {w};
  }

  /** Every opening that is sent carries the same arguments. */
  lemma {:induction false} OneOpening(log: seq<Entry>, i: nat, j: nat, workspace: int, baseline: Baseline)
    requires Safe(log, workspace, baseline) && i < j < |log| && log[i].tool.Open? && log[j].tool.Open?
    ensures log[i].args == log[j].args
  {
    SafeAt(log, j, workspace, baseline);
    SeenBefore(log[..j], i, workspace, baseline);
  }

  /** At most one acknowledged session is unstopped. */
  lemma {:induction false} OneSession(log: seq<Entry>, workspace: int, baseline: Baseline)
    requires Safe(log, workspace, baseline)
    ensures forall s, t :: s in Active(log, workspace) && t in Active(log, workspace) ==> s == t
  {
    if log != [] {
      OneSession(log[..|log| - 1], workspace, baseline);
    }
  }

  // --- What the preflights have to find --------------------------------------------------------------

  predicate Kept(e: Entry, tool: Tool) {
    e.tool == tool && Replied(e) && e.kept
  }

  predicate IsCalculator(app: App) {
    app.id == APPLICATION || APPLICATION in app.registrationIds
  }

  predicate AllThere<T>(items: seq<Option<T>>) {
    forall i | 0 <= i < |items| :: items[i].Some?
  }

  /** Complete discovery, with one registration of the calculator: not running at all, or running the window's
      process. */
  predicate FoundOnce(e: Entry, requireStopped: bool, opening: Option<Window>) {
    && Kept(e, Applications)
    && var data := e.reply.value.1;
      && data.truncated == Some(false) && data.applications.Some? && AllThere(data.applications.value)
      && exists k | 0 <= k < |data.applications.value| :: Only(data.applications.value, k, requireStopped, opening)
  }

  predicate IsOnly(apps: seq<Option<App>>, k: int)
    requires AllThere(apps)
  {
    0 <= k < |apps| && forall i | 0 <= i < |apps| :: IsCalculator(apps[i].value) <==> i == k
  }

  predicate ProcessNumbers(pids: seq<Option<int>>) {
    forall i | 0 <= i < |pids| :: pids[i].Some? && pids[i].value > 0
  }

  predicate Only(apps: seq<Option<App>>, k: int, requireStopped: bool, opening: Option<Window>)
    requires AllThere(apps)
  {
    && IsOnly(apps, k)
    && var app := apps[k].value;
      && app.availability == "verified" && app.runningPids.Some? && ProcessNumbers(app.runningPids.value)
      && if requireStopped then app.runningPids.value == []
        else opening.Some? && Some(opening.value.pid) in app.runningPids.value
  }

  predicate HasIdentity(c: Option<Candidate>) {
    c.Some? && c.value.address.Some? && Address(c.value.address.value)
    && c.value.stableId.Some? && Hex(c.value.stableId.value, 1, 16)
  }

  /** The candidates that were named, each with an address and an identity of the expected shape. */
  predicate Named(e: Entry, workspace: int, windows: seq<(string, string, Option<bool>)>) {
    && Kept(e, Candidates)
    && var data := e.reply.value.1;
      && data.workspace == Some(workspace) && data.candidates.Some? && |data.candidates.value| == |windows|
      && forall i | 0 <= i < |windows| ::
        HasIdentity(data.candidates.value[i])
        && data.candidates.value[i] == Some(Candidate(Some(windows[i].0), Some(windows[i].1), windows[i].2))
  }

  function Identities(windows: seq<(string, string, Option<bool>)>): Baseline {
    seq(|windows|, k requires 0 <= k < |windows| => (windows[k].0, windows[k].1))
  }

  predicate Shows(m: Monitor, workspace: int) {
    !m.blank && m.workspace == Some(workspace)
  }

  /** A monitor that is described: its name, whether it is focused, and a workspace or none. */
  predicate Described(m: Option<Monitor>) {
    && m.Some? && m.value.name.Some? && m.value.focused.Some?
    && (m.value.blank || (m.value.workspace.Some? && m.value.workspace.value > 0))
  }

  predicate AllDescribed(monitors: seq<Option<Monitor>>) {
    && (forall i | 0 <= i < |monitors| :: Described(monitors[i]))
    && (forall i, j | 0 <= i < j < |monitors| :: monitors[i].value.name != monitors[j].value.name)
  }

  lemma {:induction false} NotAllDescribed(monitors: seq<Option<Monitor>>, n: nat)
    requires n <= |monitors| && !AllDescribed(monitors[..n])
    ensures !AllDescribed(monitors)
  {
  }

  predicate On(m: Monitor, workspace: int, focused: bool) {
    Shows(m, workspace) && m.focused == Some(focused)
  }

  predicate OnlyUnfocused(monitors: seq<Option<Monitor>>, workspace: int)
    requires AllDescribed(monitors)
  {
    && (exists i :: 0 <= i < |monitors| && On(monitors[i].value, workspace, false))
    && !exists i :: 0 <= i < |monitors| && On(monitors[i].value, workspace, true)
  }

  /** The workspace is on a connected monitor that is not focused, and on none that is; every monitor is described, each
      under a name of its own. */
  predicate Beside(e: Entry, workspace: int) {
    && Kept(e, Monitors)
    && var data := e.reply.value.1;
      && data.monitors.Some? && 0 < |data.monitors.value| <= 64
      && AllDescribed(data.monitors.value) && OnlyUnfocused(data.monitors.value, workspace)
  }

  /** An acknowledged answer to a request of this kind that could be recorded. */
  ghost predicate Answered(e: Entry, tool: Tool) {
    e.tool == tool && e.kept && e.reply.Some? && e.reply.value.0 == false
  }

  /** The calculator, by its own name or by a registration, verified, with nothing but process numbers, and stopped or
      running the window's process. */
  ghost predicate GoodCalculator(app: App, requireStopped: bool, opening: Option<Window>) {
    && (app.id == "org.gnome.Calculator.desktop" || "org.gnome.Calculator.desktop" in app.registrationIds)
    && app.availability == "verified" && app.runningPids.Some?
    && (forall pid <- app.runningPids.value :: pid.Some? && pid.value >= 1)
    && (requireStopped ==> |app.runningPids.value| == 0)
    && (!requireStopped ==> opening.Some? && Some(opening.value.pid) in app.runningPids.value)
  }

  ghost predicate NoCalculator(app: App) {
    app.id != "org.gnome.Calculator.desktop" && "org.gnome.Calculator.desktop" !in app.registrationIds
  }

  /** Discovery is good exactly when it is complete and one entry, and only one, is the calculator as it should be. */
  lemma {:induction false} FoundExactly(e: Entry, requireStopped: bool, opening: Option<Window>)
    ensures FoundOnce(e, requireStopped, opening) <==>
      && Answered(e, Applications) && e.reply.value.1.truncated == Some(false) && e.reply.value.1.applications.Some?
      && var apps := e.reply.value.1.applications.value;
        && (forall i | 0 <= i < |apps| :: apps[i].Some?)
        && exists k | 0 <= k < |apps| ::
          && GoodCalculator(apps[k].value, requireStopped, opening)
          && forall i | 0 <= i < |apps| && i != k :: NoCalculator(apps[i].value)
  {
    if Answered(e, Applications) && e.reply.value.1.applications.Some? && AllThere(e.reply.value.1.applications.value) {
      var apps := e.reply.value.1.applications.value;
      forall k | 0 <= k < |apps|
        ensures Only(apps, k, requireStopped, opening) <==>
          && GoodCalculator(apps[k].value, requireStopped, opening)
          && forall i | 0 <= i < |apps| && i != k :: NoCalculator(apps[i].value)
      {
        OnlyExactly(apps, k, requireStopped, opening);
      }
      hide Only, GoodCalculator, NoCalculator;
    }
  }

  lemma {:induction false} OnlyExactly(apps: seq<Option<App>>, k: nat, requireStopped: bool, opening: Option<Window>)
    requires AllThere(apps) && k < |apps|
    ensures Only(apps, k, requireStopped, opening) <==>
      && GoodCalculator(apps[k].value, requireStopped, opening)
      && forall i | 0 <= i < |apps| && i != k :: NoCalculator(apps[i].value)
  {
    assert Only(apps, k, requireStopped, opening) ==> IsCalculator(apps[k].value);
  }

  /** The monitors are good exactly when each of up to 64 is described under its own name, one that is not focused
      shows the workspace, and none that is focused does. */
  lemma {:induction false} BesideExactly(e: Entry, workspace: int)
    ensures Beside(e, workspace) <==>
      && Answered(e, Monitors) && e.reply.value.1.monitors.Some?
      && var monitors := e.reply.value.1.monitors.value;
        && 1 <= |monitors| <= 64
        && (forall i | 0 <= i < |monitors| ::
              && monitors[i].Some? && monitors[i].value.name.Some? && monitors[i].value.focused.Some?
              && (!monitors[i].value.blank ==>
                    monitors[i].value.workspace.Some? && monitors[i].value.workspace.value >= 1))
        && (forall i, j | 0 <= i < j < |monitors| :: monitors[i].value.name != monitors[j].value.name)
        && (exists i | 0 <= i < |monitors| ::
              !monitors[i].value.blank && monitors[i].value.workspace == Some(workspace)
              && monitors[i].value.focused == Some(false))
        && (forall i | 0 <= i < |monitors| ::
              !monitors[i].value.blank && monitors[i].value.workspace == Some(workspace) ==>
              monitors[i].value.focused != Some(true))
  {
    if Answered(e, Monitors) && e.reply.value.1.monitors.Some? {
      var monitors := e.reply.value.1.monitors.value;
      if AllDescribed(monitors) {
        assert forall i | 0 <= i < |monitors| :: Described(monitors[i]);
      }
    }
  }

  /** The candidates are good exactly when they are those of the workspace, each with an address and an identity. */
  lemma {:induction false} NamedExactly(e: Entry, workspace: int, windows: seq<(string, string, Option<bool>)>)
    ensures Named(e, workspace, windows) <==>
      && Answered(e, Candidates) && e.reply.value.1.workspace == Some(workspace)
      && e.reply.value.1.candidates.Some?
      && |e.reply.value.1.candidates.value| == |windows|
      && forall i | 0 <= i < |windows| ::
        && e.reply.value.1.candidates.value[i] == Some(Candidate(Some(windows[i].0), Some(windows[i].1), windows[i].2))
        && IsAddress(windows[i].0)
        && 1 <= |windows[i].1| <= 16 && forall c <- windows[i].1 :: c in HEX
  {
    forall i | 0 <= i < |windows|
      ensures Address(windows[i].0) <==> IsAddress(windows[i].0)
      ensures Hex(windows[i].1, 1, 16) <==> 1 <= |windows[i].1| <= 16 && forall c <- windows[i].1 :: c in HEX
    {
      AddressExactly(windows[i].0);
      HexExactly(windows[i].1, 1, 16);
    }
    hide Address, Hex;
  }

  /** Three preflights in a row before any opening: the calculator was not running, the candidates were the baseline,
      and the workspace was on display. */
  ghost predicate PreparedAt(log: seq<Entry>, k: nat, workspace: int, baseline: Baseline) {
    && k + 3 <= |log| && (forall i | 0 <= i < k + 3 :: !log[i].tool.Open?)
    && FoundOnce(log[k], true, None) && Beside(log[k + 2], workspace)
    && exists windows :: Named(log[k + 1], workspace, windows) && baseline == Identities(windows)
  }

  ghost predicate PreparedFor(log: seq<Entry>, workspace: int, baseline: Baseline) {
    exists k: nat :: PreparedAt(log, k, workspace, baseline)
  }

  lemma {:induction false} PreparedStays(log: seq<Entry>, longer: seq<Entry>, workspace: int, baseline: Baseline)
    requires PreparedFor(log, workspace, baseline) && |log| <= |longer| && longer[..|log|] == log
    ensures PreparedFor(longer, workspace, baseline)
  {
    hide FoundOnce, Beside, Named, Identities;
    var k: nat :| PreparedAt(log, k, workspace, baseline);
    assert forall i | 0 <= i < |log| :: longer[i] == log[i];
    assert PreparedAt(longer, k, workspace, baseline);
  }

  // --- The controller ------------------------------------------------------------------------------

  datatype Owned = Owned(handles: Handles, stopped: bool)

  function Live(owned: map<string, Owned>): map<string, Handles> {
    map s | s in owned && !owned[s].stopped :: owned[s].handles
  }

  /** Where a controller stands between two requests. */
  datatype Stand = Stand(log: seq<Entry>, asked: nat, quarantined: bool, opening: Option<Window>, closeAttempted: bool,
                         fingerprint: Option<Args>, baseline: Baseline, live: map<string, Handles>)

  function ActiveAt(live: map<string, Handles>, args: Args): Option<Handles> {
    if args.sessionId.Some? && args.sessionId.value in live then Some(live[args.sessionId.value]) else None
  }

  /** Exactly the requests the controller lets through as input: on the session's own window, and a closing only once,
      alone, and with nothing else asked. */
  predicate Allowed(s: Stand, args: Args) {
    && !s.quarantined
    && ActiveAt(s.live, args).Some? && Effective(args).Some?
    && AllOnTarget(Effective(args).value, ActiveAt(s.live, args).value)
    && (HasClose(Effective(args).value) ==>
          s.opening.Some? && !s.closeAttempted && |Effective(args).value| == 1 && !args.capture)
  }

  /** What lets a request other than an opening or a handoff through. */
  predicate Admitted(s: Stand, tool: Tool, args: Args, workspace: int) {
    match tool
    case Stop => !(s.opening.Some? && !s.closeAttempted && !s.quarantined)
      && (args.scope == Some("mine") || ActiveAt(s.live, args).Some?)
    case Resume => !s.quarantined && ActiveAt(s.live, args).Some?
    case Observe =>
      ActiveAt(s.live, args).Some? && (args.appId.Some? ==> args.appId == Some(ActiveAt(s.live, args).value.appId))
      && (args.windowId.Some? ==> args.windowId == Some(ActiveAt(s.live, args).value.windowId))
    case Pause | Journal | Narrow => ActiveAt(s.live, args).Some?
    case Candidates => args.workspace == Some(workspace)
    case Act => Allowed(s, args)
    case _ => true
  }

  /** Whether the controller takes a reply for what was asked: a new window it can name, or the one it already
      has; handles of the expected shape. */
  predicate Accepted(e: Entry, opening: Option<Window>, baseline: Baseline, workspace: int) {
    && (ClaimsOpened(e) ==>
          var w := AcknowledgedWindow(e, workspace);
          w.Some? && !WasThere(w.value, baseline) && (opening.None? || opening == w))
    && (e.tool.Handoff? ==> AcknowledgedHandles(e, workspace).Some?)
  }

  predicate Failed(e: Entry) {
    !Replied(e) || e.reply.value.1.ok == Some(false) || e.reply.value.1.captureError || !e.kept
  }

  function OpeningAfter(e: Entry, opening: Option<Window>, baseline: Baseline,
                        workspace: int): Option<Window> {
    if ClaimsOpened(e) && Accepted(e, opening, baseline, workspace) then AcknowledgedWindow(e, workspace) else opening
  }

  /** A reply after which the controller submits no more mutations. */
  predicate Doubted(e: Entry, opening: Option<Window>, baseline: Baseline, workspace: int) {
    Mutates(e.tool) && (Failed(e) || !Accepted(e, opening, baseline, workspace))
  }

  function LiveAfter(live: map<string, Handles>, e: Entry, workspace: int): map<string, Handles> {
    var active := StoppedBy(live, e);
    var h := AcknowledgedHandles(e, workspace);
    if h.Some? then active[h.value.0 := h.value.1] else active
  }

  /** What the controller's fields say about the log. */
  predicate Tracks(log: seq<Entry>, quarantined: bool, opening: Option<Window>, closeAttempted: bool,
                   fingerprint: Option<Args>, baseline: Baseline, live: map<string, Handles>,
                   workspace: int) {
    && Safe(log, workspace, baseline)
    && (Doubtful(log, workspace, baseline) <==> quarantined)
    && OpenArgs(log) <= (if fingerprint.Some? then {fingerprint.value} else {})
    && (ClosedBefore(log) ==> opening.Some? && closeAttempted)
    && (opening.Some? ==> opening.value in Windows(log, workspace) && fingerprint.Some?
                          && !WasThere(opening.value, baseline))
    && (!quarantined ==> Windows(log, workspace) == if opening.Some? then {opening.value} else {})
    && Active(log, workspace) == live
  }

  lemma {:induction false} SentKeepsTracks(log: seq<Entry>, e: Entry, quarantined: bool, opening: Option<Window>,
                                           closeAttempted: bool, fingerprint: Option<Args>,
                                           baseline: Baseline, live: map<string, Handles>, workspace: int)
    requires Tracks(log, quarantined, opening, closeAttempted, fingerprint, baseline, live, workspace)
    requires Mutates(e.tool) ==> !quarantined
    requires Fits(log, e, workspace, baseline)
    requires e.tool.Open? ==> fingerprint == Some(e.args)
    requires Closes(e) ==> opening.Some? && closeAttempted
    ensures Tracks(log + [e], quarantined || Doubted(e, opening, baseline, workspace),
                   OpeningAfter(e, opening, baseline, workspace),
                   closeAttempted && OpeningAfter(e, opening, baseline, workspace) == opening,
                   fingerprint, baseline, LiveAfter(live, e, workspace), workspace)
  {
    Extended(log, e, workspace, baseline);
    hide Safe, Doubtful, Windows, OpenArgs, ClosedBefore, Active, OpenedWindow, GivenHandles, Closes, Fits;
  }

  /** What is sent is settled before the reply is known. */
  lemma {:induction false} FitsWhateverTheReply(log: seq<Entry>, e: Entry, f: Entry, workspace: int, baseline: Baseline)
    requires e.tool == f.tool && e.args == f.args
    ensures Fits(log, e, workspace, baseline) == Fits(log, f, workspace, baseline) && Closes(e) == Closes(f)
  {
    hide Doubtful, Windows, OpenArgs, ClosedBefore, Active;
  }

  lemma {:induction false} ReadsChangeNothing(e: Entry, opening: Option<Window>, baseline: Baseline,
                                              live: map<string, Handles>, workspace: int)
    ensures !Mutates(e.tool) ==>
      !Doubted(e, opening, baseline, workspace) && OpeningAfter(e, opening, baseline, workspace) == opening
    ensures !e.tool.Open? ==> OpeningAfter(e, opening, baseline, workspace) == opening
    ensures !e.tool.Handoff? && !e.tool.Stop? ==> LiveAfter(live, e, workspace) == live
  {
  }

  // --- The end of every run --------------------------------------------------------------------------

  /** The window may be closed without being asked for: one was opened and no other acknowledged, nothing is uncertain,
      no closing was attempted, and some session is live. */
  predicate MayClose(log: seq<Entry>, attempted: bool, workspace: int, baseline: Baseline) {
    && !attempted && !Doubtful(log, workspace, baseline)
    && Windows(log, workspace) != {} && Active(log, workspace) != map[]
  }

  /** The closing of the one window a session was given, and nothing else. */
  predicate IsClosing(e: Entry, s: string, h: Handles, requestId: string) {
    && e.tool.Act? && e.args.sessionId == Some(s) && e.args.requestId == Some(requestId)
    && e.args.action == Some(Action("close-window", Some(h.appId), Some(h.windowId)))
    && e.args.actions.Absent? && !e.args.capture
  }

  /** The closing goes out, if use is enabled both times it is asked, for one of the live sessions. */
  ghost predicate ClosedOnce(before: seq<Entry>, after: seq<Entry>, a: nat, world: World, workspace: int,
                             requestId: string) {
    if world(a).enabled && world(a + 1).enabled then
      && |after| == |before| + 1 && after[..|before|] == before
      && after[|before|].reply == world(a + 1).reply && after[|before|].kept == world(a + 1).kept
      && exists s :: s in Active(before, workspace)
                     && IsClosing(after[|before|], s, Active(before, workspace)[s], requestId)
    else after == before
  }

  ghost predicate Ends(before: seq<Entry>, closed: seq<Entry>, after: seq<Entry>, a: nat, may: bool, world: World,
                       workspace: int, requestId: string) {
    var b := if !may then a else if world(a).enabled then a + 2 else a + 1;
    && (if may then ClosedOnce(before, closed, a, world, workspace, requestId) else closed == before)
    && after == closed + (if world(b).enabled then [Sent(Stop, MINE, world(b))] else [])
  }

  /** A log at the end of a run: at most one closing, exactly when one may be sent, and then the stop of all that is
      this conversation's. */
  ghost predicate CleanedUp(before: seq<Entry>, after: seq<Entry>, a: nat, attempted: bool, world: World,
                            workspace: int, baseline: Baseline, requestId: string) {
    exists closed: seq<Entry> ::
      Ends(before, closed, after, a, MayClose(before, attempted, workspace, baseline), world, workspace, requestId)
  }

  /** Once the last stop is acknowledged no session is live. */
  lemma {:induction false} StoppedIsOver(log: seq<Entry>, answer: Answer, workspace: int)
    requires answer.reply.Some? && !answer.reply.value.0
    ensures Active(log + [Sent(Stop, MINE, answer)], workspace) == map[]
  {
    assert (log + [Sent(Stop, MINE, answer)])[..|log|] == log;
  }

  predicate Sends(quarantined: bool, tool: Tool, answer: Answer) {
    answer.enabled && !(quarantined && Mutates(tool))
  }

  function Sent(tool: Tool, args: Args, answer: Answer): Entry {
    Entry(tool, args, answer.reply, answer.kept)
  }

  /** What the caller gets of a request that went out: the reply, unless it was refused or could not be kept. */
  function Given(e: Entry, opening: Option<Window>, baseline: Baseline, workspace: int): Option<(bool, Data)> {
    if e.reply.Some? && (e.reply.value.0 || Accepted(e, opening, baseline, workspace)) && e.kept then e.reply else None
  }

  class Controller {
    const workspace: int
    const world: World
    var asked: nat
    var quarantined: bool
    var opening: Option<Window>
    var closeAttempted: bool
    var fingerprint: Option<Args>
    var baseline: Baseline
    var owned: map<string, Owned>
    ghost var log: seq<Entry>

    constructor (workspace: int, world: World)
      ensures Valid() && log == [] && this.workspace == workspace && this.world == world
    {
      this.workspace, this.world, asked := workspace, world, 0;
      quarantined, opening, closeAttempted, fingerprint := false, None, false, None;
      baseline, owned, log := [], map[], [];
    }

    ghost predicate Valid()
      reads this
    {
      Tracks(log, quarantined, opening, closeAttempted, fingerprint, baseline, Live(owned), workspace)
      && (fingerprint.Some? ==> PreparedFor(log, workspace, baseline))
    }

    /** What must be so for a request to be handed to invoke. */
    ghost predicate Ready(tool: Tool, args: Args)
      reads `quarantined, `log, `fingerprint, `opening, `closeAttempted, `baseline
    {
      Mutates(tool) && !quarantined ==>
        && (!Doubtful(log, workspace, baseline) ==> Fits(log, Entry(tool, args, None, true), workspace, baseline))
        && (tool.Open? ==> fingerprint == Some(args))
        && (Closes(Entry(tool, args, None, true)) ==> opening.Some? && closeAttempted)
    }

    method Enabled() returns (ok: bool)
      modifies `asked
      ensures ok == world(old(asked)).enabled && asked == old(asked) + 1
    {
      ok := world(asked).enabled;
      asked := asked + 1;
    }

    method Failure(tool: Tool)
      modifies `quarantined
      ensures quarantined == (old(quarantined) || Mutates(tool))
    {
      if Mutates(tool) {
        quarantined := true;
      }
    }

    /** What an acknowledged reply changes; false when the acknowledgement is refused. */
    method Acknowledge(e: Entry) returns (accepted: bool)
      requires Replied(e)
      modifies `opening, `closeAttempted, `owned
      ensures accepted == Accepted(e, old(opening), baseline, workspace)
      ensures opening == OpeningAfter(e, old(opening), baseline, workspace)
      ensures closeAttempted == (old(closeAttempted) && opening == old(opening))
      ensures Live(owned) == LiveAfter(Live(old(owned)), e, workspace)
    {
      accepted := true;
      var data := e.reply.value.1;
      if e.tool.Open? && data.hasOpened {
        var w := OpenedWindow(data, workspace);
        if w.None? || WasThere(w.value, baseline) {
          return false;
        }
        if opening.None? {
          opening, closeAttempted := w, false;
        } else if opening != w {
          return false;
        }
      }
      if e.tool.Handoff? {
        var h := GivenHandles(data, workspace);
        if h.None? {
          return false;
        }
        owned := owned[h.value.0 := Owned(h.value.1, false)];
      }
      if e.tool.Stop? {
        owned := map s | s in owned ::
          if e.args.scope == Some("mine") || e.args.sessionId == Some(s) then owned[s].(stopped := true) else owned[s];
      }
    }

    /** What a reply, or its absence, changes. The caller gets the reply only when it came, was not refused, and
        could be kept. */
    method Receive(e: Entry) returns (result: Option<(bool, Data)>)
      modifies `quarantined, `opening, `closeAttempted, `owned
      ensures quarantined == (old(quarantined) || Doubted(e, old(opening), baseline, workspace))
      ensures opening == OpeningAfter(e, old(opening), baseline, workspace)
      ensures closeAttempted == (old(closeAttempted) && opening == old(opening))
      ensures Live(owned) == LiveAfter(Live(old(owned)), e, workspace)
      ensures result ==
        if e.reply.Some? && (e.reply.value.0 || Accepted(e, old(opening), baseline, workspace)) && e.kept then e.reply
        else None
    {
      hide Accepted, OpenedWindow, GivenHandles, AcknowledgedWindow, Live;
      if e.reply.None? {
        Failure(e.tool);
        return None;
      }
      var (isError, data) := e.reply.value;
      if isError || data.ok == Some(false) || data.captureError {
        Failure(e.tool);
      }
      if !isError {
        var accepted := Acknowledge(e);
        if !accepted {
          Failure(e.tool);
          return None;
        }
      }
      if !e.kept {
        Failure(e.tool);
        return None;
      }
      return e.reply;
    }

    method Invoke(tool: Tool, args: Args) returns (result: Option<(bool, Data)>)
      requires Valid() && Ready(tool, args)
      modifies this
      ensures Valid()
      ensures asked == old(asked) + 1
      // A request that goes out is logged with what came of it.
      ensures log == if Sends(old(quarantined), tool, world(old(asked))) then
                       old(log) + [Sent(tool, args, world(old(asked)))]
                     else old(log)
      ensures result == if Sends(old(quarantined), tool, world(old(asked))) then
                          Given(Sent(tool, args, world(old(asked))), old(opening), baseline, workspace)
                        else None
      ensures Live(owned) == if Sends(old(quarantined), tool, world(old(asked))) then
                               LiveAfter(old(Live(owned)), Sent(tool, args, world(old(asked))), workspace)
                             else old(Live(owned))
      ensures fingerprint == old(fingerprint) && baseline == old(baseline)
      ensures !Mutates(tool) ==> quarantined == old(quarantined)
      ensures !tool.Open? ==> opening == old(opening) && closeAttempted == old(closeAttempted)
      ensures !tool.Handoff? && !tool.Stop? ==> Live(owned) == old(Live(owned))
    {
      hide Tracks, Live, Fits, Closes, LiveAfter, OpeningAfter, Doubted, Ready, PreparedFor;
      var answer := world(asked);
      asked := asked + 1;
      if !answer.enabled {
        return None;
      }
      if quarantined && Mutates(tool) {
        return None;
      }
      result := Submit(Sent(tool, args, answer));
    }

    /** The request goes out, is logged, and its reply is taken in. */
    method Submit(e: Entry) returns (result: Option<(bool, Data)>)
      requires Valid() && Ready(e.tool, e.args) && !(quarantined && Mutates(e.tool))
      modifies `quarantined, `opening, `closeAttempted, `owned, `log
      ensures Valid() && log == old(log) + [e]
      ensures result == Given(e, old(opening), baseline, workspace)
      ensures Live(owned) == LiveAfter(old(Live(owned)), e, workspace)
      ensures !Mutates(e.tool) ==> quarantined == old(quarantined)
      ensures !e.tool.Open? ==> opening == old(opening) && closeAttempted == old(closeAttempted)
      ensures !e.tool.Handoff? && !e.tool.Stop? ==> Live(owned) == old(Live(owned))
    {
      hide Tracks, Live, Fits, Closes, LiveAfter, OpeningAfter, Doubted, Ready, PreparedFor;
      FitsReady(e);
      SentKeepsTracks(log, e, quarantined, opening, closeAttempted, fingerprint, baseline, Live(owned), workspace);
      ReadsChangeNothing(e, opening, baseline, Live(owned), workspace);
      if fingerprint.Some? {
        PreparedStays(log, log + [e], workspace, baseline);
      }
      log := log + [e];
      result := Receive(e);
    }

    lemma {:induction false} FitsReady(e: Entry)
      requires Valid() && Ready(e.tool, e.args) && !(quarantined && Mutates(e.tool))
      ensures Fits(log, e, workspace, baseline) && (Closes(e) ==> opening.Some? && closeAttempted)
      ensures e.tool.Open? ==> fingerprint == Some(e.args)
    {
      FitsWhateverTheReply(log, e, Entry(e.tool, e.args, None, true), workspace, baseline);
    }

    /** Reading leaves everything the controller decides by as it was. */
    twostate predicate OnlyRead()
      reads this
    {
      && quarantined == old(quarantined) && opening == old(opening) && closeAttempted == old(closeAttempted)
      && fingerprint == old(fingerprint) && baseline == old(baseline) && Live(owned) == old(Live(owned))
    }

    /** One more request, if use is enabled. */
    twostate predicate Asks(tool: Tool, args: Args)
      reads this
    {
      && asked == old(asked) + 1
      && log == if world(old(asked)).enabled then old(log) + [Sent(tool, args, world(old(asked)))] else old(log)
    }

    method Read(tool: Tool, args: Args) returns (data: Option<Data>)
      requires Valid() && !Mutates(tool) && !tool.Stop?
      modifies this
      ensures Valid() && OnlyRead() && Asks(tool, args)
      ensures var e := Sent(tool, args, world(old(asked)));
        data == if world(old(asked)).enabled && Kept(e, tool) then Some(e.reply.value.1) else None
    {
      hide Tracks, Live;
      var reply := Invoke(tool, args);
      return if reply.None? || reply.value.0 then None else Some(reply.value.1);
    }

    /** Where the one registration of the calculator is. */
    static method OnlyRegistration(apps: seq<Option<App>>) returns (found: Option<nat>)
      ensures found.Some? ==> AllThere(apps) && IsOnly(apps, found.value)
      ensures found.None? ==> !AllThere(apps) || !exists k :: IsOnly(apps, k)
    {
      found := None;
      for i := 0 to |apps|
        invariant forall j | 0 <= j < i :: apps[j].Some? && (IsCalculator(apps[j].value) <==> found == Some(j))
        invariant found.Some? ==> found.value < i
      {
        if apps[i].None? {
          return None;
        }
        if IsCalculator(apps[i].value) {
          if found.Some? {
            TwoRegistrations(apps, found.value, i);
            return None;
          }
          found := Some(i);
        }
      }
      if found.None? {
        NoRegistration(apps);
      }
    }

    static lemma {:induction false} TwoRegistrations(apps: seq<Option<App>>, i: nat, j: nat)
      requires i < |apps| && j < |apps| && i != j && apps[i].Some? && apps[j].Some?
      requires IsCalculator(apps[i].value) && IsCalculator(apps[j].value)
      ensures !AllThere(apps) || !exists k :: IsOnly(apps, k)
    {
    }

    static lemma {:induction false} NoRegistration(apps: seq<Option<App>>)
      requires AllThere(apps) && forall i | 0 <= i < |apps| :: !IsCalculator(apps[i].value)
      ensures !exists k :: IsOnly(apps, k)
    {
      forall k
        ensures !IsOnly(apps, k)
      {
        assert 0 <= k < |apps| ==> !IsCalculator(apps[k].value);
      }
    }

    static lemma {:induction false} OnlyOne(apps: seq<Option<App>>, i: nat, k: int)
      requires AllThere(apps) && i < |apps| && IsCalculator(apps[i].value) && IsOnly(apps, k)
      ensures i == k
    {
    }

    method Calculator(requireStopped: bool) returns (ok: bool)
      requires Valid()
      modifies this
      ensures Valid() && OnlyRead() && Asks(Applications, DISCOVERY)
      ensures ok <==> world(old(asked)).enabled && FoundOnce(DiscoveryAt(old(asked)), requireStopped, opening)
    {
      hide Tracks, Live;
      var data := Read(Applications, DISCOVERY);
      if data.None? || data.value.truncated != Some(false) || data.value.applications.None? {
        return false;
      }
      var apps := data.value.applications.value;
      var found := OnlyRegistration(apps);
      if found.Some? {
        forall k | IsOnly(apps, k)
          ensures k == found.value
        {
          OnlyOne(apps, found.value, k);
        }
      }
      if found.None? || apps[found.value].value.availability != "verified"
        || apps[found.value].value.runningPids.None? {
        return false;
      }
      var pids := apps[found.value].value.runningPids.value;
      if exists i | 0 <= i < |pids| :: pids[i].None? || pids[i].value <= 0 {
        return false;
      }
      ok := if requireStopped then pids == [] else opening.Some? && Some(opening.value.pid) in pids;
      assert ok ==> Only(apps, found.value, requireStopped, opening);
    }

    static method Identify(items: seq<Option<Candidate>>)
      returns (windows: Option<seq<(string, string, Option<bool>)>>)
      ensures windows.Some? <==> forall i | 0 <= i < |items| :: HasIdentity(items[i])
      ensures windows.Some? ==> |windows.value| == |items| && forall i | 0 <= i < |items| ::
        items[i] == Some(Candidate(Some(windows.value[i].0), Some(windows.value[i].1), windows.value[i].2))
    {
      hide Address, Hex;
      var list: seq<(string, string, Option<bool>)> := [];
      for i := 0 to |items|
        invariant |list| == i && forall j | 0 <= j < i ::
          HasIdentity(items[j]) && items[j] == Some(Candidate(Some(list[j].0), Some(list[j].1), list[j].2))
      {
        var item := items[i];
        if item.None? || item.value.address.None? || !Address(item.value.address.value)
          || item.value.stableId.None? || !Hex(item.value.stableId.value, 1, 16) {
          return None;
        }
        list := list + [(item.value.address.value, item.value.stableId.value, item.value.xwayland)];
      }
      return Some(list);
    }

    method CandidateWindows() returns (windows: Option<seq<(string, string, Option<bool>)>>)
      requires Valid()
      modifies this
      ensures Valid() && OnlyRead() && Asks(Candidates, NO_ARGS.(workspace := Some(workspace)))
      ensures windows.Some? <==> Lists(old(asked))
      ensures windows.Some? ==> Named(ListingAt(old(asked)), workspace, windows.value)
    {
      hide Tracks, Live, Address, Hex;
      var data := Read(Candidates, NO_ARGS.(workspace := Some(workspace)));
      if data.None? || data.value.workspace != Some(workspace) || data.value.candidates.None? {
        return None;
      }
      windows := Identify(data.value.candidates.value);
      ghost var e := ListingAt(old(asked));
      assert windows.Some? ==> Named(e, workspace, windows.value);
      assert windows.None? ==> forall found :: !Named(e, workspace, found);
    }

    static method ShownBeside(monitors: seq<Option<Monitor>>, workspace: int) returns (ok: bool)
      ensures ok <==> AllDescribed(monitors) && OnlyUnfocused(monitors, workspace)
    {
      var names: set<string>, unfocused, focused := {}, false, false;
      for i := 0 to |monitors|
        invariant AllDescribed(monitors[..i])
        invariant forall name :: name in names <==> exists j :: 0 <= j < i && monitors[j].value.name == Some(name)
        invariant unfocused <==> exists j :: 0 <= j < i && On(monitors[j].value, workspace, false)
        invariant focused <==> exists j :: 0 <= j < i && On(monitors[j].value, workspace, true)
      {
        var item := monitors[i];
        assert Described(item) && item.value.name.value !in names <==> AllDescribed(monitors[..i + 1]);
        if item.None? || item.value.name.None? || item.value.name.value in names || item.value.focused.None?
          || (!item.value.blank && (item.value.workspace.None? || item.value.workspace.value <= 0)) {
          NotAllDescribed(monitors, i + 1);
          return false;
        }
        names := names + {item.value.name.value};
        if Shows(item.value, workspace) {
          unfocused := unfocused || !item.value.focused.value;
          focused := focused || item.value.focused.value;
        }
      }
      assert monitors[..|monitors|] == monitors;
      ok := unfocused && !focused;
    }

    method Displayed() returns (ok: bool)
      requires Valid()
      modifies this
      ensures Valid() && OnlyRead() && Asks(Monitors, NO_ARGS)
      ensures ok <==> world(old(asked)).enabled && Beside(MonitorsAt(old(asked)), workspace)
    {
      hide Tracks, Live, AllDescribed, OnlyUnfocused;
      var data := Read(Monitors, NO_ARGS);
      if data.None? || data.value.monitors.None? || data.value.monitors.value == []
        || |data.value.monitors.value| > 64 {
        return false;
      }
      ok := ShownBeside(data.value.monitors.value, workspace);
    }

    function ActiveSession(args: Args): (h: Option<Handles>)
      reads this
      ensures h == ActiveAt(Live(owned), args)
    {
      if args.sessionId.Some? && args.sessionId.value in owned && !owned[args.sessionId.value].stopped
      then Some(owned[args.sessionId.value].handles) else None
    }

    ghost function Standing(): Stand
      reads this
    {
      Stand(log, asked, quarantined, opening, closeAttempted, fingerprint, baseline, Live(owned))
    }

    /** An `action` beside `actions` is looked at by nobody: whatever it is, a second closing for instance, the
        request is let through as it would be without it. */
    lemma {:induction false} StrayActionPasses(args: Args, stray: Action)
      requires args.actions.List?
      ensures Allowed(Standing(), args.(action := Some(stray))) == Allowed(Standing(), args)
      ensures Some(stray) in Carried(args.(action := Some(stray)))
    {
      assert Carried(args.(action := Some(stray)))[0] == Some(stray);
    }

    method CheckActions(items: seq<Option<Action>>, h: Handles, capture: bool) returns (ok: bool)
      modifies `closeAttempted
      ensures ok == (AllOnTarget(items, h)
                     && (HasClose(items) ==> opening.Some? && !old(closeAttempted) && |items| == 1 && !capture))
      ensures closeAttempted == (old(closeAttempted) || (ok && HasClose(items)))
    {
      if items == [] {
        return false;
      }
      for i := 0 to |items|
        invariant forall j | 0 <= j < i :: OnTarget(items[j], h)
        invariant !HasClose(items[..i]) || (i == |items| == 1)
        invariant HasClose(items[..i]) ==> opening.Some? && !old(closeAttempted) && !capture && closeAttempted
        invariant !HasClose(items[..i]) ==> closeAttempted == old(closeAttempted)
      {
        var item := items[i];
        assert items[..i + 1][i] == item && forall j | 0 <= j < i :: items[..i + 1][j] == items[..i][j];
        if item.None? || item.value.appId != Some(h.appId)
          || (if item.value.kind == "windows" then item.value.windowId.Some?
              else item.value.windowId != Some(h.windowId)) {
          return false;
        }
        if item.value.kind == "close-application" {
          return false;
        }
        if item.value.kind == "close-window" {
          if opening.None? || closeAttempted || |items| != 1 || capture {
            return false;
          }
          closeAttempted := true;
        }
      }
      assert items[..|items|] == items;
      return true;
    }

    function DiscoveryAt(a: nat): Entry {
      Sent(Applications, DISCOVERY, world(a))
    }

    function ListingAt(a: nat): Entry {
      Sent(Candidates, NO_ARGS.(workspace := Some(workspace)), world(a))
    }

    function MonitorsAt(a: nat): Entry {
      Sent(Monitors, NO_ARGS, world(a))
    }

    ghost predicate Lists(a: nat) {
      world(a).enabled && exists windows :: Named(ListingAt(a), workspace, windows)
    }

    /** The next three answers let a first opening through: use is enabled for each, the calculator is registered once
        and not running, the candidates are named, and the workspace is shown beside the focus. */
    ghost predicate LetsOpen(a: nat) {
      && world(a).enabled && FoundOnce(DiscoveryAt(a), true, None)
      && Lists(a + 1)
      && world(a + 2).enabled && Beside(MonitorsAt(a + 2), workspace)
    }

    /** No opening is sent here; and the arguments are recorded before any is, those whose reply is lost included. */
    method PrepareOpening(args: Args)
      requires Valid() && fingerprint.None?
      modifies this
      ensures Valid() && quarantined == old(quarantined) && |old(log)| <= |log| && log[..|old(log)|] == old(log)
      ensures forall i | |old(log)| <= i < |log| :: !log[i].tool.Open?
      ensures fingerprint == if LetsOpen(old(asked)) then Some(args) else None
      ensures var a := old(asked);
        LetsOpen(a) ==>
          asked == a + 3 && log == old(log) + [DiscoveryAt(a), ListingAt(a + 1), MonitorsAt(a + 2)]
          && PreparedAt(log, |old(log)|, workspace, baseline)
    {
      hide FoundOnce, Named, Beside, Identities, Tracks, Live, PreparedFor, PreparedAt;
      NoOpeningYet();
      ghost var before, a := log, asked;
      var stopped := Calculator(true);
      if !stopped {
        return;
      }
      var windows := CandidateWindows();
      if windows.None? {
        return;
      }
      Remember(windows.value);
      var displayed := Displayed();
      if !displayed {
        return;
      }
      assert log == before + [DiscoveryAt(a), ListingAt(a + 1), MonitorsAt(a + 2)];
      ThreePreflights(before, a, windows.value);
      Fingerprinted(args, |before|);
      fingerprint := Some(args);
    }

    lemma {:induction false} ThreePreflights(before: seq<Entry>, a: nat, windows: seq<(string, string, Option<bool>)>)
      requires FoundOnce(DiscoveryAt(a), true, None) && Named(ListingAt(a + 1), workspace, windows)
      requires Beside(MonitorsAt(a + 2), workspace) && forall i | 0 <= i < |before| :: !before[i].tool.Open?
      ensures PreparedAt(before + [DiscoveryAt(a), ListingAt(a + 1), MonitorsAt(a + 2)], |before|, workspace,
                         Identities(windows))
    {
      hide FoundOnce, Named, Beside, Identities;
    }

    /** The arguments may be recorded now. */
    lemma {:induction false} Fingerprinted(args: Args, k: nat)
      requires Valid() && fingerprint.None? && PreparedAt(log, k, workspace, baseline)
      ensures PreparedFor(log, workspace, baseline)
      ensures Tracks(log, quarantined, opening, closeAttempted, Some(args), baseline, Live(owned), workspace)
    {
      hide Safe, Doubtful, Windows, OpenArgs, ClosedBefore, Active, Live;
    }

    /** What is there before the first opening. */
    method Remember(windows: seq<(string, string, Option<bool>)>)
      requires Valid() && fingerprint.None?
      modifies `baseline
      ensures Valid() && baseline == Identities(windows)
    {
      NoOpeningYet();
      NothingOpenedYet(log, workspace, baseline, Identities(windows));
      hide Safe, Doubtful, Windows, OpenArgs, ClosedBefore, Active, Live, Identities;
      baseline := Identities(windows);
    }

    predicate Proper(args: Args) {
      args.applicationId == Some(APPLICATION) && args.requestId.Some?
    }

    /** A first opening goes out exactly when the three preflights let it, right after them, and is remembered then; one
        that was sent for before goes out again exactly as it was, or not at all. */
    ghost predicate OpeningSent(s: Stand, t: Stand, args: Args) {
      var a := s.asked;
      if !Proper(args) then t.log == s.log && t.asked == a
      else if s.fingerprint.Some? then
        t.log == s.log + (if s.fingerprint == Some(args) && Sends(s.quarantined, Open, world(a))
                          then [Sent(Open, args, world(a))] else [])
      else if LetsOpen(a) then
        && t.fingerprint == Some(args) && PreparedAt(t.log, |s.log|, workspace, t.baseline)
        && t.log == s.log + [DiscoveryAt(a), ListingAt(a + 1), MonitorsAt(a + 2)]
                    + (if Sends(s.quarantined, Open, world(a + 3)) then [Sent(Open, args, world(a + 3))] else [])
      else
        && t.fingerprint == None && |s.log| <= |t.log| && t.log[..|s.log|] == s.log
        && forall i | |s.log| <= i < |t.log| :: !t.log[i].tool.Open?
    }

    /** A handoff goes out exactly when both preflights find the opened window still there, right after them. */
    ghost predicate HandoffSent(s: Stand, t: Stand, args: Args) {
      var a := s.asked;
      if LetsHandOff(s, args) then
        t.log == s.log + [DiscoveryAt(a), ListingAt(a + 1)]
                 + (if Sends(s.quarantined, Handoff, world(a + 2)) then [Sent(Handoff, args, world(a + 2))] else [])
      else
        && |s.log| <= |t.log| && t.log[..|s.log|] == s.log
        && forall i | |s.log| <= i < |t.log| :: !t.log[i].tool.Handoff?
    }

    method DispatchOpen(args: Args)
      requires Valid() && args.workspace == Some(workspace)
      modifies this
      ensures Valid() && OpeningSent(old(Standing()), Standing(), args)
    {
      hide Tracks, Live, Fits, Closes, PreparedFor, PreparedAt, LetsOpen, DiscoveryAt, ListingAt, MonitorsAt, Ready;
      if args.applicationId != Some(APPLICATION) || args.requestId.None? {
        return;
      }
      if fingerprint.Some? && fingerprint != Some(args) {
        return;
      }
      if fingerprint.None? {
        FirstOpening(args);
      } else {
        OpenIsReady(args);
        var _ := Invoke(Open, args);
      }
    }

    method FirstOpening(args: Args)
      requires Valid() && args.workspace == Some(workspace) && Proper(args) && fingerprint.None?
      modifies this
      ensures Valid() && |old(log)| <= |log| && log[..|old(log)|] == old(log)
      ensures var a := old(asked);
        if LetsOpen(a) then
          && fingerprint == Some(args) && PreparedAt(log, |old(log)|, workspace, baseline)
          && log == old(log) + [DiscoveryAt(a), ListingAt(a + 1), MonitorsAt(a + 2)]
                    + (if Sends(old(quarantined), Open, world(a + 3)) then [Sent(Open, args, world(a + 3))] else [])
        else
          fingerprint == None && forall i | |old(log)| <= i < |log| :: !log[i].tool.Open?
    {
      hide Tracks, Live, Fits, Closes, PreparedFor, PreparedAt, LetsOpen, DiscoveryAt, ListingAt, MonitorsAt, Ready;
      ghost var start := |log|;
      PrepareOpening(args);
      if fingerprint.None? {
        return;
      }
      OpenIsReady(args);
      ghost var before := log;
      var _ := Invoke(Open, args);
      PreparedStaysAt(before, log, start);
    }

    lemma {:induction false} PreparedStaysAt(before: seq<Entry>, longer: seq<Entry>, k: nat)
      requires PreparedAt(before, k, workspace, baseline) && |before| <= |longer| && longer[..|before|] == before
      ensures PreparedAt(longer, k, workspace, baseline)
    {
      hide FoundOnce, Beside, Named, Identities;
      assert forall i | 0 <= i < |before| :: longer[i] == before[i];
    }

    lemma {:induction false} NoOpeningYet()
      requires Valid() && fingerprint.None?
      ensures opening.None? && OpenArgs(log) == {} && forall i | 0 <= i < |log| :: !log[i].tool.Open?
    {
      forall i | 0 <= i < |log|
        ensures log[i].tool.Open? ==> log[i].args in OpenArgs(log)
      {
        SeenBefore(log, i, workspace, baseline);
      }
      hide Safe, Doubtful, Windows, OpenArgs, ClosedBefore, Active;
    }

    lemma {:induction false} OpenIsReady(args: Args)
      requires Valid() && fingerprint == Some(args) && args.applicationId == Some(APPLICATION)
        && args.workspace == Some(workspace)
      ensures Ready(Open, args)
    {
      hide Safe, Doubtful, Windows, OpenArgs, ClosedBefore, Active;
    }

    method DispatchHandoff(args: Args)
      requires Valid() && args.workspace == Some(workspace)
      modifies this
      ensures Valid() && HandoffSent(old(Standing()), Standing(), args)
    {
      hide FoundOnce, Named, PreparedFor, Tracks;
      if opening.None? || args.address != Some(opening.value.address) || args.stableId != Some(opening.value.stableId) {
        return;
      }
      if exists s :: s in owned && !owned[s].stopped {
        ghost var s :| s in owned && !owned[s].stopped;
        assert s in Live(owned);
        return;
      }
      ghost var live := Live(owned);
      assert live == map[];
      hide Live;
      var running := Calculator(false);
      if !running {
        return;
      }
      var windows := CandidateWindows();
      if windows.None? {
        return;
      }
      assert StillListed(old(asked) + 1, opening.value) <==>
        (opening.value.address, opening.value.stableId, Some(false)) in windows.value by {
        NamedOnce(ListingAt(old(asked) + 1), windows.value);
      }
      if (opening.value.address, opening.value.stableId, Some(false)) !in windows.value {
        return;
      }
      HandoffIsReady(args);
      hide Fits, Closes;
      var _ := Invoke(Handoff, args);
    }

    /** The opened window is still among the candidates, as a Wayland one. */
    ghost predicate StillListed(a: nat, w: Window) {
      && world(a).enabled
      && exists windows :: Named(ListingAt(a), workspace, windows) && (w.address, w.stableId, Some(false)) in windows
    }

    /** The opened window was named, no session is live, and the next two answers find the window still there. */
    ghost predicate LetsHandOff(s: Stand, args: Args) {
      && s.opening.Some? && args.address == Some(s.opening.value.address)
      && args.stableId == Some(s.opening.value.stableId) && s.live == map[]
      && world(s.asked).enabled && FoundOnce(DiscoveryAt(s.asked), false, s.opening)
      && StillListed(s.asked + 1, s.opening.value)
    }

    lemma {:induction false} NamedOnce(e: Entry, windows: seq<(string, string, Option<bool>)>)
      requires Named(e, workspace, windows)
      ensures forall others :: Named(e, workspace, others) ==> others == windows
    {
      forall others | Named(e, workspace, others)
        ensures others == windows
      {
        assert forall i | 0 <= i < |windows| :: others[i] == windows[i];
      }
    }

    lemma {:induction false} HandoffIsReady(args: Args)
      requires Valid() && opening.Some? && args.workspace == Some(workspace) && Live(owned) == map[]
      requires args.address == Some(opening.value.address) && args.stableId == Some(opening.value.stableId)
      ensures Ready(Handoff, args)
    {
      hide Safe, Doubtful, Windows, OpenArgs, ClosedBefore, Active, Live;
      assert opening.value in Windows(log, workspace);
    }

    method DispatchAct(args: Args)
      requires Valid()
      modifies this
      ensures Valid() && asked >= old(asked) && fingerprint == old(fingerprint)
      // The attempt to close is recorded before it is made.
      ensures closeAttempted ==
        (old(closeAttempted) || (Allowed(old(Standing()), args) && HasClose(Effective(args).value)))
      // An input request is sent exactly when it is allowed and use is enabled.
      ensures log == old(log) + (if Allowed(old(Standing()), args) && world(old(asked)).enabled
                                 then [Sent(Act, args, world(old(asked)))] else [])
    {
      if quarantined {
        return;
      }
      var h := ActiveSession(args);
      if h.None? {
        return;
      }
      var items := Effective(args);
      if items.None? {
        return;
      }
      ghost var attempted := closeAttempted;
      var ok := CheckActions(items.value, h.value, args.capture);
      if !ok {
        return;
      }
      ActIsReady(args, h.value, attempted);
      hide Tracks, Live, Fits, Closes;
      var _ := Invoke(Act, args);
    }

    lemma {:induction false} ActIsReady(args: Args, h: Handles, attempted: bool)
      requires Tracks(log, quarantined, opening, attempted, fingerprint, baseline, Live(owned), workspace)
      requires ActiveSession(args) == Some(h) && Effective(args).Some? && AllOnTarget(Effective(args).value, h)
      requires HasClose(Effective(args).value) ==> opening.Some? && !attempted && |Effective(args).value| == 1
      requires closeAttempted == (attempted || HasClose(Effective(args).value))
      requires fingerprint.Some? ==> PreparedFor(log, workspace, baseline)
      ensures Valid() && Ready(Act, args)
    {
      hide Safe, Doubtful, Windows, OpenArgs, ClosedBefore, Active, AllOnTarget, HasClose, Effective;
      assert args.sessionId.value in Live(owned);
    }

    /** What one request brings about. */
    ghost predicate Served(s: Stand, t: Stand, tool: Tool, args: Args) {
      && (s.quarantined && Mutates(tool) ==> t.log == s.log)
      && (tool.Open? && !s.quarantined ==>
            if args.workspace == Some(workspace) then OpeningSent(s, t, args) else t.log == s.log)
      && (tool.Handoff? && !s.quarantined ==>
            if args.workspace == Some(workspace) then HandoffSent(s, t, args) else t.log == s.log)
      // Among others: no stop goes out before the opened window was closed, unless something is uncertain.
      && (!tool.Open? && !tool.Handoff? ==>
            && t.log == s.log + (if Admitted(s, tool, args, workspace) && world(s.asked).enabled
                                 then [Sent(tool, args, world(s.asked))] else [])
            && t.fingerprint == s.fingerprint
            && t.closeAttempted == (s.closeAttempted || (tool.Act? && Allowed(s, args)
                                                         && HasClose(Effective(args).value))))
    }

    method Dispatch(tool: Tool, args: Args)
      requires Valid()
      modifies this
      ensures Valid() && Served(old(Standing()), Standing(), tool, args)
    {
      hide Tracks, Live, OpeningSent, HandoffSent, PreparedFor;
      if quarantined && Mutates(tool) {
        return;
      }
      if tool.Stop? && opening.Some? && !closeAttempted && !quarantined {
        return;
      }
      if (tool.Open? || tool.Handoff? || tool.Candidates?) && args.workspace != Some(workspace) {
        return;
      }
      match tool
      case Open => DispatchOpen(args);
      case Handoff => DispatchHandoff(args);
      case Act => DispatchAct(args);
      case Resume | Pause | Journal | Narrow =>
        if ActiveSession(args).None? {
          return;
        }
        var _ := Invoke(tool, args);
      case Observe =>
        var h := ActiveSession(args);
        if h.None? {
          return;
        }
        if (args.appId.Some? && args.appId != Some(h.value.appId))
          || (args.windowId.Some? && args.windowId != Some(h.value.windowId)) {
          return;
        }
        var _ := Invoke(tool, args);
      case Stop =>
        if args.scope != Some("mine") && ActiveSession(args).None? {
          return;
        }
        var _ := Invoke(tool, args);
      case Applications | Monitors | Candidates | Status =>
        var _ := Invoke(tool, args);
    }

    function ClosingArgs(s: string, h: Handles, requestId: string): Args {
      NO_ARGS.(sessionId := Some(s), requestId := Some(requestId),
               action := Some(Action("close-window", Some(h.appId), Some(h.windowId))))
    }

    /** The end of every run: the window of a session still live is closed once, if nothing is uncertain and no
        closing was attempted, and then everything of this conversation is stopped. */
    method Cleanup(requestId: string)
      requires Valid()
      modifies this
      ensures Valid()
      ensures CleanedUp(old(log), log, old(asked), old(closeAttempted), world, workspace, baseline, requestId)
      ensures closeAttempted == (old(closeAttempted) || MayClose(old(log), old(closeAttempted), workspace, baseline))
      ensures fingerprint == old(fingerprint) && baseline == old(baseline)
    {
      hide Tracks, Live, MayClose, ClosedOnce, PreparedFor, CleanedUp;
      ghost var before, a, attempted := log, asked, closeAttempted;
      ghost var done := CloseLive(requestId);
      Stopping(before, a, attempted, requestId, done);
    }

    /** The loop over the sessions, which closes the window of the first that is live. */
    method CloseLive(requestId: string) returns (ghost done: bool)
      requires Valid()
      modifies this
      ensures Valid() && (done <==> MayClose(old(log), old(closeAttempted), workspace, baseline))
      ensures closeAttempted == (old(closeAttempted) || done)
      ensures fingerprint == old(fingerprint) && baseline == old(baseline)
      ensures if done then ClosedOnce(old(log), log, old(asked), world, workspace, requestId)
                   && asked == (if world(old(asked)).enabled then old(asked) + 2 else old(asked) + 1)
              else log == old(log) && asked == old(asked)
    {
      hide Tracks, Live, MayClose, ClosedOnce, PreparedFor;
      ghost var start := owned;
      done := false;
      var left := owned.Keys;
      TracksMayClose();
      while left != {}
        invariant Valid() && left <= start.Keys && fingerprint == old(fingerprint) && baseline == old(baseline)
        invariant !done ==> log == old(log) && asked == old(asked) && owned == start && opening == old(opening)
        invariant !done ==> closeAttempted == old(closeAttempted) && quarantined == old(quarantined)
        invariant !done && !quarantined && opening.Some? && !closeAttempted ==>
          forall s | s in start && s !in left :: start[s].stopped
        invariant done ==> closeAttempted && MayClose(old(log), old(closeAttempted), workspace, baseline)
        invariant done ==> ClosedOnce(old(log), log, old(asked), world, workspace, requestId)
        invariant done ==> asked == if world(old(asked)).enabled then old(asked) + 2 else old(asked) + 1
        decreases |left|
      {
        var s: string :| s in left;
        left := left - {s};
        if !quarantined && s in owned && !owned[s].stopped && opening.Some? && !closeAttempted {
          SomeLive(s);
          TracksMayClose();
          CloseOne(s, requestId);
          done := true;
        }
      }
      if !done { TracksMayClose(); NoneLive(); }
    }

    lemma {:induction false} SomeLive(s: string)
      requires s in owned && !owned[s].stopped
      ensures Live(owned) != map[]
    {
      assert s in Live(owned);
    }

    lemma {:induction false} NoneLive()
      ensures (forall s | s in owned :: owned[s].stopped) ==> Live(owned) == map[]
    {
    }

    method Stopping(ghost before: seq<Entry>, ghost a: nat, ghost attempted: bool, requestId: string, ghost done: bool)
      requires Valid() && (done <==> MayClose(before, attempted, workspace, baseline))
      requires if done then ClosedOnce(before, log, a, world, workspace, requestId)
                    && asked == (if world(a).enabled then a + 2 else a + 1)
               else log == before && asked == a
      modifies this
      ensures Valid() && CleanedUp(before, log, a, attempted, world, workspace, baseline, requestId)
      ensures closeAttempted == old(closeAttempted) && fingerprint == old(fingerprint) && baseline == old(baseline)
    {
      hide Tracks, Live, MayClose, ClosedOnce, PreparedFor, Ready;
      assert Ready(Stop, MINE) by { StopIsReady(); }
      ghost var closed := log;
      var _ := Invoke(Stop, MINE);
      assert Ends(before, closed, log, a, done, world, workspace, requestId);
    }

    lemma {:induction false} StopIsReady()
      ensures Ready(Stop, MINE)
    {
    }

    lemma {:induction false} TracksMayClose()
      requires Valid()
      ensures MayClose(log, closeAttempted, workspace, baseline) <==>
        !closeAttempted && !quarantined && opening.Some? && Live(owned) != map[]
    {
      hide Safe, Doubtful, Windows, OpenArgs, ClosedBefore, Active, Live;
    }

    /** The closing of one live session's window. */
    method CloseOne(s: string, requestId: string)
      requires Valid() && !quarantined && s in owned && !owned[s].stopped && opening.Some? && !closeAttempted
      modifies this
      ensures Valid() && closeAttempted && fingerprint == old(fingerprint) && baseline == old(baseline)
      ensures ClosedOnce(old(log), log, old(asked), world, workspace, requestId)
      ensures asked == if world(old(asked)).enabled then old(asked) + 2 else old(asked) + 1
    {
      hide Tracks, Live, Fits, Closes, Active, PreparedFor, Ready, ClosedOnce, HasClose, AllOnTarget;
      ghost var before, h := log, owned[s].handles;
      var args := ClosingArgs(s, owned[s].handles, requestId);
      LiveIsActive(s);
      ClosingIsOne(args, h);
      closeAttempted := true;
      ActIsReady(args, h, false);
      var enabled := Enabled();
      if enabled {
        var _ := Invoke(Act, args);
      }
      IsClosedOnce(before, log, old(asked), s, h, args, requestId);
    }

    lemma {:induction false} LiveIsActive(s: string)
      requires Valid() && s in owned && !owned[s].stopped
      ensures s in Active(log, workspace) && Active(log, workspace)[s] == owned[s].handles
    {
      assert s in Live(owned);
      hide Safe, Doubtful, Windows, OpenArgs, ClosedBefore, Active;
    }

    lemma {:induction false} ClosingIsOne(args: Args, h: Handles)
      requires args.actions.Absent? && args.action == Some(Action("close-window", Some(h.appId), Some(h.windowId)))
      ensures Effective(args) == Some([args.action]) && HasClose([args.action]) && AllOnTarget([args.action], h)
    {
      assert [args.action][0].value.kind == "close-window";
    }

    lemma {:induction false} IsClosedOnce(before: seq<Entry>, after: seq<Entry>, a: nat, s: string, h: Handles,
                                          args: Args, requestId: string)
      requires s in Active(before, workspace) && Active(before, workspace)[s] == h
        && args == ClosingArgs(s, h, requestId)
      requires after ==
        if world(a).enabled && world(a + 1).enabled then before + [Sent(Act, args, world(a + 1))] else before
      ensures ClosedOnce(before, after, a, world, workspace, requestId)
    {
      hide Active;
      assert IsClosing(Sent(Act, args, world(a + 1)), s, h, requestId);
    }

    /** A whole run, over any requests and any answers: every request sent was one the log before it permits, and before
        the first opening came three preflights, of which the second listed what was there. */
    method Run(requests: seq<(Tool, Args)>, requestId: string) returns (ghost stands: seq<Stand>)
      requires Valid() && log == []
      modifies this
      ensures Safe(log, workspace, baseline)
      ensures (forall i | 0 <= i < |log| :: !log[i].tool.Open?) || PreparedFor(log, workspace, baseline)
      // Every request is served, one after the other, and then everything is cleaned up.
      ensures |stands| == |requests| + 1 && stands[0] == old(Standing())
      ensures forall i | 0 <= i < |requests| :: Served(stands[i], stands[i + 1], requests[i].0, requests[i].1)
      ensures var last := stands[|requests|];
        CleanedUp(last.log, log, last.asked, last.closeAttempted, world, workspace, baseline, requestId)
    {
      hide Safe, PreparedFor, Served, CleanedUp, Tracks;
      stands := [Standing()];
      for i := 0 to |requests|
        invariant Valid() && |stands| == i + 1 && stands[0] == old(Standing()) && stands[i] == Standing()
        invariant forall k | 0 <= k < i :: Served(stands[k], stands[k + 1], requests[k].0, requests[k].1)
      {
        Dispatch(requests[i].0, requests[i].1);
        stands := stands + [Standing()];
      }
      Cleanup(requestId);
      TracksSafe();
      if fingerprint.None? {
        NoOpeningYet();
      }
    }

    lemma {:induction false} TracksSafe()
      requires Valid()
      ensures Safe(log, workspace, baseline)
    {
    }
  }

  // --- Actions nobody checked ----------------------------------------------------------------------

  /** Everything a request carries that the native side could take as input. */
  function Carried(args: Args): seq<Option<Action>> {
    (if args.action.Some? then [args.action] else []) + (if args.actions.List? then args.actions.items else [])
  }

  /** The controller looks at all that a request carries exactly when the request does not carry both fields. */
  lemma {:induction false} AllIsChecked(args: Args)
    requires Effective(args).Some? && Effective(args).value != [] && Effective(args) != Some([None])
    ensures Carried(args) == Effective(args).value <==> !(args.action.Some? && args.actions.List?)
  {
    if args.action.Some? && args.actions.List? {
      assert |Carried(args)| == 1 + |args.actions.items|;
    }
  }

  /** When the actions looked at are on target, all that is carried is exactly unless the request carries both fields
      and the action beside the others is itself off target. */
  lemma {:induction false} CarriedOnTarget(args: Args, h: Handles)
    requires Effective(args).Some? && AllOnTarget(Effective(args).value, h)
    ensures AllOnTarget(Carried(args), h) <==>
      !(args.action.Some? && args.actions.List?) || OnTarget(args.action, h)
  {
    if args.action.Some? && args.actions.List? {
      var carried, items := Carried(args), args.actions.items;
      assert carried == [args.action] + items;
      assert carried[0] == args.action;
      assert forall i | 0 <= i < |items| :: carried[i + 1] == items[i];
    } else {
      assert OnTarget(Effective(args).value[0], h);
      assert Carried(args) == Effective(args).value;
    }
  }

  /** Of every request sent: what it carries is on the window of its session exactly unless a stray action is not. */
  lemma {:induction false} SentOnTarget(log: seq<Entry>, i: nat, workspace: int, baseline: Baseline)
    requires Safe(log, workspace, baseline) && i < |log| && log[i].tool.Act?
    ensures var args, live := log[i].args, Active(log[..i], workspace);
      && args.sessionId.Some? && args.sessionId.value in live
      && var h := live[args.sessionId.value];
        AllOnTarget(Carried(args), h) <==> !(args.action.Some? && args.actions.List?) || OnTarget(args.action, h)
  {
    hide Safe, Active, Doubtful, Carried, Effective;
    SafeAt(log, i, workspace, baseline);
    CarriedOnTarget(log[i].args, Active(log[..i], workspace)[log[i].args.sessionId.value]);
  }

  /** A closing that nobody looked at. */
  predicate StrayClose(args: Args) {
    args.actions.List? && args.action.Some? && args.action.value.kind == "close-window"
  }

  lemma {:induction false} CarriedClose(args: Args)
    requires Effective(args).Some?
    ensures HasClose(Carried(args)) <==> HasClose(Effective(args).value) || StrayClose(args)
  {
    var carried, items := Carried(args), Effective(args).value;
    if args.actions.List? && args.action.Some? {
      assert carried == [args.action] + items;
      assert carried[0] == args.action && forall i | 0 <= i < |items| :: carried[i + 1] == items[i];
    } else if args.actions.List? {
      assert carried == items;
    } else {
      assert items == [args.action];
      assert args.action.Some? ==> carried == items;
    }
  }

  /** Of all requests that are sent, two carry a closing only if one of the two closings is stray. */
  lemma {:induction false} OneCloseCarried(log: seq<Entry>, i: nat, j: nat, workspace: int, baseline: Baseline)
    requires Safe(log, workspace, baseline) && i < j < |log| && log[i].tool.Act? && log[j].tool.Act?
    ensures HasClose(Carried(log[i].args)) && HasClose(Carried(log[j].args)) ==>
      StrayClose(log[i].args) || StrayClose(log[j].args)
  {
    hide Safe, Active, Doubtful, Carried, Effective, StrayClose;
    SafeAt(log, i, workspace, baseline);
    SafeAt(log, j, workspace, baseline);
    CarriedClose(log[i].args);
    CarriedClose(log[j].args);
    if HasClose(Effective(log[i].args).value) && HasClose(Effective(log[j].args).value) {
      OneClose(log, i, j, workspace, baseline);
    }
  }
}
