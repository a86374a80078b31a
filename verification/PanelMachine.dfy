/** The desktop panel's handlers, desktop/panel.py: expanding and collapsing, the two hover delays, the drag
    of the mark, the detail view and the pages, and the Stop question. All of them run on the main thread, so
    a run of the panel is a sequence of them. */
module PanelMachine {
  import opened Common
  import opened SessionOrder
  import SessionCards

  datatype Callback = FinishOpen | FinishClose

  datatype Child = ListChild | DetailChild | PageChild

  /** An edge of the screen and a place along it. */
  datatype Spot = Spot(edge: string, position: real)

  /** What the toolkit answers when asked: whether the pointer is over the shell (nothing before there is a
      window), and whether the keyboard focus is inside the list. */
  datatype Seen = Seen(hover: Option<bool>, focusInList: bool)

  /** The two fields that hold a pending hover delay, and the sources the main loop has live for them. */
  datatype Delays = Delays(openSource: Option<nat>, closeSource: Option<nat>, live: map<nat, Callback>, next: nat)

  /** What session_shape keeps of the open sessions, and whether the broker answered. */
  datatype Shape = Shape(faces: map<string, (string, SessionState, string)>, reachable: bool)

  datatype State = State(
    expanded: bool,
    cardsStale: bool,
    drag: Option<Spot>,
    carrying: bool,
    awaitingLeave: bool,
    docked: Spot,
    others: string,
    delays: Delays,
    confirming: Option<string>,
    detail: Option<string>,
    page: Option<string>,
    stack: Child,
    sessions: seq<Session>,
    closed: seq<Session>,
    shown: seq<string>,
    busy: set<string>,
    pointerInCards: bool,
    lastShape: Option<Shape>)

  datatype Event =
    | Pointer(inside: bool)
    | TimerFires(source: nat)
    | Press(onMark: bool)
    | Travel(far: bool, spot: Spot)
    | Release(spot: Spot)
    | Status(sessions: seq<Session>, closed: seq<Session>, reachable: bool)
    | CardsPointer(inside: bool)
    | FocusMoved
    | Escape
    | Back
    | OpenViewer
    | SelectSession(id: string)
    | WatchSessions(id: string)
    | OpenPage(name: string, loads: bool)
    | OpenSettings(available: bool, loads: bool)
    | AskStop(about: Option<string>)
    | Act(id: string)
    | ActionDone(id: string)
    | RevealDone(id: string)
    | SettingsFile(spot: Spot, others: string)

  // --- What each handler does --------------------------------------------------------------------

  function Initial(docked: Spot, others: string): State {
    State(false, true, None, false, false, docked, others, Delays(None, None, map[], 0), None, None, None, ListChild,
          [], [],
          [], {}, false, None)
  }

  function Everyone(s: State): seq<string> {
    Ids(StableOrder(s.sessions + s.closed))
  }

  function Cancelled(live: map<nat, Callback>, source: Option<nat>): map<nat, Callback> {
    if source.Some? then live - {source.value} else live
  }

  /** Both delays are taken off the main loop, and one is started. */
  function Rearmed(d: Delays, callback: Callback): Delays {
    var live := Cancelled(Cancelled(d.live, d.openSource), d.closeSource)[d.next := callback];
    if callback.FinishOpen? then Delays(Some(d.next), None, live, d.next + 1)
    else Delays(None, Some(d.next), live, d.next + 1)
  }

  /** A source that ran out is gone once its callback has returned false. */
  function Spent(d: Delays, source: nat): Delays
    requires source in d.live
  {
    if d.live[source].FinishOpen? then d.(openSource := None, live := d.live - {source})
    else d.(closeSource := None, live := d.live - {source})
  }

  function Hovered(s: State, inside: bool): State {
    if s.drag.Some? || (s.awaitingLeave && inside) then s
    else s.(awaitingLeave := false, delays := Rearmed(s.delays, if inside then FinishOpen else FinishClose))
  }

  function Hovering(s: State, seen: Seen): State {
    if seen.hover.Some? then Hovered(s, seen.hover.value) else s
  }

  function ListShown(s: State, reopen: bool, seen: Seen): State {
    var had := s.detail.Some? || s.page.Some?;
    var t := s.(detail := None, page := None, stack := ListChild);
    if had && reopen then Hovering(t, seen) else t
  }

  /** What a refresh shows, and the Stop question it leaves armed: one whose session is no longer known is
      dropped, and so is one under which the list changed. */
  function Reflowed(confirming: Option<string>, shown: seq<string>, everyone: seq<string>, frozen: bool)
    : (Option<string>, seq<string>)
  {
    var asked := if confirming.Some? && confirming.value !in everyone then None else confirming;
    var plan := SessionCards.CardPlan(shown, everyone, frozen);
    if plan != shown && asked.Some? then (None, SessionCards.CardPlan(plan, everyone, true)) else (asked, plan)
  }

  function Refreshed(s: State, seen: Seen): State {
    var everyone := Everyone(s);
    var (asked, plan) := Reflowed(s.confirming, s.shown, everyone, s.pointerInCards || seen.focusInList);
    var t := s.(confirming := asked, shown := plan);
    if s.detail.Some? && s.detail.value !in everyone then ListShown(t, true, seen) else t
  }

  function Expanding(s: State, to: bool, seen: Seen): State {
    if to && s.drag.Some? then s
    else if to == s.expanded && !(to && s.cardsStale) then s
    else
      var t := s.(expanded := to);
      if to then Refreshed(t, seen).(cardsStale := false)
      else ListShown(t.(confirming := None), false, seen)
  }

  predicate Pinned(s: State) {
    s.confirming.Some? || s.detail.Some? || s.page.Some?
  }

  function Fired(s: State, source: nat, seen: Seen): State {
    if source !in s.delays.live then s
    else
      var t := s.(delays := Spent(s.delays, source));
      if s.delays.live[source].FinishOpen? then Expanding(t, true, seen)
      else if Pinned(t) || seen.hover == Some(true) then t
      else Expanding(t, false, seen)
  }

  function Lifted(s: State, seen: Seen): State {
    Expanding(s.(drag := Some(s.docked)), false, seen)
  }

  function Travelled(s: State, far: bool, spot: Spot, seen: Seen): State {
    if !s.carrying || (s.drag.None? && !far) then s
    else (if s.drag.None? then Lifted(s, seen) else s).(drag := Some(spot))
  }

  function Released(s: State, spot: Spot, seen: Seen): State {
    if s.drag.None? then (if s.carrying then ListShown(Expanding(s, true, seen), true, seen) else s)
    else s.(drag := None, awaitingLeave := true, docked := spot, cardsStale := true)
  }

  /** The mark is drawn afresh, and what the cards show is brought up to date now or at the next opening. */
  function Rendered(s: State, seen: Seen): State {
    if s.expanded then Refreshed(s.(cardsStale := true), seen).(cardsStale := false) else s.(cardsStale := true)
  }

  /** The settings were stored: by the panel itself, which is no change, or by somebody else. */
  function Stored(s: State, spot: Spot, others: string, seen: Seen): State {
    if spot == s.docked && others == s.others then s
    else Rendered(s.(docked := spot, others := others), seen)
  }

  /** A dictionary of the sessions: of two under one identifier it keeps the later. */
  function ShapeOf(sessions: seq<Session>, reachable: bool): Shape {
    if sessions == [] then Shape(map[], reachable)
    else
      var last := sessions[|sessions| - 1];
      var before := ShapeOf(sessions[..|sessions| - 1], reachable);
      before.(faces := before.faces[last.sessionId := (last.task, last.state, last.face)])
  }

  function Told(s: State, sessions: seq<Session>, closed: seq<Session>, reachable: bool, seen: Seen): State {
    Reshaped(s.(sessions := sessions, closed := closed), ShapeOf(sessions, reachable), seen)
  }

  function Reshaped(s: State, shape: Shape, seen: Seen): State {
    if Some(shape) != s.lastShape then Rendered(s.(lastShape := Some(shape)), seen)
    else if s.expanded then Refreshed(s, seen) else s
  }

  function Detailed(s: State, id: string): State {
    if id !in Everyone(s) then s
    else s.(confirming := None, page := None, detail := Some(id), stack := DetailChild)
  }

  function Selected(s: State, id: string, seen: Seen): State {
    if id !in Everyone(s) then s else Detailed(Expanding(s, true, seen), id)
  }

  function Paged(s: State, name: string, loads: bool, seen: Seen): State {
    if !loads then s
    else Expanding(s, true, seen).(detail := None, confirming := None, page := Some(name), stack := PageChild)
  }

  function Asked(s: State, id: Option<string>, seen: Seen): State {
    var t := Refreshed(s.(confirming := id), seen);
    if id.None? then Hovering(t, seen) else t
  }

  function Escaped(s: State, seen: Seen): State {
    if !s.expanded then s
    else if s.confirming.Some? then Asked(s, None, seen)
    else if s.detail.Some? || s.page.Some? then ListShown(s, true, seen)
    else Expanding(s, false, seen)
  }

  function Acting(s: State, id: string, seen: Seen): State {
    if id in s.busy then s else Refreshed(s.(busy := s.busy + {id}, confirming := None), seen)
  }

  function Step(s: State, event: Event, seen: Seen): State {
    match event
    case Pointer(inside) => Hovered(s, inside)
    case TimerFires(source) => Fired(s, source, seen)
    case Press(onMark) => s.(drag := None, carrying := onMark)
    case Travel(far, spot) => Travelled(s, far, spot, seen)
    case Release(spot) => Released(s, spot, seen)
    case Status(sessions, closed, reachable) => Told(s, sessions, closed, reachable, seen)
    case CardsPointer(inside) =>
      var t := s.(pointerInCards := inside);
      if inside then t else Refreshed(t, seen)
    case FocusMoved => if s.expanded then Refreshed(s, seen) else s
    case Escape => Escaped(s, seen)
    case Back => ListShown(s, true, seen)
    case OpenViewer => ListShown(Expanding(s, true, seen), true, seen)
    case SelectSession(id) => Selected(s, id, seen)
    case WatchSessions(id) => Detailed(Expanding(s, true, seen), id)
    case OpenPage(name, loads) => Paged(s, name, loads, seen)
    case OpenSettings(available, loads) =>
      var t := Expanding(s, true, seen);
      if available then Paged(t, "settings", loads, seen) else t
    case AskStop(id) => Asked(s, id, seen)
    case Act(id) => Acting(s, id, seen)
    case ActionDone(id) => Refreshed(s.(busy := s.busy - {id}), seen)
    case RevealDone(id) => if s.detail == Some(id) then Refreshed(s, seen) else s
    case SettingsFile(spot, others) => Stored(s, spot, others, seen)
  }

  function Run(s: State, events: seq<(Event, Seen)>): State
    decreases |events|
  {
    if events == [] then s else Run(Step(s, events[0].0, events[0].1), events[1..])
  }

  // --- What every run keeps ------------------------------------------------------------------------

  /** Every live hover delay is held by its field, and at most one is pending. */
  predicate Held(d: Delays) {
    match (d.openSource, d.closeSource)
    case (None, None) => d.live == map[]
    case (Some(source), None) => d.live == map[source := FinishOpen]
    case (None, Some(source)) => d.live == map[source := FinishClose]
    case (Some(_), Some(_)) => false
  }

  /** Steady, and an open panel has no rendering left to catch up on. */
  predicate Sound(s: State) {
    Steady(s) && (s.expanded ==> !s.cardsStale)
  }

  predicate Steady(s: State) {
    && (s.drag.Some? ==> !s.expanded)
    && !(s.detail.Some? && s.page.Some?)
    && s.stack == (if s.detail.Some? then DetailChild else if s.page.Some? then PageChild else ListChild)
    && Held(s.delays)
  }

  lemma {:induction false} RearmedIsHeld(d: Delays, callback: Callback)
    requires Held(d)
    ensures Held(Rearmed(d, callback))
  {
  }

  lemma {:induction false} ListedKeepsSound(s: State, reopen: bool, seen: Seen)
    requires (s.drag.Some? ==> !s.expanded) && Held(s.delays)
    ensures Steady(ListShown(s, reopen, seen))
    ensures ListShown(s, reopen, seen).(awaitingLeave := s.awaitingLeave, delays := s.delays) ==
            s.(detail := None, page := None, stack := ListChild)
  {
    RearmedIsHeld(s.delays, FinishOpen);
    RearmedIsHeld(s.delays, FinishClose);
    hide Held, Rearmed;
  }

  lemma {:induction false} ReflowedIs(confirming: Option<string>, shown: seq<string>, everyone: seq<string>,
                                      frozen: bool)
    ensures var (asked, plan) := Reflowed(confirming, shown, everyone, frozen);
      && plan == SessionCards.CardPlan(shown, everyone, frozen)
      && asked == (if confirming.Some? && confirming.value in everyone && plan == shown then confirming else None)
  {
  }

  lemma {:induction false} ListedIs(s: State, reopen: bool, seen: Seen)
    ensures var t := ListShown(s, reopen, seen);
      t.shown == s.shown && t.confirming == s.confirming && t.detail.None?
  {
    hide Rearmed;
  }

  /** A refresh shows everyone, unless the list is in use and shows something; it leaves the Stop question armed only
      for a listed session and only when no card moved, and the detail open only for a listed session. */
  lemma {:induction false} RefreshKeepsQuestion(s: State, seen: Seen)
    ensures var t := Refreshed(s, seen);
      && t.shown == (if (s.pointerInCards || seen.focusInList) && s.shown != [] then s.shown else Everyone(s))
      && t.confirming == (if s.confirming.Some? && s.confirming.value in Everyone(s) && t.shown == s.shown
                          then s.confirming else None)
      && t.detail == (if s.detail.Some? && s.detail.value in Everyone(s) then s.detail else None)
      && (t.detail == s.detail ==> t.page == s.page)
  {
    hide Everyone, ListShown, Reflowed;
    var frozen := s.pointerInCards || seen.focusInList;
    var (asked, plan) := Reflowed(s.confirming, s.shown, Everyone(s), frozen);
    ReflowedIs(s.confirming, s.shown, Everyone(s), frozen);
    ListedIs(s.(confirming := asked, shown := plan), true, seen);
  }

  /** A session that moves from the open list to the ended one moves no card and disarms no question, when creation
      times differ: a click meant for one session cannot land on another. */
  lemma {:induction false} EndingMovesNothing(s: State, o1: seq<Session>, x: Session, o2: seq<Session>,
                                              e1: seq<Session>, x': Session, e2: seq<Session>, reachable: bool,
                                              seen: Seen)
    requires s.sessions == o1 + [x] + o2 && s.closed == e1 + e2 && DistinctTimes(s.sessions + s.closed)
    requires x'.sessionId == x.sessionId && x'.createdAt == x.createdAt && s.shown == Everyone(s)
    ensures var t := Told(s, o1 + o2, e1 + [x'] + e2, reachable, seen);
      t.shown == s.shown && (s.confirming.Some? && s.confirming.value in s.shown ==> t.confirming == s.confirming)
  {
    EndingMovesNoCard(o1, x, o2, e1, x', e2);
    var t := s.(sessions := o1 + o2, closed := e1 + [x'] + e2);
    assert Everyone(t) == Everyone(s);
    RefreshKeepsQuestion(t, seen);
    RefreshKeepsQuestion(t.(lastShape := Some(ShapeOf(t.sessions, reachable)), cardsStale := true), seen);
    hide ShapeOf, Refreshed, StableOrder, Ids;
  }

  lemma {:induction false} RefreshedKeepsSteady(s: State, seen: Seen)
    requires Steady(s)
    ensures var t := Refreshed(s, seen);
      Steady(t) && t.expanded == s.expanded && t.drag == s.drag && t.cardsStale == s.cardsStale
  {
    var everyone := Everyone(s);
    var (asked, plan) := Reflowed(s.confirming, s.shown, everyone, s.pointerInCards || seen.focusInList);
    ListedKeepsSound(s.(confirming := asked, shown := plan), true, seen);
    hide ListShown, Reflowed, Everyone;
  }

  lemma {:induction false} RefreshedKeepsSound(s: State, seen: Seen)
    requires Sound(s)
    ensures var t := Refreshed(s, seen);
      Sound(t) && t.expanded == s.expanded && t.drag == s.drag
  {
    RefreshedKeepsSteady(s, seen);
    hide Refreshed, Steady;
  }

  lemma {:induction false} ExpandingKeepsSound(s: State, to: bool, seen: Seen)
    requires Sound(s) || (!to && s.drag.Some? && Sound(s.(drag := None)))
    ensures var t := Expanding(s, to, seen);
      Sound(t) && t.drag == s.drag
  {
    if to {
      if s.drag.None? { RefreshedKeepsSteady(s.(expanded := true), seen); }
    } else {
      ListedKeepsSound(s.(expanded := false, confirming := None), false, seen);
    }
    hide ListShown, Refreshed;
  }

  lemma {:induction false} PointerKeepsSound(s: State, inside: bool)
    requires Sound(s)
    ensures Sound(Hovered(s, inside))
  {
    RearmedIsHeld(s.delays, if inside then FinishOpen else FinishClose);
    hide Held;
  }

  lemma {:induction false} FiredKeepsSound(s: State, source: nat, seen: Seen)
    requires Sound(s)
    ensures Sound(Fired(s, source, seen))
  {
    if source in s.delays.live {
      var t := s.(delays := Spent(s.delays, source));
      ExpandingKeepsSound(t, s.delays.live[source].FinishOpen?, seen);
      hide Expanding;
    }
  }

  lemma {:induction false} DragKeepsSound(s: State, far: bool, spot: Spot, seen: Seen)
    requires Sound(s)
    ensures Sound(Travelled(s, far, spot, seen)) && Sound(Released(s, spot, seen))
  {
    ExpandingKeepsSound(s.(drag := Some(s.docked)), false, seen);
    ExpandingKeepsSound(s, true, seen);
    ListedKeepsSound(Expanding(s, true, seen), true, seen);
    assert Expanding(s.(drag := Some(s.docked)), false, seen).expanded == false by { hide ListShown; }
    hide Expanding, ListShown, Held;
  }

  lemma {:induction false} RenderedKeepsSound(s: State, seen: Seen)
    requires Sound(s)
    ensures Sound(Rendered(s, seen))
  {
    RefreshedKeepsSteady(s.(cardsStale := true), seen);
    hide Refreshed, Held;
  }

  lemma {:induction false} TellingKeepsSound(s: State, sessions: seq<Session>, closed: seq<Session>, reachable: bool,
                                             seen: Seen)
    requires Sound(s)
    ensures Sound(Told(s, sessions, closed, reachable, seen))
  {
    var t := s.(sessions := sessions, closed := closed);
    RefreshedKeepsSound(t, seen);
    RenderedKeepsSound(t.(lastShape := Some(ShapeOf(sessions, reachable))), seen);
    hide ShapeOf, Rendered, Refreshed, Held;
  }

  lemma {:induction false} CardsKeepSound(s: State, event: Event, seen: Seen)
    requires Sound(s)
    requires event.CardsPointer? || event.FocusMoved? || event.Act? || event.ActionDone? || event.RevealDone?
      || event.SettingsFile?
    ensures Sound(Step(s, event, seen))
  {
    hide Rendered, Refreshed, Held;
    RefreshedKeepsSound(s, seen);
    match event
    case SettingsFile(spot, others) =>
      RenderedKeepsSound(s.(docked := spot, others := others), seen);
    case CardsPointer(inside) =>
      RefreshedKeepsSound(s.(pointerInCards := inside), seen);
    case Act(id) =>
      RefreshedKeepsSound(s.(busy := s.busy + {id}, confirming := None), seen);
    case ActionDone(id) =>
      RefreshedKeepsSound(s.(busy := s.busy - {id}), seen);
    case _ =>
  }

  lemma {:induction false} DetailKeepsSound(s: State, id: string)
    requires Sound(s)
    ensures Sound(Detailed(s, id))
  {
    hide Everyone, Held;
  }

  lemma {:induction false} PageKeepsSound(s: State, name: string, loads: bool, seen: Seen)
    requires Sound(s)
    ensures Sound(Paged(s, name, loads, seen))
  {
    ExpandingKeepsSound(s, true, seen);
    hide Expanding, Held;
  }

  lemma {:induction false} PagesKeepSound(s: State, event: Event, seen: Seen)
    requires Sound(s)
    requires event.Back? || event.OpenViewer? || event.SelectSession? || event.WatchSessions? || event.OpenPage?
      || event.OpenSettings?
    ensures Sound(Step(s, event, seen))
  {
    hide Expanding, ListShown, Held, Everyone, Detailed, Paged;
    var t := Expanding(s, true, seen);
    ExpandingKeepsSound(s, true, seen);
    match event
    case Back => ListedKeepsSound(s, true, seen);
    case OpenViewer => ListedKeepsSound(t, true, seen);
    case SelectSession(id) => DetailKeepsSound(t, id);
    case WatchSessions(id) => DetailKeepsSound(t, id);
    case OpenPage(name, loads) => PageKeepsSound(s, name, loads, seen);
    case OpenSettings(_, loads) => PageKeepsSound(t, "settings", loads, seen);
  }

  lemma {:induction false} QuestionsKeepSound(s: State, id: Option<string>, seen: Seen)
    requires Sound(s)
    ensures Sound(Asked(s, id, seen)) && Sound(Escaped(s, seen))
  {
    forall t, inside | Sound(t) { PointerKeepsSound(t, inside); }
    RefreshedKeepsSound(s.(confirming := id), seen);
    RefreshedKeepsSound(s.(confirming := None), seen);
    ListedKeepsSound(s, true, seen);
    ExpandingKeepsSound(s, false, seen);
    hide Hovered, Refreshed, Expanding, ListShown, Held;
  }

  lemma {:induction false} StepKeepsSound(s: State, event: Event, seen: Seen)
    requires Sound(s)
    ensures Sound(Step(s, event, seen))
  {
    hide Hovered, Fired, Travelled, Released, Told, Stored, Refreshed, Rendered, Escaped, ListShown, Expanding,
      Selected,
      Detailed, Paged, Asked, Acting, Held;
    match event
    case Pointer(inside) => PointerKeepsSound(s, inside);
    case TimerFires(source) => FiredKeepsSound(s, source, seen);
    case Press(_) =>
    case Travel(far, spot) => DragKeepsSound(s, far, spot, seen);
    case Release(spot) => DragKeepsSound(s, false, spot, seen);
    case Status(sessions, closed, reachable) => TellingKeepsSound(s, sessions, closed, reachable, seen);
    case CardsPointer(_) | FocusMoved | Act(_) | ActionDone(_) | RevealDone(_) | SettingsFile(_, _) =>
      CardsKeepSound(s, event, seen);
    case AskStop(id) => QuestionsKeepSound(s, id, seen);
    case Escape => QuestionsKeepSound(s, None, seen);
    case Back | OpenViewer | SelectSession(_) | WatchSessions(_) | OpenPage(_, _) | OpenSettings(_, _) =>
      PagesKeepSound(s, event, seen);
  }

  /** Safety of the whole panel: whatever happens in whatever order, the state stays sound. */
  lemma {:induction false} RunKeepsSound(s: State, events: seq<(Event, Seen)>)
    requires Sound(s)
    ensures Sound(Run(s, events))
    decreases |events|
  {
    if events != [] {
      StepKeepsSound(s, events[0].0, events[0].1);
      RunKeepsSound(Step(s, events[0].0, events[0].1), events[1..]);
    }
  }

  // --- What each event changes ---------------------------------------------------------------------

  /** Everybody's cards are in the order the sessions were created in, the open ones before the ended. */
  lemma {:induction false} EveryoneIsListed(s: State) returns (places: seq<nat>)
    ensures var all := s.sessions + s.closed;
      && |places| == |Everyone(s)| == |all|
      && (forall k | 0 <= k < |places| :: places[k] < |all| && Everyone(s)[k] == all[places[k]].sessionId)
      && (forall i, j | 0 <= i < j < |places| :: places[i] != places[j])
      && Stable(all, places)
  {
    places := StableOrderIsStable(s.sessions + s.closed);
    hide StableOrder, Stable;
  }

  /** The fields no view and no refresh touches. */
  function Rest(s: State): State {
    s.(expanded := false, cardsStale := false, confirming := None, shown := [], detail := None, page := None,
       stack := ListChild, awaitingLeave := false, delays := Delays(None, None, map[], 0))
  }

  lemma {:induction false} ListedRest(s: State, reopen: bool, seen: Seen)
    ensures var t := ListShown(s, reopen, seen);
      Rest(t) == Rest(s) && t.detail.None? && t.page.None? && t.confirming == s.confirming && t.shown == s.shown
  {
    hide Rearmed;
  }

  lemma {:induction false} RefreshedRest(s: State, seen: Seen)
    ensures Rest(Refreshed(s, seen)) == Rest(s)
  {
    hide Reflowed, Everyone, ListShown;
    var (asked, plan) := Reflowed(s.confirming, s.shown, Everyone(s), s.pointerInCards || seen.focusInList);
    ListedRest(s.(confirming := asked, shown := plan), true, seen);
  }

  lemma {:induction false} RenderedRest(s: State, seen: Seen)
    ensures Rest(Rendered(s, seen)) == Rest(s)
  {
    hide Refreshed;
    RefreshedRest(s.(cardsStale := true), seen);
  }

  lemma {:induction false} ExpandingRest(s: State, to: bool, seen: Seen)
    ensures Rest(Expanding(s, to, seen)) == Rest(s)
  {
    hide Refreshed, ListShown;
    RefreshedRest(s.(expanded := to), seen);
    ListedRest(s.(expanded := to, confirming := None), false, seen);
  }

  lemma {:induction false} HoveringRest(s: State, seen: Seen)
    ensures Rest(Hovering(s, seen)) == Rest(s)
    ensures var t := Hovering(s, seen);
      t.(awaitingLeave := s.awaitingLeave, delays := s.delays) == s
  {
    hide Rearmed;
  }

  /** What an event says of the fields no view touches: each changes by the events that are about it, and only then. */
  predicate Simple(s: State, event: Event, t: State) {
    && t.sessions == (if event.Status? then event.sessions else s.sessions)
    && t.closed == (if event.Status? then event.closed else s.closed)
    && t.lastShape == (if event.Status? then Some(ShapeOf(event.sessions, event.reachable)) else s.lastShape)
    && t.busy == (if event.Act? then s.busy + {event.id} else if event.ActionDone? then s.busy - {event.id} else s.busy)
    && t.pointerInCards == (if event.CardsPointer? then event.inside else s.pointerInCards)
    && t.carrying == (if event.Press? then event.onMark else s.carrying)
    && t.drag == (if event.Press? || event.Release? then None
                  else if event.Travel? && s.carrying && (event.far || s.drag.Some?) then Some(event.spot)
                  else s.drag)
    && t.docked == (if event.SettingsFile? || (event.Release? && s.drag.Some?) then event.spot else s.docked)
    && t.others == (if event.SettingsFile? then event.others else s.others)
  }

  lemma {:induction false} ByRest(s: State, event: Event, u: State, t: State)
    requires Simple(s, event, u) && Rest(t) == Rest(u)
    ensures Simple(s, event, t)
  {
    hide ShapeOf;
    assert Rest(t).sessions == Rest(u).sessions;
  }

  lemma {:induction false} ViewsRest(s: State, detail: Option<string>, page: Option<string>, stack: Child)
    ensures Rest(s.(confirming := None, detail := detail, page := page, stack := stack)) == Rest(s)
  {
  }

  lemma {:induction false} TimersAreSimple(s: State, event: Event, seen: Seen)
    requires event.Pointer? || event.TimerFires? || event.Press?
    ensures Simple(s, event, Step(s, event, seen))
  {
    hide Refreshed, ListShown, Expanding, Rearmed, Spent, ShapeOf;
    match event
    case TimerFires(source) =>
      if source in s.delays.live {
        var u := s.(delays := Spent(s.delays, source));
        ExpandingRest(u, s.delays.live[source].FinishOpen?, seen);
        ByRest(s, event, s, Step(s, event, seen));
      }
    case _ =>
  }

  lemma {:induction false} DragsAreSimple(s: State, event: Event, seen: Seen)
    requires event.Travel? || event.Release?
    ensures Simple(s, event, Step(s, event, seen))
  {
    hide Refreshed, ListShown, Expanding, ShapeOf;
    var t := Step(s, event, seen);
    match event
    case Travel(_, spot) =>
      ExpandingRest(s.(drag := Some(s.docked)), false, seen);
      if t != s { ByRest(s, event, s.(drag := Some(spot)), t); }
    case Release(_) =>
      ExpandingRest(s, true, seen);
      ListedRest(Expanding(s, true, seen), true, seen);
      if s.drag.None? { ByRest(s, event, s, t); }
  }

  lemma {:induction false} CardsAreSimple(s: State, event: Event, seen: Seen)
    requires event.CardsPointer? || event.FocusMoved? || event.Act? || event.ActionDone? || event.RevealDone?
    ensures Simple(s, event, Step(s, event, seen))
  {
    hide Refreshed, Rest;
    var t := Step(s, event, seen);
    match event
    case CardsPointer(inside) =>
      RefreshedRest(s.(pointerInCards := inside), seen);
      ByRest(s, event, s.(pointerInCards := inside), t);
    case Act(id) =>
      var u := s.(busy := s.busy + {id}, confirming := None);
      RefreshedRest(u, seen);
      assert id in s.busy ==> s.busy + {id} == s.busy;
      if id !in s.busy { ByRest(s, event, u, t); }
    case ActionDone(id) =>
      RefreshedRest(s.(busy := s.busy - {id}), seen);
      ByRest(s, event, s.(busy := s.busy - {id}), t);
    case _ =>
      RefreshedRest(s, seen);
      ByRest(s, event, s, t);
  }

  lemma {:induction false} NewsIsSimple(s: State, event: Event, seen: Seen)
    requires event.Status? || event.SettingsFile?
    ensures Simple(s, event, Step(s, event, seen))
  {
    hide Refreshed, Rendered, ShapeOf, Rest;
    var t := Step(s, event, seen);
    match event
    case Status(sessions, closed, reachable) =>
      var u := s.(sessions := sessions, closed := closed, lastShape := Some(ShapeOf(sessions, reachable)));
      RefreshedRest(u, seen);
      RenderedRest(u, seen);
      assert Some(ShapeOf(sessions, reachable)) == s.lastShape ==> u == s.(sessions := sessions, closed := closed);
      ByRest(s, event, u, t);
    case SettingsFile(spot, others) =>
      var u := s.(docked := spot, others := others);
      RenderedRest(u, seen);
      assert spot == s.docked && others == s.others ==> u == s;
      ByRest(s, event, u, t);
  }

  lemma {:induction false} PagesRest(s: State, event: Event, seen: Seen)
    requires event.Back? || event.OpenViewer? || event.SelectSession? || event.WatchSessions? || event.OpenPage?
      || event.OpenSettings?
    ensures Rest(Step(s, event, seen)) == Rest(s)
  {
    hide Expanding, ListShown, Everyone, Rest;
    var t := Expanding(s, true, seen);
    ExpandingRest(s, true, seen);
    match event
    case Back => ListedRest(s, true, seen);
    case OpenViewer => ListedRest(t, true, seen);
    case SelectSession(id) => ViewsRest(t, Some(id), None, DetailChild);
    case WatchSessions(id) => ViewsRest(t, Some(id), None, DetailChild);
    case OpenPage(name, _) => ViewsRest(t, None, Some(name), PageChild);
    case OpenSettings(_, _) =>
      ExpandingRest(t, true, seen);
      ViewsRest(Expanding(t, true, seen), None, Some("settings"), PageChild);
  }

  lemma {:induction false} QuestionsRest(s: State, event: Event, seen: Seen)
    requires event.AskStop? || event.Escape?
    ensures Rest(Step(s, event, seen)) == Rest(s)
  {
    hide Expanding, Refreshed, ListShown, Hovering;
    var id := if event.AskStop? then event.about else None;
    RefreshedRest(s.(confirming := id), seen);
    HoveringRest(Refreshed(s.(confirming := id), seen), seen);
    ListedRest(s, true, seen);
    ExpandingRest(s, false, seen);
  }

  lemma {:induction false} PagesAreSimple(s: State, event: Event, seen: Seen)
    requires event.Back? || event.OpenViewer? || event.SelectSession? || event.WatchSessions? || event.OpenPage?
      || event.OpenSettings? || event.AskStop? || event.Escape?
    ensures Simple(s, event, Step(s, event, seen))
  {
    hide Step, Rest, ShapeOf;
    if event.AskStop? || event.Escape? {
      QuestionsRest(s, event, seen);
    } else {
      PagesRest(s, event, seen);
    }
    ByRest(s, event, s, Step(s, event, seen));
  }

  lemma {:induction false} StepIsSimple(s: State, event: Event, seen: Seen)
    ensures Simple(s, event, Step(s, event, seen))
  {
    hide Step, Simple;
    if event.Pointer? || event.TimerFires? || event.Press? {
      TimersAreSimple(s, event, seen);
    } else if event.Travel? || event.Release? {
      DragsAreSimple(s, event, seen);
    } else if event.CardsPointer? || event.FocusMoved? || event.Act? || event.ActionDone? || event.RevealDone? {
      CardsAreSimple(s, event, seen);
    } else if event.Status? || event.SettingsFile? {
      NewsIsSimple(s, event, seen);
    } else {
      PagesAreSimple(s, event, seen);
    }
  }

  /** Events that leave the settings alone: all but a release and a file somebody stored. */
  predicate LeavesSettings(event: Event) {
    !event.Release? && !event.SettingsFile?
  }

  lemma {:induction false} RunKeepsSettings(s: State, events: seq<(Event, Seen)>)
    requires forall i | 0 <= i < |events| :: LeavesSettings(events[i].0)
    ensures var t := Run(s, events);
      t.docked == s.docked && t.others == s.others
    decreases |events|
  {
    hide Step;
    if events != [] {
      StepIsSimple(s, events[0].0, events[0].1);
      RunKeepsSettings(Step(s, events[0].0, events[0].1), events[1..]);
    }
  }

  /** A drop stores where the mark went, a little later; whatever happens meanwhile, the panel finds its own settings in
      the file, and nothing changes. */
  lemma {:induction false} OwnSettingsAreNoChange(s: State, spot: Spot, seen: Seen, between: seq<(Event, Seen)>,
                                                  after: Seen)
    requires s.drag.Some? && forall i | 0 <= i < |between| :: LeavesSettings(between[i].0)
    ensures var t := Run(Step(s, Release(spot), seen), between);
      Step(t, SettingsFile(spot, s.others), after) == t
  {
    RunKeepsSettings(Step(s, Release(spot), seen), between);
    hide Run;
  }

  // --- The cards, the question and the views after each event ---------------------------------------

  /** Events after which the visible views are brought up to date. */
  predicate Redraws(s: State, event: Event) {
    (!s.expanded && Opens(s, event)) ||
    match event
    case Status(_, _, _) => s.expanded
    case SettingsFile(spot, others) => s.expanded && (spot != s.docked || others != s.others)
    case CardsPointer(inside) => !inside
    case FocusMoved => s.expanded
    case AskStop(_) => true
    case Escape => s.expanded && s.confirming.Some?
    case Act(id) => id !in s.busy
    case ActionDone(_) => true
    case RevealDone(id) => s.detail == Some(id)
    case _ => false
  }

  /** Events by which the person turns from the question to something else. */
  predicate Answers(s: State, event: Event, seen: Seen) {
    (s.expanded && Closes(s, event, seen)) ||
    match event
    case Escape => s.expanded
    case SelectSession(id) => id in Everyone(s)
    case WatchSessions(id) => id in Everyone(s)
    case OpenPage(_, loads) => loads
    case OpenSettings(available, loads) => available && loads
    case Act(id) => id !in s.busy
    case _ => false
  }

  /** Events that go back to the list of cards. */
  predicate Leaves(s: State, event: Event, seen: Seen) {
    (s.expanded && Closes(s, event, seen)) ||
    match event
    case Back => true
    case OpenViewer => true
    case Release(_) => s.drag.None? && s.carrying
    case Escape => s.expanded && s.confirming.None?
    case _ => false
  }

  /** A refresh is of everyone, except where the list is in use and shows something. */
  predicate UpToDate(s: State, t: State, event: Event, seen: Seen) {
    t.shown ==
      if Redraws(s, event) && !((t.pointerInCards || seen.focusInList) && s.shown != []) then Everyone(t) else s.shown
  }

  function Wanted(s: State, event: Event, seen: Seen): Option<string> {
    if event.AskStop? then event.about else if Answers(s, event, seen) then None else s.confirming
  }

  /** The Stop question afterwards: the one asked, if its session is listed and no card moved; otherwise the one there
      was, unless the person turned away from it or a refresh dropped it. */
  predicate Armed(s: State, t: State, event: Event, seen: Seen) {
    var asked := Wanted(s, event, seen);
    t.confirming ==
      if asked.Some? && (Redraws(s, event) ==> asked.value in Everyone(t) && t.shown == s.shown) then asked else None
  }

  /** Events that open a detail or a page. */
  predicate Turns(s: State, event: Event) {
    match event
    case SelectSession(id) => id in Everyone(s)
    case WatchSessions(id) => id in Everyone(s)
    case OpenPage(_, loads) => loads
    case OpenSettings(available, loads) => available && loads
    case _ => false
  }

  /** The session whose detail is open, and the page. */
  predicate Viewed(s: State, t: State, event: Event, seen: Seen) {
    if (event.SelectSession? || event.WatchSessions?) && event.id in Everyone(s) then
      t.detail == Some(event.id) && t.page == None
    else if event.OpenPage? && event.loads then t.detail == None && t.page == Some(event.name)
    else if event.OpenSettings? && event.available && event.loads then t.detail == None && t.page == Some("settings")
    else if Leaves(s, event, seen) then t.detail == None && t.page == None
    else
      && t.page == s.page
      && t.detail ==
           if Redraws(s, event) && s.detail.Some? && s.detail.value !in Everyone(t) then None else s.detail
  }

  predicate Views(s: State, event: Event, seen: Seen) {
    var t := Step(s, event, seen);
    UpToDate(s, t, event, seen) && Armed(s, t, event, seen) && Viewed(s, t, event, seen)
  }

  lemma {:induction false} EveryoneByRest(s: State, t: State)
    requires Rest(s) == Rest(t)
    ensures Everyone(s) == Everyone(t) && s.pointerInCards == t.pointerInCards && s.drag == t.drag
  {
    assert Rest(s).sessions == Rest(t).sessions && Rest(s).closed == Rest(t).closed;
    hide StableOrder, Ids;
  }

  /** What a refresh leaves of a state, with everyone still the same. */
  predicate Redrawn(u: State, t: State, seen: Seen) {
    && Everyone(t) == Everyone(u) && t.pointerInCards == u.pointerInCards && t.expanded == u.expanded
    && t.shown == (if (u.pointerInCards || seen.focusInList) && u.shown != [] then u.shown else Everyone(u))
    && t.confirming == (if u.confirming.Some? && u.confirming.value in Everyone(u) && t.shown == u.shown
                        then u.confirming else None)
    && t.detail == (if u.detail.Some? && u.detail.value in Everyone(u) then u.detail else None)
    && (t.detail == u.detail ==> t.page == u.page) && (t.detail != u.detail ==> t.page == None)
  }

  lemma {:induction false} RefreshedView(u: State, seen: Seen)
    ensures Redrawn(u, Refreshed(u, seen), seen)
  {
    RefreshKeepsQuestion(u, seen);
    RefreshedRest(u, seen);
    RefreshedIsAsOpen(u, seen);
    EveryoneByRest(u, Refreshed(u, seen));
    DroppedDetail(u, seen);
    hide Refreshed, Everyone;
  }

  lemma {:induction false} DroppedDetail(u: State, seen: Seen)
    ensures Refreshed(u, seen).detail != u.detail ==> Refreshed(u, seen).page == None
  {
    hide Everyone, ListShown, Reflowed;
    var (asked, plan) := Reflowed(u.confirming, u.shown, Everyone(u), u.pointerInCards || seen.focusInList);
    ListedRest(u.(confirming := asked, shown := plan), true, seen);
  }

  lemma {:induction false} ExpandingView(u: State, to: bool, seen: Seen)
    requires to && u.expanded ==> !u.cardsStale
    ensures var t := Expanding(u, to, seen);
      if to && u.drag.None? && !u.expanded then Redrawn(u.(expanded := true), t, seen)
      else if !to && u.expanded then t.shown == u.shown && t.confirming == None && t.detail == None && t.page == None
      else t == u
    ensures var t := Expanding(u, to, seen);
      Everyone(t) == Everyone(u) && t.pointerInCards == u.pointerInCards && t.drag == u.drag
  {
    hide Refreshed, ListShown, Rest;
    RefreshedView(u.(expanded := true), seen);
    ListedRest(u.(expanded := to, confirming := None), false, seen);
    ExpandingRest(u, to, seen);
    EveryoneByRest(u, Expanding(u, to, seen));
    assert Everyone(u.(expanded := true)) == Everyone(u);
    hide Everyone;
  }

  lemma {:induction false} QuestionRedrawn(s: State, event: Event, seen: Seen, u: State, t: State)
    requires Redraws(s, event) && Redrawn(u, t, seen) && u.shown == s.shown && u.confirming == Wanted(s, event, seen)
    ensures UpToDate(s, t, event, seen) && Armed(s, t, event, seen)
  {
    hide Redraws, Wanted, Everyone;
  }

  lemma {:induction false} QuestionSame(s: State, event: Event, seen: Seen, t: State)
    requires !Redraws(s, event) && t.shown == s.shown && t.confirming == Wanted(s, event, seen)
    ensures UpToDate(s, t, event, seen) && Armed(s, t, event, seen)
  {
    hide Redraws, Wanted, Everyone;
  }

  lemma {:induction false} QuestionCarried(s: State, event: Event, seen: Seen, e: State, t: State)
    requires UpToDate(s, e, event, seen) && Armed(s, e, event, seen)
    requires t.shown == e.shown && t.confirming == e.confirming && Rest(t) == Rest(e)
    ensures UpToDate(s, t, event, seen) && Armed(s, t, event, seen)
  {
    EveryoneByRest(e, t);
    hide Redraws, Wanted, Everyone;
  }

  lemma {:induction false} ViewRedrawn(s: State, event: Event, seen: Seen, u: State, t: State)
    requires Redraws(s, event) && !Turns(s, event) && !Leaves(s, event, seen) && Redrawn(u, t, seen)
    requires u.detail == s.detail && u.page == s.page && (s.detail.Some? ==> s.page.None?)
    ensures Viewed(s, t, event, seen)
  {
    hide Redraws, Leaves, Everyone;
    assert Turns(s, event) || !((event.SelectSession? || event.WatchSessions?) && event.id in Everyone(s));
  }

  lemma {:induction false} ViewSame(s: State, event: Event, seen: Seen, t: State)
    requires !Redraws(s, event) && !Turns(s, event) && !Leaves(s, event, seen)
    requires t.detail == s.detail && t.page == s.page
    ensures Viewed(s, t, event, seen)
  {
    hide Redraws, Leaves, Everyone;
  }

  lemma {:induction false} ViewLeft(s: State, event: Event, seen: Seen, t: State)
    requires Leaves(s, event, seen) && !Turns(s, event) && t.detail == None && t.page == None
    ensures Viewed(s, t, event, seen)
  {
    hide Redraws, Leaves, Everyone;
  }

  /** A refresh, of what the event first made of the state. */
  lemma {:induction false} RedrawnViews(s: State, event: Event, seen: Seen, u: State)
    requires Sound(s) && Redraws(s, event) && !Turns(s, event) && !Leaves(s, event, seen)
    requires Step(s, event, seen) == Refreshed(u, seen)
      || Step(s, event, seen) == Refreshed(u, seen).(cardsStale := false)
    requires u.shown == s.shown && u.confirming == Wanted(s, event, seen) && u.detail == s.detail && u.page == s.page
    ensures Views(s, event, seen)
  {
    hide Step, Refreshed, Redraws, Leaves, Turns, Wanted, Everyone, Held, UpToDate, Armed, Viewed;
    RefreshedView(u, seen);
    var t := Step(s, event, seen);
    RedrawnByRest(u, Refreshed(u, seen), t, seen);
    QuestionRedrawn(s, event, seen, u, t);
    ViewRedrawn(s, event, seen, u, t);
  }

  lemma {:induction false} RedrawnByRest(u: State, r: State, t: State, seen: Seen)
    requires Redrawn(u, r, seen) && (t == r || t == r.(cardsStale := false))
    ensures Redrawn(u, t, seen)
  {
    EveryoneByRest(r, t);
    hide Everyone;
  }

  lemma {:induction false} SameViews(s: State, event: Event, seen: Seen)
    requires !Redraws(s, event) && !Turns(s, event) && !Leaves(s, event, seen) && Wanted(s, event, seen) == s.confirming
    requires var t := Step(s, event, seen);
      t.shown == s.shown && t.confirming == s.confirming && t.detail == s.detail && t.page == s.page
    ensures Views(s, event, seen)
  {
    hide Step, Redraws, Leaves, Turns, Wanted, Everyone, UpToDate, Armed, Viewed;
    QuestionSame(s, event, seen, Step(s, event, seen));
    ViewSame(s, event, seen, Step(s, event, seen));
  }

  lemma {:induction false} CardsViews(s: State, event: Event, seen: Seen)
    requires Sound(s) && (event.CardsPointer? || event.FocusMoved? || event.Act? || event.ActionDone?
                          || event.RevealDone?)
    ensures Views(s, event, seen)
  {
    hide Views, Refreshed, Held;
    if Redraws(s, event) {
      match event
      case CardsPointer(inside) => RedrawnViews(s, event, seen, s.(pointerInCards := inside));
      case Act(id) => RedrawnViews(s, event, seen, s.(busy := s.busy + {id}, confirming := None));
      case ActionDone(id) => RedrawnViews(s, event, seen, s.(busy := s.busy - {id}));
      case _ => RedrawnViews(s, event, seen, s);
    } else {
      SameViews(s, event, seen);
    }
  }

  lemma {:induction false} NewsViews(s: State, event: Event, seen: Seen)
    requires Sound(s) && (event.Status? || event.SettingsFile?)
    ensures Views(s, event, seen)
  {
    hide Views, Refreshed, Held, ShapeOf;
    if Redraws(s, event) {
      match event
      case Status(sessions, closed, reachable) =>
        var t := s.(sessions := sessions, closed := closed);
        var shape := Some(ShapeOf(sessions, reachable));
        RedrawnViews(s, event, seen,
          if shape == s.lastShape then t else t.(lastShape := shape, cardsStale := true));
      case SettingsFile(spot, others) =>
        RedrawnViews(s, event, seen, s.(docked := spot, others := others, cardsStale := true));
    } else {
      SameViews(s, event, seen);
    }
  }

  /** Opening, after which the list is shown or not: the click on the mark, the request for the list, the end of the
      opening delay. */
  lemma {:induction false} OpeningViews(s: State, event: Event, seen: Seen, u: State)
    requires Sound(s) && Opens(s, event) && !Turns(s, event) && Wanted(s, event, seen) == s.confirming
    requires Redraws(s, event) <==> !s.expanded
    requires u == s.(delays := u.delays)
    requires var e := Expanding(u, true, seen);
      if Leaves(s, event, seen) then Step(s, event, seen) == ListShown(e, true, seen) else Step(s, event, seen) == e
    ensures Views(s, event, seen)
  {
    hide Step, Opens, Redraws, Leaves, Turns, Wanted, Everyone, Held, UpToDate, Armed, Viewed, ListShown, Expanding,
      Redrawn, Rest;
    var e, t := Expanding(u, true, seen), Step(s, event, seen);
    OpensUndragged(s, event);
    ExpandingView(u, true, seen);
    if s.expanded {
      QuestionSame(s, event, seen, e);
    } else {
      QuestionRedrawn(s, event, seen, u.(expanded := true), e);
    }
    if Leaves(s, event, seen) {
      ListedRest(e, true, seen);
      QuestionCarried(s, event, seen, e, t);
      ViewLeft(s, event, seen, t);
    } else if s.expanded {
      ViewSame(s, event, seen, t);
    } else {
      ViewRedrawn(s, event, seen, u.(expanded := true), t);
    }
  }

  lemma {:induction false} OpensUndragged(s: State, event: Event)
    ensures Opens(s, event) ==> s.drag.None?
  {
    hide Everyone;
  }

  /** Collapsing. */
  lemma {:induction false} ClosingViews(s: State, event: Event, seen: Seen, t: State)
    requires s.expanded && Leaves(s, event, seen) && Answers(s, event, seen) && !Turns(s, event) && !Redraws(s, event)
    requires !event.AskStop? && Step(s, event, seen) == t
    requires t.shown == s.shown && t.confirming == None && t.detail == None && t.page == None
    ensures Views(s, event, seen)
  {
    assert Wanted(s, event, seen) == None;
    hide Step, Redraws, Leaves, Answers, Turns, Wanted, Everyone, UpToDate, Armed, Viewed;
    QuestionSame(s, event, seen, t);
    ViewLeft(s, event, seen, t);
  }

  lemma {:induction false} DelayViews(s: State, source: nat, seen: Seen)
    requires Sound(s)
    ensures Views(s, TimerFires(source), seen)
  {
    hide Views, Refreshed, ListShown, Expanding;
    var event := TimerFires(source);
    if source in s.delays.live {
      var u := s.(delays := Spent(s.delays, source));
      ExpandingView(u, s.delays.live[source].FinishOpen?, seen);
      if Opens(s, event) {
        OpeningViews(s, event, seen, u);
      } else if s.expanded && Closes(s, event, seen) {
        ClosingViews(s, event, seen, Step(s, event, seen));
      } else {
        SameViews(s, event, seen);
      }
    } else {
      SameViews(s, event, seen);
    }
  }

  lemma {:induction false} TimersViews(s: State, event: Event, seen: Seen)
    requires Sound(s) && (event.Pointer? || event.Press? || event.Travel? || event.Release?)
    ensures Views(s, event, seen)
  {
    hide Views, Refreshed, ListShown, Expanding, Rearmed, Held;
    match event
    case Travel(_, _) =>
      ExpandingView(s.(drag := Some(s.docked)), false, seen);
      if s.expanded && Closes(s, event, seen) {
        ClosingViews(s, event, seen, Step(s, event, seen));
      } else {
        SameViews(s, event, seen);
      }
    case Release(_) =>
      if Opens(s, event) {
        OpeningViews(s, event, seen, s);
      } else {
        SameViews(s, event, seen);
      }
    case _ => SameViews(s, event, seen);
  }

  lemma {:induction false} ShownRedrawn(s: State, event: Event, seen: Seen, u: State, e: State)
    requires Redraws(s, event) && Redrawn(u, e, seen) && u.shown == s.shown
    ensures UpToDate(s, e, event, seen)
  {
    hide Redraws, Everyone;
  }

  lemma {:induction false} ShownCarried(s: State, event: Event, seen: Seen, e: State, t: State)
    requires UpToDate(s, e, event, seen) && t.shown == e.shown && Rest(t) == Rest(e)
    ensures UpToDate(s, t, event, seen)
  {
    EveryoneByRest(e, t);
    hide Redraws, Everyone;
  }

  /** A detail or a page is opened, from what opening the panel makes of the state. */
  lemma {:induction false} TurningViews(s: State, event: Event, seen: Seen, e: State)
    requires Sound(s) && Turns(s, event) && Answers(s, event, seen) && e == Expanding(s, true, seen)
    requires Redraws(s, event) <==> !s.expanded && s.drag.None?
    requires var t := Step(s, event, seen);
      t.shown == e.shown && t.confirming == None && Rest(t) == Rest(e)
    ensures UpToDate(s, Step(s, event, seen), event, seen) && Armed(s, Step(s, event, seen), event, seen)
  {
    assert Wanted(s, event, seen) == None by { hide Everyone, Answers, Step, Rest, Expanding; }
    TurningShows(s, event, seen, e);
    hide Step, Redraws, Answers, Turns, Wanted, Everyone, Held, Expanding, UpToDate;
    ShownCarried(s, event, seen, e, Step(s, event, seen));
  }

  lemma {:induction false} TurningShows(s: State, event: Event, seen: Seen, e: State)
    requires Sound(s) && e == Expanding(s, true, seen) && (Redraws(s, event) <==> !s.expanded && s.drag.None?)
    ensures UpToDate(s, e, event, seen)
  {
    hide Redraws, Everyone, Held, Expanding, Redrawn;
    ExpandingView(s, true, seen);
    if Redraws(s, event) {
      ShownRedrawn(s, event, seen, s.(expanded := true), e);
    }
  }

  lemma {:induction false} PagesViews(s: State, event: Event, seen: Seen)
    requires Sound(s) && (event.Back? || event.OpenViewer?)
    ensures Views(s, event, seen)
  {
    hide ListShown, Expanding, Held, UpToDate, Armed, Rest, Everyone;
    if event.OpenViewer? && s.drag.None? {
      OpeningViews(s, event, seen, s);
    } else {
      assert event.OpenViewer? ==> Expanding(s, true, seen) == s by { ExpandingView(s, true, seen); }
      ListedRest(s, true, seen);
      QuestionSame(s, event, seen, Step(s, event, seen));
    }
  }

  /** What is opened: the detail of a session, or a page. */
  lemma {:induction false} TurnedViews(s: State, event: Event, seen: Seen, e: State, detail: Option<string>,
                                       page: Option<string>, stack: Child)
    requires Sound(s) && Turns(s, event) && e == Expanding(s, true, seen)
    requires Step(s, event, seen) == e.(confirming := None, detail := detail, page := page, stack := stack)
    requires if event.SelectSession? || event.WatchSessions? then detail == Some(event.id) && page == None
             else detail == None && page == Some(if event.OpenPage? then event.name else "settings")
    ensures Views(s, event, seen)
  {
    TurnsAnswers(s, event, seen);
    ViewsRest(e, detail, page, stack);
    TurnedIsViewed(s, Step(s, event, seen), event, seen);
    hide Step, Answers, Turns, Expanding, UpToDate, Armed, Viewed, Rest, Everyone, Redraws;
    TurningViews(s, event, seen, e);
  }

  lemma {:induction false} TurnsAnswers(s: State, event: Event, seen: Seen)
    requires Turns(s, event)
    ensures Answers(s, event, seen) && (Redraws(s, event) <==> !s.expanded && s.drag.None?)
  {
    hide Everyone;
  }

  lemma {:induction false} TurnedIsViewed(s: State, t: State, event: Event, seen: Seen)
    requires Turns(s, event)
    requires if event.SelectSession? || event.WatchSessions? then t.detail == Some(event.id) && t.page == None
             else t.detail == None && t.page == Some(if event.OpenPage? then event.name else "settings")
    ensures Viewed(s, t, event, seen)
  {
    hide Everyone, Redraws, Leaves;
  }

  /** The panel opens and shows neither a detail nor a page more. */
  lemma {:induction false} JustOpeningViews(s: State, event: Event, seen: Seen)
    requires Sound(s) && !Turns(s, event) && Step(s, event, seen) == Expanding(s, true, seen)
    requires event.WatchSessions? || event.OpenSettings?
    ensures Views(s, event, seen)
  {
    hide Views, Step, Expanding, Everyone;
    if s.drag.None? {
      OpeningViews(s, event, seen, s);
    } else {
      ExpandingView(s, true, seen);
      SameViews(s, event, seen);
    }
  }

  lemma {:induction false} DetailsViews(s: State, event: Event, seen: Seen)
    requires Sound(s) && (event.SelectSession? || event.WatchSessions?)
    ensures Views(s, event, seen)
  {
    hide Expanding, Held, Views, Everyone;
    var e := Expanding(s, true, seen);
    EveryoneAfterOpening(s, seen);
    if event.id in Everyone(s) {
      TurnedViews(s, event, seen, e, Some(event.id), None, DetailChild);
    } else if event.WatchSessions? {
      JustOpeningViews(s, event, seen);
    } else {
      SameViews(s, event, seen);
    }
  }

  lemma {:induction false} EveryoneAfterOpening(s: State, seen: Seen)
    requires Sound(s)
    ensures Everyone(Expanding(s, true, seen)) == Everyone(s)
  {
    ExpandingView(s, true, seen);
    hide Expanding, Everyone;
  }

  lemma {:induction false} OpenedTwice(s: State, seen: Seen)
    requires Sound(s)
    ensures Expanding(Expanding(s, true, seen), true, seen) == Expanding(s, true, seen)
  {
    hide Held, Refreshed;
    RefreshedIsAsOpen(s.(expanded := true), seen);
  }

  lemma {:induction false} SettingsViews(s: State, event: Event, seen: Seen)
    requires Sound(s) && (event.OpenPage? || event.OpenSettings?)
    ensures Views(s, event, seen)
  {
    hide Expanding, Held, Views, Everyone;
    var e := Expanding(s, true, seen);
    OpenedTwice(s, seen);
    if Turns(s, event) {
      TurnedViews(s, event, seen, e, None, Step(s, event, seen).page, PageChild);
    } else if event.OpenSettings? {
      JustOpeningViews(s, event, seen);
    } else {
      SameViews(s, event, seen);
    }
  }

  lemma {:induction false} QuestionsViews(s: State, event: Event, seen: Seen)
    requires Sound(s) && (event.AskStop? || event.Escape?)
    ensures Views(s, event, seen)
  {
    hide Views, Sound;
    if event.AskStop? {
      AskingViews(s, event, seen);
    } else {
      EscapingViews(s, event, seen);
    }
  }

  lemma {:induction false} AskingViews(s: State, event: Event, seen: Seen)
    requires Sound(s) && event.AskStop?
    ensures Views(s, event, seen)
  {
    hide Refreshed, ListShown, Expanding, Hovering, Held, StableOrder, Ids;
    RefreshedView(s.(confirming := event.about), seen);
    HoveringRest(Refreshed(s.(confirming := event.about), seen), seen);
  }

  lemma {:induction false} EscapingViews(s: State, event: Event, seen: Seen)
    requires Sound(s) && event.Escape?
    ensures Views(s, event, seen)
  {
    hide Refreshed, ListShown, Expanding, Hovering, Held, StableOrder, Ids;
    RefreshedView(s.(confirming := None), seen);
    HoveringRest(Refreshed(s.(confirming := None), seen), seen);
    ListedRest(s, true, seen);
    ExpandingView(s, false, seen);
  }

  /** Of every event and in every sound state: which cards are shown afterwards, which question is open, and which
      detail or page. */
  lemma {:induction false} ViewsExactly(s: State, event: Event, seen: Seen)
    requires Sound(s)
    ensures var t := Step(s, event, seen);
      UpToDate(s, t, event, seen) && Armed(s, t, event, seen) && Viewed(s, t, event, seen)
  {
    hide Step, Sound, UpToDate, Armed, Viewed;
    if event.TimerFires? {
      DelayViews(s, event.source, seen);
    } else if event.Pointer? || event.Press? || event.Travel? || event.Release? {
      TimersViews(s, event, seen);
    } else if event.CardsPointer? || event.FocusMoved? || event.Act? || event.ActionDone? || event.RevealDone? {
      CardsViews(s, event, seen);
    } else if event.Status? || event.SettingsFile? {
      NewsViews(s, event, seen);
    } else if event.AskStop? || event.Escape? {
      QuestionsViews(s, event, seen);
    } else if event.OpenPage? || event.OpenSettings? {
      SettingsViews(s, event, seen);
    } else if event.SelectSession? || event.WatchSessions? {
      DetailsViews(s, event, seen);
    } else {
      PagesViews(s, event, seen);
    }
  }

  /** A Stop question is armed for the session it is asked about exactly when that is listed and no card moved; nothing
      but asking ever opens one. */
  lemma {:induction false} AskingArms(s: State, event: Event, seen: Seen)
    requires Sound(s)
    ensures var t := Step(s, event, seen);
      if event.AskStop? then
        t.confirming ==
          if event.about.Some? && event.about.value in Everyone(s) && t.shown == s.shown then event.about else None
      else t.confirming == s.confirming || t.confirming == None
  {
    ViewsExactly(s, event, seen);
    StepIsSimple(s, event, seen);
    hide Step, UpToDate, Viewed, Answers, StableOrder, Ids;
  }

  // --- What the pointer decides ---------------------------------------------------------------------

  /** One delay is pending, of one kind, and it is a new one. */
  predicate Started(d: Delays, inside: bool, source: nat) {
    && d.next == source + 1
    && (if inside then d.openSource == Some(source) && d.closeSource == None
        else d.openSource == None && d.closeSource == Some(source))
    && d.live == map[source := if inside then FinishOpen else FinishClose]
  }

  /** A pointer that comes or goes starts the delay of its kind in place of any other, and one that goes ends the wait
      for it to go; but not during a drag, and a pointer that has not left since the drop starts nothing. */
  lemma {:induction false} PointerStartsDelay(s: State, inside: bool, seen: Seen)
    requires Sound(s)
    ensures var t := Step(s, Pointer(inside), seen);
      if s.drag.Some? || (s.awaitingLeave && inside) then t == s
      else !t.awaitingLeave && Started(t.delays, inside, s.delays.next)
           && t.(awaitingLeave := s.awaitingLeave, delays := s.delays) == s
  {
  }

  lemma {:induction false} RefreshedAside(u: State, hover: Option<bool>, focus: bool)
    requires u.detail.Some? ==> u.detail.value in Everyone(u)
    ensures Refreshed(u, Seen(hover, focus)) == Refreshed(u, Seen(None, focus))
  {
    hide Everyone, Reflowed, ListShown;
  }

  /** Where a view or a question that held the panel open goes away, it is as if the pointer had come or gone just
      then. */
  lemma {:induction false} PointerDecidesAgain(s: State, event: Event, inside: bool, focus: bool)
    requires (event.Back? && (s.detail.Some? || s.page.Some?)) || (event.AskStop? && event.about.None?)
      || (event.Escape? && s.expanded && (s.confirming.Some? || s.detail.Some? || s.page.Some?))
    requires s.detail.Some? ==> s.detail.value in Everyone(s)
    ensures Step(s, event, Seen(Some(inside), focus)) ==
      Step(Step(s, event, Seen(None, focus)), Pointer(inside), Seen(Some(inside), focus))
  {
    hide Rearmed, Refreshed, StableOrder, Ids;
    assert Everyone(s.(confirming := None)) == Everyone(s);
    RefreshedAside(s.(confirming := None), Some(inside), focus);
  }

  /** The delays are as they were, and so is the wait for the pointer to leave. */
  predicate Quiet(s: State, t: State) {
    t.awaitingLeave == s.awaitingLeave && t.delays == s.delays
  }

  lemma {:induction false} RefreshedQuiet(s: State, focus: bool)
    ensures Quiet(s, Refreshed(s, Seen(None, focus)))
  {
    hide Everyone, Reflowed;
  }

  lemma {:induction false} ExpandingQuiet(s: State, to: bool, focus: bool)
    ensures Quiet(s, Expanding(s, to, Seen(None, focus)))
  {
    hide Refreshed;
    RefreshedQuiet(s.(expanded := to), focus);
  }

  lemma {:induction false} CardsQuiet(s: State, event: Event, focus: bool)
    requires event.CardsPointer? || event.FocusMoved? || event.Act? || event.ActionDone? || event.RevealDone?
      || event.AskStop? || event.Escape?
    ensures Quiet(s, Step(s, event, Seen(None, focus)))
  {
    hide Refreshed, Expanding, Rearmed;
    RefreshedQuiet(s, focus);
    match event
    case CardsPointer(inside) => RefreshedQuiet(s.(pointerInCards := inside), focus);
    case Act(id) => RefreshedQuiet(s.(busy := s.busy + {id}, confirming := None), focus);
    case ActionDone(id) => RefreshedQuiet(s.(busy := s.busy - {id}), focus);
    case AskStop(id) => RefreshedQuiet(s.(confirming := id), focus);
    case Escape =>
      RefreshedQuiet(s.(confirming := None), focus);
      ExpandingQuiet(s, false, focus);
    case _ =>
  }

  lemma {:induction false} NewsQuiet(s: State, event: Event, focus: bool)
    requires event.Status? || event.SettingsFile?
    ensures Quiet(s, Step(s, event, Seen(None, focus)))
  {
    hide Refreshed, ShapeOf;
    match event
    case Status(sessions, closed, reachable) =>
      var t := s.(sessions := sessions, closed := closed);
      RefreshedQuiet(t, focus);
      RefreshedQuiet(t.(lastShape := Some(ShapeOf(sessions, reachable)), cardsStale := true), focus);
    case SettingsFile(spot, others) =>
      RefreshedQuiet(s.(docked := spot, others := others, cardsStale := true), focus);
  }

  lemma {:induction false} PagesQuiet(s: State, event: Event, focus: bool)
    requires event.Back? || event.OpenViewer? || event.SelectSession? || event.WatchSessions? || event.OpenPage?
      || event.OpenSettings?
    ensures Quiet(s, Step(s, event, Seen(None, focus)))
  {
    hide Expanding, Everyone;
    ExpandingQuiet(s, true, focus);
    ExpandingQuiet(Expanding(s, true, Seen(None, focus)), true, focus);
  }

  lemma {:induction false} DragsQuiet(s: State, event: Event, focus: bool)
    requires Sound(s) && (event.Press? || event.Travel? || event.Release? || event.TimerFires?)
    ensures var t := Step(s, event, Seen(None, focus));
      && t.awaitingLeave == (s.awaitingLeave || (event.Release? && s.drag.Some?))
      && t.delays == if event.TimerFires? && event.source in s.delays.live then
                       Delays(None, None, map[], s.delays.next) else s.delays
  {
    hide Expanding;
    ExpandingQuiet(s, true, focus);
    match event
    case Travel(_, _) => ExpandingQuiet(s.(drag := Some(s.docked)), false, focus);
    case TimerFires(source) =>
      if source in s.delays.live {
        ExpandingQuiet(s.(delays := Spent(s.delays, source)), s.delays.live[source].FinishOpen?, focus);
      }
    case _ =>
  }

  /** An event other than the pointer's leaves the delays alone while the toolkit says nothing of the pointer, but for a
      delay that runs out; and only a drop makes the panel wait. */
  lemma {:induction false} OnlyPointerStarts(s: State, event: Event, focus: bool)
    requires Sound(s) && !event.Pointer?
    ensures var t := Step(s, event, Seen(None, focus));
      && t.awaitingLeave == (s.awaitingLeave || (event.Release? && s.drag.Some?))
      && t.delays == if event.TimerFires? && event.source in s.delays.live then
                       Delays(None, None, map[], s.delays.next) else s.delays
  {
    hide Step, Sound;
    if event.Press? || event.Travel? || event.Release? || event.TimerFires? {
      DragsQuiet(s, event, focus);
    } else if event.Status? || event.SettingsFile? {
      NewsQuiet(s, event, focus);
    } else if event.Back? || event.OpenViewer? || event.SelectSession? || event.WatchSessions? || event.OpenPage?
      || event.OpenSettings? {
      PagesQuiet(s, event, focus);
    } else {
      CardsQuiet(s, event, focus);
    }
  }

  // --- The shape of a status ------------------------------------------------------------------------

  /** Two statuses have the same shape exactly when the broker answered both or neither, and the same sessions are open,
      each with the same task, state and face. */
  lemma {:induction false} ShapeTells(sessions: seq<Session>, reachable: bool)
    requires DistinctIds(sessions)
    ensures ShapeOf(sessions, reachable).reachable == reachable
    ensures forall id :: id in ShapeOf(sessions, reachable).faces <==> id in Ids(sessions)
    ensures forall x <- sessions ::
      x.sessionId in ShapeOf(sessions, reachable).faces
      && ShapeOf(sessions, reachable).faces[x.sessionId] == (x.task, x.state, x.face)
  {
    if sessions != [] {
      var n := |sessions| - 1;
      ShapeTells(sessions[..n], reachable);
      assert sessions == sessions[..n] + [sessions[n]];
      assert Ids(sessions) == Ids(sessions[..n]) + [sessions[n].sessionId];
    }
  }

  // --- Escape --------------------------------------------------------------------------------------

  /** How many times Escape has something to close. */
  function Depth(s: State): nat {
    if !s.expanded then 0
    else 1 + (if s.confirming.Some? then 1 else 0) + (if s.detail.Some? || s.page.Some? then 1 else 0)
  }

  lemma {:induction false} RefreshedClimbs(s: State, seen: Seen)
    requires s.expanded && s.confirming.None?
    ensures var t := Refreshed(s, seen);
      t.expanded && t.confirming.None? && Depth(t) <= Depth(s)
  {
    RefreshKeepsQuestion(s, seen);
    hide Reflowed, SessionCards.CardPlan, Rearmed, Everyone;
  }

  lemma {:induction false} EscapeClimbs(s: State, seen: Seen)
    requires Sound(s)
    ensures s.expanded ==> Depth(Escaped(s, seen)) < Depth(s)
    ensures !s.expanded ==> Escaped(s, seen) == s
  {
    if s.expanded && s.confirming.Some? {
      RefreshedClimbs(s.(confirming := None), seen);
      hide Refreshed, Rearmed;
    } else {
      hide Refreshed, Rearmed;
    }
  }

  function Escapes(s: State, seen: seq<Seen>): State
    decreases |seen|
  {
    if seen == [] then s else Escapes(Escaped(s, seen[0]), seen[1..])
  }

  lemma {:induction false} EnoughEscapesCollapse(s: State, seen: seq<Seen>)
    requires Sound(s) && |seen| >= Depth(s)
    ensures !Escapes(s, seen).expanded
    decreases |seen|
  {
    hide Escaped, Sound;
    if seen != [] {
      EscapeClimbs(s, seen[0]);
      QuestionsKeepSound(s, None, seen[0]);
      EnoughEscapesCollapse(Escaped(s, seen[0]), seen[1..]);
    }
  }

  /** From any state a run reaches, three Escapes in a row leave the panel collapsed. */
  lemma {:induction false} ThreeEscapesCollapse(docked: Spot, others: string, events: seq<(Event, Seen)>, a: Seen,
                                                b: Seen, c: Seen)
    ensures !Escapes(Run(Initial(docked, others), events), [a, b, c]).expanded
  {
    RunKeepsSound(Initial(docked, others), events);
    EnoughEscapesCollapse(Run(Initial(docked, others), events), [a, b, c]);
  }

  // --- What opens and what closes the panel --------------------------------------------------------

  predicate Opens(s: State, event: Event) {
    s.drag.None? &&
    match event
    case TimerFires(source) => s.delays.openSource == Some(source)
    case Release(_) => s.carrying
    case OpenViewer | WatchSessions(_) | OpenSettings(_, _) => true
    case SelectSession(id) => id in Everyone(s)
    case OpenPage(_, loads) => loads
    case _ => false
  }

  predicate Closes(s: State, event: Event, seen: Seen) {
    match event
    case TimerFires(source) => s.delays.closeSource == Some(source) && !Pinned(s) && seen.hover != Some(true)
    case Travel(far, _) => far && s.carrying
    case Escape => !Pinned(s)
    case _ => false
  }

  lemma {:induction false} RefreshedIsAsOpen(s: State, seen: Seen)
    ensures var t := Refreshed(s, seen);
      t.expanded == s.expanded && t.drag == s.drag && t.sessions == s.sessions && t.closed == s.closed
  {
    var (asked, plan) := Reflowed(s.confirming, s.shown, Everyone(s), s.pointerInCards || seen.focusInList);
    ListedIsAsOpen(s.(confirming := asked, shown := plan), true, seen);
    hide Reflowed, Everyone, ListShown;
  }

  lemma {:induction false} ExpandingIsOpen(s: State, to: bool, seen: Seen)
    ensures var t := Expanding(s, to, seen);
      t.expanded == (to && (s.drag.None? || s.expanded)) && t.drag == s.drag && t.sessions == s.sessions
        && t.closed == s.closed
  {
    RefreshedIsAsOpen(s.(expanded := to), seen);
    hide Refreshed;
  }

  lemma {:induction false} ListedIsAsOpen(s: State, reopen: bool, seen: Seen)
    ensures var t := ListShown(s, reopen, seen);
      t.expanded == s.expanded && t.drag == s.drag && t.sessions == s.sessions && t.closed == s.closed
  {
    hide Rearmed;
  }

  lemma {:induction false} TellingLeavesOpenness(s: State, sessions: seq<Session>, closed: seq<Session>,
                                                 reachable: bool, seen: Seen)
    ensures Told(s, sessions, closed, reachable, seen).expanded == s.expanded
  {
    var t := s.(sessions := sessions, closed := closed);
    RefreshedIsAsOpen(t, seen);
    RefreshedIsAsOpen(t.(lastShape := Some(ShapeOf(sessions, reachable)), cardsStale := true), seen);
    hide ShapeOf, Refreshed;
  }

  lemma {:induction false} CardsLeaveOpenness(s: State, event: Event, seen: Seen)
    requires event.Status? || event.CardsPointer? || event.FocusMoved? || event.Act? || event.ActionDone?
      || event.RevealDone? || event.SettingsFile?
    ensures Step(s, event, seen).expanded == s.expanded
  {
    hide Refreshed, Told;
    RefreshedIsAsOpen(s, seen);
    match event
    case SettingsFile(spot, others) =>
      RefreshedIsAsOpen(s.(docked := spot, others := others, cardsStale := true), seen);
    case Status(sessions, closed, reachable) =>
      TellingLeavesOpenness(s, sessions, closed, reachable, seen);
    case CardsPointer(inside) =>
      RefreshedIsAsOpen(s.(pointerInCards := inside), seen);
    case Act(id) =>
      RefreshedIsAsOpen(s.(busy := s.busy + {id}, confirming := None), seen);
    case ActionDone(id) =>
      RefreshedIsAsOpen(s.(busy := s.busy - {id}), seen);
    case _ =>
  }

  lemma {:induction false} TimersAndDrags(s: State, event: Event, seen: Seen)
    requires Sound(s) && (event.Pointer? || event.TimerFires? || event.Press? || event.Travel? || event.Release?)
    ensures Step(s, event, seen).expanded == if s.expanded then !Closes(s, event, seen) else Opens(s, event)
  {
    hide Refreshed, ListShown, Expanding;
    match event
    case TimerFires(source) =>
      if source in s.delays.live {
        ExpandingIsOpen(s.(delays := Spent(s.delays, source)), s.delays.live[source].FinishOpen?, seen);
      }
    case Travel(_, _) => ExpandingIsOpen(s.(drag := Some(s.docked)), false, seen);
    case Release(_) =>
      ExpandingIsOpen(s, true, seen);
      ListedIsAsOpen(Expanding(s, true, seen), true, seen);
    case _ =>
  }

  lemma {:induction false} KeysOpenAndClose(s: State, event: Event, seen: Seen)
    requires event.Escape? || event.Back? || event.AskStop?
    ensures Step(s, event, seen).expanded == if s.expanded then !Closes(s, event, seen) else Opens(s, event)
  {
    hide Refreshed, ListShown, Expanding, Everyone, Rearmed;
    ExpandingIsOpen(s, false, seen);
    ListedIsAsOpen(s, true, seen);
    RefreshedIsAsOpen(s.(confirming := None), seen);
    match event
    case AskStop(id) => RefreshedIsAsOpen(s.(confirming := id), seen);
    case _ =>
  }

  lemma {:induction false} PagesOpen(s: State, event: Event, seen: Seen)
    requires event.OpenViewer? || event.SelectSession? || event.WatchSessions? || event.OpenPage? || event.OpenSettings?
    ensures Step(s, event, seen).expanded == if s.expanded then !Closes(s, event, seen) else Opens(s, event)
  {
    hide Refreshed, ListShown, Expanding, Everyone;
    var t := Expanding(s, true, seen);
    ExpandingIsOpen(s, true, seen);
    match event
    case OpenViewer => ListedIsAsOpen(t, true, seen);
    case OpenSettings(_, _) => ExpandingIsOpen(t, true, seen);
    case _ =>
  }

  /** Exactly what opens a collapsed panel, and exactly what collapses an open one. */
  lemma {:induction false} OpenedAndClosed(s: State, event: Event, seen: Seen)
    requires Sound(s)
    ensures Step(s, event, seen).expanded == if s.expanded then !Closes(s, event, seen) else Opens(s, event)
  {
    hide Step, Sound;
    if event.Pointer? || event.TimerFires? || event.Press? || event.Travel? || event.Release? {
      TimersAndDrags(s, event, seen);
    } else if event.Status? || event.CardsPointer? || event.FocusMoved? || event.Act? || event.ActionDone?
      || event.RevealDone? || event.SettingsFile? {
      CardsLeaveOpenness(s, event, seen);
    } else if event.Escape? || event.Back? || event.AskStop? {
      KeysOpenAndClose(s, event, seen);
    } else {
      PagesOpen(s, event, seen);
    }
  }

  // --- After the mark is dropped -------------------------------------------------------------------

  /** Anything but the pointer leaving, a new press, or the person asking for the panel. */
  predicate Idle(event: Event, seen: Seen) {
    seen.hover != Some(false) &&
    match event
    case Pointer(inside) => inside
    case Press(_) | Travel(_, _) | Release(_) => false
    case OpenViewer | SelectSession(_) | WatchSessions(_) | OpenPage(_, _) | OpenSettings(_, _) => false
    case _ => true
  }

  predicate AllIdle(events: seq<(Event, Seen)>) {
    forall i | 0 <= i < |events| :: Idle(events[i].0, events[i].1)
  }

  predicate Waiting(s: State) {
    s.awaitingLeave && !s.expanded && s.drag.None?
  }

  lemma {:induction false} RefreshKeepsWaiting(s: State, seen: Seen)
    requires Waiting(s) && seen.hover != Some(false)
    ensures Waiting(Refreshed(s, seen)) && Refreshed(s, seen).delays == s.delays
  {
    hide Everyone, Reflowed, Rearmed;
  }

  lemma {:induction false} ListedKeepsWaiting(s: State, seen: Seen)
    requires Waiting(s) && seen.hover != Some(false)
    ensures Waiting(ListShown(s, true, seen)) && ListShown(s, true, seen).delays == s.delays
  {
    hide Rearmed;
  }

  lemma {:induction false} FiredKeepsWaiting(s: State, source: nat, seen: Seen)
    requires Waiting(s) && Held(s.delays) && s.delays.openSource.None?
    ensures var t := Fired(s, source, seen);
      Waiting(t) && Held(t.delays) && t.delays.openSource.None?
  {
    hide Refreshed, ListShown;
  }

  lemma {:induction false} TellingKeepsWaiting(s: State, sessions: seq<Session>, closed: seq<Session>,
                                               reachable: bool, seen: Seen)
    requires Waiting(s)
    ensures var t := Told(s, sessions, closed, reachable, seen);
      Waiting(t) && t.delays == s.delays
  {
    hide Refreshed, ShapeOf;
  }

  lemma {:induction false} IdleKeepsWaiting(s: State, event: Event, seen: Seen)
    requires Waiting(s) && Held(s.delays) && s.delays.openSource.None? && Idle(event, seen)
    ensures var t := Step(s, event, seen);
      Waiting(t) && Held(t.delays) && t.delays.openSource.None?
  {
    hide Refreshed, Held, Fired, Told, ListShown, Expanding, Rearmed;
    RefreshKeepsWaiting(s, seen);
    match event
    case TimerFires(source) => FiredKeepsWaiting(s, source, seen);
    case Status(sessions, closed, reachable) => TellingKeepsWaiting(s, sessions, closed, reachable, seen);
    case Escape | Back => ListedKeepsWaiting(s, seen);
    case CardsPointer(inside) => RefreshKeepsWaiting(s.(pointerInCards := inside), seen);
    case AskStop(id) => RefreshKeepsWaiting(s.(confirming := id), seen);
    case Act(id) => RefreshKeepsWaiting(s.(busy := s.busy + {id}, confirming := None), seen);
    case ActionDone(id) => RefreshKeepsWaiting(s.(busy := s.busy - {id}), seen);
    case _ =>
  }

  lemma {:induction false} WaitingStaysShut(s: State, events: seq<(Event, Seen)>)
    requires Waiting(s) && Held(s.delays) && s.delays.openSource.None? && AllIdle(events)
    ensures Waiting(Run(s, events))
    decreases |events|
  {
    hide Step, Idle, Held, Waiting;
    if events != [] {
      IdleKeepsWaiting(s, events[0].0, events[0].1);
      WaitingStaysShut(Step(s, events[0].0, events[0].1), events[1..]);
    }
  }

  lemma {:induction false} PendingDelayOpens(s: State, seen: Seen)
    requires Sound(s) && Waiting(s) && s.delays.openSource.Some? && seen.hover != Some(false)
    ensures var events := [(TimerFires(s.delays.openSource.value), seen)];
      AllIdle(events) && Run(s, events).expanded
  {
    var event := TimerFires(s.delays.openSource.value);
    OpenedAndClosed(s, event, seen);
    assert [(event, seen)][1..] == [];
    assert Run(s, [(event, seen)]) == Step(s, event, seen);
  }

  /** After leave_carry an idle pointer is not supposed to open anything. Nothing opens exactly when no delay to open
      was still running at the drop: such a delay outlives the drag, which only refuses to open while it lasts. */
  lemma {:induction false} DropKeepsCardsShut(s: State, spot: Spot, seen: Seen)
    requires Sound(s) && s.drag.Some?
    ensures var t := Step(s, Release(spot), seen);
      (forall events | AllIdle(events) :: !Run(t, events).expanded) <==> s.delays.openSource.None?
  {
    var t := Step(s, Release(spot), seen);
    StepKeepsSound(s, Release(spot), seen);
    if s.delays.openSource.None? {
      forall events | AllIdle(events)
        ensures !Run(t, events).expanded
      {
        WaitingStaysShut(t, events);
      }
    } else {
      PendingDelayOpens(t, Seen(None, false));
    }
  }

  /** The pointer enters, and the mark is picked up and dropped before the delay has run out: the panel
      opens where it was dropped, with the pointer over it all along. */
  lemma {:induction false} QuickDropOpens(docked: Spot, others: string, spot: Spot, seen: Seen)
    requires seen.hover != Some(false)
    ensures var before := [(Pointer(true), seen), (Press(true), seen), (Travel(true, spot), seen),
                           (Release(spot), seen)];
      var t := Run(Initial(docked, others), before);
      Waiting(t) && t.docked == spot && Run(t, [(TimerFires(0), seen)]).expanded
  {
    var before := [(Pointer(true), seen), (Press(true), seen), (Travel(true, spot), seen), (Release(spot), seen)];
    var s1 := Step(Initial(docked, others), Pointer(true), seen);
    var s2 := Step(s1, Press(true), seen);
    var s3 := Step(s2, Travel(true, spot), seen);
    var s4 := Step(s3, Release(spot), seen);
    RunOfFour(Initial(docked, others), before);
    RunKeepsSound(Initial(docked, others), before);
    assert s1.delays == Delays(Some(0), None, map[0 := FinishOpen], 1);
    assert s4.delays == s1.delays && Waiting(s4);
    PendingDelayOpens(s4, seen);
  }

  lemma {:induction false} RunOfFour(s: State, events: seq<(Event, Seen)>)
    requires |events| == 4
    ensures Run(s, events) ==
      Step(Step(Step(Step(s, events[0].0, events[0].1), events[1].0, events[1].1), events[2].0, events[2].1),
           events[3].0, events[3].1)
  {
    hide Step;
    var s1 := Step(s, events[0].0, events[0].1);
    var s2 := Step(s1, events[1].0, events[1].1);
    assert Run(s, events) == Run(s1, events[1..]);
    assert Run(s1, events[1..]) == Run(s2, events[1..][1..]) && events[1..][1..] == events[2..];
    var s3 := Step(s2, events[2].0, events[2].1);
    assert Run(s2, events[2..]) == Run(s3, events[2..][1..]) && events[2..][1..] == events[3..];
    var s4 := Step(s3, events[3].0, events[3].1);
    assert Run(s3, events[3..]) == Run(s4, events[3..][1..]) && events[3..][1..] == [];
    assert Run(s4, []) == s4;
  }

  // --- The list behind the identifiers -------------------------------------------------------------

  predicate AsksOnly(look: SessionCards.Look, x: Session, asked: Option<string>) {
    look.drawn.Some? && look.drawn.value.session == x
    && (look.drawn.value.asking <==> asked == Some(x.sessionId) && !x.state.Closed? && !x.state.Closing?)
  }

  /** One update of a real list, as far as a refresh rests on it. */
  method Redraw(list: SessionCards.SessionList, asked: Option<string>, everyone: seq<Session>, busy: set<string>,
                notes: map<string, string>, frozen: bool) returns (changed: bool)
    requires list.Valid() && DistinctIds(everyone)
    modifies list, list.cards.Values
    ensures list.Valid()
    ensures SessionCards.CardIds(list.children) ==
            SessionCards.CardPlan(SessionCards.CardIds(old(list.children)), Ids(everyone), frozen)
    ensures changed == (SessionCards.CardIds(list.children) != SessionCards.CardIds(old(list.children)))
    ensures frozen && old(list.children) != [] ==>
      list.children == old(list.children) && list.cards == old(list.cards)
    ensures forall id <- list.cards ::
      if id in old(list.cards) then list.cards[id] == old(list.cards)[id] else fresh(list.cards[id])
    ensures forall x <- everyone :: x.sessionId in list.cards ==> AsksOnly(list.cards[x.sessionId].look, x, asked)
  {
    ghost var before := list.View();
    changed := list.Update(everyone, busy, notes, asked, frozen);
    DrawnAsks(list, before, SessionCards.Poll(everyone, busy, notes, asked, frozen));
  }

  lemma {:induction false} DrawnAsks(list: SessionCards.SessionList, before: SessionCards.Shown,
                                     poll: SessionCards.Poll)
    requires SessionCards.DrawnFrom(before, list.View(), poll)
    ensures forall x <- poll.sessions ::
      x.sessionId in list.cards ==> AsksOnly(list.cards[x.sessionId].look, x, poll.confirming)
  {
    assert forall id <- list.cards :: list.View().looks[id] == list.cards[id].look;
  }

  /** The part of a refresh that works on the cards, on a list of real ones. Its identifiers and the question go where
      the machine's do, so what the machine shows is what the list holds. */
  method RefreshCards(list: SessionCards.SessionList, confirming: Option<string>, everyone: seq<Session>,
                      busy: set<string>, notes: map<string, string>, frozen: bool) returns (asked: Option<string>)
    requires list.Valid() && DistinctIds(everyone)
    modifies list, list.cards.Values
    ensures list.Valid()
    ensures (asked, SessionCards.CardIds(list.children)) ==
            Reflowed(confirming, SessionCards.CardIds(old(list.children)), Ids(everyone), frozen)
    ensures forall id <- list.cards ::
      if id in old(list.cards) then list.cards[id] == old(list.cards)[id] else fresh(list.cards[id])
    // Of the sessions there are, the one that is asked about shows the question, unless it is over, and no other does.
    ensures forall x <- everyone :: x.sessionId in list.cards ==> AsksOnly(list.cards[x.sessionId].look, x, asked)
  {
    asked := confirming;
    if asked.Some? && asked.value !in Ids(everyone) {
      asked := None;
    }
    var changed := Redraw(list, asked, everyone, busy, notes, frozen);
    if changed && asked.Some? {
      asked := None;
      var _ := Redraw(list, asked, everyone, busy, notes, true);
    }
  }

  // --- The panel itself ----------------------------------------------------------------------------

  /** The panel object, with the handlers that update its fields. */
  class Panel {
    var expanded: bool
    var cardsStale: bool
    var drag: Option<Spot>
    var carrying: bool
    var awaitingLeave: bool
    var docked: Spot
    var others: string
    var openSource: Option<nat>
    var closeSource: Option<nat>
    var live: map<nat, Callback>
    var nextSource: nat
    var confirming: Option<string>
    var detailId: Option<string>
    var pageName: Option<string>
    var stack: Child
    var sessions: seq<Session>
    var closed: seq<Session>
    var shown: seq<string>
    var busy: set<string>
    var pointerInCards: bool
    var lastShape: Option<Shape>

    function Now(): State
      reads this
    {
      State(expanded, cardsStale, drag, carrying, awaitingLeave, docked, others,
            Delays(openSource, closeSource, live, nextSource), confirming, detailId, pageName, stack,
            sessions, closed, shown, busy, pointerInCards, lastShape)
    }

    constructor (docked: Spot, others: string)
      ensures Now() == Initial(docked, others) && Sound(Now())
    {
      expanded, cardsStale, drag, carrying, awaitingLeave := false, true, None, false, false;
      this.docked, this.others := docked, others;
      openSource, closeSource, live, nextSource := None, None, map[], 0;
      confirming, detailId, pageName, stack := None, None, None, ListChild;
      sessions, closed, shown, busy, pointerInCards, lastShape := [], [], [], {}, false, None;
    }

    /** GLib refuses to remove a source that is not live. */
    method SourceRemove(source: nat)
      requires source in live
      modifies `live
      ensures live == old(live) - {source}
    {
      live := live - {source};
    }

    method TimeoutAdd(callback: Callback) returns (source: nat)
      modifies `live, `nextSource
      ensures source == old(nextSource) && nextSource == source + 1 && live == old(live)[source := callback]
    {
      source := nextSource;
      live, nextSource := live[source := callback], source + 1;
    }

    function Pending(): Delays
      reads `openSource, `closeSource, `live, `nextSource
    {
      Delays(openSource, closeSource, live, nextSource)
    }

    method Rearm(inside: bool)
      requires Held(Pending())
      modifies `openSource, `closeSource, `live, `nextSource
      ensures Pending() == Rearmed(old(Pending()), if inside then FinishOpen else FinishClose) && Held(Pending())
    {
      if openSource.Some? {
        SourceRemove(openSource.value);
        openSource := None;
      }
      if closeSource.Some? {
        SourceRemove(closeSource.value);
        closeSource := None;
      }
      if inside {
        var source := TimeoutAdd(FinishOpen);
        openSource := Some(source);
      } else {
        var source := TimeoutAdd(FinishClose);
        closeSource := Some(source);
      }
    }

    method HoverChanged(inside: bool)
      requires Held(Now().delays)
      modifies `awaitingLeave, `openSource, `closeSource, `live, `nextSource
      ensures Now() == Hovered(old(Now()), inside) && Held(Now().delays)
    {
      hide Held, Rearmed;
      if drag.Some? {
        return;
      }
      if awaitingLeave {
        if inside {
          return;
        }
        awaitingLeave := false;
      }
      Rearm(inside);
    }

    method ShowList(reopen: bool, seen: Seen)
      requires Held(Now().delays)
      modifies `detailId, `pageName, `stack, `awaitingLeave, `openSource, `closeSource, `live, `nextSource
      ensures Now() == ListShown(old(Now()), reopen, seen) && Held(Now().delays)
    {
      hide Held, Hovered;
      var had := detailId.Some? || pageName.Some?;
      LeaveViews();
      if had && reopen && seen.hover.Some? {
        HoverChanged(seen.hover.value);
      }
    }

    method LeaveViews()
      modifies `detailId, `pageName, `stack
      ensures detailId == None && pageName == None && stack == ListChild
    {
      detailId, pageName, stack := None, None, ListChild;
    }

    /** The card list's own update, seen from here: SessionCards.SessionList.Update says what it does. */
    method UpdateCards(everyone: seq<string>, frozen: bool) returns (changed: bool)
      modifies `shown
      ensures shown == SessionCards.CardPlan(old(shown), everyone, frozen) && changed == (shown != old(shown))
    {
      var plan := SessionCards.CardPlan(shown, everyone, frozen);
      changed := plan != shown;
      shown := plan;
    }

    method Reflow(known: seq<string>, frozen: bool)
      modifies `confirming, `shown
      ensures (confirming, shown) == Reflowed(old(confirming), old(shown), known, frozen)
    {
      if confirming.Some? && confirming.value !in known {
        confirming := None;
      }
      var changed := UpdateCards(known, frozen);
      if changed && confirming.Some? {
        confirming := None;
        var _ := UpdateCards(known, true);
      }
    }

    method RefreshViews(seen: Seen)
      requires Held(Now().delays)
      modifies this
      ensures Now() == Refreshed(old(Now()), seen) && Held(Now().delays)
    {
      hide Held, Rearmed, Reflowed, ListShown, Everyone;
      var known := Everyone(Now());
      Reflow(known, pointerInCards || seen.focusInList);
      if detailId.Some? && detailId.value !in known {
        ShowList(true, seen);
      }
    }

    method SetExpanded(to: bool, seen: Seen)
      requires Held(Now().delays)
      modifies this
      ensures Now() == Expanding(old(Now()), to, seen) && Held(Now().delays)
    {
      hide Held, Refreshed, ListShown;
      if to && drag.Some? {
        return;
      }
      if to == expanded && !(to && cardsStale) {
        return;
      }
      expanded := to;
      if to {
        RefreshViews(seen);
        cardsStale := false;
      } else {
        confirming := None;
        ShowList(false, seen);
      }
    }

    /** A delay that is over: its source is dropped, and so is the field that held it. */
    method Spend(source: nat) returns (callback: Callback)
      requires Held(Pending()) && source in live
      modifies `openSource, `closeSource, `live
      ensures Pending() == Spent(old(Pending()), source) && Held(Pending()) && callback == old(live)[source]
    {
      callback := live[source];
      SourceRemove(source);
      if callback.FinishOpen? {
        openSource := None;
      } else {
        closeSource := None;
      }
    }

    /** The main loop runs a callback whose delay is over, and drops its source. */
    method Fire(source: nat, seen: Seen)
      requires Held(Now().delays) && source in live
      modifies this
      ensures Now() == Fired(old(Now()), source, seen) && Held(Now().delays)
    {
      hide Expanding, Spent, Held;
      var callback := Spend(source);
      if callback.FinishOpen? {
        SetExpanded(true, seen);
      } else if !Pinned(Now()) && seen.hover != Some(true) {
        SetExpanded(false, seen);
      }
    }

    method DragBegin(onMark: bool)
      modifies this
      ensures Now() == old(Now()).(drag := None, carrying := onMark)
    {
      drag, carrying := None, onMark;
    }

    method DragUpdate(far: bool, spot: Spot, seen: Seen)
      requires Held(Now().delays)
      modifies this
      ensures Now() == Travelled(old(Now()), far, spot, seen) && Held(Now().delays)
    {
      hide Held, Expanding;
      if !carrying {
        return;
      }
      if drag.None? {
        if !far {
          return;
        }
        drag := Some(docked);
        SetExpanded(false, seen);
      }
      drag := Some(spot);
    }

    method DragEnd(spot: Spot, seen: Seen)
      requires Held(Now().delays)
      modifies this
      ensures Now() == Released(old(Now()), spot, seen) && Held(Now().delays)
    {
      hide Held, Expanding, ListShown;
      if drag.None? {
        if carrying {
          SetExpanded(true, seen);
          ShowList(true, seen);
        }
        return;
      }
      drag, awaitingLeave := None, true;
      docked, cardsStale := spot, true;
    }

    method Render(seen: Seen)
      requires Held(Now().delays)
      modifies this
      ensures Now() == Rendered(old(Now()), seen) && Held(Now().delays)
    {
      hide Held, Refreshed;
      cardsStale := true;
      if expanded {
        RefreshViews(seen);
        cardsStale := false;
      }
    }

    method ReloadSettings(spot: Spot, others: string, seen: Seen)
      requires Held(Now().delays)
      modifies this
      ensures Now() == Stored(old(Now()), spot, others, seen) && Held(Now().delays)
    {
      hide Held, Rendered;
      if spot != docked || others != this.others {
        docked, this.others := spot, others;
        Render(seen);
      }
    }

    /** The loop of session_shape. */
    static method SessionShape(sessions: seq<Session>, reachable: bool) returns (shape: Shape)
      ensures shape == ShapeOf(sessions, reachable)
    {
      var faces: map<string, (string, SessionState, string)> := map[];
      for i := 0 to |sessions|
        invariant Shape(faces, reachable) == ShapeOf(sessions[..i], reachable)
      {
        assert sessions[..i + 1][..i] == sessions[..i];
        faces := faces[sessions[i].sessionId := (sessions[i].task, sessions[i].state, sessions[i].face)];
      }
      assert sessions[..|sessions|] == sessions;
      return Shape(faces, reachable);
    }

    method Reshape(shape: Shape, seen: Seen)
      requires Held(Now().delays)
      modifies this
      ensures Now() == Reshaped(old(Now()), shape, seen) && Held(Now().delays)
    {
      hide Held, Refreshed, Rendered;
      if Some(shape) != lastShape {
        lastShape := Some(shape);
        Render(seen);
      } else if expanded {
        RefreshViews(seen);
      }
    }

    method ApplyStatus(sessions: seq<Session>, closed: seq<Session>, reachable: bool, seen: Seen)
      requires Held(Now().delays)
      modifies this
      ensures Now() == Told(old(Now()), sessions, closed, reachable, seen) && Held(Now().delays)
    {
      hide Held, Reshaped, ShapeOf;
      this.sessions, this.closed := sessions, closed;
      var shape := SessionShape(sessions, reachable);
      Reshape(shape, seen);
    }

    method ShowDetail(id: string)
      modifies this
      ensures Now() == Detailed(old(Now()), id) && Now().delays == old(Now().delays)
    {
      hide Everyone;
      if id in Everyone(Now()) {
        confirming, pageName, detailId, stack := None, None, Some(id), DetailChild;
      }
    }

    method SelectSession(id: string, seen: Seen)
      requires Held(Now().delays)
      modifies this
      ensures Now() == Selected(old(Now()), id, seen) && Held(Now().delays)
    {
      hide Held, Expanding, Detailed, Everyone;
      if id in Everyone(Now()) {
        SetExpanded(true, seen);
        ShowDetail(id);
      }
    }

    method OpenPage(name: string, loads: bool, seen: Seen)
      requires Held(Now().delays)
      modifies this
      ensures Now() == Paged(old(Now()), name, loads, seen) && Held(Now().delays)
    {
      hide Held, Expanding;
      if loads {
        SetExpanded(true, seen);
        ShowPage(name);
      }
    }

    method ShowPage(name: string)
      modifies `detailId, `confirming, `pageName, `stack
      ensures detailId == None && confirming == None && pageName == Some(name) && stack == PageChild
    {
      detailId, confirming, pageName, stack := None, None, Some(name), PageChild;
    }

    method AskStop(id: Option<string>, seen: Seen)
      requires Held(Now().delays)
      modifies this
      ensures Now() == Asked(old(Now()), id, seen) && Held(Now().delays)
    {
      hide Held, Refreshed, Hovered;
      confirming := id;
      RefreshViews(seen);
      if id.None? && seen.hover.Some? {
        HoverChanged(seen.hover.value);
      }
    }

    method KeyPressed(seen: Seen) returns (handled: bool)
      requires Held(Now().delays)
      modifies this
      ensures Now() == Escaped(old(Now()), seen) && Held(Now().delays) && handled == old(expanded)
    {
      hide Held, Asked, ListShown, Expanding;
      if !expanded {
        return false;
      }
      if confirming.Some? {
        AskStop(None, seen);
      } else if detailId.Some? || pageName.Some? {
        ShowList(true, seen);
      } else {
        SetExpanded(false, seen);
      }
      return true;
    }

    method Act(id: string, seen: Seen)
      requires Held(Now().delays)
      modifies this
      ensures Now() == Acting(old(Now()), id, seen) && Held(Now().delays)
    {
      hide Held, Refreshed;
      if id !in busy {
        busy, confirming := busy + {id}, None;
        RefreshViews(seen);
      }
    }

    method ActionDone(id: string, seen: Seen)
      requires Held(Now().delays)
      modifies this
      ensures Now() == Step(old(Now()), Event.ActionDone(id), seen) && Held(Now().delays)
    {
      hide Held, Refreshed;
      busy := busy - {id};
      RefreshViews(seen);
    }

    method CardsPointer(inside: bool, seen: Seen)
      requires Held(Now().delays)
      modifies this
      ensures Now() == Step(old(Now()), Event.CardsPointer(inside), seen) && Held(Now().delays)
    {
      hide Held, Refreshed;
      pointerInCards := inside;
      if !inside {
        RefreshViews(seen);
      }
    }

    method OpenSettings(available: bool, loads: bool, seen: Seen)
      requires Held(Now().delays)
      modifies this
      ensures Now() == Step(old(Now()), Event.OpenSettings(available, loads), seen) && Held(Now().delays)
    {
      hide Held, Expanding, Paged;
      SetExpanded(true, seen);
      if available {
        OpenPage("settings", loads, seen);
      }
    }

    method HandlePages(event: Event, seen: Seen)
      requires Held(Now().delays)
      requires event.Back? || event.OpenViewer? || event.SelectSession? || event.WatchSessions? || event.OpenPage?
        || event.OpenSettings?
      modifies this
      ensures Now() == Step(old(Now()), event, seen)
    {
      hide Held, Expanding, ListShown, Everyone, Paged, Selected, Detailed;
      match event
      case Back => ShowList(true, seen);
      case OpenViewer =>
        SetExpanded(true, seen);
        ShowList(true, seen);
      case SelectSession(id) => SelectSession(id, seen);
      case WatchSessions(id) =>
        SetExpanded(true, seen);
        ShowDetail(id);
      case OpenPage(name, loads) => OpenPage(name, loads, seen);
      case OpenSettings(available, loads) => OpenSettings(available, loads, seen);
    }

    method HandlePointer(event: Event, seen: Seen)
      requires Held(Now().delays)
      requires event.Pointer? || event.TimerFires? || event.Press? || event.Travel? || event.Release? || event.Escape?
      modifies this
      ensures Now() == Step(old(Now()), event, seen)
    {
      hide Held, Hovered, Travelled, Released, Escaped, Expanding;
      match event
      case Pointer(inside) => HoverChanged(inside);
      case TimerFires(source) =>
        if source in live {
          Fire(source, seen);
        }
      case Press(onMark) => DragBegin(onMark);
      case Travel(far, spot) => DragUpdate(far, spot, seen);
      case Release(spot) => DragEnd(spot, seen);
      case Escape => var _ := KeyPressed(seen);
    }

    /** Whichever handler the main loop calls next, the panel goes where the machine above says. */
    method Handle(event: Event, seen: Seen)
      requires Sound(Now())
      modifies this
      ensures Now() == Step(old(Now()), event, seen) && Sound(Now())
    {
      StepKeepsSound(Now(), event, seen);
      assert Held(Now().delays);
      hide Steady, Held, Refreshed, Asked, Acting, Told, Stored;
      match event
      case Status(sessions, closed, reachable) => ApplyStatus(sessions, closed, reachable, seen);
      case CardsPointer(inside) => CardsPointer(inside, seen);
      case FocusMoved =>
        if expanded {
          RefreshViews(seen);
        }
      case AskStop(id) => AskStop(id, seen);
      case Act(id) => Act(id, seen);
      case ActionDone(id) => ActionDone(id, seen);
      case RevealDone(id) =>
        if detailId == Some(id) {
          RefreshViews(seen);
        }
      case SettingsFile(spot, others) => ReloadSettings(spot, others, seen);
      case Back | OpenViewer | SelectSession(_) | WatchSessions(_) | OpenPage(_, _) | OpenSettings(_, _) =>
        HandlePages(event, seen);
      case Pointer(_) | TimerFires(_) | Press(_) | Travel(_, _) | Release(_) | Escape => HandlePointer(event, seen);
    }
  }
}
