/** The panel's list of session cards: desktop/panel_sessions.py's SessionList, kept to the plan that
    desktop/panel_broker.py's card_plan makes for it. */
module SessionCards {
  import opened Common
  import opened SessionOrder

  /** card_plan: a list that is held still and not empty keeps what it shows; any other takes what is wanted. */
  function CardPlan(shown: seq<string>, wanted: seq<string>, frozen: bool): seq<string> {
    if frozen && shown != [] then shown else wanted
  }

  /** What a card shows: the session it was last drawn from, and whether it still answers the pointer. */
  datatype Look = Look(drawn: Option<Drawing>, sensitive: bool)

  /** A session as its card draws it: whether an action on it is under way, a note, and whether the card asks if it is
      to be stopped. */
  datatype Drawing = Drawing(session: Session, busy: bool, note: Option<string>, asking: bool)

  predicate Over(session: Session) {
    session.state.Closed? || session.state.Closing?
  }

  const BLANK := Look(None, true)

  /** A widget of the list. */
  class Card {
    const sessionId: string
    var look: Look

    constructor (sessionId: string)
      ensures this.sessionId == sessionId && look == BLANK
    {
      this.sessionId, look := sessionId, BLANK;
    }

    /** SessionCard.update writes labels and controls; it never touches the card's own sensitivity. */
    method Update(session: Session, busy: bool, note: Option<string>, confirming: Option<string>)
      modifies this
      ensures look == Look(Some(Drawing(session, busy, note, confirming == Some(sessionId) && !Over(session))),
                           old(look.sensitive))
    {
      look := look.(drawn := Some(Drawing(session, busy, note, confirming == Some(sessionId) && !Over(session))));
    }

    method SetInsensitive()
      modifies this
      ensures look == Look(old(look.drawn), false)
    {
      look := look.(sensitive := false);
    }
  }

  function CardIds(cards: seq<Card>): (ids: seq<string>)
    ensures |ids| == |cards| && forall i | 0 <= i < |ids| :: ids[i] == cards[i].sessionId
  {
    seq(|cards|, i requires 0 <= i < |cards| => cards[i].sessionId)
  }

  function IdSet(plan: seq<string>): set<string> {
    set id | id in plan
  }

  predicate NoDuplicates<T(==)>(s: seq<T>) {
    forall i, j | 0 <= i < j < |s| :: s[i] != s[j]
  }

  /** The sessions by identifier; a dictionary keeps the last given under one. */
  function ById(sessions: seq<Session>): map<string, Session> {
    if sessions == [] then map[]
    else ById(sessions[..|sessions| - 1])[sessions[|sessions| - 1].sessionId := sessions[|sessions| - 1]]
  }

  lemma {:induction false} ByIdFinds(sessions: seq<Session>, s: Session)
    requires DistinctIds(sessions)
    ensures s.sessionId in ById(sessions) <==> s.sessionId in Ids(sessions)
    ensures s in sessions <==> s.sessionId in ById(sessions) && ById(sessions)[s.sessionId] == s
  {
    if sessions != [] {
      var n := |sessions| - 1;
      assert sessions == sessions[..n] + [sessions[n]];
      assert Ids(sessions) == Ids(sessions[..n]) + [sessions[n].sessionId];
      ByIdFinds(sessions[..n], s);
    }
  }

  function IndexOf(s: seq<Card>, c: Card): (k: nat)
    requires c in s
    ensures k < |s| && s[k] == c
  {
    if s[0] == c then 0 else 1 + IndexOf(s[1..], c)
  }

  /** The widget before a card; none stands for the label at the head of the list. */
  function PrevSibling(s: seq<Card>, c: Card): Option<Card>
    requires c in s
  {
    var k := IndexOf(s, c);
    if k == 0 then None else Some(s[k - 1])
  }

  function Without(s: seq<Card>, c: Card): seq<Card>
    requires c in s
  {
    var k := IndexOf(s, c);
    s[..k] + s[k + 1..]
  }

  function InsertAfter(s: seq<Card>, c: Card, after: Option<Card>): seq<Card>
    requires after.Some? ==> after.value in s
  {
    var k := if after.None? then 0 else IndexOf(s, after.value) + 1;
    s[..k] + [c] + s[k..]
  }

  /** The dictionary and the child list hold the same cards, one for each id. */
  ghost predicate Consistent(children: seq<Card>, cards: map<string, Card>) {
    && NoDuplicates(CardIds(children))
    && (forall k | 0 <= k < |children| :: children[k].sessionId in cards && cards[children[k].sessionId] == children[k])
    && (forall id {:trigger Listed(children, id)} | id in cards :: Listed(children, id))
  }

  ghost predicate Listed(children: seq<Card>, id: string) {
    exists k :: 0 <= k < |children| && children[k].sessionId == id
  }

  lemma {:induction false} IndexIsUnique(s: seq<Card>, k: nat)
    requires NoDuplicates(CardIds(s)) && k < |s|
    ensures IndexOf(s, s[k]) == k
  {
    assert CardIds(s)[k] == s[k].sessionId;
  }

  lemma {:induction false} Putting(children: seq<Card>, cards: map<string, Card>, i: nat, card: Card)
    requires Consistent(children, cards) && i <= |children| && card.sessionId !in cards
    ensures Consistent(children[..i] + [card] + children[i..], cards[card.sessionId := card])
  {
    var after := children[..i] + [card] + children[i..];
    forall id <- cards[card.sessionId := card]
      ensures Listed(after, id)
    {
      if id == card.sessionId {
        assert after[i] == card;
      } else {
        assert Listed(children, id);
        var k :| 0 <= k < |children| && children[k].sessionId == id;
        assert after[if k < i then k else k + 1] == children[k];
      }
    }
  }

  lemma {:induction false} Taking(children: seq<Card>, cards: map<string, Card>, k: nat)
    requires Consistent(children, cards) && k < |children|
    ensures Consistent(children[..k] + children[k + 1..], cards - {children[k].sessionId})
  {
    var after := children[..k] + children[k + 1..];
    assert forall m | 0 <= m < |after| :: CardIds(after)[m] == CardIds(children)[if m < k then m else m + 1];
    forall id <- cards - {children[k].sessionId}
      ensures Listed(after, id)
    {
      assert Listed(children, id);
      var m :| 0 <= m < |children| && children[m].sessionId == id;
      assert after[if m < k then m else m - 1] == children[m];
    }
  }

  function Before(s: seq<Card>, i: nat): Option<Card>
    requires i <= |s|
  {
    if i == 0 then None else Some(s[i - 1])
  }

  lemma {:induction false} PuttingBehind(children: seq<Card>, cards: map<string, Card>, i: nat, card: Card)
    requires Consistent(children, cards) && i <= |children| && card.sessionId !in cards
    ensures var previous := Before(children, i);
      && (previous.Some? ==> previous.value in children)
      && var after := InsertAfter(children, card, previous);
        && Consistent(after, cards[card.sessionId := card]) && |after| == |children| + 1
        && after[i] == card && forall m | 0 <= m < i :: after[m] == children[m]
  {
    if i > 0 { IndexIsUnique(children, i - 1); }
    Putting(children, cards, i, card);
  }

  /** Moving a card that stands further on to position `i`, behind the one placed there last. */
  lemma {:induction false} Moving(children: seq<Card>, cards: map<string, Card>, i: nat, k: nat)
    requires Consistent(children, cards) && i <= k < |children|
    ensures var card, previous := children[k], Before(children, i);
      && (PrevSibling(children, card) == previous <==> k == i)
      && (previous.Some? ==> previous.value in Without(children, card))
      && var after := InsertAfter(Without(children, card), card, previous);
        Consistent(after, cards) && i < |after| && after[i] == card && forall m | 0 <= m < i :: after[m] == children[m]
  {
    var card, id := children[k], children[k].sessionId;
    IndexIsUnique(children, k);
    var others := children[..k] + children[k + 1..];
    assert Without(children, card) == others;
    Taking(children, cards, k);
    assert Before(others, i) == Before(children, i);
    PuttingBehind(others, cards - {id}, i, card);
    assert (cards - {id})[id := card] == cards;
    assert i > 0 && PrevSibling(children, card) == Before(children, i) ==>
      CardIds(children)[k - 1] == CardIds(children)[i - 1];
  }

  ghost predicate Placed(children: seq<Card>, plan: seq<string>, i: nat) {
    i <= |children| && i <= |plan| && forall k | 0 <= k < i :: children[k].sessionId == plan[k]
  }

  lemma {:induction false} PlacingOneMore(before: seq<Card>, after: seq<Card>, plan: seq<string>, i: nat)
    requires Placed(before, plan, i) && i < |plan| && i < |after|
    requires forall m | 0 <= m < i :: after[m] == before[m]
    ensures after[i].sessionId == plan[i] ==> Placed(after, plan, i + 1)
  {
  }

  lemma {:induction false} Locate(children: seq<Card>, cards: map<string, Card>, plan: seq<string>, i: nat)
    returns (k: nat)
    requires Consistent(children, cards) && Placed(children, plan, i) && i < |plan| && NoDuplicates(plan)
      && plan[i] in cards
    ensures i <= k < |children| && children[k] == cards[plan[i]] && children[k].sessionId == plan[i]
    ensures children[i].sessionId == plan[i] ==> k == i
  {
    assert Listed(children, plan[i]);
    k :| 0 <= k < |children| && children[k].sessionId == plan[i];
    assert CardIds(children)[k] == plan[i] && (i < |children| ==> CardIds(children)[i] == children[i].sessionId);
  }

  lemma {:induction false} Leaving(children: seq<Card>, cards: map<string, Card>, plan: seq<string>, id: string)
    requires Consistent(children, cards) && Placed(children, plan, |plan|) && id in cards && id !in plan
    ensures cards[id] in children
    ensures Consistent(Without(children, cards[id]), cards - {id}) && Placed(Without(children, cards[id]), plan, |plan|)
  {
    assert Listed(children, id);
    var k :| 0 <= k < |children| && children[k].sessionId == id;
    IndexIsUnique(children, k);
    Taking(children, cards, k);
  }

  lemma {:induction false} NothingGone(children: seq<Card>, cards: map<string, Card>, plan: seq<string>)
    requires Consistent(children, cards) && CardIds(children) == plan
    ensures forall id <- cards :: id in plan
  {
    forall id <- cards
      ensures id in plan
    {
      assert Listed(children, id);
      var k :| 0 <= k < |children| && children[k].sessionId == id;
      assert CardIds(children)[k] == id;
    }
  }

  lemma {:induction false} Overfull(children: seq<Card>, plan: seq<string>)
    requires Placed(children, plan, |plan|) && NoDuplicates(CardIds(children)) && |plan| < |children|
    ensures CardIds(children)[|plan|] !in plan
  {
    assert forall k | 0 <= k < |plan| :: CardIds(children)[k] == plan[k];
  }

  lemma {:induction false} NoneLeft(children: seq<Card>, cards: map<string, Card>, plan: seq<string>)
    requires Consistent(children, cards) && Placed(children, plan, |plan|) && forall id <- cards :: id in plan
    ensures CardIds(children) == plan
  {
    if |plan| < |children| {
      Overfull(children, plan);
    }
  }

  /** The cards in the order the toolkit draws them, after the label shown for an empty list. */
  class SessionList {
    var children: seq<Card>
    var cards: map<string, Card>
    var emptyVisible: bool

    constructor ()
      ensures Valid() && children == [] && emptyVisible
    {
      children, cards, emptyVisible := [], map[], true;
    }

    ghost predicate Valid()
      reads this
    {
      Consistent(children, cards)
    }

    /** What a person sees of the list. */
    ghost function View(): Shown
      reads `children, `cards, cards.Values
    {
      Shown(CardIds(children), map id | id in cards :: cards[id].look)
    }

    /** A card that is not there yet is made, and put behind the one placed last. */
    method Make(plan: seq<string>, i: nat, previous: Option<Card>) returns (card: Card)
      requires Valid() && Placed(children, plan, i) && i < |plan| && plan[i] !in cards
      requires previous == Before(children, i)
      modifies `children, `cards
      ensures Valid() && Placed(children, plan, i + 1) && children[i] == card
      ensures cards == old(cards)[plan[i] := card] && fresh(card) && card.look == BLANK
    {
      card := new Card(plan[i]);
      PuttingBehind(children, cards, i, card);
      PlacingOneMore(children, InsertAfter(children, card, previous), plan, i);
      hide Consistent, Placed, InsertAfter;
      cards := cards[plan[i] := card];
      children := InsertAfter(children, card, previous);
    }

    /** A card that is there is moved behind the one placed last, unless it stands there already. */
    method Move(plan: seq<string>, i: nat, previous: Option<Card>) returns (card: Card)
      requires Valid() && Placed(children, plan, i) && i < |plan| && NoDuplicates(plan) && plan[i] in cards
      requires previous == Before(children, i)
      modifies `children
      ensures Valid() && Placed(children, plan, i + 1) && i < |children| && children[i] == card == cards[plan[i]]
      ensures i < |old(children)| && old(children)[i].sessionId == plan[i] ==> children == old(children)
    {
      card := cards[plan[i]];
      ghost var k := Locate(children, cards, plan, i);
      Moving(children, cards, i, k);
      PlacingOneMore(children, children, plan, i);
      PlacingOneMore(children, InsertAfter(Without(children, card), card, previous), plan, i);
      hide Consistent, Placed, NoDuplicates, InsertAfter, Without, PrevSibling;
      if PrevSibling(children, card) != previous {
        children := InsertAfter(Without(children, card), card, previous);
      }
    }

    /** One turn of the placing loop: find or make the card, and put it behind the one placed last. */
    method Place(plan: seq<string>, i: nat, previous: Option<Card>) returns (card: Card)
      requires Valid() && Placed(children, plan, i) && i < |plan| && NoDuplicates(plan)
      requires previous == Before(children, i)
      modifies `children, `cards
      ensures Valid() && Placed(children, plan, i + 1) && children[i] == card
      ensures cards == old(cards)[plan[i] := card]
      ensures if plan[i] in old(cards) then card == old(cards)[plan[i]] else fresh(card) && card.look == BLANK
      ensures i < |old(children)| && old(children)[i].sessionId == plan[i] ==> children == old(children)
    {
      assert i < |children| ==> children[i].sessionId in cards;
      hide Consistent, Placed, NoDuplicates;
      if plan[i] !in cards {
        card := Make(plan, i, previous);
      } else {
        card := Move(plan, i, previous);
      }
    }

    /** Drop every card the plan leaves out. */
    method RemoveGone(plan: seq<string>)
      requires Valid() && Placed(children, plan, |plan|) && NoDuplicates(plan)
      modifies `children, `cards
      ensures Valid() && CardIds(children) == plan && cards.Keys == IdSet(plan)
      ensures forall id <- cards :: id in old(cards) && cards[id] == old(cards)[id]
      ensures CardIds(old(children)) == plan ==> children == old(children) && cards == old(cards)
    {
      var gone := set id | id in cards && id !in plan;
      if CardIds(children) == plan { NothingGone(children, cards, plan); }
      while gone != {}
        invariant Valid() && Placed(children, plan, |plan|)
        invariant gone == set id | id in cards && id !in plan
        invariant forall id <- cards :: id in old(cards) && cards[id] == old(cards)[id]
        invariant CardIds(old(children)) == plan ==> children == old(children) && cards == old(cards)
        decreases gone
      {
        var id :| id in gone;
        Leaving(children, cards, plan, id);
        children, cards, gone := Without(children, cards[id]), cards - {id}, gone - {id};
      }
      assert forall id <- cards :: id in plan || id in gone;
      NoneLeft(children, cards, plan);
      OnlyPlanned(children, cards, plan);
    }

    static method Draw(card: Card, news: News)
      modifies card
      ensures card.look == Redrawn(old(card.look), card.sessionId, news)
    {
      if card.sessionId in news.found {
        card.Update(news.found[card.sessionId], card.sessionId in news.busy, Note(news.notes, card.sessionId),
                    news.confirming);
      } else {
        // Only a list in use still holds such a card; it no longer answers the pointer.
        card.SetInsensitive();
      }
    }

    /** One turn of the loop. `looks` is what the cards show before it. */
    method PlaceOne(plan: seq<string>, i: nat, previous: Option<Card>, news: News, ghost looks: map<string, Look>)
      returns (card: Card)
      requires Valid() && Placed(children, plan, i) && i < |plan| && NoDuplicates(plan)
      requires previous == Before(children, i) && Showing(cards, looks)
      modifies `children, `cards, if plan[i] in cards then {cards[plan[i]]} else {}
      ensures Valid() && Placed(children, plan, i + 1) && Before(children, i + 1) == Some(card)
      ensures Showing(cards, Draws(looks, plan[i], news))
      ensures cards == old(cards)[plan[i] := card]
      ensures if plan[i] in old(cards) then card == old(cards)[plan[i]] else fresh(card)
      ensures i < |old(children)| && old(children)[i].sessionId == plan[i] ==> children == old(children)
    {
      DistinctCards(children, cards);
      card := Place(plan, i, previous);
      Draw(card, news);
    }

    /** The placing loop: each planned card is put in its place and drawn. */
    method PlaceAll(plan: seq<string>, news: News, ghost looks: map<string, Look>, ghost widgets: set<Card>)
      requires Valid() && NoDuplicates(plan) && Showing(cards, looks) && Within(cards, widgets)
      modifies `children, `cards, widgets
      ensures Valid() && Placed(children, plan, |plan|) && Showing(cards, AllDrawn(looks, plan, news))
      ensures Grown(old(cards), cards)
      ensures forall id {:trigger id in cards} | id in cards :: id in old(cards) || fresh(cards[id])
      ensures plan == CardIds(old(children)) ==> children == old(children) && cards == old(cards)
    {
      hide Consistent, Redrawn, NoDuplicates;
      var previous: Option<Card> := None;
      ghost var shown := looks;
      for i := 0 to |plan|
        invariant Valid() && Placed(children, plan, i) && previous == Before(children, i)
        invariant shown == AllDrawn(looks, plan[..i], news) && Showing(cards, shown)
        invariant Grown(old(cards), cards)
        invariant forall id {:trigger id in cards} | id in cards :: id in old(cards) || fresh(cards[id])
        invariant plan == CardIds(old(children)) ==> children == old(children) && cards == old(cards)
      {
        var card := PlaceOne(plan, i, previous, news, shown);
        assert plan[..i + 1][..i] == plan[..i];
        previous, shown := Some(card), Draws(shown, plan[i], news);
      }
      assert plan[..|plan|] == plan;
    }

    method Arrange(plan: seq<string>, news: News, ghost looks: map<string, Look>, ghost widgets: set<Card>)
      requires Valid() && NoDuplicates(plan) && Showing(cards, looks) && Within(cards, widgets)
      modifies `children, `cards, widgets
      ensures Valid() && CardIds(children) == plan && cards.Keys == IdSet(plan)
      ensures forall id <- cards :: if id in old(cards) then cards[id] == old(cards)[id] else fresh(cards[id])
      ensures plan == CardIds(old(children)) ==> children == old(children) && cards == old(cards)
      ensures var drawn := AllDrawn(looks, plan, news);
        && Shows(cards, drawn) && Shows(old(cards), drawn)
    {
      PlaceAll(plan, news, looks, widgets);
      RemoveGone(plan);
    }

    /** The children become the plan, and each card of it is drawn. */
    method Redo(plan: seq<string>, news: News)
      requires Valid() && NoDuplicates(plan)
      modifies `children, `cards, cards.Values
      ensures Valid() && CardIds(children) == plan
      ensures forall id <- cards :: if id in old(cards) then cards[id] == old(cards)[id] else fresh(cards[id])
      ensures plan == CardIds(old(children)) ==> children == old(children) && cards == old(cards)
      ensures View() == Shown(plan, Redone(old(View()).looks, plan, news))
      ensures forall id <- old(cards) :: id !in cards ==> old(cards)[id].look == old(cards[id].look)
    {
      ghost var looks := View().looks;
      Arrange(plan, news, looks, cards.Values);
      AllDrawnIs(looks, plan, news);
      hide AllDrawn, Redrawn, Consistent, Redone;
      ViewIsRedone(cards, looks, plan, news);
    }

    /** One refresh of the list; the result tells a caller that a card came, went or moved. */
    method Update(sessions: seq<Session>, busy: set<string>, notes: map<string, string>, confirming: Option<string>,
                  frozen: bool) returns (changed: bool)
      requires Valid() && DistinctIds(sessions)
      modifies this, cards.Values
      ensures Valid()
      // A list that is empty or not held still takes exactly what it is given; any other keeps what it shows.
      ensures !frozen || old(children) == [] ==> CardIds(children) == Ids(sessions)
      ensures frozen && old(children) != [] ==> CardIds(children) == CardIds(old(children))
      ensures changed == (CardIds(children) != CardIds(old(children))) && emptyVisible == (children == [])
      // A session that stays keeps its card; a new one gets a new card.
      ensures forall id <- cards :: if id in old(cards) then cards[id] == old(cards)[id] else fresh(cards[id])
      ensures frozen && old(children) != [] ==> children == old(children) && cards == old(cards)
      // Each card on the list is drawn from its session, or made inert when that is gone; a card taken off is left
      // alone.
      ensures DrawnFrom(old(View()), View(), Poll(sessions, busy, notes, confirming, frozen))
      ensures View() == Refreshed(old(View()), Poll(sessions, busy, notes, confirming, frozen))
      ensures forall id <- old(cards) :: id !in cards ==> old(cards)[id].look == old(cards[id].look)
    {
      hide Redone, Refreshed, ById, DrawnFrom;
      ghost var poll, before := Poll(sessions, busy, notes, confirming, frozen), View();
      var news := News(ById(sessions), busy, notes, confirming);
      var shown := CardIds(children);
      var plan := CardPlan(shown, Ids(sessions), frozen);
      PlanIsDistinct(children, sessions);
      ViewIsWhole(children, cards);
      RefreshedIsDrawn(before, poll);
      Redo(plan, news);
      emptyVisible := plan == [];
      changed := plan != shown;
      RefreshedIs(before, poll);
    }
  }

  /** What a refresh is given. */
  datatype News = News(
    found: map<string, Session>, busy: set<string>, notes: map<string, string>, confirming: Option<string>)

  function Redrawn(look: Look, id: string, news: News): Look {
    if id in news.found then
      Look(Some(Drawing(news.found[id], id in news.busy, Note(news.notes, id),
                        news.confirming == Some(id) && !Over(news.found[id]))), look.sensitive)
    else Look(look.drawn, false)
  }

  /** The cards' identifiers in their order, and what each card shows. */
  datatype Shown = Shown(plan: seq<string>, looks: map<string, Look>)

  /** What one refresh is called with. */
  datatype Poll = Poll(
    sessions: seq<Session>, busy: set<string>, notes: map<string, string>, confirming: Option<string>, frozen: bool)

  function Redone(looks: map<string, Look>, plan: seq<string>, news: News): map<string, Look> {
    map id | id in plan :: Redrawn(if id in looks then looks[id] else BLANK, id, news)
  }

  function Refreshed(s: Shown, poll: Poll): Shown {
    var plan := CardPlan(s.plan, Ids(poll.sessions), poll.frozen);
    Shown(plan, Redone(s.looks, plan, News(ById(poll.sessions), poll.busy, poll.notes, poll.confirming)))
  }

  lemma {:induction false} RefreshedIs(s: Shown, poll: Poll)
    ensures var plan := CardPlan(s.plan, Ids(poll.sessions), poll.frozen);
      Refreshed(s, poll) == Shown(plan,
                                  Redone(s.looks, plan, News(ById(poll.sessions), poll.busy, poll.notes,
                                                             poll.confirming)))
  {
  }

  /** The card of each session given is drawn from it, and every other card on the list was there before and no longer
      answers; a new card answers. */
  predicate DrawnFrom(before: Shown, after: Shown, poll: Poll) {
    && (forall x <- poll.sessions :: x.sessionId in after.looks ==>
          after.looks[x.sessionId] ==
            Look(Some(Drawing(x, x.sessionId in poll.busy,
                              if x.sessionId in poll.notes then Some(poll.notes[x.sessionId]) else None,
                              poll.confirming == Some(x.sessionId) && !x.state.Closed? && !x.state.Closing?)),
                 x.sessionId in before.looks ==> before.looks[x.sessionId].sensitive))
    && (forall id <- after.looks | id !in Ids(poll.sessions) ::
          id in before.looks && after.looks[id] == Look(before.looks[id].drawn, false))
  }

  lemma {:induction false} RefreshedIsDrawn(s: Shown, poll: Poll)
    requires DistinctIds(poll.sessions) && forall id <- s.plan :: id in s.looks
    ensures DrawnFrom(s, Refreshed(s, poll), poll)
  {
    hide ById, Ids, DistinctIds, Redone;
    forall x <- poll.sessions
      ensures x.sessionId in ById(poll.sessions) && ById(poll.sessions)[x.sessionId] == x
    {
      ByIdFinds(poll.sessions, x);
    }
    forall id
      ensures id in ById(poll.sessions) <==> id in Ids(poll.sessions)
    {
      GivenIsFound(poll.sessions, id);
    }
    var plan := CardPlan(s.plan, Ids(poll.sessions), poll.frozen);
    RefreshedIs(s, poll);
    RedoneAt(s.looks, plan, News(ById(poll.sessions), poll.busy, poll.notes, poll.confirming));
  }

  lemma {:induction false} RedoneAt(looks: map<string, Look>, plan: seq<string>, news: News)
    ensures forall id :: id in Redone(looks, plan, news) <==> id in plan
    ensures forall id <- plan ::
      Redone(looks, plan, news)[id] == Redrawn(if id in looks then looks[id] else BLANK, id, news)
  {
  }

  /** What an empty list has come to after a run of refreshes. */
  function AfterAll(polls: seq<Poll>): Shown {
    if polls == [] then Shown([], map[]) else Refreshed(AfterAll(polls[..|polls| - 1]), polls[|polls| - 1])
  }

  lemma {:induction false} PlanIsShown(polls: seq<Poll>, id: string)
    ensures id in AfterAll(polls).looks <==> id in AfterAll(polls).plan
  {
    hide ById;
    if polls != [] {
      assert AfterAll(polls) == Refreshed(AfterAll(polls[..|polls| - 1]), polls[|polls| - 1]);
    }
  }

  lemma {:induction false} GivenIsFound(sessions: seq<Session>, id: string)
    ensures id in ById(sessions) <==> id in Ids(sessions)
  {
    if sessions != [] {
      var n := |sessions| - 1;
      assert sessions == sessions[..n] + [sessions[n]];
      assert Ids(sessions) == Ids(sessions[..n]) + [sessions[n].sessionId];
      GivenIsFound(sessions[..n], id);
    }
  }

  /** The card of a session was made by refresh number `made` and has stayed on the list since. */
  ghost predicate MadeAt(polls: seq<Poll>, id: string, made: nat) {
    && made < |polls|
    && id !in AfterAll(polls[..made]).looks
    && forall k | made < k <= |polls| :: id in AfterAll(polls[..k]).looks
  }

  ghost predicate GivenSince(polls: seq<Poll>, id: string, made: nat) {
    forall k | made <= k < |polls| :: id in Ids(polls[k].sessions)
  }

  lemma {:induction false} CardAnswers(s: Shown, poll: Poll, id: string)
    requires id in Refreshed(s, poll).looks
    requires id in s.looks <==> id in s.plan
    ensures Refreshed(s, poll).looks[id].sensitive <==>
      (id in s.looks ==> s.looks[id].sensitive) && id in Ids(poll.sessions)
  {
    GivenIsFound(poll.sessions, id);
    hide ById, Ids;
  }

  lemma {:induction false} MadeEarlier(polls: seq<Poll>, id: string, made: nat)
    requires |polls| > 0
    ensures made < |polls| - 1 && MadeAt(polls, id, made) ==> MadeAt(polls[..|polls| - 1], id, made)
    ensures MadeAt(polls[..|polls| - 1], id, made) && id in AfterAll(polls).looks ==> MadeAt(polls, id, made)
  {
    hide AfterAll;
    var before := polls[..|polls| - 1];
    assert polls[..|polls|] == polls;
    assert forall k | 0 <= k < |polls| :: before[..k] == polls[..k];
  }

  lemma {:induction false} LastRefresh(polls: seq<Poll>, id: string, made: nat)
    requires MadeAt(polls, id, made)
    ensures var n := |polls| - 1;
      && AfterAll(polls) == Refreshed(AfterAll(polls[..n]), polls[n])
      && id in AfterAll(polls).looks
      && made <= n && (made == n ==> id !in AfterAll(polls[..n]).looks)
  {
    assert AfterAll(polls) == Refreshed(AfterAll(polls[..|polls| - 1]), polls[|polls| - 1]);
    hide AfterAll;
    assert polls[..|polls|] == polls;
  }

  lemma {:induction false} GivenLonger(polls: seq<Poll>, id: string, made: nat)
    requires made < |polls|
    ensures var n := |polls| - 1;
      GivenSince(polls, id, made) <==>
        (made < n ==> GivenSince(polls[..n], id, made)) && id in Ids(polls[n].sessions)
  {
    hide Ids;
  }

  /** A card answers the pointer exactly when its session was given in every refresh since the card was made: a card a
      list in use once held without its session stays inert for as long as it stays, however often the session is given
      again. */
  lemma {:induction false} AnswersExactly(polls: seq<Poll>, id: string, made: nat)
    requires MadeAt(polls, id, made)
    ensures id in AfterAll(polls).looks
    ensures AfterAll(polls).looks[id].sensitive <==> GivenSince(polls, id, made)
  {
    LastRefresh(polls, id, made);
    GivenLonger(polls, id, made);
    var n := |polls| - 1;
    PlanIsShown(polls[..n], id);
    CardAnswers(AfterAll(polls[..n]), polls[n], id);
    if made < n {
      MadeEarlier(polls, id, made);
      AnswersExactly(polls[..n], id, made);
    }
    hide AfterAll, Refreshed, GivenSince, MadeAt, Ids;
  }

  /** Every card on the list was made by one of the refreshes. */
  lemma {:induction false} EachCardWasMade(polls: seq<Poll>, id: string) returns (made: nat)
    requires id in AfterAll(polls).looks
    ensures MadeAt(polls, id, made)
  {
    assert polls != [];
    hide AfterAll;
    var n := |polls| - 1;
    assert polls[..|polls|] == polls;
    if id in AfterAll(polls[..n]).looks {
      made := EachCardWasMade(polls[..n], id);
      MadeEarlier(polls, id, made);
    } else {
      made := n;
    }
  }

  function Draws(looks: map<string, Look>, id: string, news: News): map<string, Look> {
    looks[id := Redrawn(if id in looks then looks[id] else BLANK, id, news)]
  }

  function AllDrawn(looks: map<string, Look>, plan: seq<string>, news: News): map<string, Look> {
    if plan == [] then looks
    else Draws(AllDrawn(looks, plan[..|plan| - 1], news), plan[|plan| - 1], news)
  }

  ghost predicate Showing(cards: map<string, Card>, looks: map<string, Look>)
    reads cards.Values
  {
    cards.Keys == looks.Keys && forall id {:trigger id in cards} | id in cards :: cards[id].look == looks[id]
  }

  ghost predicate Shows(cards: map<string, Card>, looks: map<string, Look>)
    reads cards.Values
  {
    forall id {:trigger id in cards} | id in cards :: id in looks && cards[id].look == looks[id]
  }

  ghost predicate Within(cards: map<string, Card>, widgets: set<Card>) {
    forall id {:trigger id in cards} | id in cards :: cards[id] in widgets
  }

  ghost predicate Grown(before: map<string, Card>, after: map<string, Card>) {
    forall id {:trigger id in before} | id in before :: id in after && after[id] == before[id]
  }

  lemma {:induction false} AllDrawnIs(looks: map<string, Look>, plan: seq<string>, news: News)
    requires NoDuplicates(plan)
    ensures forall id :: id in AllDrawn(looks, plan, news) <==> id in looks || id in plan
    ensures forall id {:trigger id in plan} | id in plan ::
      AllDrawn(looks, plan, news)[id] == Redrawn(if id in looks then looks[id] else BLANK, id, news)
    ensures forall id {:trigger id in looks} | id in looks && id !in plan ::
      AllDrawn(looks, plan, news)[id] == looks[id]
  {
    if plan != [] {
      var last := |plan| - 1;
      AllDrawnIs(looks, plan[..last], news);
      assert plan == plan[..last] + [plan[last]];
      assert plan[last] !in plan[..last];
    }
  }

  lemma {:induction false} ViewIsRedone(cards: map<string, Card>, looks: map<string, Look>, plan: seq<string>,
                                        news: News)
    requires NoDuplicates(plan) && cards.Keys == IdSet(plan) && Shows(cards, AllDrawn(looks, plan, news))
    ensures (map id | id in cards :: cards[id].look) == Redone(looks, plan, news)
  {
    AllDrawnIs(looks, plan, news);
    hide AllDrawn, Redrawn;
    assert forall id :: id in cards <==> id in IdSet(plan);
  }

  lemma {:induction false} ViewIsWhole(children: seq<Card>, cards: map<string, Card>)
    requires Consistent(children, cards)
    ensures forall id <- CardIds(children) :: id in cards
  {
  }

  lemma {:induction false} PlanIsDistinct(children: seq<Card>, sessions: seq<Session>)
    requires NoDuplicates(CardIds(children)) && DistinctIds(sessions)
    ensures NoDuplicates(Ids(sessions))
  {
  }

  lemma {:induction false} OnlyPlanned(children: seq<Card>, cards: map<string, Card>, plan: seq<string>)
    requires Consistent(children, cards) && CardIds(children) == plan
    ensures cards.Keys == IdSet(plan)
  {
    forall id
      ensures id in cards <==> id in plan
    {
      if id in cards {
        assert Listed(children, id);
        var k :| 0 <= k < |children| && children[k].sessionId == id;
        assert plan[k] == id;
      }
      if id in plan {
        var k :| 0 <= k < |plan| && plan[k] == id;
        assert children[k].sessionId == id;
      }
    }
  }

  lemma {:induction false} DistinctCards(children: seq<Card>, cards: map<string, Card>)
    requires Consistent(children, cards)
    ensures forall id <- cards :: cards[id].sessionId == id
  {
    forall id <- cards
      ensures cards[id].sessionId == id
    {
      assert Listed(children, id);
    }
  }

  function Note(notes: map<string, string>, id: string): Option<string> {
    if id in notes then Some(notes[id]) else None
  }
}
