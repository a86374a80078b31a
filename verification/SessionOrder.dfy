/** The order desktop/panel_broker.py's stable_order gives the session cards, and when it holds still. */
module SessionOrder {
  import opened Common

  datatype SessionState = Running | Paused | Closing | Closed

  /** A session of the broker's; `face` stands for whatever else of it the mark and the cards show. */
  datatype Session = Session(
    sessionId: string, createdAt: Option<int>, state: SessionState, task: string, face: string)

  // --- Order ---------------------------------------------------------------------------------------

  /** What stable_order sorts by: a missing creation time counts as zero. */
  function CreatedAt(s: Session): int {
    if s.createdAt.None? then 0 else s.createdAt.value
  }

  function Insert(x: Session, sorted: seq<Session>): seq<Session> {
    if sorted == [] then [x]
    else if CreatedAt(x) <= CreatedAt(sorted[0]) then [x] + sorted
    else [sorted[0]] + Insert(x, sorted[1..])
  }

  /** stable_order. Python's sort is stable, which inserting from the right is too. */
  function StableOrder(sessions: seq<Session>): seq<Session> {
    if sessions == [] then [] else Insert(sessions[0], StableOrder(sessions[1..]))
  }

  function Ids(sessions: seq<Session>): (ids: seq<string>)
    ensures |ids| == |sessions|
    ensures forall i | 0 <= i < |ids| :: ids[i] == sessions[i].sessionId
  {
    seq(|sessions|, i requires 0 <= i < |sessions| => sessions[i].sessionId)
  }

  predicate Ordered(s: seq<Session>) {
    forall i, j | 0 <= i < j < |s| :: CreatedAt(s[i]) <= CreatedAt(s[j])
  }

  function Tie(x: Session, when: int): seq<Session> {
    if CreatedAt(x) == when then [x] else []
  }

  /** The sessions created at one time, in the order they are given. */
  function CreatedThen(s: seq<Session>, when: int): seq<Session> {
    if s == [] then [] else Tie(s[0], when) + CreatedThen(s[1..], when)
  }

  lemma {:induction false} CreatedThenFirst(x: Session, s: seq<Session>, when: int)
    ensures CreatedThen([x] + s, when) == Tie(x, when) + CreatedThen(s, when)
  {
    assert ([x] + s)[1..] == s;
  }

  function Key(x: Session): (string, int) {
    (x.sessionId, CreatedAt(x))
  }

  /** What decides each card's place: which session it is, and when that was created. */
  function Keys(s: seq<Session>): (keys: seq<(string, int)>)
    ensures |keys| == |s| && forall i | 0 <= i < |s| :: keys[i] == Key(s[i])
  {
    seq(|s|, i requires 0 <= i < |s| => Key(s[i]))
  }

  lemma {:induction false} InsertSorts(x: Session, s: seq<Session>)
    requires Ordered(s)
    ensures Ordered(Insert(x, s))
    ensures forall y :: y in Insert(x, s) <==> y == x || y in s
  {
    if s != [] && CreatedAt(x) > CreatedAt(s[0]) {
      InsertSorts(x, s[1..]);
      assert forall j | 0 <= j < |Insert(x, s[1..])| :: Insert(x, s[1..])[j] in Insert(x, s[1..]);
    }
  }

  lemma {:induction false} InsertAddsKey(x: Session, s: seq<Session>)
    ensures multiset(Keys(Insert(x, s))) == multiset(Keys(s)) + multiset{Key(x)}
  {
    if s == [] || CreatedAt(x) <= CreatedAt(s[0]) {
      assert s == [] ==> Keys([x]) == [Key(x)] && Keys(s) == [];
      assert Keys([x] + s) == [Key(x)] + Keys(s);
    } else {
      InsertAddsKey(x, s[1..]);
      assert Keys(Insert(x, s)) == [Key(s[0])] + Keys(Insert(x, s[1..]));
      assert Keys(s) == [Key(s[0])] + Keys(s[1..]);
    }
  }

  lemma {:induction false} InsertKeepsTies(x: Session, s: seq<Session>, when: int)
    ensures CreatedThen(Insert(x, s), when) == Tie(x, when) + CreatedThen(s, when)
  {
    if s == [] || CreatedAt(x) <= CreatedAt(s[0]) {
      CreatedThenFirst(x, s, when);
      assert s == [] ==> [x] + s == [x];
    } else {
      InsertKeepsTies(x, s[1..], when);
      CreatedThenFirst(s[0], Insert(x, s[1..]), when);
      assert Tie(x, when) == [] || Tie(s[0], when) == [];
      hide Tie;
      var rest := CreatedThen(s[1..], when);
      assert Tie(s[0], when) + (Tie(x, when) + rest) == Tie(x, when) + (Tie(s[0], when) + rest);
    }
  }

  /** A sorted permutation. */
  lemma {:induction false} StableOrderSorts(s: seq<Session>)
    ensures Ordered(StableOrder(s)) && multiset(Keys(StableOrder(s))) == multiset(Keys(s))
    ensures forall y :: y in StableOrder(s) <==> y in s
  {
    if s != [] {
      StableOrderSorts(s[1..]);
      InsertSorts(s[0], StableOrder(s[1..]));
      InsertAddsKey(s[0], StableOrder(s[1..]));
      assert Keys(s) == [Key(s[0])] + Keys(s[1..]);
    }
  }

  /** Sessions created at the same time keep the order they came in. */
  lemma {:induction false} StableOrderKeepsTies(s: seq<Session>, when: int)
    ensures CreatedThen(StableOrder(s), when) == CreatedThen(s, when)
  {
    if s != [] {
      StableOrderKeepsTies(s[1..], when);
      InsertKeepsTies(s[0], StableOrder(s[1..]), when);
    }
  }

  /** One session before another, by the times they carry; one without a time stands where zero would. */
  predicate Precedes(x: Session, y: Session) {
    match (x.createdAt, y.createdAt)
    case (Some(a), Some(b)) => a < b
    case (Some(a), None) => a < 0
    case (None, Some(b)) => 0 < b
    case (None, None) => false
  }

  lemma {:induction false} InsertPlace(x: Session, s: seq<Session>) returns (k: nat)
    requires Ordered(s)
    ensures k <= |s| && Insert(x, s) == s[..k] + [x] + s[k..]
    ensures (forall i | 0 <= i < k :: Precedes(s[i], x)) && forall i | k <= i < |s| :: !Precedes(s[i], x)
  {
    k := 0;
    if s != [] && CreatedAt(x) > CreatedAt(s[0]) {
      var rest := InsertPlace(x, s[1..]);
      k := rest + 1;
      assert s[..k] == [s[0]] + s[1..][..rest];
      assert forall i | 1 <= i < |s| :: s[i] == s[1..][i - 1];
    }
  }

  /** Where each session of the order stood before. */
  predicate Places(order: seq<Session>, s: seq<Session>, places: seq<nat>) {
    && |places| == |order| == |s|
    && (forall k | 0 <= k < |places| :: places[k] < |s| && order[k] == s[places[k]])
    && (forall i, j | 0 <= i < j < |places| :: places[i] != places[j])
  }

  /** The places after a session was put in front of the others and went to place `k` of their order. */
  function PutFirst(later: seq<nat>, k: nat): (places: seq<nat>)
    requires k <= |later|
    ensures |places| == |later| + 1
  {
    seq(|later| + 1, i requires 0 <= i <= |later| =>
      if i < k then later[i] + 1 else if i == k then 0 else later[i - 1] + 1)
  }

  ghost predicate Stable(s: seq<Session>, places: seq<nat>)
    requires forall k | 0 <= k < |places| :: places[k] < |s|
  {
    forall i, j | 0 <= i < j < |places| ::
      Precedes(s[places[i]], s[places[j]]) || (!Precedes(s[places[j]], s[places[i]]) && places[i] < places[j])
  }

  lemma {:induction false} PutFirstIsPlaces(s: seq<Session>, order: seq<Session>, later: seq<nat>, k: nat)
    requires s != [] && Places(order, s[1..], later) && k <= |order|
    ensures Places(order[..k] + [s[0]] + order[k..], s, PutFirst(later, k))
  {
    var all, places := order[..k] + [s[0]] + order[k..], PutFirst(later, k);
    forall i | 0 <= i < |places|
      ensures places[i] < |s| && all[i] == s[places[i]]
    {
      if i != k {
        assert all[i] == order[if i < k then i else i - 1];
      }
    }
  }

  lemma {:induction false} PutFirstIsStable(s: seq<Session>, order: seq<Session>, later: seq<nat>, k: nat)
    requires s != [] && Places(order, s[1..], later) && Stable(s[1..], later) && k <= |order|
    requires (forall i | 0 <= i < k :: Precedes(order[i], s[0])) && forall i | k <= i < |order| ::
      !Precedes(order[i], s[0])
    ensures Places(order[..k] + [s[0]] + order[k..], s, PutFirst(later, k)) && Stable(s, PutFirst(later, k))
  {
    PutFirstIsPlaces(s, order, later, k);
    var places := PutFirst(later, k);
    hide Precedes;
    forall i, j | 0 <= i < j < |places|
      ensures Precedes(s[places[i]], s[places[j]]) || (!Precedes(s[places[j]], s[places[i]]) && places[i] < places[j])
    {
      var a, b := if i < k then i else i - 1, if j < k then j else j - 1;
      if i != k && j != k {
        assert s[places[i]] == s[1..][later[a]] && s[places[j]] == s[1..][later[b]];
      } else if i == k {
        assert s[places[j]] == order[b];
      } else {
        assert s[places[i]] == order[a];
      }
    }
  }

  /** A stable sort, said of the sessions themselves: each is there once, none stands behind one it precedes, and of two
      that do not precede each other the one given earlier comes first. */
  lemma {:induction false} StableOrderIsStable(s: seq<Session>) returns (places: seq<nat>)
    ensures Places(StableOrder(s), s, places) && Stable(s, places)
  {
    places := [];
    if s != [] {
      var order := StableOrder(s[1..]);
      var later := StableOrderIsStable(s[1..]);
      StableOrderSorts(s[1..]);
      var k := InsertPlace(s[0], order);
      PutFirstIsStable(s, order, later, k);
      places := PutFirst(later, k);
      hide Places, Stable, Insert;
    }
  }

  /** The same sessions at any later poll: regrouped, and with any state or task. */
  ghost predicate Regrouped(a: seq<Session>, b: seq<Session>) {
    multiset(Keys(a)) == multiset(Keys(b))
  }

  ghost predicate DistinctIds(s: seq<Session>) {
    forall i, j | 0 <= i < j < |s| :: s[i].sessionId != s[j].sessionId
  }

  ghost predicate DistinctTimes(s: seq<Session>) {
    forall i, j | 0 <= i < j < |s| :: CreatedAt(s[i]) != CreatedAt(s[j])
  }

  predicate Climbing(k: seq<(string, int)>) {
    forall i, j | 0 <= i < j < |k| :: k[i].1 < k[j].1
  }

  lemma {:induction false} ClimbingIsUnique(a: seq<(string, int)>, b: seq<(string, int)>)
    requires Climbing(a) && Climbing(b) && |a| == |b| && forall x :: x in a <==> x in b
    ensures a == b
  {
    if a != [] {
      assert a[0] in b;
      assert b[0] in a;
      assert a[0] == b[0];
      forall x
        ensures x in a[1..] <==> x in b[1..]
      {
        assert x in a[1..] <==> x in a && x != a[0];
        assert x in b[1..] <==> x in b && x != b[0];
      }
      ClimbingIsUnique(a[1..], b[1..]);
    }
  }

  /** A time no two sessions share is found once among their keys. */
  lemma {:induction false} TimeAppearsOnce(a: seq<Session>, k: (string, int), l: (string, int))
    requires DistinctTimes(a) && k.1 == l.1
    ensures k in Keys(a) && l in Keys(a) ==> k == l
    ensures multiset(Keys(a))[k] <= 1
  {
    if a != [] {
      TimeAppearsOnce(a[1..], k, l);
      assert Keys(a) == [Key(a[0])] + Keys(a[1..]);
      assert Key(a[0]).1 == k.1 ==> k !in Keys(a[1..]) && l !in Keys(a[1..]);
    }
  }

  lemma {:induction false} TwiceMeansTwo(k: seq<(string, int)>, i: nat, j: nat)
    requires i < j < |k| && k[i] == k[j]
    ensures multiset(k)[k[i]] >= 2
  {
    assert k == k[..j] + k[j..];
    assert k[i] in k[..j] && k[j] in k[j..];
  }

  lemma {:induction false} DistinctTimesOfKeys(a: seq<Session>, b: seq<Session>)
    requires DistinctTimes(a) && Regrouped(a, b) && Ordered(b)
    ensures Climbing(Keys(b))
  {
    var k := Keys(b);
    forall i, j | 0 <= i < j < |k|
      ensures k[i].1 < k[j].1
    {
      if k[i].1 == k[j].1 {
        assert k[i] in multiset(Keys(a)) && k[j] in multiset(Keys(a));
        TimeAppearsOnce(a, k[i], k[j]);
        TwiceMeansTwo(k, i, j);
      }
    }
  }

  lemma {:induction false} DistinctTimesFixOrder(a: seq<Session>, b: seq<Session>)
    requires DistinctTimes(a) && Regrouped(a, b)
    ensures Ids(StableOrder(a)) == Ids(StableOrder(b))
  {
    StableOrderSorts(a);
    StableOrderSorts(b);
    DistinctTimesOfKeys(a, StableOrder(a));
    DistinctTimesOfKeys(a, StableOrder(b));
    forall x
      ensures x in Keys(StableOrder(a)) <==> x in Keys(StableOrder(b))
    {
      assert x in Keys(StableOrder(a)) <==> x in multiset(Keys(StableOrder(a)));
      assert x in Keys(StableOrder(b)) <==> x in multiset(Keys(StableOrder(b)));
    }
    assert |StableOrder(a)| == |multiset(Keys(StableOrder(a)))| == |multiset(Keys(StableOrder(b)))| == |StableOrder(b)|;
    ClimbingIsUnique(Keys(StableOrder(a)), Keys(StableOrder(b)));
    forall i | 0 <= i < |StableOrder(a)|
      ensures Ids(StableOrder(a))[i] == Ids(StableOrder(b))[i]
    {
      assert Keys(StableOrder(a))[i] == Keys(StableOrder(b))[i];
    }
  }

  // --- Sessions created at the same time can trade places -------------------------------------------

  lemma {:induction false} CreatedThenConcat(a: seq<Session>, b: seq<Session>, when: int)
    ensures CreatedThen(a + b, when) == CreatedThen(a, when) + CreatedThen(b, when)
  {
    if a == [] {
      assert a + b == b && CreatedThen(a, when) == [];
    } else {
      hide Tie, CreatedThen;
      CreatedThenConcat(a[1..], b, when);
      CreatedThenFirst(a[0], a[1..], when);
      CreatedThenFirst(a[0], a[1..] + b, when);
      assert [a[0]] + a[1..] == a && [a[0]] + (a[1..] + b) == a + b;
      Associates(Tie(a[0], when), CreatedThen(a[1..], when), CreatedThen(b, when));
    }
  }

  lemma {:induction false} Associates<T>(a: seq<T>, b: seq<T>, c: seq<T>)
    ensures a + (b + c) == a + b + c
  {
  }

  /** The list with two of its sessions in each other's place. */
  function Swapped(s: seq<Session>, i: nat, j: nat): seq<Session>
    requires i < j < |s|
  {
    s[i := s[j]][j := s[i]]
  }

  lemma {:induction false} SwapIsRegrouping(s: seq<Session>, i: nat, j: nat)
    requires i < j < |s|
    ensures Regrouped(s, Swapped(s, i, j))
  {
    var k := Keys(s);
    assert Keys(Swapped(s, i, j)) == k[i := k[j]][j := k[i]];
  }

  lemma {:induction false} SwapShowsInTies(s: seq<Session>, i: nat, j: nat)
    requires i < j < |s| && CreatedAt(s[i]) == CreatedAt(s[j]) && s[i] != s[j]
    ensures CreatedThen(s, CreatedAt(s[i])) != CreatedThen(Swapped(s, i, j), CreatedAt(s[i]))
  {
    var t, when := Swapped(s, i, j), CreatedAt(s[i]);
    assert s == s[..i] + s[i..];
    assert t == s[..i] + t[i..];
    assert t[i..][0] == s[j];
    CreatedThenConcat(s[..i], s[i..], when);
    CreatedThenConcat(s[..i], t[i..], when);
    var k := |CreatedThen(s[..i], when)|;
    assert CreatedThen(s, when)[k] == s[i] && CreatedThen(t, when)[k] == s[j];
  }

  lemma {:induction false} SwapReordersTies(s: seq<Session>, i: nat, j: nat)
    requires DistinctIds(s) && i < j < |s| && CreatedAt(s[i]) == CreatedAt(s[j])
    ensures Regrouped(s, Swapped(s, i, j))
    ensures Ids(StableOrder(Swapped(s, i, j))) != Ids(StableOrder(s))
  {
    hide StableOrder, CreatedThen, Regrouped;
    var t := Swapped(s, i, j);
    SwapIsRegrouping(s, i, j);
    SwapShowsInTies(s, i, j);
    StableOrderSorts(s);
    StableOrderSorts(t);
    StableOrderKeepsTies(s, CreatedAt(s[i]));
    StableOrderKeepsTies(t, CreatedAt(s[i]));
    if Ids(StableOrder(t)) == Ids(StableOrder(s)) {
      SameIdsSameTies(s, StableOrder(s), StableOrder(t), CreatedAt(s[i]));
    }
  }

  lemma {:induction false} SameIdsSameTies(s: seq<Session>, a: seq<Session>, b: seq<Session>, when: int)
    requires DistinctIds(s) && (forall x <- a :: x in s) && (forall x <- b :: x in s) && Ids(a) == Ids(b)
    ensures CreatedThen(a, when) == CreatedThen(b, when)
  {
    assert |a| == |Ids(a)| == |b|;
    forall i | 0 <= i < |a|
      ensures a[i] == b[i]
    {
      assert a[i] in s && b[i] in s;
      assert Ids(a)[i] == Ids(b)[i];
    }
    assert a == b;
  }

  /** Cards keep their places over every regrouping of the sessions exactly when no two sessions were
      created at the same time. */
  lemma {:induction false} OrderSurvivesRegrouping(s: seq<Session>)
    requires DistinctIds(s)
    ensures DistinctTimes(s) <==> forall t | Regrouped(s, t) :: Ids(StableOrder(t)) == Ids(StableOrder(s))
  {
    if DistinctTimes(s) {
      forall t | Regrouped(s, t)
        ensures Ids(StableOrder(t)) == Ids(StableOrder(s))
      {
        DistinctTimesFixOrder(s, t);
      }
    } else {
      var i, j :| 0 <= i < j < |s| && CreatedAt(s[i]) == CreatedAt(s[j]);
      SwapReordersTies(s, i, j);
    }
  }

  /** One session leaves the open list and joins the ended one, wherever the broker puts it. */
  lemma {:induction false} EndingMovesNoCard(o1: seq<Session>, s: Session, o2: seq<Session>, e1: seq<Session>,
                                             s': Session, e2: seq<Session>)
    requires s'.sessionId == s.sessionId && s'.createdAt == s.createdAt
    requires DistinctTimes(o1 + [s] + o2 + (e1 + e2))
    ensures Ids(StableOrder(o1 + [s] + o2 + (e1 + e2))) == Ids(StableOrder(o1 + o2 + (e1 + [s'] + e2)))
  {
    var a, b := o1 + [s] + o2 + (e1 + e2), o1 + o2 + (e1 + [s'] + e2);
    hide StableOrder, Ids, DistinctTimes;
    KeysJoin(o1 + [s] + o2, e1 + e2);
    KeysJoin(o1 + [s], o2);
    KeysJoin(o1, [s]);
    KeysJoin(e1, e2);
    KeysJoin(o1 + o2, e1 + [s'] + e2);
    KeysJoin(o1, o2);
    KeysJoin(e1 + [s'], e2);
    KeysJoin(e1, [s']);
    assert Keys([s]) == [Key(s)] == Keys([s']);
    hide Keys;
    MovedKey(Keys(o1), Key(s), Keys(o2), Keys(e1), Keys(e2));
    DistinctTimesFixOrder(a, b);
  }

  lemma {:induction false} KeysJoin(a: seq<Session>, b: seq<Session>)
    ensures Keys(a + b) == Keys(a) + Keys(b)
  {
  }

  lemma {:induction false} MovedKey<T>(a: seq<T>, x: T, b: seq<T>, c: seq<T>, d: seq<T>)
    ensures multiset(a + [x] + b + (c + d)) == multiset(a + b + (c + [x] + d))
  {
  }
}
