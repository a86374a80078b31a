/** One panel per desktop: claim_the_mark in desktop/panel_broker.py, by which processes contend for one datagram
    socket at one path. Every system call of every process is one step of the machine below, so a run is any
    interleaving of claims, with processes ending at any point. */
module MarkClaim {
  import opened Common

  /** The socket file at the path: which bind made it, and by which process. */
  datatype File = File(stamp: nat, maker: nat)

  /** What a claim does next, or how it ended. `Unlinking` remembers the file its failed probe was sent to. */
  datatype Pc =
    | Binding(attempt: nat)
    | Chmodding(attempt: nat)
    | Probing(attempt: nat)
    | Unlinking(saw: Option<File>)
    | Owner
    | Handed
    | Unsupported
    | Ended

  /** A process, with the bind its listener succeeded in. */
  datatype Process = Process(pc: Pc, stamp: Option<nat>)

  const FRESH := Process(Binding(1), None)

  datatype State = State(file: Option<File>, processes: map<nat, Process>, next: nat)

  datatype Step = Act(p: nat) | Exit(p: nat)

  /** The listener is closed when the claim is handed over or given up, and when the process ends. */
  predicate Listening(q: Process) {
    !q.pc.Handed? && !q.pc.Unsupported? && !q.pc.Ended?
  }

  /** Whether a datagram sent to the file arrives: the socket that was bound to it is still open. */
  predicate Answers(s: State, f: File) {
    f.maker in s.processes && Listening(s.processes[f.maker]) && s.processes[f.maker].stamp == Some(f.stamp)
  }

  function Acted(s: State, p: nat): (t: State)
    requires p in s.processes
    ensures t.processes.Keys == s.processes.Keys
  {
    var q := s.processes[p];
    match q.pc
    case Binding(attempt) =>
      // bind fails when there is a file, and when the listener has an address already.
      if s.file.None? && q.stamp.None? then
        State(Some(File(s.next, p)), s.processes[p := Process(Chmodding(attempt), Some(s.next))], s.next + 1)
      else s.(processes := s.processes[p := q.(pc := Probing(attempt))])
    case Chmodding(attempt) =>
      s.(processes := s.processes[p := q.(pc := if s.file.Some? then Owner else Probing(attempt))])
    case Probing(attempt) =>
      var pc := if s.file.Some? && Answers(s, s.file.value) then Handed
                else if attempt == 2 then Unsupported
                else Unlinking(s.file);
      s.(processes := s.processes[p := q.(pc := pc)])
    case Unlinking(_) => s.(file := None, processes := s.processes[p := q.(pc := Binding(2))])
    case _ => s
  }

  function After(s: State, step: Step): State {
    if step.p !in s.processes then s
    else if step.Act? then Acted(s, step.p)
    else s.(processes := s.processes[step.p := s.processes[step.p].(pc := Ended)])
  }

  function Run(s: State, steps: seq<Step>): State
    decreases |steps|
  {
    if steps == [] then s else Run(After(s, steps[0]), steps[1..])
  }

  /** A run in which every step is taken in a state that allows it. */
  predicate Obeys(s: State, steps: seq<Step>, rule: (State, Step) -> bool)
    decreases |steps|
  {
    steps == [] || (rule(s, steps[0]) && Obeys(After(s, steps[0]), steps[1..], rule))
  }

  /** Before any claim: a desktop with perhaps a file left by a panel that died. */
  predicate Before(s: State) {
    && (forall p <- s.processes :: s.processes[p] == FRESH)
    && (s.file.Some? ==> s.file.value.stamp < s.next)
  }

  /** At most one live process holds the mark. */
  predicate OneOwner(s: State) {
    forall p, q | p in s.processes && q in s.processes && s.processes[p].pc.Owner? && s.processes[q].pc.Owner? :: p == q
  }

  /** A claim that owns the mark goes on to draw a panel, and so does one that gave up unsupported. */
  predicate Draws(q: Process) {
    q.pc.Owner? || q.pc.Unsupported?
  }

  /** At most one panel is drawn. */
  predicate Exclusive(s: State) {
    forall p, q | p in s.processes && q in s.processes && Draws(s.processes[p]) && Draws(s.processes[q]) :: p == q
  }

  predicate NoneUnsupported(s: State) {
    forall p {:trigger p in s.processes} | p in s.processes :: !s.processes[p].pc.Unsupported?
  }

  // --- When recoveries only remove what they probed ------------------------------------------------

  /** An unlink that removes nothing, or the very file its own failed probe was sent to. */
  predicate Careful(s: State, step: Step) {
    step.Act? && step.p in s.processes && s.processes[step.p].pc.Unlinking? && s.file.Some? ==>
      s.file == s.processes[step.p].pc.saw
  }

  /** A bound socket that is open has its file at the path; no claim is about to remove a file that answers. */
  predicate Sound(s: State, p: nat)
    requires p in s.processes
  {
    var q := s.processes[p];
    && (q.stamp.Some? ==> q.stamp.value < s.next)
    && (Listening(q) && q.stamp.Some? ==> s.file == Some(File(q.stamp.value, p)))
    && (Listening(q) ==> (q.stamp.Some? <==> q.pc.Owner? || q.pc.Chmodding?))
    && (q.pc.Unlinking? && q.pc.saw.Some? ==> q.pc.saw.value.stamp < s.next && !Answers(s, q.pc.saw.value))
  }

  predicate Held(s: State) {
    && (s.file.Some? ==> s.file.value.stamp < s.next)
    && forall p {:trigger p in s.processes} | p in s.processes :: Sound(s, p)
  }

  lemma {:induction false} CarefulKeepsHeld(s: State, step: Step)
    requires Held(s) && Careful(s, step)
    ensures Held(After(s, step))
  {
    var t := After(s, step);
    forall p | p in t.processes
      ensures Sound(t, p)
    {
      assert Sound(s, p);
      assert step.p in s.processes ==> Sound(s, step.p);
    }
  }

  lemma {:induction false} HeldRuns(s: State, steps: seq<Step>)
    requires Held(s) && Obeys(s, steps, Careful)
    ensures Held(Run(s, steps))
    decreases |steps|
  {
    if steps != [] {
      CarefulKeepsHeld(s, steps[0]);
      hide Held, After, Careful;
      HeldRuns(After(s, steps[0]), steps[1..]);
    }
  }

  lemma {:induction false} HeldHasOneOwner(s: State)
    requires Held(s)
    ensures OneOwner(s) && (NoneUnsupported(s) ==> Exclusive(s))
    ensures forall p <- s.processes ::
      s.processes[p].pc.Owner? ==> s.file.Some? && s.file.value.maker == p && Answers(s, s.file.value)
  {
    assert forall p | p in s.processes :: Sound(s, p);
  }

  /** Over any interleaving of any number of claims and exits: while no recovery removes a file other than the
      one it probed, at most one live panel holds the mark, and a message sent to the path reaches it. */
  lemma {:induction false} CarefulRunsHaveOneOwner(s: State, steps: seq<Step>)
    requires Before(s) && Obeys(s, steps, Careful)
    ensures var t := Run(s, steps);
      && OneOwner(t)
      && forall p <- t.processes :: t.processes[p].pc.Owner? ==>
        t.file.Some? && t.file.value.maker == p && Answers(t, t.file.value)
  {
    assert Held(s);
    HeldRuns(s, steps);
    HeldHasOneOwner(Run(s, steps));
  }

  // --- Careful claims among processes that do not end ------------------------------------------------

  predicate Claim(s: State, step: Step) {
    step.Act?
  }

  predicate CarefulClaim(s: State, step: Step) {
    Careful(s, step) && step.Act?
  }

  predicate FileAnswers(s: State) {
    s.file.Some? && Answers(s, s.file.value)
  }

  /** A second attempt finds no file, or one that answers, and so never gives up. */
  predicate Hopeful(s: State, q: Process) {
    match q.pc
    case Binding(attempt) => attempt == 2 ==> s.file.None? || FileAnswers(s)
    case Probing(attempt) => attempt == 2 ==> FileAnswers(s)
    case Unsupported => false
    case _ => true
  }

  predicate AllHopeful(s: State) {
    forall p {:trigger p in s.processes} | p in s.processes :: Hopeful(s, s.processes[p])
  }

  lemma {:induction false} AnsweringStays(s: State, step: Step)
    requires Held(s) && CarefulClaim(s, step) && FileAnswers(s)
    ensures FileAnswers(After(s, step)) && After(s, step).file == s.file
  {
    assert Sound(s, s.file.value.maker);
    assert step.p in s.processes ==> Sound(s, step.p);
  }

  lemma {:induction false} ClaimKeepsHopeful(s: State, step: Step)
    requires Held(s) && CarefulClaim(s, step) && AllHopeful(s)
    ensures AllHopeful(After(s, step))
  {
    var t := After(s, step);
    if FileAnswers(s) { AnsweringStays(s, step); }
    forall p | p in t.processes
      ensures Hopeful(t, t.processes[p])
    {
      assert Hopeful(s, s.processes[p]);
      assert step.p in s.processes ==> Hopeful(s, s.processes[step.p]) && Sound(s, step.p);
    }
  }

  lemma {:induction false} HopefulRuns(s: State, steps: seq<Step>)
    requires Held(s) && AllHopeful(s) && Obeys(s, steps, CarefulClaim)
    ensures Held(Run(s, steps)) && AllHopeful(Run(s, steps))
    decreases |steps|
  {
    if steps != [] {
      CarefulKeepsHeld(s, steps[0]);
      ClaimKeepsHopeful(s, steps[0]);
      hide Held, AllHopeful, After, CarefulClaim;
      HopefulRuns(After(s, steps[0]), steps[1..]);
    }
  }

  lemma {:induction false} BothRules(s: State, steps: seq<Step>)
    requires Obeys(s, steps, Careful) && Obeys(s, steps, Claim)
    ensures Obeys(s, steps, CarefulClaim)
    decreases |steps|
  {
    if steps != [] {
      hide After, Careful;
      BothRules(After(s, steps[0]), steps[1..]);
    }
  }

  /** While no process ends, careful recoveries leave at most one panel, however the claims overlap. */
  lemma {:induction false} CarefulClaimsAreExclusive(s: State, steps: seq<Step>)
    requires Before(s) && Obeys(s, steps, Careful) && Obeys(s, steps, Claim)
    ensures Exclusive(Run(s, steps))
  {
    BothRules(s, steps);
    assert Held(s) && AllHopeful(s);
    HopefulRuns(s, steps);
    var t := Run(s, steps);
    assert forall p | p in t.processes :: Hopeful(t, t.processes[p]);
    HeldHasOneOwner(t);
  }

  // --- Claims taken one at a time ------------------------------------------------------------------

  /** Between its first system call and its last. */
  predicate Midway(q: Process) {
    q.pc == Binding(2) || q.pc.Chmodding? || q.pc.Probing? || q.pc.Unlinking?
  }

  predicate OthersMidway(s: State, p: nat) {
    exists q :: q in s.processes && q != p && Midway(s.processes[q])
  }

  /** A claim goes on only when no other is under way; any process may end at any time. */
  predicate OneAtATime(s: State, step: Step) {
    step.Act? ==> !OthersMidway(s, step.p)
  }

  /** What a claim under way may count on while no other is: the file it probed is the one that is there, the file it
      removed is gone, and the file it made stays. */
  predicate Remembered(s: State, q: Process) {
    match q.pc
    case Binding(attempt) => q.stamp.None? && (attempt == 1 || (attempt == 2 && s.file.None?))
    case Chmodding(_) => s.file.Some?
    case Probing(attempt) => attempt == 1 && q.stamp.None?
    case Unlinking(saw) => q.stamp.None? && saw == s.file
    case Unsupported => false
    case _ => true
  }

  predicate AllRemembered(s: State) {
    forall p {:trigger p in s.processes} | p in s.processes :: Remembered(s, s.processes[p])
  }

  lemma {:induction false} OneAtATimeKeepsRemembered(s: State, step: Step)
    requires AllRemembered(s) && OneAtATime(s, step)
    ensures Careful(s, step) && AllRemembered(After(s, step))
  {
    var t := After(s, step);
    forall p | p in t.processes
      ensures Remembered(t, t.processes[p])
    {
      assert Remembered(s, s.processes[p]);
      assert step.Act? && p != step.p ==> !Midway(s.processes[p]);
    }
  }

  lemma {:induction false} OneAtATimeIsCareful(s: State, steps: seq<Step>)
    requires AllRemembered(s) && Obeys(s, steps, OneAtATime)
    ensures Obeys(s, steps, Careful) && AllRemembered(Run(s, steps))
    decreases |steps|
  {
    if steps != [] {
      OneAtATimeKeepsRemembered(s, steps[0]);
      hide Careful, AllRemembered, After, OneAtATime;
      OneAtATimeIsCareful(After(s, steps[0]), steps[1..]);
    }
  }

  /** Claims taken one at a time, with processes ending at any point and whatever file was left before. */
  lemma {:induction false} OneAtATimeIsExclusive(s: State, steps: seq<Step>)
    requires Before(s) && Obeys(s, steps, OneAtATime)
    ensures Exclusive(Run(s, steps)) && NoneUnsupported(Run(s, steps))
  {
    assert AllRemembered(s) && Held(s);
    OneAtATimeIsCareful(s, steps);
    HeldRuns(s, steps);
    var t := Run(s, steps);
    assert forall p | p in t.processes :: Remembered(t, t.processes[p]);
    HeldHasOneOwner(t);
  }

  // --- Overlapping claims with no stale file -------------------------------------------------------

  /** The first to bind keeps the mark: every other claim is still to begin, or finds that it answers. */
  predicate Unclaimed(s: State) {
    s.file.None? && forall p {:trigger p in s.processes} | p in s.processes :: s.processes[p] == FRESH
  }

  predicate Claimed(s: State) {
    && s.file.Some?
    && Answers(s, s.file.value)
    && forall p {:trigger p in s.processes} | p in s.processes ::
      var q := s.processes[p];
      if p == s.file.value.maker then q.pc.Owner? || q.pc.Chmodding?
      else q.stamp.None? && (q.pc == Binding(1) || q.pc == Probing(1) || q.pc.Handed?)
  }

  lemma {:induction false} ClaimKeepsClaimed(s: State, step: Step)
    requires step.Act? && (Unclaimed(s) || Claimed(s))
    ensures Careful(s, step) && (Unclaimed(After(s, step)) || Claimed(After(s, step)))
  {
  }

  lemma {:induction false} ClaimsAreCareful(s: State, steps: seq<Step>)
    requires (Unclaimed(s) || Claimed(s)) && Obeys(s, steps, Claim)
    ensures Obeys(s, steps, Careful) && (Unclaimed(Run(s, steps)) || Claimed(Run(s, steps)))
    decreases |steps|
  {
    if steps != [] {
      ClaimKeepsClaimed(s, steps[0]);
      hide Careful, Unclaimed, Claimed, After;
      ClaimsAreCareful(After(s, steps[0]), steps[1..]);
    }
  }

  /** With no file left behind and nobody ending, claims may overlap in any way. */
  lemma {:induction false} OverlappingClaimsAreExclusive(s: State, steps: seq<Step>)
    requires Before(s) && s.file.None? && Obeys(s, steps, Claim)
    ensures Exclusive(Run(s, steps)) && NoneUnsupported(Run(s, steps))
  {
    assert Held(s) && Unclaimed(s);
    ClaimsAreCareful(s, steps);
    HeldRuns(s, steps);
    HeldHasOneOwner(Run(s, steps));
  }

  // --- How one claim ends --------------------------------------------------------------------------

  function Acts(p: nat, n: nat): seq<Step> {
    if n == 0 then [] else [Act(p)] + Acts(p, n - 1)
  }

  function ActedTimes(s: State, p: nat, n: nat): (t: State)
    requires p in s.processes
    ensures t.processes.Keys == s.processes.Keys
    decreases n
  {
    if n == 0 then s else ActedTimes(Acted(s, p), p, n - 1)
  }

  lemma {:induction false} ActsRun(s: State, p: nat, n: nat)
    requires p in s.processes
    ensures Run(s, Acts(p, n)) == ActedTimes(s, p, n)
    ensures Obeys(s, Acts(p, n), Claim)
    decreases n
  {
    hide Acted;
    if n > 0 {
      assert Acts(p, n)[1..] == Acts(p, n - 1);
      ActsRun(Acted(s, p), p, n - 1);
    }
  }

  lemma {:induction false} RunsJoin(s: State, a: seq<Step>, b: seq<Step>)
    ensures Run(s, a + b) == Run(Run(s, a), b)
    ensures Obeys(s, a, Claim) && Obeys(Run(s, a), b, Claim) ==> Obeys(s, a + b, Claim)
    decreases |a|
  {
    hide After;
    if a == [] {
      assert a + b == b;
    } else {
      assert (a + b)[1..] == a[1..] + b;
      RunsJoin(After(s, a[0]), a[1..], b);
    }
  }

  /** A claim that nobody interferes with: against a live holder it is handed over and changes nothing else; a
      missing or stale file gives it the mark, under a file of its own. */
  lemma {:induction false} ClaimAlone(s: State, p: nat)
    requires p in s.processes && s.processes[p] == FRESH
    ensures var t := Run(s, Acts(p, 6));
      if s.file.Some? && Answers(s, s.file.value)
      then t == s.(processes := s.processes[p := Process(Handed, None)])
      else t == State(Some(File(s.next, p)), s.processes[p := Process(Owner, Some(s.next))], s.next + 1)
  {
    ActsRun(s, p, 6);
    var s2 := Acted(Acted(s, p), p);
    var s4 := Acted(Acted(s2, p), p);
    assert ActedTimes(s, p, 6) == Acted(Acted(s4, p), p);
  }

  // --- Recoveries that overlap ---------------------------------------------------------------------

  /** Two claims both find the stale file, both fail to reach it, and the slower removes what the faster bound. */
  function Race(p: nat, q: nat): seq<Step> {
    Acts(p, 2) + (Acts(q, 2) + (Acts(p, 3) + Acts(q, 3)))
  }

  lemma {:induction false} RaceRuns(s: State, p: nat, q: nat)
    requires p in s.processes && q in s.processes
    ensures Obeys(s, Race(p, q), Claim)
    ensures Run(s, Race(p, q)) == ActedTimes(ActedTimes(ActedTimes(ActedTimes(s, p, 2), q, 2), p, 3), q, 3)
  {
    hide ActedTimes;
    var s1 := ActedTimes(s, p, 2);
    var s2 := ActedTimes(s1, q, 2);
    var s3 := ActedTimes(s2, p, 3);
    ActsRun(s, p, 2);
    ActsRun(s1, q, 2);
    ActsRun(s2, p, 3);
    ActsRun(s3, q, 3);
    RunsJoin(s2, Acts(p, 3), Acts(q, 3));
    RunsJoin(s1, Acts(q, 2), Acts(p, 3) + Acts(q, 3));
    RunsJoin(s, Acts(p, 2), Acts(q, 2) + (Acts(p, 3) + Acts(q, 3)));
  }

  lemma {:induction false} FindsItStale(s: State, p: nat)
    requires p in s.processes && s.processes[p] == FRESH && s.file.Some? && !Answers(s, s.file.value)
    ensures ActedTimes(s, p, 2) == s.(processes := s.processes[p := Process(Unlinking(s.file), None)])
  {
    assert ActedTimes(s, p, 2) == Acted(Acted(s, p), p);
  }

  lemma {:induction false} TakesOver(s: State, p: nat)
    requires p in s.processes && s.processes[p].pc.Unlinking? && s.processes[p].stamp.None?
    ensures ActedTimes(s, p, 3) == State(Some(File(s.next, p)), s.processes[p := Process(Owner, Some(s.next))],
                                         s.next + 1)
  {
    assert ActedTimes(s, p, 3) == Acted(Acted(Acted(s, p), p), p);
  }

  /** Exclusion among overlapping claims is not what claim_the_mark gives once a panel has died: with at least
      two processes it holds over every overlapping of their claims exactly when there is no file at the start. */
  lemma {:induction false} OverlappingClaimsExactly(s: State, p: nat, q: nat)
    requires Before(s) && p in s.processes && q in s.processes && p != q
    ensures (forall steps | Obeys(s, steps, Claim) :: Exclusive(Run(s, steps))) <==> s.file.None?
  {
    if s.file.None? {
      forall steps | Obeys(s, steps, Claim)
        ensures Exclusive(Run(s, steps))
      {
        OverlappingClaimsAreExclusive(s, steps);
      }
    } else {
      RaceRuns(s, p, q);
      FindsItStale(s, p);
      FindsItStale(ActedTimes(s, p, 2), q);
      TakesOver(ActedTimes(ActedTimes(s, p, 2), q, 2), p);
      TakesOver(ActedTimes(ActedTimes(ActedTimes(s, p, 2), q, 2), p, 3), q);
      var t := Run(s, Race(p, q));
      assert t.processes[p].pc.Owner? && t.processes[q].pc.Owner?;
    }
  }

  // --- Careful recoveries among processes that end -----------------------------------------------------

  lemma {:induction false} CarefulJoin(s: State, a: seq<Step>, b: seq<Step>)
    requires Obeys(s, a, Careful) && Obeys(Run(s, a), b, Careful)
    ensures Obeys(s, a + b, Careful) && Run(s, a + b) == Run(Run(s, a), b)
    decreases |a|
  {
    hide After, Careful;
    if a == [] {
      assert a + b == b;
    } else {
      assert (a + b)[1..] == a[1..] + b;
      CarefulJoin(After(s, a[0]), a[1..], b);
    }
  }

  lemma {:induction false} CarefulStep(s: State, step: Step)
    requires Careful(s, step)
    ensures Obeys(s, [step], Careful) && Run(s, [step]) == After(s, step)
  {
    assert [step][1..] == [];
  }

  lemma {:induction false} CarefulActs(s: State, p: nat, n: nat)
    requires p in s.processes && forall i: nat | i < n :: Careful(ActedTimes(s, p, i), Act(p))
    ensures Obeys(s, Acts(p, n), Careful)
    decreases n
  {
    hide Acted, Careful;
    if n > 0 {
      assert Acts(p, n)[1..] == Acts(p, n - 1);
      assert ActedTimes(s, p, 0) == s;
      forall i: nat | i < n - 1
        ensures Careful(ActedTimes(Acted(s, p), p, i), Act(p))
      {
        assert ActedTimes(s, p, i + 1) == ActedTimes(Acted(s, p), p, i);
      }
      CarefulActs(Acted(s, p), p, n - 1);
    }
  }

  /** A claim that nobody interferes with is careful. */
  lemma {:induction false} AloneIsCareful(s: State, p: nat)
    requires p in s.processes && s.processes[p] == FRESH
    ensures Obeys(s, Acts(p, 6), Careful)
  {
    forall i: nat | i < 6
      ensures Careful(ActedTimes(s, p, i), Act(p))
    {
      AloneAt(s, p, i);
    }
    CarefulActs(s, p, 6);
  }

  lemma {:induction false} AloneAt(s: State, p: nat, i: nat)
    requires p in s.processes && s.processes[p] == FRESH && i < 6
    ensures Careful(ActedTimes(s, p, i), Act(p))
  {
    if i >= 2 {
      var s2 := Acted(Acted(s, p), p);
      assert ActedTimes(s, p, i) == ActedTimes(s2, p, i - 2);
      if i >= 4 {
        assert ActedTimes(s2, p, i - 2) == ActedTimes(Acted(Acted(s2, p), p), p, i - 4);
      }
    }
  }

  /** One claim removes the stale file; another binds and ends; the first finds the new file, which does not answer
      either, and gives up: it draws a panel without holding the mark. */
  function Stranding(p: nat, q: nat): seq<Step> {
    Acts(p, 3) + ([Act(q)] + ([Act(p)] + ([Exit(q)] + [Act(p)])))
  }

  lemma {:induction false} StrandingRuns(s: State, p: nat, q: nat)
    requires p in s.processes && q in s.processes && p != q && s.processes[p] == FRESH && s.processes[q] == FRESH
    requires s.file.Some? && !Answers(s, s.file.value)
    ensures Obeys(s, Stranding(p, q), Careful)
    ensures Run(s, Stranding(p, q)) == State(
      Some(File(s.next, q)), s.processes[p := Process(Unsupported, None)][q := Process(Ended, Some(s.next))],
        s.next + 1)
  {
    FindsItStale(s, p);
    var s2 := ActedTimes(s, p, 2);
    assert ActedTimes(s, p, 2) == Acted(Acted(s, p), p) && ActedTimes(s, p, 3) == Acted(s2, p);
    assert Careful(s, Act(p)) && Careful(Acted(s, p), Act(p)) && Careful(s2, Act(p));
    forall i: nat | i < 3
      ensures Careful(ActedTimes(s, p, i), Act(p))
    {
      assert ActedTimes(s, p, 0) == s && ActedTimes(s, p, 1) == Acted(s, p);
    }
    CarefulActs(s, p, 3);
    ActsRun(s, p, 3);
    var s3 := Acted(s2, p);
    var s4 := After(s3, Act(q));
    var s5 := After(s4, Act(p));
    var s6 := After(s5, Exit(q));
    CarefulStep(s6, Act(p));
    CarefulStep(s5, Exit(q));
    CarefulStep(s4, Act(p));
    CarefulStep(s3, Act(q));
    CarefulJoin(s5, [Exit(q)], [Act(p)]);
    CarefulJoin(s4, [Act(p)], [Exit(q)] + [Act(p)]);
    CarefulJoin(s3, [Act(q)], [Act(p)] + ([Exit(q)] + [Act(p)]));
    CarefulJoin(s, Acts(p, 3), [Act(q)] + ([Act(p)] + ([Exit(q)] + [Act(p)])));
  }

  /** From a stale file: a careful run with one exit in which one claim ends unsupported and the next owns the mark. */
  lemma {:induction false} TwoPanels(s: State, p: nat, q: nat, r: nat) returns (steps: seq<Step>)
    requires p in s.processes && q in s.processes && r in s.processes && p != q && q != r && p != r
    requires s.processes[p] == FRESH && s.processes[q] == FRESH && s.processes[r] == FRESH
    requires s.file.Some? && !Answers(s, s.file.value)
    ensures Obeys(s, steps, Careful)
    ensures var t := Run(s, steps);
      p in t.processes && r in t.processes && t.processes[p].pc == Unsupported && t.processes[r].pc == Owner
  {
    StrandingRuns(s, p, q);
    var t := Run(s, Stranding(p, q));
    AloneIsCareful(t, r);
    ClaimAlone(t, r);
    steps := Stranding(p, q) + Acts(r, 6);
    CarefulJoin(s, Stranding(p, q), Acts(r, 6));
  }

  /** A first panel that came and went, where none has yet. */
  lemma {:induction false} LeavesStaleFile(s: State, d: nat)
    requires d in s.processes && s.processes[d] == FRESH && s.file.None?
    ensures var steps := Acts(d, 6) + [Exit(d)];
      Obeys(s, steps, Careful)
      && Run(s, steps) == State(Some(File(s.next, d)), s.processes[d := Process(Ended, Some(s.next))], s.next + 1)
  {
    AloneIsCareful(s, d);
    ClaimAlone(s, d);
    var t := Run(s, Acts(d, 6));
    CarefulStep(t, Exit(d));
    CarefulJoin(s, Acts(d, 6), [Exit(d)]);
  }

  /** Whether processes may end decides whether careful recoveries are enough: with at least four processes, every
      careful run leaves at most one panel exactly when none of them ends. */
  lemma {:induction false} CarefulRunsExactly(s: State, p: nat, q: nat, r: nat, d: nat, exits: bool)
    requires Before(s) && p in s.processes && q in s.processes && r in s.processes && d in s.processes
    requires p != q && q != r && p != r && d != p && d != q && d != r
    ensures (forall steps | Obeys(s, steps, Careful) && (exits || Obeys(s, steps, Claim)) ::
             Exclusive(Run(s, steps))) <==> !exits
  {
    if exits {
      var before := if s.file.None? then Acts(d, 6) + [Exit(d)] else [];
      if s.file.None? { LeavesStaleFile(s, d); }
      var steps := TwoPanels(Run(s, before), p, q, r);
      CarefulJoin(s, before, steps);
      assert !Exclusive(Run(s, before + steps));
    } else {
      forall steps | Obeys(s, steps, Careful) && Obeys(s, steps, Claim)
        ensures Exclusive(Run(s, steps))
      {
        CarefulClaimsAreExclusive(s, steps);
      }
    }
  }

  // --- The claim as it is written ------------------------------------------------------------------

  /** The runtime directory, as one claim sees it when it is left alone. */
  class Desk {
    var file: Option<File>
    var processes: map<nat, Process>
    var next: nat

    function Now(): State
      reads this
    {
      State(file, processes, next)
    }

    method Bind(p: nat) returns (ok: bool)
      requires p in processes
      modifies this
      ensures ok == (old(file).None? && old(processes[p].stamp).None?)
      ensures Now() == if ok
        then State(Some(File(old(next), p)), old(processes)[p := old(processes[p]).(stamp := Some(old(next)))],
                   old(next) + 1)
        else old(Now())
    {
      ok := file.None? && processes[p].stamp.None?;
      if ok {
        file, processes, next := Some(File(next, p)), processes[p := processes[p].(stamp := Some(next))], next + 1;
      }
    }

    method Leave(p: nat, pc: Pc)
      requires p in processes
      modifies `processes
      ensures processes == old(processes)[p := old(processes[p]).(pc := pc)]
    {
      processes := processes[p := processes[p].(pc := pc)];
    }

    method ClaimTheMark(p: nat) returns (outcome: Pc)
      requires p in processes && processes[p] == FRESH
      modifies this
      ensures Now() == Run(old(Now()), Acts(p, 6)) && p in processes && outcome == processes[p].pc
    {
      ClaimAlone(Now(), p);
      hide Run, Acts;
      ghost var stale := file.Some? && !Answers(Now(), file.value);
      for attempt := 1 to 3
        invariant attempt <= 2
        invariant attempt == 1 ==> Now() == old(Now())
        invariant attempt == 2 ==> stale && Now() == old(Now()).(file := None)
      {
        var bound := Bind(p);
        if bound && file.Some? {
          Leave(p, Owner);
          return Owner;
        }
        if file.Some? && Answers(Now(), file.value) {
          Leave(p, Handed);
          return Handed;
        }
        // A second failure gives up, which takes another process's interference.
        assert attempt == 1;
        file := None;
      }
      assert false;
    }
  }
}
