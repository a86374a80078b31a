/** The panel's read-view summary, desktop/panel.py: a poll thread samples the broker while the main thread
    expands and collapses, and the two share no lock. Each step below is one access to the shared fields, so
    a run is any interleaving of the two threads. */
module ReadViews {
  import opened Common

  /** What the broker answered, as far as normalize_read_views lets it through, and when the call was made. */
  datatype Sample = Sample(asked: nat, answered: nat, enabled: bool, channels: nat, views: nat)

  /** What poll_loop hands to the main loop for apply_status. */
  datatype Job = Job(sample: Option<Sample>, reachable: bool, generation: nat)

  /** How far the poll thread is through one turn. */
  datatype Poll = Top | Tagged(generation: nat) | Asking(generation: nat, since: nat) | Ready(job: Job)

  /** How far the main thread is through set_expanded. */
  datatype Main = Free | Flipped | Bumped

  datatype State = State(
    clock: nat,
    expanded: bool,
    generation: nat,
    shown: Option<Sample>,
    poll: Poll,
    queue: seq<Job>,
    main: Main,
    flippedAt: nat)

  datatype Step =
    // The main thread: the three writes of set_expanded, and one call from the queue.
    | Flip(to: bool) | Bump | Clear | Apply
    // The poll thread: the generation is read before anything is asked, and the panel's state before the
    // read views are; either call can fail, and so can the journal read after them.
    | ReadGeneration | SessionsRead | SessionsFail | Answer(status: Option<(bool, nat, nat)>) | Interrupted | Hand

  const INITIAL := State(1, false, 0, None, Top, [], Free, 0)

  predicate Enabled(s: State, step: Step) {
    match step
    case Flip(_) => s.main.Free?
    case Bump => s.main.Flipped?
    case Clear => s.main.Bumped?
    case Apply => s.main.Free? && s.queue != []
    case ReadGeneration => s.poll.Top?
    case SessionsRead | SessionsFail => s.poll.Tagged?
    case Answer(_) => s.poll.Asking?
    case Interrupted | Hand => s.poll.Ready?
  }

  function Applied(s: State, job: Job): Option<Sample> {
    if job.reachable && s.expanded && job.generation == s.generation then job.sample else None
  }

  function Effect(s: State, step: Step): State
    requires Enabled(s, step)
  {
    match step
    case Flip(to) => s.(expanded := to, main := Flipped, flippedAt := s.clock)
    case Bump => s.(generation := s.generation + 1, main := Bumped)
    case Clear => s.(shown := None, main := Free)
    case Apply => s.(shown := Applied(s, s.queue[0]), queue := s.queue[1..])
    case ReadGeneration => s.(poll := Tagged(s.generation))
    case SessionsRead =>
      s.(poll := if s.expanded then Asking(s.poll.generation, s.clock) else Ready(Job(None, true, s.poll.generation)))
    case SessionsFail => s.(poll := Ready(Job(None, false, s.poll.generation)))
    case Answer(status) =>
      var sample := if status.None? then None
                    else Some(Sample(s.poll.since, s.clock, status.value.0, status.value.1, status.value.2));
      s.(poll := Ready(Job(sample, true, s.poll.generation)))
    case Interrupted => s.(poll := Ready(Job(None, false, s.poll.job.generation)))
    case Hand => s.(poll := Top, queue := s.queue + [s.poll.job])
  }

  function After(s: State, step: Step): State {
    (if Enabled(s, step) then Effect(s, step) else s).(clock := s.clock + 1)
  }

  function Run(s: State, steps: seq<Step>): State {
    if steps == [] then s else After(Run(s, steps[..|steps| - 1]), steps[|steps| - 1])
  }

  // --- What every interleaving keeps ---------------------------------------------------------------

  /** Taken wholly after the panel last began to expand or collapse. */
  predicate Since(sample: Sample, flippedAt: nat, clock: nat) {
    flippedAt < sample.asked < sample.answered < clock
  }

  /** A sample tagged with the current generation cannot be older than the last flip, once that flip has
      changed the generation. */
  predicate Current(s: State, job: Job) {
    && job.generation <= s.generation
    && (job.sample.Some? && job.generation == s.generation && !s.main.Flipped? ==>
        Since(job.sample.value, s.flippedAt, s.clock))
  }

  predicate PollCurrent(s: State) {
    match s.poll
    case Top => true
    case Tagged(g) => g <= s.generation
    case Asking(g, since) => g <= s.generation && since < s.clock
      && (g == s.generation && !s.main.Flipped? ==> s.flippedAt < since)
    case Ready(job) => Current(s, job)
  }

  predicate Fresh(s: State) {
    s.shown.Some? ==> s.expanded && Since(s.shown.value, s.flippedAt, s.clock)
  }

  predicate Sound(s: State) {
    && s.flippedAt < s.clock
    && (forall i | 0 <= i < |s.queue| :: Current(s, s.queue[i]))
    && PollCurrent(s)
    && (s.main.Free? ==> Fresh(s))
  }

  lemma {:induction false} StepKeepsSound(s: State, step: Step)
    requires Sound(s)
    ensures Sound(After(s, step))
  {
    var t := After(s, step);
    assert forall i | 0 <= i < |s.queue| :: Current(t, s.queue[i]);
  }

  /** The promise: whenever the main thread is not inside set_expanded, the summary is available only while the
      panel is expanded, and only from a sample asked for and answered after the last expand or collapse. */
  lemma {:induction false} SummaryIsFresh(steps: seq<Step>)
    ensures var s := Run(INITIAL, steps);
      Sound(s) && (s.main.Free? && s.shown.Some? ==> s.expanded && Since(s.shown.value, s.flippedAt, s.clock))
  {
    if steps != [] {
      SummaryIsFresh(steps[..|steps| - 1]);
      StepKeepsSound(Run(INITIAL, steps[..|steps| - 1]), steps[|steps| - 1]);
    }
  }

  // --- What a sample is --------------------------------------------------------------------------------

  /** A sample was asked for by one step of the run and is what another, later one answered. */
  predicate Answered(steps: seq<Step>, sample: Sample) {
    && 1 <= sample.asked < sample.answered <= |steps|
    && steps[sample.asked - 1] == SessionsRead
    && steps[sample.answered - 1] == Answer(Some((sample.enabled, sample.channels, sample.views)))
  }

  predicate AnsweredJob(steps: seq<Step>, job: Job) {
    job.sample.Some? ==> Answered(steps, job.sample.value)
  }

  /** Every sample on its way, and the one that is shown. */
  predicate AllAnswered(steps: seq<Step>, s: State) {
    && s.clock == |steps| + 1
    && (s.poll.Asking? ==> 1 <= s.poll.since <= |steps| && steps[s.poll.since - 1] == SessionsRead)
    && (s.poll.Ready? ==> AnsweredJob(steps, s.poll.job))
    && (forall i | 0 <= i < |s.queue| :: AnsweredJob(steps, s.queue[i]))
    && (s.shown.Some? ==> Answered(steps, s.shown.value))
  }

  /** Over every run: a summary shows what the broker answered, at the time it says, to a question put when it says. */
  lemma {:induction false} SampleWasAnswered(steps: seq<Step>)
    ensures AllAnswered(steps, Run(INITIAL, steps))
  {
    if steps != [] {
      var before, step := steps[..|steps| - 1], steps[|steps| - 1];
      SampleWasAnswered(before);
      assert steps == before + [step];
      AnsweredLater(before, step, Run(INITIAL, before));
    }
  }

  lemma {:induction false} AnsweredLater(before: seq<Step>, step: Step, s: State)
    requires AllAnswered(before, s)
    ensures AllAnswered(before + [step], After(s, step))
  {
    var steps, t := before + [step], After(s, step);
    assert forall sample :: Answered(before, sample) ==> Answered(steps, sample);
    assert forall i | 0 <= i < |s.queue| :: AnsweredJob(before, s.queue[i]) && AnsweredJob(steps, s.queue[i]);
    hide Answered;
    if step.Answer? && s.poll.Asking? && step.status.Some? {
      var (enabled, channels, views) := step.status.value;
      NewlyAnswered(before, step, Sample(s.poll.since, s.clock, enabled, channels, views));
    }
  }

  lemma {:induction false} NewlyAnswered(before: seq<Step>, step: Step, sample: Sample)
    requires 1 <= sample.asked <= |before| && sample.answered == |before| + 1
    requires before[sample.asked - 1] == SessionsRead
    requires step == Answer(Some((sample.enabled, sample.channels, sample.views)))
    ensures Answered(before + [step], sample)
  {
  }

  // --- What a turn of the poll hands over ---------------------------------------------------------------

  /** Steps of the main thread alone. */
  predicate MainOnly(steps: seq<Step>) {
    forall i | 0 <= i < |steps| :: steps[i].Flip? || steps[i].Bump? || steps[i].Clear? || steps[i].Apply?
  }

  lemma {:induction false} PollStays(s: State, steps: seq<Step>)
    requires MainOnly(steps)
    ensures Run(s, steps).poll == s.poll
  {
    if steps != [] {
      PollStays(s, steps[..|steps| - 1]);
    }
  }

  /** A turn in which nothing fails, whatever the main thread does meanwhile: what it hands over carries the generation
      it began with, and, exactly when the panel was expanded as the sessions had been read, what the broker then
      answered. */
  lemma {:induction false} TurnHandsOver(s: State, a: seq<Step>, b: seq<Step>, c: seq<Step>,
                                         status: Option<(bool, nat, nat)>)
    requires s.poll.Top? && MainOnly(a) && MainOnly(b) && MainOnly(c)
    ensures var asking := Run(After(s, ReadGeneration), a);
      var answering := Run(After(asking, SessionsRead), b);
      var handing := Run(After(answering, Answer(status)), c);
      var t := After(handing, Hand);
      && t.poll.Top? && t.queue != [] && t.queue[..|t.queue| - 1] == handing.queue
      && var job := t.queue[|t.queue| - 1];
        && job.reachable && job.generation == s.generation
        && job.sample ==
             if asking.expanded && status.Some? then
               Some(Sample(asking.clock, answering.clock, status.value.0, status.value.1, status.value.2))
             else None
  {
    var asking := Run(After(s, ReadGeneration), a);
    PollStays(After(s, ReadGeneration), a);
    var answering := Run(After(asking, SessionsRead), b);
    PollStays(After(asking, SessionsRead), b);
    PollStays(After(answering, Answer(status)), c);
  }

  /** A turn in which the sessions cannot be read, or that is interrupted once they were, hands over that the broker is
      not reachable, and nothing sampled. */
  lemma {:induction false} FailedTurnHandsOver(s: State, a: seq<Step>, b: seq<Step>)
    requires MainOnly(a) && MainOnly(b)
    ensures var failing := Run(After(s, ReadGeneration), a);
      s.poll.Top? ==>
        After(Run(After(failing, SessionsFail), b), Hand).queue ==
          Run(After(failing, SessionsFail), b).queue + [Job(None, false, s.generation)]
    ensures s.poll.Ready? ==>
      After(Run(After(s, Interrupted), b), Hand).queue ==
        Run(After(s, Interrupted), b).queue + [Job(None, false, s.poll.job.generation)]
  {
    var failing := Run(After(s, ReadGeneration), a);
    PollStays(After(s, ReadGeneration), a);
    PollStays(After(failing, SessionsFail), b);
    PollStays(After(s, Interrupted), b);
  }

  /** While set_expanded is inside its writes, nothing but its own next write moves the main thread on. */
  lemma {:induction false} InsideStays(s: State, steps: seq<Step>)
    requires (s.main.Flipped? && forall i | 0 <= i < |steps| :: !steps[i].Bump?)
          || (s.main.Bumped? && forall i | 0 <= i < |steps| :: !steps[i].Clear?)
    ensures var t := Run(s, steps);
      t.main == s.main && t.expanded == s.expanded && t.flippedAt == s.flippedAt
  {
    if steps != [] {
      var before := steps[..|steps| - 1];
      assert forall i | 0 <= i < |before| :: before[i] == steps[i];
      InsideStays(s, before);
    }
  }

  /** A whole expand or collapse, with any other steps between its three writes: no summary is left, and the panel is as
      asked since the first write. */
  lemma {:induction false} StaleOnlyInside(s: State, to: bool, a: seq<Step>, b: seq<Step>)
    requires s.main.Free?
    requires (forall i | 0 <= i < |a| :: !a[i].Bump?) && (forall i | 0 <= i < |b| :: !b[i].Clear?)
    ensures var t := After(Run(After(Run(After(s, Flip(to)), a), Bump), b), Clear);
      t.shown == None && t.main.Free? && t.expanded == to && t.flippedAt == s.clock
  {
    var s1 := After(s, Flip(to));
    InsideStays(s1, a);
    InsideStays(After(Run(s1, a), Bump), b);
  }

  // --- Nothing fresh is thrown away ----------------------------------------------------------------

  predicate Quiet(steps: seq<Step>) {
    forall i | 0 <= i < |steps| :: !steps[i].Flip?
  }

  /** How many jobs the main loop has taken from the queue. */
  function Taken(s: State, steps: seq<Step>): nat {
    if steps == [] then 0
    else
      var before := steps[..|steps| - 1];
      Taken(s, before) + (if steps[|steps| - 1].Apply? && Enabled(Run(s, before), Apply) then 1 else 0)
  }

  /** How often the panel began to expand or collapse. */
  function FlipsBegun(s: State, steps: seq<Step>): nat {
    if steps == [] then 0
    else
      var n := |steps| - 1;
      FlipsBegun(s, steps[..n]) + (if steps[n].Flip? && Enabled(Run(s, steps[..n]), steps[n]) then 1 else 0)
  }

  lemma {:induction false} GenerationCountsFlips(s: State, steps: seq<Step>)
    requires s.main.Free?
    ensures var t := Run(s, steps);
      if Quiet(steps) then t.generation == s.generation && t.expanded == s.expanded && t.main.Free?
      else t.generation > s.generation || (t.generation == s.generation && t.main.Flipped?)
    ensures Run(s, steps).generation + (if Run(s, steps).main.Flipped? then 1 else 0)
      == s.generation + FlipsBegun(s, steps)
  {
    if steps != [] {
      var before := steps[..|steps| - 1];
      assert steps == before + [steps[|steps| - 1]];
      assert Quiet(steps) <==> Quiet(before) && !steps[|steps| - 1].Flip?;
      GenerationCountsFlips(s, before);
    }
  }

  /** A turn of the poll that read this generation: its job is behind `ahead` others in the queue, or the poll thread
      is still at it with that many queued. */
  predicate Turn(s: State, generation: nat, ahead: nat) {
    if |s.queue| > ahead then s.queue[ahead].generation == generation
    else
      |s.queue| == ahead
      && match s.poll
         case Top => false
         case Tagged(g) => g == generation
         case Asking(g, _) => g == generation
         case Ready(job) => job.generation == generation
  }

  lemma {:induction false} TurnAfter(s: State, step: Step, generation: nat, ahead: nat)
    requires Turn(s, generation, ahead) && (step.Apply? && Enabled(s, step) ==> ahead > 0)
    ensures Turn(After(s, step), generation, if step.Apply? && Enabled(s, step) then ahead - 1 else ahead)
  {
  }

  lemma {:induction false} TurnComesNearer(s: State, steps: seq<Step>, generation: nat, ahead: nat)
    requires Turn(s, generation, ahead) && Taken(s, steps) <= ahead
    ensures Turn(Run(s, steps), generation, ahead - Taken(s, steps))
  {
    if steps != [] {
      hide Turn, After;
      var before := steps[..|steps| - 1];
      TurnComesNearer(s, before, generation, ahead);
      TurnAfter(Run(s, before), steps[|steps| - 1], generation, ahead - Taken(s, before));
    }
  }

  /** A turn of the poll begins, with any jobs queued before it; these are taken, and later its own job comes next, to
      an expanded panel: what it sampled is shown exactly when nothing expanded or collapsed the panel in between. */
  lemma {:induction false} ShownExactlyWhenUndisturbed(s: State, between: seq<Step>)
    requires s.main.Free? && s.poll.Top? && Taken(After(s, ReadGeneration), between) == |s.queue|
    ensures var t := Run(After(s, ReadGeneration), between);
      t.main.Free? && t.queue != [] && t.expanded ==>
        After(t, Apply).shown == if Quiet(between) && t.queue[0].reachable then t.queue[0].sample else None
  {
    GenerationCountsFlips(After(s, ReadGeneration), between);
    TurnComesNearer(After(s, ReadGeneration), between, s.generation, |s.queue|);
  }
}
