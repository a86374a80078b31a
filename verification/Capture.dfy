/** diagnosticCommand in experiments/capture-diagnostic-command.ts: two collectors gather a child's output up to a
    bound while the caller waits, interrupts, times out, signals and finally gives up. Every callback is one event,
    so a run is any order of them. */
module Capture {
  import opened Common

  datatype Collector = Reading | Ended

  datatype Signal = Term | Kill

  /** Where the caller is: racing completion against the time limit, waiting after a signal, draining, or back. */
  datatype Place = Racing | AfterTerm | AfterKill | Draining | Returned

  datatype Event =
    // The pipes: the next bytes the child wrote, the end of a stream, a failure to read.
    | Chunk(index: nat, size: nat) | Done(index: nat) | ReadFails(index: nat)
    // The child, and this process's own signals.
    | Exits(code: int) | ExitFails | Interrupted
    // The caller's waits: what the first one sees, and then how each grace period ends.
    | Observes(outcome: Outcome, signalled: bool) | Waits(signalled: bool)
    // The end: a cancellation fails, and the drain ends or is given up.
    | CancelFails(index: nat) | Drains(confirmed: bool, released: bool)

  datatype Outcome = Complete | Failed | TimeUp

  /** One pipe: what was kept of it, and how its collector stands. */
  datatype Pipe = Pipe(kept: seq<int>, collector: Collector, complete: bool, cancelled: bool)

  /** What a pipe holds: the beginning of what the child writes to it, within the bound; all that was delivered while
      it is being read; and all there is once it is complete. */
  predicate Keeps(p: Pipe, written: seq<int>, delivered: nat, maxBytes: nat) {
    && delivered <= |written|
    && |p.kept| <= maxBytes
    && p.kept <= written
    && (p.collector.Reading? ==> p.kept == written[..delivered])
    && (p.complete ==> p.collector.Ended? && p.kept == written)
  }

  /** A collector given the next bytes of its pipe, which keeps what still fits and ends when not all does. */
  function Admitted(p: Pipe, value: seq<int>, maxBytes: nat): Pipe
    requires |p.kept| <= maxBytes
  {
    var available := maxBytes - |p.kept|;
    if |value| > available then p.(kept := p.kept + value[..available], collector := Ended)
      else p.(kept := p.kept + value)
  }

  lemma {:induction false} AdmittedKeeps(p: Pipe, value: seq<int>, written: seq<int>, delivered: nat, maxBytes: nat)
    requires Keeps(p, written, delivered, maxBytes) && p.collector.Reading?
    requires delivered + |value| <= |written| && value == written[delivered..delivered + |value|]
    ensures Keeps(Admitted(p, value, maxBytes), written, delivered + |value|, maxBytes)
  {
    assert written[..delivered] + value == written[..delivered + |value|];
    var available := maxBytes - |p.kept|;
    if |value| > available {
      assert written[..delivered] + value[..available] == written[..delivered + available];
    }
  }

  /** A failure of the child, of a pipe or of the end. */
  predicate Bad(event: Event) {
    event.ReadFails? || event.ExitFails? || event.Interrupted? || event.CancelFails?
    || (event.Drains? && !(event.confirmed && event.released))
  }

  /** A pipe that is not complete when the caller turns to draining is cancelled. */
  function Cancelled(pipes: seq<Pipe>): (after: seq<Pipe>)
    ensures |after| == |pipes|
    ensures forall i | 0 <= i < |pipes| :: pipes[i].complete ==> after[i] == pipes[i]
    ensures forall i | 0 <= i < |pipes| :: !pipes[i].complete ==> after[i] == pipes[i].(cancelled := true)
  {
    seq(|pipes|, i requires 0 <= i < |pipes| => if pipes[i].complete then pipes[i] else pipes[i].(cancelled := true))
  }

  class Command {
    const maxBytes: nat
    var pipes: seq<Pipe>
    var errors: seq<string>
    var signalErrors: seq<string>
    var exitCode: Option<int>
    var exitSettled: bool
    var aborted: bool
    var timedOut: bool
    var place: Place
    var stdout: seq<int>
    var stderr: seq<int>
    var outputComplete: bool
    /** What the child writes to each pipe in all, and how much of it the pipe has delivered. */
    ghost const written: seq<seq<int>>
    ghost var delivered: seq<nat>
    /** The signals attempted, with whether the exit was confirmed by then; and whether anything went wrong. */
    ghost var attempts: seq<(Signal, bool)>
    ghost var trouble: bool
    /** Every event so far. */
    ghost var history: seq<Event>

    ghost predicate Valid()
      reads this
    {
      && |pipes| == 2 && |written| == 2 && |delivered| == 2
      && Keeps(pipes[0], written[0], delivered[0], maxBytes) && Keeps(pipes[1], written[1], delivered[1], maxBytes)
      && (trouble <==> errors != [])
      && (attempts == [] || attempts == [(Term, false)] || attempts == [(Term, false), (Kill, false)])
      && (place.Racing? ==> attempts == [])
      && (place.AfterTerm? ==> attempts == [(Term, false)])
      && (place.AfterKill? ==> attempts == [(Term, false), (Kill, false)])
      && (exitCode.Some? ==> exitSettled)
      && (!place.Returned? ==> !outputComplete)
      && (outputComplete ==> stdout == written[0] && stderr == written[1] && !trouble)
      && stdout <= written[0] && stderr <= written[1] && |stdout| <= maxBytes && |stderr| <= maxBytes
    }

    constructor (maxBytes: nat, ghost written: seq<seq<int>>)
      requires maxBytes >= 1 && |written| == 2
      ensures Valid() && place == Racing && errors == [] && this.maxBytes == maxBytes && this.written == written
      ensures history == [] && Explained()
    {
      var none := Pipe([], Reading, false, false);
      this.maxBytes, this.written, pipes, delivered := maxBytes, written, [none, none], [0, 0];
      errors, signalErrors, exitCode := [], [], None;
      exitSettled, aborted, timedOut, place := false, false, false, Racing;
      stdout, stderr, outputComplete, attempts, trouble, history := [], [], false, [], false, [];
    }

    /** The next event, if it can happen now; the bytes of a chunk are the child's next ones. */
    ghost predicate Possible(event: Event)
      requires Valid()
      reads this
    {
      match event
      case Chunk(i, size) => i < 2 && pipes[i].collector.Reading? && !place.Returned?
        && delivered[i] + size <= |written[i]|
      case Done(i) => i < 2 && pipes[i].collector.Reading? && !place.Returned?
        && (pipes[i].cancelled || delivered[i] == |written[i]|)
      case ReadFails(i) => i < 2 && pipes[i].collector.Reading? && !place.Returned?
      case Exits(_) => !exitSettled && !place.Returned?
      case ExitFails => !exitSettled && !place.Returned?
      case Interrupted => !place.Returned?
      case Observes(outcome, _) => place.Racing?
        && (outcome.Complete? ==> pipes[0].collector.Ended? && pipes[1].collector.Ended? && exitSettled)
          && (outcome.Failed? ==> aborted)
      case Waits(_) => place.AfterTerm? || place.AfterKill?
      case CancelFails(i) => i < 2 && place.Draining?
      case Drains(_, _) => place.Draining?
    }

    /** The caller's place and the signals sent are as they were, and so is what was returned. */
    twostate predicate Stays()
      reads this
    {
      && place == old(place) && attempts == old(attempts) && signalErrors == old(signalErrors)
        && history == old(history)
      && timedOut == old(timedOut)
      && stdout == old(stdout) && stderr == old(stderr) && outputComplete == old(outputComplete)
    }

    method Fail(error: string)
      modifies `errors, `trouble
      ensures errors == old(errors) + [error] && trouble
    {
      errors, trouble := errors + [error], true;
    }

    method Collect(i: nat, value: seq<int>)
      requires Valid() && i < 2 && pipes[i].collector.Reading? && !place.Returned?
      requires delivered[i] + |value| <= |written[i]| && value == written[i][delivered[i]..delivered[i] + |value|]
      modifies this
      ensures Valid() && Stays() && exitCode == old(exitCode) && exitSettled == old(exitSettled)
      ensures delivered == old(delivered)[i := old(delivered)[i] + |value|]
      // What fits is kept behind what was kept before; when not all fits the collector ends, with an error.
      ensures var p, room := old(pipes)[i], maxBytes - |old(pipes)[i].kept|;
        if |value| <= room then
          pipes == old(pipes)[i := p.(kept := p.kept + value)] && errors == old(errors) && aborted == old(aborted)
        else
          && pipes == old(pipes)[i := p.(kept := p.kept + value[..room], collector := Ended)]
          && errors == old(errors) + [if i == 0 then "stdout bound exceeded" else "stderr bound exceeded"] && aborted
    {
      hide Keeps;
      AdmittedKeeps(pipes[i], value, written[i], delivered[i], maxBytes);
      KeptIsBounded();
      var state := pipes[i];
      var available := maxBytes - |state.kept|;
      var admitted := if |value| > available then value[..available] else value;
      delivered := delivered[i := delivered[i] + |value|];
      pipes := pipes[i := state.(kept := state.kept + admitted)];
      if |value| > available {
        Fail(if i == 0 then "stdout bound exceeded" else "stderr bound exceeded");
        aborted := true;
        pipes := pipes[i := pipes[i].(collector := Ended)];
      }
      assert pipes == old(pipes)[i := Admitted(old(pipes)[i], value, maxBytes)];
      PipeStays(i);
    }

    twostate lemma {:induction false} PipeStays(i: nat)
      requires old(Valid()) && i < 2 && Stays() && exitCode == old(exitCode) && exitSettled == old(exitSettled)
      requires !place.Returned? && (trouble <==> errors != [])
      requires |pipes| == |delivered| == 2 && Keeps(pipes[i], written[i], delivered[i], maxBytes)
      requires pipes[1 - i] == old(pipes)[1 - i] && delivered[1 - i] == old(delivered)[1 - i]
      ensures Valid()
    {
      hide Keeps;
    }

    /** The stream ended: because the child's output did, or because the reader was cancelled. */
    method End(i: nat)
      requires Valid() && i < 2 && pipes[i].collector.Reading? && !place.Returned?
      requires pipes[i].cancelled || delivered[i] == |written[i]|
      modifies `pipes
      ensures Valid()
      ensures pipes == old(pipes)[i := old(pipes)[i].(complete := !old(pipes)[i].cancelled, collector := Ended)]
    {
      pipes := pipes[i := pipes[i].(complete := !pipes[i].cancelled, collector := Ended)];
    }

    method ReadFails(i: nat)
      requires Valid() && i < 2 && pipes[i].collector.Reading? && !place.Returned?
      modifies this
      ensures Valid() && Stays() && exitCode == old(exitCode) && exitSettled == old(exitSettled)
      ensures delivered == old(delivered) && pipes == old(pipes)[i := old(pipes)[i].(collector := Ended)]
      ensures errors == old(errors) + [if i == 0 then "stdout read failed" else "stderr read failed"] && aborted
    {
      Fail(if i == 0 then "stdout read failed" else "stderr read failed");
      aborted := true;
      pipes := pipes[i := pipes[i].(collector := Ended)];
    }

    method Exit(code: Option<int>)
      requires Valid() && !exitSettled && !place.Returned?
      modifies this
      ensures Valid() && Stays() && pipes == old(pipes) && delivered == old(delivered) && exitSettled
      ensures exitCode == if code.Some? then code else old(exitCode)
      ensures if code.Some? then errors == old(errors) && aborted == old(aborted)
              else errors == old(errors) + ["direct child exit observation failed"] && aborted
    {
      exitSettled := true;
      if code.Some? {
        exitCode := code;
      } else {
        Fail("direct child exit observation failed");
        aborted := true;
      }
    }

    method Interrupt(name: string)
      requires Valid() && !place.Returned?
      modifies this
      ensures Valid() && Stays() && pipes == old(pipes) && delivered == old(delivered)
      ensures exitCode == old(exitCode) && exitSettled == old(exitSettled)
      ensures errors == old(errors) + ["interrupted by " + name] && aborted
    {
      Fail("interrupted by " + name);
      aborted := true;
    }

    /** What was found of the child and of its output is as it was. */
    twostate predicate KeepsFindings()
      reads this
    {
      && errors == old(errors) && exitCode == old(exitCode) && exitSettled == old(exitSettled)
      && aborted == old(aborted) && delivered == old(delivered) && history == old(history)
      && stdout == old(stdout) && stderr == old(stderr) && outputComplete == old(outputComplete)
    }

    method Send(signal: Signal, works: bool)
      modifies `signalErrors, `attempts
      ensures attempts == old(attempts) + [(signal, exitCode.Some?)]
      ensures signalErrors == old(signalErrors) +
        (if works then [] else [if signal.Term? then "SIGTERM failed" else "SIGKILL failed"])
    {
      attempts := attempts + [(signal, exitCode.Some?)];
      if !works {
        signalErrors := signalErrors + [if signal.Term? then "SIGTERM failed" else "SIGKILL failed"];
      }
    }

    /** The first wait is over. The exit, not the output, decides whether the child is signalled. */
    method Observe(outcome: Outcome, works: bool)
      requires Valid() && place.Racing?
      requires outcome.Complete? ==> pipes[0].collector.Ended? && pipes[1].collector.Ended? && exitSettled
      requires outcome.Failed? ==> aborted
      modifies this
      ensures Valid() && KeepsFindings() && timedOut == outcome.TimeUp?
      ensures if old(exitCode).None? then
                place == AfterTerm && attempts == old(attempts) + [(Term, false)] && pipes == old(pipes)
                && signalErrors == old(signalErrors) + (if works then [] else ["SIGTERM failed"])
              else
                place == Draining && attempts == old(attempts) && signalErrors == old(signalErrors)
                && pipes == Cancelled(old(pipes))
    {
      timedOut := outcome.TimeUp?;
      if !outcome.Complete? || exitCode.None? {
        if exitCode.None? {
          Send(Term, works);
          place := AfterTerm;
          return;
        }
      }
      Cancel();
    }

    /** A grace period is over: the next signal goes out only if the exit is still unconfirmed. */
    method Wait(works: bool)
      requires Valid() && (place.AfterTerm? || place.AfterKill?)
      modifies this
      ensures Valid() && KeepsFindings() && timedOut == old(timedOut)
      ensures if old(place).AfterTerm? && old(exitCode).None? then
                place == AfterKill && attempts == old(attempts) + [(Kill, false)] && pipes == old(pipes)
                && signalErrors == old(signalErrors) + (if works then [] else ["SIGKILL failed"])
              else
                place == Draining && attempts == old(attempts) && signalErrors == old(signalErrors)
                && pipes == Cancelled(old(pipes))
    {
      if place.AfterTerm? && exitCode.None? {
        Send(Kill, works);
        place := AfterKill;
        return;
      }
      Cancel();
    }

    /** Whatever is not complete by now never counts as complete. */
    method Cancel()
      requires Valid() && !place.Returned?
      modifies `pipes, `place
      ensures Valid() && place == Draining && pipes == Cancelled(old(pipes))
    {
      var first, second := pipes[0], pipes[1];
      pipes := [if first.complete then first else first.(cancelled := true),
                if second.complete then second else second.(cancelled := true)];
      place := Draining;
    }

    method CancelFails(i: nat)
      requires Valid() && place.Draining? && i < 2
      modifies this
      ensures Valid() && Stays() && pipes == old(pipes) && delivered == old(delivered)
      ensures errors == old(errors) + [if i == 0 then "stdout cancellation failed" else "stderr cancellation failed"]
    {
      Fail(if i == 0 then "stdout cancellation failed" else "stderr cancellation failed");
    }

    lemma {:induction false} KeptIsBounded()
      requires Valid()
      ensures forall i | 0 <= i < 2 ::
        && pipes[i].kept <= written[i] && |pipes[i].kept| <= maxBytes
        && (pipes[i].complete ==> pipes[i].kept == written[i] && !pipes[i].collector.Reading?)
        && (pipes[i].collector.Reading? ==> |pipes[i].kept| == delivered[i])
    {
    }

    method Return(drained: bool, released: bool)
      requires Valid() && place.Draining?
      modifies this
      ensures Valid() && place == Returned && pipes == old(pipes) && delivered == old(delivered)
      ensures history == old(history) && exitCode == old(exitCode) && signalErrors == old(signalErrors)
      // Complete output is the whole of both streams, with nothing having gone wrong: no bound reached, no failed
      // read, no interruption, no lost exit, no failed cancellation, no drain given up.
      ensures outputComplete ==> stdout == written[0] && stderr == written[1] && !trouble && errors == []
      ensures outputComplete <==> old(pipes)[0].complete && old(pipes)[1].complete && errors == []
      ensures stdout == old(pipes)[0].kept && stderr == old(pipes)[1].kept && attempts == old(attempts)
      ensures errors == old(errors) + (if drained then [] else ["output drain unconfirmed"])
                          + (if released then [] else ["output reader release failed"])
    {
      hide Keeps;
      KeptIsBounded();
      if !drained {
        Fail("output drain unconfirmed");
      }
      if !released {
        Fail("output reader release failed");
      }
      stdout, stderr := pipes[0].kept, pipes[1].kept;
      outputComplete := pipes[0].complete && pipes[1].complete && errors == [];
      place := Returned;
    }

    /** Whether something went wrong is told by the events: a failure, or more output than may be kept; and a pipe is
        complete exactly when its end came before it was cancelled. */
    ghost predicate Explained()
      reads this
      requires Valid()
    {
      && (errors != [] <==>
            (exists k :: 0 <= k < |history| && Bad(history[k])) || delivered[0] > maxBytes || delivered[1] > maxBytes)
      && (forall i | 0 <= i < 2 :: pipes[i].complete <==> Done(i) in history && !pipes[i].cancelled)
      && (forall i | 0 <= i < 2 :: pipes[i].collector.Reading? ==> delivered[i] <= maxBytes && Done(i) !in history)
    }

    /** What one event does to all that explains the outcome. */
    twostate predicate Moves(event: Event)
      reads this
      requires old(Valid()) && Valid()
    {
      && (errors != [] <==>
            old(errors) != [] || Bad(event)
            || (event.Chunk? && event.index < 2 && old(delivered)[event.index] + event.size > maxBytes))
      && (forall i | 0 <= i < 2 ::
            delivered[i] == old(delivered)[i] + (if event.Chunk? && event.index == i then event.size else 0))
      && (forall i | 0 <= i < 2 :: event == Done(i) ==> old(pipes)[i].collector.Reading?)
      && (forall i | 0 <= i < 2 ::
            pipes[i].complete == (old(pipes)[i].complete || (event == Done(i) && !old(pipes)[i].cancelled)))
      && (forall i | 0 <= i < 2 ::
            old(pipes)[i].cancelled == pipes[i].cancelled || (pipes[i].cancelled && !pipes[i].complete))
      && (forall i | 0 <= i < 2 :: pipes[i].collector.Reading? ==>
            old(pipes)[i].collector.Reading? && event != Done(i)
            && (event.Chunk? && event.index == i ==> delivered[i] <= maxBytes))
    }

    twostate lemma {:induction false} StaysExplained(event: Event)
      requires old(Valid()) && Valid() && old(Explained()) && Moves(event) && history == old(history) + [event]
      ensures Explained()
    {
      hide Keeps;
      assert history[|old(history)|] == event && forall k | 0 <= k < |old(history)| :: history[k] == old(history)[k];
    }

    lemma {:induction false} WhenComplete()
      requires Valid() && Explained()
      ensures pipes[0].complete && pipes[1].complete && errors == [] <==>
              && Done(0) in history && Done(1) in history && !pipes[0].cancelled && !pipes[1].cancelled
              && delivered[0] <= maxBytes && delivered[1] <= maxBytes
              && forall k | 0 <= k < |history| :: !Bad(history[k])
    {
      hide Keeps;
    }

    /** One event, with the bytes a chunk brings. */
    method Handle(event: Event, value: seq<int>)
      requires Valid() && Possible(event) && Explained()
      requires event.Chunk? ==>
        value == written[event.index][delivered[event.index]..delivered[event.index] + event.size]
      modifies this
      ensures Valid() && history == old(history) + [event] && Explained()
      // Complete output: both streams ended by themselves, in time and within the bound, and nothing failed.
      ensures event.Drains? ==>
        place == Returned
        && (outputComplete <==>
              && Done(0) in history && Done(1) in history && !pipes[0].cancelled && !pipes[1].cancelled
              && delivered[0] <= maxBytes && delivered[1] <= maxBytes
              && forall k | 0 <= k < |history| :: !Bad(history[k]))
    {
      hide Keeps, Explained;
      if event.Chunk? || event.Done? || event.ReadFails? {
        AtPipe(event, value);
      } else {
        Elsewhere(event);
      }
      history := history + [event];
      StaysExplained(event);
      WhenComplete();
    }

    /** What happens at a pipe. */
    method AtPipe(event: Event, value: seq<int>)
      requires Valid() && Possible(event)
      requires event.Chunk? || event.Done? || event.ReadFails?
      requires event.Chunk? ==>
        value == written[event.index][delivered[event.index]..delivered[event.index] + event.size]
      modifies this
      ensures Valid() && Moves(event) && history == old(history)
    {
      hide Keeps;
      KeptIsBounded();
      match event
      case Chunk(i, _) => Collect(i, value);
      case Done(i) => End(i);
      case ReadFails(i) => ReadFails(i);
    }

    /** What happens to the child, and what the caller does. */
    method Elsewhere(event: Event)
      requires Valid() && Possible(event)
      requires !event.Chunk? && !event.Done? && !event.ReadFails?
      modifies this
      ensures Valid() && Moves(event) && history == old(history)
      ensures event.Drains? ==>
        place == Returned && (outputComplete <==> pipes[0].complete && pipes[1].complete && errors == [])
    {
      hide Keeps;
      match event
      case Exits(code) => Exit(Some(code));
      case ExitFails => Exit(None);
      case Interrupted => Interrupt("a signal");
      case Observes(outcome, works) => Observe(outcome, works);
      case Waits(works) => Wait(works);
      case CancelFails(i) => CancelFails(i);
      case Drains(confirmed, released) => Return(confirmed, released);
    }
  }
}
