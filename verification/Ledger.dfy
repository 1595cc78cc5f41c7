/**
  The startup ledger: every started stage is stopped exactly once, whether the rollback or its own
  late registration does it (eebus-bridge/cmd/eebus-bridge/lifecycle.go).

  An add and a rollback are each several steps, and steps of different callers interleave freely: an add
  decides under the lock and stops a late stage after releasing it, a rollback takes the stages under the
  lock and stops them one by one. A stage carries the outcome of its stop.
 */
module Ledger {
  import opened Common

  datatype Stage = Stage(name: string, stopFails: bool)

  datatype Stop = Stop(stage: Stage, byRollback: bool)

  datatype State = State(
    stages: seq<Stage>,
    closed: bool,
    toStop: seq<Stage>,
    late: multiset<Stage>,
    stopped: seq<Stop>,
    errors: seq<Stage>,
    done: bool,
    returned: seq<seq<Stage>>)

  const EMPTY := State([], false, [], multiset{}, [], [], false, [])

  datatype Event =
    | Add(stage: Stage)
    | StopLate(stage: Stage)
    | Take
    | StopNext
    | Finish
    | Return

  function Step(s: State, e: Event): State {
    match e
    case Add(stage) =>
      if s.closed then s.(late := s.late + multiset{stage}) else s.(stages := s.stages + [stage])
    case StopLate(stage) =>
      if stage !in s.late then s
      else s.(late := s.late - multiset{stage}, stopped := s.stopped + [Stop(stage, false)])
    case Take =>
      if s.closed then s else s.(closed := true, stages := [], toStop := s.stages)
    case StopNext =>
      if s.toStop == [] then s
      else
        var last := s.toStop[|s.toStop| - 1];
        s.(toStop := s.toStop[..|s.toStop| - 1], stopped := s.stopped + [Stop(last, true)],
        errors := if last.stopFails then s.errors + [last] else s.errors)
    case Finish =>
      if s.closed && s.toStop == [] then s.(done := true) else s
    case Return =>
      if s.done then s.(returned := s.returned + [s.errors]) else s
  }

  function Run(s: State, events: seq<Event>): State
    decreases |events|
  {
    if events == [] then s else Step(Run(s, events[..|events| - 1]), events[|events| - 1])
  }

  /** A rollback's loop, run to its end. */
  function StopAll(s: State): State
    decreases |s.toStop|
  {
    if s.toStop == [] then s else StopAll(Step(s, StopNext))
  }

  /** Nothing is left to take or to stop once the ledger is closed and done. */
  lemma SettledAgain(s: State)
    requires s.closed && s.toStop == []
    ensures StopAll(Step(s, Take)) == s
  {
  }

  datatype AddResult = Recorded | Stopping(stopFailed: bool)

  /** The ledger object; each method runs its steps without another caller between them. */
  class LifecycleTransaction {
    var stages: seq<Stage>
    var closed: bool
    var done: bool
    var err: seq<Stage>
    var toStop: seq<Stage>
    var stops: seq<Stop>
    ghost var late: multiset<Stage>
    ghost var returned: seq<seq<Stage>>

    ghost function View(): State
      reads this
    {
      State(stages, closed, toStop, late, stops, err, done, returned)
    }

    ghost predicate Valid()
      reads this
    {
      Orderly(View())
    }

    constructor ()
      ensures Valid() && View() == EMPTY
    {
      stages, closed, done, err, toStop, stops := [], false, false, [], [], [];
      late, returned := multiset{}, [];
    }

    method AddLocked(stage: Stage) returns (recorded: bool)
      modifies this
      ensures recorded == !old(closed)
      ensures View() == Step(old(View()), Event.Add(stage))
    {
      if !closed {
        stages := stages + [stage];
        return true;
      }
      late := late + multiset{stage};
      return false;
    }

    method StopOwn(stage: Stage) returns (failed: bool)
      requires stage in late
      modifies this
      ensures failed == stage.stopFails
      ensures View() == Step(old(View()), StopLate(stage))
    {
      late := late - multiset{stage};
      stops := stops + [Stop(stage, false)];
      failed := stage.stopFails;
    }

    method Add(stage: Stage) returns (r: AddResult)
      requires Valid()
      modifies this
      ensures Valid()
      ensures r == if old(closed) then Stopping(stage.stopFails) else AddResult.Recorded
      ensures View() == if old(closed) then Step(Step(old(View()), Event.Add(stage)), StopLate(stage))
                        else Step(old(View()), Event.Add(stage))
    {
      StepKeepsOrder(View(), Event.Add(stage));
      var recorded := AddLocked(stage);
      if recorded {
        return AddResult.Recorded;
      }
      StepKeepsOrder(View(), StopLate(stage));
      var failed := StopOwn(stage);
      r := Stopping(failed);
    }

    method StopLast()
      requires toStop != []
      modifies this`toStop, this`stops, this`err
      ensures View() == Step(old(View()), StopNext)
      ensures |toStop| < |old(toStop)|
    {
      var last := toStop[|toStop| - 1];
      toStop := toStop[..|toStop| - 1];
      stops := stops + [Stop(last, true)];
      if last.stopFails {
        err := err + [last];
      }
    }

    /** Closes the ledger and takes its stages, under the lock. */
    method TakeStages()
      requires Valid() && !closed
      modifies this`closed, this`toStop, this`stages
      ensures Valid() && closed && View() == Step(old(View()), Take)
    {
      StepKeepsOrder(View(), Take);
      closed := true;
      toStop := stages;
      stages := [];
    }

    method MarkDone()
      requires Valid() && closed && toStop == []
      modifies this`done
      ensures Valid() && closed && done && View() == Step(old(View()), Finish)
    {
      StepKeepsOrder(View(), Finish);
      done := true;
    }

    method HandOver() returns (result: Option<seq<Stage>>)
      requires Valid() && done
      modifies this`returned
      ensures Valid() && View() == Step(old(View()), Return) && result == Some(err)
    {
      StepKeepsOrder(View(), Return);
      returned := returned + [err];
      result := Some(err);
    }

    /** The loop over the stages taken, last one first. */
    method StopTaken()
      requires Valid() && closed
      modifies this`toStop, this`stops, this`err
      ensures Valid() && toStop == [] && View() == StopAll(old(View()))
    {
      hide Step, Orderly;
      while toStop != []
        invariant Valid() && StopAll(View()) == StopAll(old(View()))
        decreases |toStop|
      {
        StepKeepsOrder(View(), StopNext);
        StopLast();
      }
    }

    /**
      The first call does the work; a later one finds it done. One that arrives while the first is still at
      it has to wait, and is told so.
     */
    method Rollback() returns (result: Option<seq<Stage>>)
      requires Valid()
      modifies this
      ensures Valid()
      ensures result == if old(closed && !done) then None else Some(err)
      ensures View() == if old(closed && !done) then old(View())
                        else Step(Step(StopAll(Step(old(View()), Take)), Finish), Return)
    {
      if closed && !done {
        return None;
      }
      if closed {
        assert toStop == [];
        SettledAgain(View());
      } else {
        TakeStages();
        StopTaken();
      }
      hide Step;
      MarkDone();
      result := HandOver();
    }
  }

  // ------------------------------------------------------------------ what the trace says

  function Started(events: seq<Event>): seq<Stage>
    decreases |events|
  {
    if events == [] then []
    else
      var before, last := events[..|events| - 1], events[|events| - 1];
      if last.Add? then Started(before) + [last.stage] else Started(before)
  }

  /** The stages whose add came before the first rollback. */
  function RecordedBy(events: seq<Event>): seq<Stage>
    decreases |events|
  {
    if events == [] then []
    else
      var before, last := events[..|events| - 1], events[|events| - 1];
      if last.Add? && Take !in before then RecordedBy(before) + [last.stage] else RecordedBy(before)
  }

  function Reversed(s: seq<Stage>): seq<Stage> {
    if s == [] then [] else Reversed(s[1..]) + [s[0]]
  }

  function Failing(s: seq<Stage>): seq<Stage>
    decreases |s|
  {
    if s == [] then []
    else
      var before, last := s[..|s| - 1], s[|s| - 1];
      if last.stopFails then Failing(before) + [last] else Failing(before)
  }

  function Stages(stops: seq<Stop>): seq<Stage>
    decreases |stops|
  {
    if stops == [] then [] else Stages(stops[..|stops| - 1]) + [stops[|stops| - 1].stage]
  }

  function ByRollback(stops: seq<Stop>): seq<Stage>
    decreases |stops|
  {
    if stops == [] then []
    else
      var before, last := stops[..|stops| - 1], stops[|stops| - 1];
      if last.byRollback then ByRollback(before) + [last.stage] else ByRollback(before)
  }

  // ------------------------------------------------------------------ every interleaving

  ghost function Tally(s: State): multiset<Stage> {
    multiset(s.stages) + multiset(s.toStop) + s.late + multiset(Stages(s.stopped))
  }

  /** Every started stage is in exactly one place. */
  ghost predicate Conserved(s: State, started: seq<Stage>) {
    multiset(started) == Tally(s)
  }

  /** The rollback works backwards through what was recorded. */
  predicate Backwards(s: State, recorded: seq<Stage>) {
    && (if s.closed then s.stages == [] && ByRollback(s.stopped) + Reversed(s.toStop) == Reversed(recorded)
        else s.stages == recorded && s.toStop == [] && ByRollback(s.stopped) == [])
    && s.errors == Failing(ByRollback(s.stopped))
  }

  predicate Orderly(s: State) {
    && (if s.closed then s.stages == [] else s.toStop == [])
    && (s.done ==> s.closed && s.toStop == [])
    && forall r | r in s.returned :: s.done && r == s.errors
  }

  ghost predicate Accounts(s: State, events: seq<Event>) {
    s.closed == (Take in events) && Conserved(s, Started(events)) && Backwards(s, RecordedBy(events)) && Orderly(s)
  }

  lemma {:induction false} ReversedSnoc(s: seq<Stage>, x: Stage)
    ensures Reversed(s + [x]) == [x] + Reversed(s)
  {
    if s == [] {
      assert [x][1..] == [];
    } else {
      ReversedSnoc(s[1..], x);
      assert (s + [x])[1..] == s[1..] + [x];
    }
  }

  lemma LateMoves(a: multiset<Stage>, late: multiset<Stage>, stopped: multiset<Stage>, x: Stage)
    requires x in late
    ensures a + late + stopped == a + (late - multiset{x}) + (stopped + multiset{x})
  {}

  lemma NextMoves(a: multiset<Stage>, toStop: multiset<Stage>, late: multiset<Stage>, stopped: multiset<Stage>,
                  x: Stage)
    ensures a + (toStop + multiset{x}) + late + stopped == a + toStop + late + (stopped + multiset{x})
  {}

  lemma LateConserves(s: State, stage: Stage)
    requires stage in s.late
    ensures Tally(Step(s, StopLate(stage))) == Tally(s)
  {
    StopsAppend(s.stopped, Stop(stage, false));
    LateMoves(multiset(s.stages) + multiset(s.toStop), s.late, multiset(Stages(s.stopped)), stage);
  }

  lemma NextConserves(s: State)
    requires s.toStop != []
    ensures Tally(Step(s, StopNext)) == Tally(s)
  {
    var rest, last := s.toStop[..|s.toStop| - 1], s.toStop[|s.toStop| - 1];
    StopsAppend(s.stopped, Stop(last, true));
    assert s.toStop == rest + [last];
    NextMoves(multiset(s.stages), multiset(rest), s.late, multiset(Stages(s.stopped)), last);
  }

  lemma AddConserves(s: State, started: seq<Stage>, stage: Stage)
    requires Conserved(s, started)
    ensures Conserved(Step(s, Add(stage)), started + [stage])
  {
    hide Stages;
    assert multiset(started + [stage]) == multiset(started) + multiset{stage};
  }

  lemma StepConserves(s: State, started: seq<Stage>, e: Event)
    requires Conserved(s, started) && Orderly(s)
    ensures Conserved(Step(s, e), if e.Add? then started + [e.stage] else started)
  {
    match e
    case Add(stage) =>
      AddConserves(s, started, stage);
      hide Tally;
    case StopLate(stage) =>
      if stage in s.late {
        LateConserves(s, stage);
        hide Tally;
      }
    case StopNext =>
      if s.toStop != [] {
        NextConserves(s);
        hide Tally;
      }
    case _ =>
  }

  lemma NextGoesBackwards(s: State, recorded: seq<Stage>)
    requires Backwards(s, recorded) && s.toStop != []
    ensures Backwards(Step(s, StopNext), recorded)
  {
    hide Step;
    NextStopIs(s);
    var rest, last := s.toStop[..|s.toStop| - 1], s.toStop[|s.toStop| - 1];
    LastReversed(s.toStop);
    StopsAppend(s.stopped, Stop(last, true));
    FailingAppends(ByRollback(s.stopped), last);
    Regroup(ByRollback(s.stopped), last, Reversed(rest));
    hide Reversed, ByRollback, Failing;
  }

  lemma LastReversed(s: seq<Stage>)
    requires s != []
    ensures Reversed(s) == [s[|s| - 1]] + Reversed(s[..|s| - 1])
  {
    assert s == s[..|s| - 1] + [s[|s| - 1]];
    ReversedSnoc(s[..|s| - 1], s[|s| - 1]);
    hide Reversed;
  }

  lemma Regroup(a: seq<Stage>, x: Stage, b: seq<Stage>)
    ensures a + ([x] + b) == (a + [x]) + b
  {
  }

  lemma NextStopIs(s: State)
    requires s.toStop != []
    ensures var last := s.toStop[|s.toStop| - 1];
            Step(s, StopNext) == s.(toStop := s.toStop[..|s.toStop| - 1], stopped := s.stopped + [Stop(last, true)],
            errors := if last.stopFails then s.errors + [last] else s.errors)
  {
  }

  lemma StepGoesBackwards(s: State, recorded: seq<Stage>, e: Event)
    requires Backwards(s, recorded)
    ensures Backwards(Step(s, e), if e.Add? && !s.closed then recorded + [e.stage] else recorded)
  {
    hide Failing;
    match e
    case StopLate(stage) =>
      StopsAppend(s.stopped, Stop(stage, false));
      hide ByRollback, Reversed;
    case StopNext =>
      if s.toStop != [] {
        NextGoesBackwards(s, recorded);
        hide Backwards;
      }
    case Take =>
      assert [] + Reversed(s.stages) == Reversed(s.stages);
      hide Reversed, ByRollback;
    case _ =>
      hide Reversed, ByRollback;
  }

  lemma FailingAppends(s: seq<Stage>, last: Stage)
    ensures Failing(s + [last]) == if last.stopFails then Failing(s) + [last] else Failing(s)
  {
    assert (s + [last])[..|s + [last]| - 1] == s;
  }

  lemma StepKeepsOrder(s: State, e: Event)
    requires Orderly(s)
    ensures Orderly(Step(s, e)) && Step(s, e).closed == (s.closed || e == Take)
  {}

  lemma TraceGrows(before: seq<Event>, e: Event)
    ensures Started(before + [e]) == if e.Add? then Started(before) + [e.stage] else Started(before)
    ensures RecordedBy(before + [e]) == if e.Add? && Take !in before then RecordedBy(before) + [e.stage]
                                        else RecordedBy(before)
  {
    assert (before + [e])[..|before + [e]| - 1] == before;
  }

  lemma StepAccounts(s: State, before: seq<Event>, e: Event)
    requires Accounts(s, before)
    ensures Accounts(Step(s, e), before + [e])
  {
    hide Step, Conserved, Backwards, Orderly, Started, RecordedBy;
    TraceGrows(before, e);
    StepConserves(s, Started(before), e);
    StepGoesBackwards(s, RecordedBy(before), e);
    StepKeepsOrder(s, e);
  }

  lemma StopsAppend(stops: seq<Stop>, stop: Stop)
    ensures Stages(stops + [stop]) == Stages(stops) + [stop.stage]
    ensures ByRollback(stops + [stop]) == if stop.byRollback then ByRollback(stops) + [stop.stage]
                                          else ByRollback(stops)
  {
    assert (stops + [stop])[..|stops + [stop]| - 1] == stops;
  }

  lemma EmptyAccounts()
    ensures Accounts(EMPTY, [])
  {
  }

  lemma {:induction false} RunAccounts(events: seq<Event>)
    ensures Accounts(Run(EMPTY, events), events)
    decreases |events|
  {
    hide Accounts, Step;
    if events == [] {
      EmptyAccounts();
    } else {
      var before, last := events[..|events| - 1], events[|events| - 1];
      assert events == before + [last];
      RunAccounts(before);
      StepAccounts(Run(EMPTY, before), before, last);
    }
  }

  /** The rollback is done and every late stage has been stopped by its own add. */
  predicate Settled(s: State) {
    s.done && s.late == multiset{}
  }

  /**
    For any interleaving of adds and rollbacks: once settled, each started stage has been stopped exactly
    once, those recorded before the rollback by it and in exact reverse order, the others by their own
    add, and every rollback call has returned the same failures.
   */
  lemma EveryStageStoppedOnce(events: seq<Event>)
    requires Settled(Run(EMPTY, events))
    ensures var s := Run(EMPTY, events);
            && multiset(Stages(s.stopped)) == multiset(Started(events))
            && ByRollback(s.stopped) == Reversed(RecordedBy(events))
            && forall r | r in s.returned :: r == Failing(Reversed(RecordedBy(events)))
  {
    RunAccounts(events);
  }

  /** Before that, nothing is ever stopped twice, and what the rollback has stopped is the tail it should have. */
  lemma NothingStoppedTwice(events: seq<Event>)
    ensures var s := Run(EMPTY, events);
            && multiset(Stages(s.stopped)) <= multiset(Started(events))
            && ByRollback(s.stopped) <= Reversed(RecordedBy(events))
  {
    RunAccounts(events);
  }

  lemma {:induction false} RunPrepends(s: State, e: Event, events: seq<Event>)
    ensures Run(s, [e] + events) == Run(Step(s, e), events)
    decreases |events|
  {
    hide Step;
    if events == [] {
      assert [e] + events == [e];
      RunOne(s, e);
    } else {
      RunPrepends(s, e, events[..|events| - 1]);
      InitPrepends(e, events);
    }
  }

  lemma RunOne(s: State, e: Event)
    ensures Run(s, [e]) == Step(s, e)
  {
    hide Step;
    assert [e][..0] == [];
  }

  lemma InitPrepends(e: Event, events: seq<Event>)
    requires events != []
    ensures var all := [e] + events;
            all != [] && all[..|all| - 1] == [e] + events[..|events| - 1] && all[|all| - 1] == events[|events| - 1]
  {
  }

  /** No interleaving gets stuck: from any state in which the rollback has begun, it can be brought to an end. */
  lemma {:induction false} CanSettle(s: State) returns (more: seq<Event>)
    requires s.closed && Orderly(s)
    ensures Settled(Run(s, more))
    decreases |s.toStop| + |s.late|
  {
    var e :=
      if s.toStop != [] then StopNext
      else if s.late != multiset{} then var stage :| stage in s.late; StopLate(stage)
      else Finish;
    StepKeepsOrder(s, e);
    if e.Finish? {
      more := [];
      assert Run(Step(s, e), more) == Step(s, e);
    } else {
      more := CanSettle(Step(s, e));
    }
    RunPrepends(s, e, more);
    more := [e] + more;
  }
}
