/**
  The store that owns the only reference to the current state and drains observations in FIFO
  order, even when its publish callback dispatches again (custom_components/eebus/state.py).
 */
module DeviceStore {
  import opened State
  import opened Reducer

  /** What the publish callback does with one published state: it dispatches again, then perhaps raises. */
  datatype Reaction = Reaction(dispatches: seq<Observation>, raises: bool)

  const SILENT := Reaction([], false)

  /** The callback's reactions in publication order; it stays silent beyond the list. */
  function Next(script: seq<Reaction>): Reaction {
    if script == [] then SILENT else script[0]
  }

  function Later(script: seq<Reaction>): seq<Reaction> {
    if script == [] then [] else script[1..]
  }

  /** What a drain reduces, in order, and what it leaves queued, given the queue it starts from. */
  function Drained(queue: seq<Observation>, script: seq<Reaction>): (result: (seq<Observation>, seq<Observation>))
    decreases |script|, |queue|
  {
    if queue == [] then ([], [])
    else
      var after := queue[1..] + Next(script).dispatches;
      if Next(script).raises then ([queue[0]], after)
      else
        var rest := Drained(after, Later(script));
        ([queue[0]] + rest.0, rest.1)
  }

  /** Whether a drain ends in an exception: a reaction that it reaches raises. */
  predicate Raises(queue: seq<Observation>, script: seq<Reaction>)
    decreases |script|, |queue|
  {
    queue != [] && (Next(script).raises || Raises(queue[1..] + Next(script).dispatches, Later(script)))
  }

  /** A drain under way has reduced what it took; the rest of it is still to come, unless the callback raised. */
  ghost predicate Drains(
    first: seq<Observation>, script: seq<Reaction>, taken: seq<Observation>, queue: seq<Observation>,
    left: seq<Reaction>, raised: bool)
  {
    && Drained(first, script) == (if raised then (taken, queue)
                                  else (taken + Drained(queue, left).0, Drained(queue, left).1))
    && Raises(first, script) == (raised || Raises(queue, left))
  }

  lemma DrainStarts(first: seq<Observation>, script: seq<Reaction>)
    ensures Drains(first, script, [], first, script, false)
  {
    assert [] + Drained(first, script).0 == Drained(first, script).0;
  }

  lemma DrainStep(first: seq<Observation>, script: seq<Reaction>, taken: seq<Observation>, queue: seq<Observation>,
                  left: seq<Reaction>)
    requires queue != [] && Drains(first, script, taken, queue, left, false)
    ensures Drains(first, script, taken + [queue[0]], queue[1..] + Next(left).dispatches, Later(left),
                   Next(left).raises)
    ensures |Later(left)| < |left| || (left == [] && Later(left) == [] && Next(left) == SILENT)
  {
    var after := queue[1..] + Next(left).dispatches;
    assert taken + ([queue[0]] + Drained(after, Later(left)).0) == taken + [queue[0]] + Drained(after, Later(left)).0;
  }

  lemma DrainEnds(
    first: seq<Observation>, script: seq<Reaction>, taken: seq<Observation>, queue: seq<Observation>,
    left: seq<Reaction>, raised: bool)
    requires Drains(first, script, taken, queue, left, raised) && (raised || queue == [])
    ensures Drained(first, script) == (taken, queue) && Raises(first, script) == raised
  {
    assert taken + [] == taken;
  }

  class DeviceStateStore {
    var state: DeviceState
    var revision: nat
    const fieldRevisions: RevisionTable
    var queue: seq<Observation>
    var reducing: bool
    /** Every observation ever enqueued, and every one reduced, in order. */
    ghost var enqueued: seq<Observation>
    ghost var reduced: seq<Observation>

    /**
      The store is a fold: what it holds is the left fold of the reducer over what it has reduced,
      with one revision per observation, and what it has reduced is the front of what was enqueued.
     */
    ghost predicate Valid()
      reads this, fieldRevisions
    {
      && revision == |reduced|
      && enqueued == reduced + queue
      && Reduction(state, fieldRevisions.at) == Fold(Reduction(EMPTY_STATE, map[]), 0, reduced)
    }

    constructor ()
      ensures Valid() && fresh(fieldRevisions)
      ensures !reducing && enqueued == [] && reduced == [] && queue == []
    {
      state, revision, queue, reducing := EMPTY_STATE, 0, [], false;
      enqueued, reduced := [], [];
      fieldRevisions := new RevisionTable();
    }

    /** Takes the oldest observation and reduces it under the next revision. */
    method ReduceNext()
      requires Valid() && queue != []
      modifies this`state, this`revision, this`queue, this`reduced, fieldRevisions
      ensures Valid()
      ensures queue == old(queue)[1..] && reduced == old(reduced) + [old(queue)[0]]
    {
      hide Reduce;
      var next := queue[0];
      queue := queue[1..];
      revision := revision + 1;
      state := ReduceObservation(state, next, fieldRevisions, revision);
      ghost var before := reduced;
      reduced := reduced + [next];
      assert reduced[..|reduced| - 1] == before;
    }

    /** The callback, which runs while the store is reducing: each nested dispatch only enqueues. */
    method Publish(reaction: Reaction) returns (raised: bool)
      requires Valid() && reducing
      modifies this, fieldRevisions
      ensures Valid() && Held()
      ensures raised == reaction.raises
      ensures queue == old(queue) + reaction.dispatches
      ensures enqueued == old(enqueued) + reaction.dispatches
      decreases 1
    {
      hide Fold;
      for i := 0 to |reaction.dispatches|
        invariant Valid() && Held()
        invariant queue == old(queue) + reaction.dispatches[..i]
        invariant enqueued == old(enqueued) + reaction.dispatches[..i]
      {
        var _, _ := Dispatch(reaction.dispatches[i], []);
      }
      raised := reaction.raises;
    }

    /** Nothing but the queue has changed. */
    twostate predicate Held()
      reads this, fieldRevisions
    {
      && state == old(state) && revision == old(revision) && reducing == old(reducing) && reduced == old(reduced)
      && fieldRevisions.at == old(fieldRevisions.at)
    }

    method Enqueue(o: Observation)
      requires Valid()
      modifies this`queue, this`enqueued
      ensures Valid()
      ensures queue == old(queue) + [o] && enqueued == old(enqueued) + [o]
    {
      hide Fold;
      queue := queue + [o];
      enqueued := enqueued + [o];
    }

    /**
      Enqueues the observation; unless the store is already reducing, drains the queue, publishing
      after every reduction. When the callback raises, the drain stops with the rest still queued.
     */
    method Dispatch(o: Observation, script: seq<Reaction>) returns (result: DeviceState, raised: bool)
      requires Valid()
      modifies this, fieldRevisions
      ensures Valid() && reducing == old(reducing)
      ensures result == state
      ensures old(reducing) ==> !raised && Held() && queue == old(queue) + [o] && enqueued == old(enqueued) + [o]
      ensures !old(reducing) ==>
                && reduced == old(reduced) + Drained(old(queue) + [o], script).0
                && queue == Drained(old(queue) + [o], script).1
                && raised == Raises(old(queue) + [o], script)
                && (!raised ==> queue == [])
      decreases if reducing then 0 else 2
    {
      hide Fold, Drained, Raises, Next, Later;
      Enqueue(o);
      if reducing {
        return state, false;
      }
      reducing := true;
      raised := false;
      ghost var first := queue;
      ghost var taken: seq<Observation> := [];
      var left := script;
      DrainStarts(first, script);
      while queue != [] && !raised
        invariant Valid() && reducing
        invariant reduced == old(reduced) + taken
        invariant Drains(first, script, taken, queue, left, raised)
        decreases !raised, |left|, |queue|
      {
        DrainStep(first, script, taken, queue, left);
        taken := taken + [queue[0]];
        ReduceNext();
        raised := Publish(Next(left));
        left := Later(left);
      }
      DrainEnds(first, script, taken, queue, left, raised);
      reducing := false;
      result := state;
    }
  }

  /** Without a raising callback every observation is reduced, and the first ones keep their order. */
  lemma {:induction false} DrainReducesAll(queue: seq<Observation>, script: seq<Reaction>)
    requires forall i :: 0 <= i < |script| ==> !script[i].raises
    ensures Drained(queue, script).1 == []
    ensures queue <= Drained(queue, script).0
    ensures queue != [] ==> |Drained(queue, script).0| >= |queue|
    decreases |script|, |queue|
  {
    if queue != [] {
      DrainReducesAll(queue[1..] + Next(script).dispatches, Later(script));
    }
  }
}
