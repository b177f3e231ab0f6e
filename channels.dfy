/**
 * The event channels nodes own in tree-nodes.ts, as objects whose state grows
 * as events are posted; the summaries subscribers observe are the folds of
 * module Processing over that state.
 */
module Channels {
  import opened Processing
  import opened Wrappers

  /**
   * `signals$` of a node: a ReplaySubject, so it keeps every event ever posted
   * and replays them all to each subscriber. On an observation mesh its
   * `processes$` is the Resolve-filtered fold of these events.
   */
  class SignalChannel {
    var events: seq<Event>

    constructor ()
      ensures events == []
    {
      events := [];
    }

    /**
     * The accumulator of the mesh's `scan`: the sum over the Resolve events
     * posted so far, and their ids. It is `{count: 0, ids: []}`, the seed,
     * before the first Resolve event, when `processes$` has emitted nothing.
     */
    function Processes(): (r: ResolvedSummary)
      reads this
      ensures r.count == TotalCount(ResolveEvents(events))
      ensures r.ids == IdsOf(ResolveEvents(events))
    {
      ObservationProcesses(events)
    }

    /**
     * The value every subscriber of the mesh's `processes$` last received,
     * whenever it attached: nothing before the first Resolve event, since
     * `scan` never emits its seed, and the last snapshot afterwards.
     */
    function LastEmitted(): (r: Option<ResolvedSummary>)
      reads this
      ensures r.None? <==> ResolveEvents(events) == []
      ensures r.Some? ==> r.value == Processes()
      ensures r.Some? ==> r.value == Scan(MeshStep, MeshSeed, ResolveEvents(events))[|ResolveEvents(events)| - 1]
    {
      var rs := ResolveEvents(events);
      if rs == [] then None
      else
        assert rs[..|rs|] == rs;
        Some(Processes())
    }

    /** `signals$.next(e)`: the event is kept, and only a Resolve event changes the summary. */
    method Post(e: Event)
      modifies this
      ensures events == old(events) + [e]
      ensures Processes() == if e.kind == Typed(Resolve) then MeshStep(old(Processes()), e) else old(Processes())
      ensures LastEmitted() == if e.kind == Typed(Resolve) then Some(Processes()) else old(LastEmitted())
    {
      ObservationPost(events, e);
      ResolveEventsAppend(events, [e]);
      ResolveEventsSingle(e);
      events := events + [e];
    }
  }

  /**
   * `process$` of the root: a BehaviorSubject that holds one current value,
   * initially `{type:'none', count:0}`. `history` records every value it has
   * held, oldest first; the subject itself keeps only the last.
   */
  class ProcessSubject {
    var value: Event
    ghost var history: seq<Event>

    ghost predicate Valid()
      reads this
    {
      |history| > 0 && history[0] == InitialProcess && value == history[|history| - 1]
    }

    constructor ()
      ensures Valid() && history == [InitialProcess] && value == InitialProcess
    {
      value := InitialProcess;
      history := [InitialProcess];
    }

    /** What a subscriber of `processes$` attached since construction holds: the sum of every count. */
    ghost function Processes(): (r: ProcessCount)
      reads this
      requires Valid()
      ensures r.count == TotalCount(history)
    {
      assert history[0..] == history;
      RootSeenFrom(history, 0)
    }

    /** `process$.next(e)`: `e` becomes the current value and every subscriber adds its count. */
    method Next(e: Event)
      requires Valid()
      modifies this
      ensures Valid() && value == e && history == old(history) + [e]
      ensures Processes() == RootStep(old(Processes()), e)
    {
      ghost var before := history;
      assert old(Processes()) == RootSeenFrom(before, 0);
      value := e;
      history := history + [e];
      RootSeenFromPost(before, 0, e);
      assert RootSeenFrom(history, 0) == RootStep(RootSeenFrom(before, 0), e);
    }

    /** The current value, which a new subscriber receives first. */
    method Current() returns (e: Event)
      requires Valid()
      ensures e == history[|history| - 1]
    {
      e := value;
    }
  }

  /** Posting to one mesh's channel leaves every other channel's summary as it was. */
  method PostToOne(target: SignalChannel, other: SignalChannel, e: Event)
    requires target != other
    modifies target
    ensures other.Processes() == old(other.Processes())
    ensures target.events == old(target.events) + [e]
  {
    target.Post(e);
  }
}
