/**
 * Processing events and their aggregation (tree-nodes.ts).
 *
 * Both aggregating streams of the source are `scan` pipelines: a left fold over
 * the events a channel receives. The root folds every event of `process$`; an
 * observation mesh first filters `signals$` down to Resolve events and then
 * folds their counts and ids.
 */
module Processing {
  import opened Wrappers

  /** `enum ProcessingType { Solve, Resolve }`: a numeric enum, so Solve is 0 and Resolve is 1. */
  datatype ProcessingType = Solve | Resolve

  /** The number the enum member stands for at run time. */
  function Ordinal(p: ProcessingType): (n: nat)
    ensures n == 0 <==> p == Solve
    ensures n == 1 <==> p == Resolve
  {
    match p
    case Solve => 0
    case Resolve => 1
  }

  /** The `type` field of an event: an enum member, some other label, or absent. */
  datatype EventType = Typed(processing: ProcessingType) | Label(text: string) | Untyped

  /** An event `{type, count, id?}` posted to a channel. */
  datatype Event = Event(kind: EventType, count: int, id: Option<string>)

  /** The value `process$` holds before anything is posted: `{type:'none', count:0}`. */
  const InitialProcess: Event := Event(Label("none"), 0, None)

  /** JavaScript truthiness of an event's `type` (the enum value 0 is falsy). */
  predicate Truthy(t: EventType) {
    match t
    case Typed(p) => Ordinal(p) != 0
    case Label(s) => s != ""
    case Untyped => false
  }

  /** `type == ProcessingType.Resolve`, comparing the enum's numbers. */
  predicate EqualsResolve(t: EventType) {
    match t
    case Typed(p) => Ordinal(p) == Ordinal(Resolve)
    case _ => false
  }

  /** The observation mesh's filter `s => s.type && s.type == ProcessingType.Resolve`. */
  function PassesResolveFilter(e: Event): (b: bool)
    ensures b <==> e.kind == Typed(Resolve)
  {
    Truthy(e.kind) && EqualsResolve(e.kind)
  }

  // ----- scan -------------------------------------------------------------

  /**
   * The accumulator `scan(step, seed)` holds after it has consumed `es`, oldest
   * first: the seed before any event, one step per event after that.
   */
  function FoldLeft<A, E>(step: (A, E) -> A, seed: A, es: seq<E>): (r: A)
    ensures es == [] ==> r == seed
    ensures |es| == 1 ==> r == step(seed, es[0])
    decreases |es|
  {
    if es == [] then seed else FoldLeft(step, step(seed, es[0]), es[1..])
  }

  /** The first event takes one step from the seed. */
  lemma FoldLeftCons<A, E>(step: (A, E) -> A, seed: A, es: seq<E>)
    requires es != []
    ensures FoldLeft(step, seed, es) == FoldLeft(step, step(seed, es[0]), es[1..])
  {
  }

  /** Folding a concatenation is folding the second part from the result of the first. */
  lemma {:induction false} FoldLeftAppend<A, E>(step: (A, E) -> A, seed: A, s1: seq<E>, s2: seq<E>)
    ensures FoldLeft(step, seed, s1 + s2) == FoldLeft(step, FoldLeft(step, seed, s1), s2)
    decreases |s1|
  {
    if s1 == [] {
      assert s1 + s2 == s2;
    } else {
      assert (s1 + s2)[1..] == s1[1..] + s2;
      FoldLeftAppend(step, step(seed, s1[0]), s1[1..], s2);
    }
  }

  /** Posting one more event applies the step once to the previous accumulator. */
  lemma FoldLeftSnoc<A, E>(step: (A, E) -> A, seed: A, es: seq<E>, e: E)
    ensures FoldLeft(step, seed, es + [e]) == step(FoldLeft(step, seed, es), e)
  {
    FoldLeftAppend(step, seed, es, [e]);
  }

  lemma PrefixFolds<A, E>(step: (A, E) -> A, seed: A, es: seq<E>)
    requires es != []
    ensures forall k :: 0 <= k < |es| ==>
      FoldLeft(step, seed, es[..k + 1]) == FoldLeft(step, step(seed, es[0]), es[1..][..k])
  {
    forall k | 0 <= k < |es|
      ensures FoldLeft(step, seed, es[..k + 1]) == FoldLeft(step, step(seed, es[0]), es[1..][..k])
    {
      assert es[..k + 1][0] == es[0];
      assert es[..k + 1][1..] == es[1..][..k];
    }
  }

  /**
   * The snapshots `scan(step, seed)` emits for `es`: one per event, each the fold
   * of the events up to and including it.
   */
  function Scan<A, E>(step: (A, E) -> A, seed: A, es: seq<E>): (r: seq<A>)
    ensures |r| == |es|
    ensures forall k :: 0 <= k < |es| ==> r[k] == FoldLeft(step, seed, es[..k + 1])
    decreases |es|
  {
    if es == [] then []
    else
      PrefixFolds(step, seed, es);
      [step(seed, es[0])] + Scan(step, step(seed, es[0]), es[1..])
  }

  // ----- reference definitions ---------------------------------------------

  /** The sum of the events' counts. */
  function TotalCount(es: seq<Event>): int {
    if es == [] then 0 else es[0].count + TotalCount(es[1..])
  }

  lemma {:induction false} TotalCountAppend(a: seq<Event>, b: seq<Event>)
    ensures TotalCount(a + b) == TotalCount(a) + TotalCount(b)
  {
    if a == [] {
      assert a + b == b;
    } else {
      assert (a + b)[1..] == a[1..] + b;
      TotalCountAppend(a[1..], b);
    }
  }

  /** Events whose counts are all non-negative: progress counts, assumed non-negative. */
  predicate NonNegativeCounts(es: seq<Event>) {
    forall i :: 0 <= i < |es| ==> es[i].count >= 0
  }

  lemma {:induction false} TotalCountNonNegative(es: seq<Event>)
    requires NonNegativeCounts(es)
    ensures TotalCount(es) >= 0
  {
    if es != [] {
      assert NonNegativeCounts(es[1..]) by {
        forall i | 0 <= i < |es[1..]| ensures es[1..][i].count >= 0 {
          assert es[1..][i] == es[i + 1];
        }
      }
      TotalCountNonNegative(es[1..]);
    }
  }

  /** The events that pass the Resolve filter, in arrival order. */
  function ResolveEvents(es: seq<Event>): (r: seq<Event>)
    ensures |r| <= |es|
    ensures forall i :: 0 <= i < |r| ==> r[i].kind == Typed(Resolve)
    ensures forall e :: e in es && e.kind == Typed(Resolve) ==> e in r
    ensures forall e :: e in r ==> e in es
    ensures forall e :: multiset(r)[e] == if e.kind == Typed(Resolve) then multiset(es)[e] else 0
  {
    if es == [] then []
    else
      assert es == [es[0]] + es[1..];
      if PassesResolveFilter(es[0]) then [es[0]] + ResolveEvents(es[1..])
      else ResolveEvents(es[1..])
  }

  /** A single event is kept exactly when it is a Resolve event. */
  lemma ResolveEventsSingle(e: Event)
    ensures ResolveEvents([e]) == if e.kind == Typed(Resolve) then [e] else []
  {
    assert [e][1..] == [];
  }

  lemma {:induction false} ResolveEventsAppend(a: seq<Event>, b: seq<Event>)
    ensures ResolveEvents(a + b) == ResolveEvents(a) + ResolveEvents(b)
  {
    if a == [] {
      assert a + b == b;
    } else {
      assert (a + b)[0] == a[0];
      assert (a + b)[1..] == a[1..] + b;
      ResolveEventsAppend(a[1..], b);
    }
  }

  /** The `id` field of every event, duplicates and absent ids included, in order. */
  function IdsOf(es: seq<Event>): (r: seq<Option<string>>)
    ensures |r| == |es|
    ensures forall i :: 0 <= i < |es| ==> r[i] == es[i].id
  {
    if es == [] then [] else [es[0].id] + IdsOf(es[1..])
  }

  // ----- root aggregation -----------------------------------------------

  /** The root's summary `{count}`. */
  datatype ProcessCount = ProcessCount(count: int)

  /** `scan((acc, e) => ({count: acc.count + e.count}), {count: 0})`, with no filter. */
  function RootStep(acc: ProcessCount, e: Event): (r: ProcessCount)
    ensures r.count - acc.count == e.count
  {
    ProcessCount(acc.count + e.count)
  }

  const RootSeed: ProcessCount := ProcessCount(0)

  lemma {:induction false} RootFoldIsSum(seed: ProcessCount, es: seq<Event>)
    ensures FoldLeft(RootStep, seed, es).count == seed.count + TotalCount(es)
    decreases |es|
  {
    if es != [] {
      RootFoldIsSum(RootStep(seed, es[0]), es[1..]);
    }
  }

  /**
   * What a subscriber to the root's `processes$` holds, given every value
   * `process$` has held (`history`, oldest first) and the index `k` of the value
   * it held when the subscriber attached: the BehaviorSubject hands over its
   * current value and later ones only.
   */
  function RootSeenFrom(history: seq<Event>, k: nat): (r: ProcessCount)
    requires k < |history|
    ensures r.count == TotalCount(history[k..])
  {
    RootFoldIsSum(RootSeed, history[k..]);
    FoldLeft(RootStep, RootSeed, history[k..])
  }

  /** The root summary seen since construction, after `posted` were sent to `process$`. */
  function RootProcesses(posted: seq<Event>): (r: ProcessCount)
    ensures r.count == TotalCount(posted)
  {
    var history := [InitialProcess] + posted;
    assert history[0..] == history;
    TotalCountAppend([InitialProcess], posted);
    RootSeenFrom(history, 0)
  }

  /** Every event advances every root subscriber by its count. */
  lemma RootSeenFromPost(history: seq<Event>, k: nat, e: Event)
    requires k < |history|
    ensures RootSeenFrom(history + [e], k) == RootStep(RootSeenFrom(history, k), e)
  {
    assert (history + [e])[k..] == history[k..] + [e];
    FoldLeftSnoc(RootStep, RootSeed, history[k..], e);
  }

  /** The same for every subscriber at once. */
  lemma RootSubscribersPost(history: seq<Event>, e: Event)
    ensures forall k :: 0 <= k < |history| ==>
      RootSeenFrom(history + [e], k) == RootStep(RootSeenFrom(history, k), e)
  {
    forall k | 0 <= k < |history|
      ensures RootSeenFrom(history + [e], k) == RootStep(RootSeenFrom(history, k), e)
    {
      RootSeenFromPost(history, k, e);
    }
  }

  /** The root's count depends on the events' counts only, never on their type or id. */
  lemma {:induction false} RootIgnoresType(a: seq<Event>, b: seq<Event>)
    requires |a| == |b|
    requires forall i :: 0 <= i < |a| ==> a[i].count == b[i].count
    ensures RootProcesses(a) == RootProcesses(b)
  {
    if a != [] {
      RootIgnoresType(a[1..], b[1..]);
    }
  }

  /** With non-negative counts the root's count never decreases as events arrive. */
  lemma RootProcessesGrow(posted: seq<Event>, more: seq<Event>)
    requires NonNegativeCounts(more)
    ensures RootProcesses(posted + more).count >= RootProcesses(posted).count
  {
    TotalCountAppend(posted, more);
    TotalCountNonNegative(more);
  }

  /** The k-th snapshot a root subscriber receives counts the first k+1 values it was handed. */
  lemma RootSnapshots(es: seq<Event>)
    ensures forall k :: 0 <= k < |es| ==> Scan(RootStep, RootSeed, es)[k].count == TotalCount(es[..k + 1])
  {
    forall k | 0 <= k < |es| ensures Scan(RootStep, RootSeed, es)[k].count == TotalCount(es[..k + 1]) {
      RootFoldIsSum(RootSeed, es[..k + 1]);
    }
  }

  // ----- observation mesh aggregation -----------------------------------

  /** The observation mesh's summary `{count, ids}`. */
  datatype ResolvedSummary = ResolvedSummary(count: int, ids: seq<Option<string>>)

  /** `(acc, e) => ({count: acc.count + e.count, ids: acc.ids.concat([e.id])})`. */
  function MeshStep(acc: ResolvedSummary, e: Event): (r: ResolvedSummary)
    ensures r.count - acc.count == e.count
    ensures acc.ids <= r.ids && |r.ids| == |acc.ids| + 1 && r.ids[|acc.ids|] == e.id
  {
    ResolvedSummary(acc.count + e.count, acc.ids + [e.id])
  }

  const MeshSeed: ResolvedSummary := ResolvedSummary(0, [])

  lemma {:induction false} MeshFoldCount(seed: ResolvedSummary, rs: seq<Event>)
    ensures FoldLeft(MeshStep, seed, rs).count == seed.count + TotalCount(rs)
    decreases |rs|
  {
    if rs != [] {
      FoldLeftCons(MeshStep, seed, rs);
      MeshFoldCount(MeshStep(seed, rs[0]), rs[1..]);
    }
  }

  lemma {:induction false} MeshFoldIds(seed: ResolvedSummary, rs: seq<Event>)
    ensures FoldLeft(MeshStep, seed, rs).ids == seed.ids + IdsOf(rs)
    decreases |rs|
  {
    if rs == [] {
      assert seed.ids + [] == seed.ids;
    } else {
      var next := MeshStep(seed, rs[0]);
      FoldLeftCons(MeshStep, seed, rs);
      MeshFoldIds(next, rs[1..]);
      assert IdsOf(rs) == [rs[0].id] + IdsOf(rs[1..]);
      assert next.ids == seed.ids + [rs[0].id];
    }
  }

  lemma MeshFoldIsSummary(seed: ResolvedSummary, rs: seq<Event>)
    ensures FoldLeft(MeshStep, seed, rs) == ResolvedSummary(seed.count + TotalCount(rs), seed.ids + IdsOf(rs))
  {
    MeshFoldCount(seed, rs);
    MeshFoldIds(seed, rs);
  }

  /**
   * `signals$.pipe(filter(Resolve), scan(MeshStep, {count: 0, ids: []}))` after
   * `es`: the count is the sum over the Resolve events only, and the ids are
   * theirs, in arrival order, duplicates kept.
   */
  function ObservationProcesses(es: seq<Event>): (r: ResolvedSummary)
    ensures r.count == TotalCount(ResolveEvents(es))
    ensures r.ids == IdsOf(ResolveEvents(es))
  {
    MeshFoldIsSummary(MeshSeed, ResolveEvents(es));
    FoldLeft(MeshStep, MeshSeed, ResolveEvents(es))
  }

  /** One event: a Resolve event is folded in; any other event leaves the summary as it was. */
  lemma ObservationPost(es: seq<Event>, e: Event)
    ensures ObservationProcesses(es + [e]) ==
      if e.kind == Typed(Resolve) then MeshStep(ObservationProcesses(es), e) else ObservationProcesses(es)
  {
    ResolveEventsAppend(es, [e]);
    ResolveEventsSingle(e);
    FoldLeftAppend(MeshStep, MeshSeed, ResolveEvents(es), ResolveEvents([e]));
    if PassesResolveFilter(e) {
      FoldLeftSnoc(MeshStep, MeshSeed, ResolveEvents(es), e);
    } else {
      assert ResolveEvents(es) + [] == ResolveEvents(es);
    }
  }

  /** Folding `s1 ++ s2` is folding `s2` from the summary `s1` left. */
  lemma ObservationAppend(s1: seq<Event>, s2: seq<Event>)
    ensures ObservationProcesses(s1 + s2) == FoldLeft(MeshStep, ObservationProcesses(s1), ResolveEvents(s2))
  {
    ResolveEventsAppend(s1, s2);
    FoldLeftAppend(MeshStep, MeshSeed, ResolveEvents(s1), ResolveEvents(s2));
  }

  /** As events arrive, whatever their counts, the ids only grow by appending. */
  lemma ObservationIdsGrow(posted: seq<Event>, more: seq<Event>)
    ensures ObservationProcesses(posted).ids <= ObservationProcesses(posted + more).ids
  {
    ObservationAppend(posted, more);
    MeshFoldIsSummary(ObservationProcesses(posted), ResolveEvents(more));
  }

  /** Filtering keeps only events of the input, so it keeps their counts non-negative. */
  lemma ResolveEventsNonNegative(es: seq<Event>)
    requires NonNegativeCounts(es)
    ensures NonNegativeCounts(ResolveEvents(es))
  {
    var rs := ResolveEvents(es);
    forall i | 0 <= i < |rs| ensures rs[i].count >= 0 {
      assert rs[i] in es;
    }
  }

  /** With non-negative counts the count never decreases as events arrive. */
  lemma ObservationProcessesGrow(posted: seq<Event>, more: seq<Event>)
    requires NonNegativeCounts(more)
    ensures ObservationProcesses(posted + more).count >= ObservationProcesses(posted).count
  {
    ResolveEventsAppend(posted, more);
    TotalCountAppend(ResolveEvents(posted), ResolveEvents(more));
    ResolveEventsNonNegative(more);
    TotalCountNonNegative(ResolveEvents(more));
  }

  // ----- a worked scenario: Resolve r1, Solve with count 5, Resolve r2 ------

  const ResolveR1: Event := Event(Typed(Resolve), 1, Some("r1"))
  const SolveFive: Event := Event(Typed(Solve), 5, None)
  const ResolveR2: Event := Event(Typed(Resolve), 1, Some("r2"))

  /** Resolve r1, Solve 5, Resolve r2: the mesh counts 2 with ids [r1, r2]; the root counts 1 + 5 + 1. */
  lemma ThreeEventScenario()
    ensures ObservationProcesses([ResolveR1, SolveFive, ResolveR2]) == ResolvedSummary(2, [Some("r1"), Some("r2")])
    ensures RootProcesses([ResolveR1, SolveFive, ResolveR2]).count == 7
  {
    var es := [ResolveR1, SolveFive, ResolveR2];
    var rs := [ResolveR1, ResolveR2];
    assert es[1..] == [SolveFive, ResolveR2] && es[1..][1..] == [ResolveR2] && [ResolveR2][1..] == [];
    assert rs[1..] == [ResolveR2];
    assert TotalCount([ResolveR2]) == 1;
    assert TotalCount(es) == 7;
    assert ResolveEvents([ResolveR2]) == [ResolveR2];
    assert ResolveEvents(es) == rs;
    assert TotalCount(rs) == 2;
    assert IdsOf(rs) == [Some("r1"), Some("r2")];
  }

  /**
   * A subscriber to the root's `processes$` that attaches after those events
   * sees only the current value of `process$`, not the total.
   */
  lemma LateRootSubscriberSeesCurrentValueOnly()
    ensures RootSeenFrom([InitialProcess, ResolveR1, SolveFive, ResolveR2], 3).count == 1
    ensures RootProcesses([ResolveR1, SolveFive, ResolveR2]).count == 7
  {
    var history := [InitialProcess, ResolveR1, SolveFive, ResolveR2];
    assert history[3..] == [ResolveR2] && [ResolveR2][1..] == [];
    assert TotalCount([ResolveR2]) == 1;
    ThreeEventScenario();
  }

  /**
   * The k-th snapshot a mesh subscriber receives sums the counts of the first
   * k+1 Resolve events and lists their ids.
   */
  lemma MeshSnapshots(es: seq<Event>)
    ensures forall k :: 0 <= k < |ResolveEvents(es)| ==>
      Scan(MeshStep, MeshSeed, ResolveEvents(es))[k] ==
        ResolvedSummary(TotalCount(ResolveEvents(es)[..k + 1]), IdsOf(ResolveEvents(es)[..k + 1]))
  {
    var rs := ResolveEvents(es);
    forall k | 0 <= k < |rs|
      ensures Scan(MeshStep, MeshSeed, rs)[k] == ResolvedSummary(TotalCount(rs[..k + 1]), IdsOf(rs[..k + 1]))
    {
      MeshFoldIsSummary(MeshSeed, rs[..k + 1]);
    }
  }
}
