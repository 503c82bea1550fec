/** The parallel walk never blocks before it has returned, and cannot go on forever. */
module ParallelProgress {
  import opened Dag
  import opened VisitLog
  import opened ParallelWalk
  import opened ParallelInvariant

  /** A real step: not the ticker. */
  predicate Proper(a: Action) {
    !a.Tick?
  }

  // ---- no deadlock

  /** What a worker can do on its own, or with a looping coordinator. */
  function WorkerAction(p: Walk, s: State, w: nat): Action
    requires w < |s.workers|
  {
    match s.workers[w]
    case Visiting(_) => Visit(w)
    case Fetching(x) => Get(w, GetLinks(p.store, x.cid))
    case Sending(_, _) => if s.coord.Looping? then Emit(w) else Abandon(w)
    case Failing(_, _) => if s.coord.Looping? then Raise(w) else Abandon(w)
    case Finishing => if s.coord.Looping? then Finish(w) else Forget(w)
    case Idle => if s.coord.Looping? then Feed(w) else Leave(w)
    case Exited => Tick
  }

  /** Until it has returned the walk has a step to take that needs nothing from outside. */
  lemma NoDeadlock(p: Walk, s: State) returns (a: Action)
    requires Control(p, s) && p.concurrency > 0 && !s.coord.Returned?
    ensures Enabled(p, s, a) && Proper(a) && !a.CancelParent?
  {
    if s.coord.Closing? { return CloseFeed; }
    if s.coord.Cancelling? { return StopFetchers; }
    if w: nat :| w < |s.workers| && Busy(s.workers[w]) == 1 {
      return WorkerAction(p, s, w);
    }
    if s.coord.Joining? {
      if w: nat :| w < |s.workers| && s.workers[w].Idle? { return Leave(w); }
      return Join;
    }
    if s.cancelled { return Observe; }
    SumZero(s.workers, Busy);
    return Feed(0);
  }

  // ---- a measure

  function AtRoot(ph: Phase): nat {
    if ph.Visiting? && ph.item.depth == 0 then 1 else 0
  }

  function ToExpand(ph: Phase): nat {
    if ph.Fetching? then 2 else if ph.Sending? then 1 else 0
  }

  function Rank(ph: Phase): nat {
    if ph.Exited? then 0 else if ph.Idle? then 1 else if ph.Visiting? then 3 else 2
  }

  function CoordRank(c: Coordinator): nat {
    match c
    case Looping => 4
    case Closing(_) => 3
    case Cancelling(_) => 2
    case Joining(_) => 1
    case Returned(_) => 0
  }

  /** Visits that can still answer true: unvisited CIDs, or depth improvements left. */
  ghost function Potential(p: Walk, s: State): nat {
    |Missing(p, s.seen)| + Sum(s.workers, AtRoot) + if s.next.Some? && s.next.value.depth == 0 then 1 else 0
  }

  ghost function Expansions(s: State): nat { Sum(s.workers, ToExpand) }

  ghost function Waiting(s: State): nat { |Line(s.next, s.queue)| }

  ghost function Phases(s: State): nat {
    Sum(s.workers, Rank) + CoordRank(s.coord) + if s.cancelled then 0 else 1
  }

  ghost predicate Less(p: Walk, s': State, s: State) {
    || Potential(p, s') < Potential(p, s)
    || (Potential(p, s') == Potential(p, s) && Expansions(s') < Expansions(s))
    || (Potential(p, s') == Potential(p, s) && Expansions(s') == Expansions(s) && Waiting(s') < Waiting(s))
    || (Potential(p, s') == Potential(p, s) && Expansions(s') == Expansions(s) && Waiting(s') == Waiting(s) &&
        Phases(s') < Phases(s))
  }

  /** Only the root is queued at depth 0, and only at the start. */
  predicate Deep(s: State) {
    forall x | x in s.queue :: x.depth > 0
  }

  lemma DeepKept(p: Walk, s: State, a: Action)
    requires Control(p, s) && Deep(s) && Enabled(p, s, a)
    ensures Deep(Apply(p, s, a))
  {
    if a.Emit? {
      var x, l, s' := s.workers[a.w].item, s.workers[a.w].links, Apply(p, s, a);
      EnqueueAll(s.next, s.queue, l, x.depth + 1);
      forall y | y in s'.queue ensures y.depth > 0 {
        var i :| 0 <= i < |s'.queue| && s'.queue[i] == y;
        assert y == Line(s'.next, s'.queue)[i + 1];
      }
    }
  }

  lemma FeedLess(p: Walk, s: State, w: nat)
    requires Control(p, s) && Deep(s) && Enabled(p, s, Feed(w))
    ensures Less(p, ApplyFeed(s, w), s)
  {
    SumUpdate(s.workers, w, Visiting(s.next.value), AtRoot);
    SumUpdate(s.workers, w, Visiting(s.next.value), ToExpand);
    if |s.queue| > 0 { assert s.queue[0] in s.queue; }
  }

  lemma SkipLess(p: Walk, s: State, s': State, w: nat, x: Item)
    requires w < |s.workers| && s.workers[w] == Visiting(x) && x.depth == 0
    requires s' == SetWorker(s, w, Fetching(x)).(log := s'.log)
    ensures Less(p, s', s)
  {
    SumUpdate(s.workers, w, Fetching(x), AtRoot);
  }

  lemma CoveredLess(p: Walk, s: State, w: nat)
    requires w < |s.workers| && s.workers[w].Visiting?
    ensures Less(p, SetWorker(s, w, Finishing), s)
  {
    SumUpdate(s.workers, w, Finishing, AtRoot);
    SumUpdate(s.workers, w, Finishing, ToExpand);
    SumUpdate(s.workers, w, Finishing, Rank);
  }

  lemma FreshLess(p: Walk, s: State, s': State, w: nat, x: Item)
    requires w < |s.workers| && s.workers[w] == Visiting(x)
    requires x.cid in Universe(p) && !Covered(p.limit, s.seen, x)
    requires s' == SetWorker(s, w, Fetching(x)).(seen := s.seen[x.cid := x.depth], log := s'.log, total := s'.total)
    ensures Less(p, s', s)
  {
    SumUpdate(s.workers, w, Fetching(x), AtRoot);
    VisitUsesUp(p, s.seen, x);
  }

  lemma VisitLess(p: Walk, s: State, w: nat)
    requires Sound(p, s) && Enabled(p, s, Visit(w))
    ensures Less(p, ApplyVisit(p, s, w), s)
  {
    var x := s.workers[w].item;
    assert Justified(p, s.log, s.workers[w]);
    InUniverse(p, s.log, x);
    if Skipped(p, x) {
      SkipLess(p, s, ApplyVisit(p, s, w), w, x);
    } else if Covered(p.limit, s.seen, x) {
      CoveredLess(p, s, w);
    } else {
      FreshLess(p, s, ApplyVisit(p, s, w), w, x);
    }
  }

  lemma EmitLess(p: Walk, s: State, w: nat)
    requires Control(p, s) && Enabled(p, s, Emit(w))
    ensures Less(p, ApplyEmit(s, w), s)
  {
    var x, l, s' := s.workers[w].item, s.workers[w].links, ApplyEmit(s, w);
    SumUpdate(s.workers, w, Finishing, AtRoot);
    SumUpdate(s.workers, w, Finishing, ToExpand);
    EnqueueAll(s.next, s.queue, l, x.depth + 1);
    if s.next.Some? {
      assert Line(s'.next, s'.queue)[0] == s.next.value;
    } else if s'.next.Some? {
      assert Line(s'.next, s'.queue)[0] == Items(l, x.depth + 1)[0];
    }
  }

  /** A worker other than a visiting one goes one phase on. */
  lemma PhaseLess(p: Walk, s: State, s': State, w: nat, ph: Phase)
    requires w < |s.workers| && s'.workers == s.workers[w := ph]
    requires s'.seen == s.seen && s'.next == s.next && s'.queue == s.queue && s'.cancelled == s.cancelled
    requires !s.workers[w].Visiting? && !ph.Visiting? && CoordRank(s'.coord) <= CoordRank(s.coord)
    requires || ToExpand(ph) < ToExpand(s.workers[w])
             || (ToExpand(ph) == ToExpand(s.workers[w]) && Rank(ph) < Rank(s.workers[w]))
    ensures Less(p, s', s)
  {
    SumUpdate(s.workers, w, ph, AtRoot);
    SumUpdate(s.workers, w, ph, ToExpand);
    SumUpdate(s.workers, w, ph, Rank);
  }

  /** Every step but the ticker makes the measure smaller. */
  lemma StepLess(p: Walk, s: State, a: Action)
    requires Control(p, s) && Sound(p, s) && Deep(s) && Enabled(p, s, a) && Proper(a)
    ensures Less(p, Apply(p, s, a), s)
  {
    match a
    case Feed(w) => FeedLess(p, s, w);
    case Visit(w) => VisitLess(p, s, w);
    case Emit(w) => EmitLess(p, s, w);
    case Get(w, f) => GetLess(p, s, w, f);
    case CancelParent => CoordinatorLess(p, s, a);
    case Observe => CoordinatorLess(p, s, a);
    case CloseFeed => CoordinatorLess(p, s, a);
    case StopFetchers => CoordinatorLess(p, s, a);
    case Join => CoordinatorLess(p, s, a);
    case _ => DropLess(p, s, a);
  }

  lemma GetLess(p: Walk, s: State, w: nat, f: Fetch)
    requires Enabled(p, s, Get(w, f))
    ensures Less(p, ApplyGet(p, s, w, f), s)
  {
    PhaseLess(p, s, ApplyGet(p, s, w, f), w, Told(p, s.workers[w].item, f));
  }

  lemma DropLess(p: Walk, s: State, a: Action)
    requires Enabled(p, s, a) && (a.Finish? || a.Raise? || a.Abandon? || a.Forget? || a.Leave?)
    ensures Less(p, Apply(p, s, a), s)
  {
    PhaseLess(p, s, Apply(p, s, a), a.w, if a.Finish? || a.Forget? then Idle else Exited);
  }

  lemma CoordinatorLess(p: Walk, s: State, a: Action)
    requires Enabled(p, s, a)
    requires a.CancelParent? || a.Observe? || a.CloseFeed? || a.StopFetchers? || a.Join?
    ensures Less(p, Apply(p, s, a), s)
  {
  }

  lemma {:induction false} DeepAlways(p: Walk, s: State, acts: seq<Action>)
    requires Control(p, s) && Deep(s) && Runs(p, s, acts)
    ensures Deep(Exec(p, s, acts))
    decreases |acts|
  {
    if acts != [] {
      ControlKept(p, s, acts[0]);
      DeepKept(p, s, acts[0]);
      DeepAlways(p, Apply(p, s, acts[0]), acts[1..]);
    }
  }

  /** In every reachable state, whatever the handler: the counting is right, every step but the
      ticker makes the measure smaller, and unless the walk has returned it has such a step to take
      that needs nothing from outside. */
  lemma ProgressTheorem(p: Walk, acts: seq<Action>)
    requires p.concurrency > 0 && Runs(p, Init(p), acts)
    ensures var s := Exec(p, Init(p), acts);
            && s.inProgress == Sum(s.workers, Busy) + s.lost
            && (forall a | Enabled(p, s, a) && Proper(a) :: Less(p, Apply(p, s, a), s))
            && (s.coord.Returned? || exists a :: Enabled(p, s, a) && Proper(a) && !a.CancelParent?)
  {
    var s := Exec(p, Init(p), acts);
    InitInv(p);
    InvAlways(p, Init(p), acts);
    DeepAlways(p, Init(p), acts);
    forall a | Enabled(p, s, a) && Proper(a) ensures Less(p, Apply(p, s, a), s) { StepLess(p, s, a); }
    if !s.coord.Returned? { var a := NoDeadlock(p, s); }
  }

  // ---- shutdown

  /** How many steps of its own a worker is from its exit once the coordinator has left its loop. */
  function StepsLeft(ph: Phase): nat {
    match ph
    case Visiting(_) => 3
    case Fetching(_) => 2
    case Finishing => 2
    case Exited => 0
    case _ => 1
  }

  ghost function ShutdownSteps(s: State): nat {
    Sum(s.workers, StepsLeft) + CoordRank(s.coord) + if s.cancelled then 0 else 1
  }

  /** Outside the loop every step brings one worker nearer to its exit, or the coordinator
      nearer to its return; nothing is fed and the result stays. */
  lemma ShutdownStep(p: Walk, s: State, a: Action)
    requires !s.coord.Looping? && Enabled(p, s, a)
    ensures Nearer(Apply(p, s, a), s)
  {
    match a
    case Visit(w) => VisitShutdown(p, s, w);
    case Get(w, f) => GetShutdown(p, s, w, f);
    case Abandon(_) => DropShutdown(p, s, a);
    case Forget(_) => DropShutdown(p, s, a);
    case Leave(_) => DropShutdown(p, s, a);
    case _ =>
  }

  /** The step took the shutdown nearer to its end. */
  ghost predicate Nearer(s': State, s: State)
    requires !s.coord.Looping?
  {
    && !s'.coord.Looping? && s'.coord.result == s.coord.result && s'.fed == s.fed
    && ShutdownSteps(s') < ShutdownSteps(s)
  }

  lemma WorkerShutdown(s: State, s': State, w: nat, ph: Phase)
    requires w < |s.workers| && s'.workers == s.workers[w := ph] && StepsLeft(ph) < StepsLeft(s.workers[w])
    requires !s.coord.Looping? && s'.coord == s.coord && s'.cancelled == s.cancelled && s'.fed == s.fed
    ensures Nearer(s', s)
  {
    SumUpdate(s.workers, w, ph, StepsLeft);
  }

  lemma VisitShutdown(p: Walk, s: State, w: nat)
    requires !s.coord.Looping? && Enabled(p, s, Visit(w))
    ensures Nearer(ApplyVisit(p, s, w), s)
  {
    WorkerShutdown(s, ApplyVisit(p, s, w), w, ApplyVisit(p, s, w).workers[w]);
  }

  lemma GetShutdown(p: Walk, s: State, w: nat, f: Fetch)
    requires !s.coord.Looping? && Enabled(p, s, Get(w, f))
    ensures Nearer(ApplyGet(p, s, w, f), s)
  {
    WorkerShutdown(s, ApplyGet(p, s, w, f), w, Told(p, s.workers[w].item, f));
  }

  lemma DropShutdown(p: Walk, s: State, a: Action)
    requires !s.coord.Looping? && Enabled(p, s, a) && (a.Abandon? || a.Forget? || a.Leave?)
    ensures Nearer(Apply(p, s, a), s)
  {
    WorkerShutdown(s, Apply(p, s, a), a.w, if a.Forget? then Idle else Exited);
  }

  lemma {:induction false} StepsLeftBound(ws: seq<Phase>)
    ensures Sum(ws, StepsLeft) <= 3 * |ws|
    decreases |ws|
  {
    if ws != [] { StepsLeftBound(ws[1..]); }
  }

  lemma {:induction false} ShutdownRun(p: Walk, s: State, acts: seq<Action>)
    requires !s.coord.Looping? && Runs(p, s, acts)
    ensures var s' := Exec(p, s, acts);
            && !s'.coord.Looping? && s'.coord.result == s.coord.result && s'.fed == s.fed
            && |acts| + ShutdownSteps(s') <= ShutdownSteps(s)
    decreases |acts|
  {
    if acts != [] {
      ShutdownStep(p, s, acts[0]);
      ShutdownRun(p, Apply(p, s, acts[0]), acts[1..]);
    }
  }

  /** However the coordinator left its loop, every further schedule has at most three steps per
      worker and four for the rest, and one that cannot be extended has joined all workers and
      returned the result decided on leaving the loop. */
  lemma ShutdownTheorem(p: Walk, s: State, acts: seq<Action>)
    requires Control(p, s) && p.concurrency > 0 && !s.coord.Looping? && Runs(p, s, acts)
    ensures var s' := Exec(p, s, acts);
            && |acts| <= 3 * p.concurrency + 4
            && s'.fed == s.fed
            && ((forall a :: !Enabled(p, s', a) || a.CancelParent?) ==>
                  s'.coord == Returned(s.coord.result) && forall w | 0 <= w < |s'.workers| :: s'.workers[w].Exited?)
  {
    ShutdownRun(p, s, acts);
    StepsLeftBound(s.workers);
    ControlAlways(p, s, acts);
    var s' := Exec(p, s, acts);
    if !s'.coord.Returned? {
      var a := NoDeadlock(p, s');
    }
  }
}
