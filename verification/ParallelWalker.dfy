/** The parallel walk in the form of the source: fields that the select arms of the coordinator
    and the workers update in place, driven by any scheduler until it returns. */
module ParallelWalker {
  import opened Dag
  import opened VisitLog
  import opened ParallelWalk
  import opened ParallelInvariant
  import opened ParallelProgress
  import opened ParallelTheorems
  import opened SequentialWalk

  class Walker {
    const p: Walk
    var next: Option<Item>
    var send: bool
    var todoQueue: seq<Item>
    var inProgress: int
    var coord: Coordinator
    var feedClosed: bool
    var stopped: bool
    var cancelled: bool
    var workers: seq<Phase>
    var seen: Depths
    var total: nat
    var log: seq<Item>
    var lost: nat
    var fed: nat

    function View(): State
      reads this
    {
      State(next, send, todoQueue, inProgress, coord, feedClosed, stopped, cancelled,
            workers, seen, total, log, lost, fed)
    }

    constructor (p: Walk)
      ensures this.p == p && View() == Init(p)
    {
      this.p := p;
      next, send, todoQueue, inProgress := Some(Item(p.root, 0)), true, [], 0;
      coord, feedClosed, stopped, cancelled := Looping, false, false, false;
      workers := seq(p.concurrency, _ => Idle);
      seen, total, log, lost, fed := map[], 0, [], 0, 0;
    }

    /** The arm of the coordinator that sends the next item. */
    method FeedArm(w: nat)
      requires Enabled(p, View(), Feed(w))
      modifies this
      ensures View() == ApplyFeed(old(View()), w)
    {
      workers := workers[w := Visiting(next.value)];
      fed := fed + 1;
      inProgress := inProgress + 1;
      if |todoQueue| > 0 {
        next := Some(todoQueue[0]);
        todoQueue := todoQueue[1..];
      } else {
        next := None;
        send := false;
      }
    }

    /** The loop of the links arm. */
    method TakeLinks(links: seq<Cid>, depth: nat)
      modifies this`next, this`send, this`todoQueue
      ensures (next, todoQueue) == Enqueue(old(next), old(todoQueue), links, depth)
      ensures send == (old(send) || (old(next).None? && links != []))
    {
      for i := 0 to |links|
        invariant Enqueue(next, todoQueue, links[i..], depth) == Enqueue(old(next), old(todoQueue), links, depth)
        invariant send == (old(send) || (i > 0 && old(next).None?))
        invariant next.None? <==> i == 0 && old(next).None?
      {
        var cd := Item(links[i], depth);
        if next.None? {
          next := Some(cd);
          send := true;
        } else {
          todoQueue := todoQueue + [cd];
        }
        assert links[i..][1..] == links[i + 1..];
      }
    }

    /** The arm that receives links. */
    method LinksArm(w: nat)
      requires Enabled(p, View(), Emit(w))
      modifies this
      ensures View() == ApplyEmit(old(View()), w)
    {
      TakeLinks(workers[w].links, workers[w].item.depth + 1);
      workers := workers[w := Finishing];
    }

    /** The arm that receives a done. */
    method DoneArm(w: nat)
      requires Enabled(p, View(), Finish(w))
      modifies this
      ensures View() == ApplyFinish(old(View()), w)
    {
      workers := workers[w := Idle];
      inProgress := inProgress - 1;
      if inProgress == 0 && next.None? {
        coord := Closing(None);
      }
    }

    /** A worker decides whether to expand the item it received. */
    method VisitStep(w: nat)
      requires Enabled(p, View(), Visit(w))
      modifies this
      ensures View() == ApplyVisit(p, old(View()), w)
    {
      var x := workers[w].item;
      if p.skipRoot && x.depth == 0 {
        StartFetch(w, x);
        return;
      }
      var shouldVisit := CallVisit(x);
      if shouldVisit {
        StartFetch(w, x);
      } else {
        workers := workers[w := Finishing];
      }
    }

    /** The visit closure with its progress counter, called under visitlk. */
    method CallVisit(x: Item) returns (should: bool)
      modifies this`seen, this`total
      ensures should == !Covered(p.limit, old(seen), x)
      ensures seen == if should then old(seen)[x.cid := x.depth] else old(seen)
      ensures total == if should then old(total) + 1 else old(total)
    {
      should, seen := VisitRule(p.limit, seen, x.cid, x.depth);
      if should { total := total + 1; }
    }

    /** The worker goes on to fetch the links of `x`. */
    method StartFetch(w: nat, x: Item)
      requires w < |workers|
      modifies this`workers, this`log
      ensures workers == old(workers)[w := Fetching(x)] && log == old(log) + [x]
    {
      workers, log := workers[w := Fetching(x)], log + [x];
    }

    /** The other steps of a worker. */
    method WorkerStep(a: Action)
      requires Enabled(p, View(), a) && (a.Get? || a.Raise? || a.Abandon? || a.Forget? || a.Leave?)
      modifies this
      ensures View() == Apply(p, old(View()), a)
    {
      match a
      case Get(w, f) =>
        workers := workers[w := Told(p, workers[w].item, f)];
      case Raise(w) =>
        coord := Closing(Some(workers[w].error));
        workers, lost := workers[w := Exited], lost + 1;
      case Abandon(w) =>
        workers, lost := workers[w := Exited], lost + 1;
      case Forget(w) =>
        workers, lost := workers[w := Idle], lost + 1;
      case Leave(w) =>
        workers := workers[w := Exited];
    }

    /** The other steps of the coordinator, and the caller's cancellation. */
    method CoordinatorStep(a: Action)
      requires Enabled(p, View(), a)
      requires a.CancelParent? || a.Observe? || a.CloseFeed? || a.StopFetchers? || a.Join? || a.Tick?
      modifies this
      ensures View() == Apply(p, old(View()), a)
    {
      match a
      case CancelParent => cancelled := true;
      case Observe => coord := Closing(Some(Canceled));
      case CloseFeed => coord, feedClosed := Cancelling(coord.result), true;
      case StopFetchers => coord, stopped := Joining(coord.result), true;
      case Join => coord := Returned(coord.result);
      case Tick =>
    }

    method Perform(a: Action)
      requires Enabled(p, View(), a)
      modifies this
      ensures View() == Apply(p, old(View()), a)
    {
      match a
      case Feed(w) => FeedArm(w);
      case Visit(w) => VisitStep(w);
      case Emit(w) => LinksArm(w);
      case Finish(w) => DoneArm(w);
      case Get(_, _) => WorkerStep(a);
      case Raise(_) => WorkerStep(a);
      case Abandon(_) => WorkerStep(a);
      case Forget(_) => WorkerStep(a);
      case Leave(_) => WorkerStep(a);
      case _ => CoordinatorStep(a);
    }

    /** Under every scheduler and with every handler the walk comes to an end and returns; nil
        means that nothing is left to do, and, with a handler that lets made-up errors through,
        an exact visit map. Since no state repeats, a scheduler that sees the state is as free
        as any. */
    method Run(pick: State -> Action)
      requires View() == Init(p) && p.concurrency > 0
      requires Schedules(p, pick)
      modifies this
      ensures coord.Returned? && Recorded(p, seen, log) && Counted(p, seen, log, total)
      ensures forall w | 0 <= w < |workers| :: workers[w].Exited?
      ensures forall c | c in seen :: InScope(p, seen[c]) && At(p, c, seen[c])
      ensures coord.result.None? ==> next.None? && todoQueue == [] && inProgress == 0 && lost == 0
      ensures Blamed(p, log, coord.result)
      ensures Surfaces(p) && coord.result.None? ==> Exact(p, seen) && Readable(p) && fed == 1 + LinkCount(p, log)
      ensures Undisturbed(p) ==> (coord.result.None? <==> Readable(p))
    {
      InitInv(p);
      while !coord.Returned?
        invariant Inv(p, View()) && Deep(View())
        decreases Potential(p, View()), Expansions(View()), Waiting(View()), Phases(View())
      {
        ghost var s := View();
        var a := pick(View());
        InvKept(p, s, a);
        DeepKept(p, s, a);
        StepLess(p, s, a);
        Perform(a);
      }
      RecordedIsReal(p, seen, log);
      if coord.result.None? { SuccessDrained(p, View()); }
      if coord.result.None? && Surfaces(p) { SuccessInv(p, View()); }
      if Undisturbed(p) { SuccessMeansReadable(p, View()); }
    }
  }

  /** A scheduler always picks a real step that can be taken. */
  ghost predicate Schedules(p: Walk, pick: State -> Action) {
    forall s {:trigger pick(s)} | Inv(p, s) && Deep(s) && !s.coord.Returned? ::
      Enabled(p, s, pick(s)) && Proper(pick(s))
  }

  ghost function AnyStep(p: Walk, s: State): Action {
    if exists a :: Enabled(p, s, a) && Proper(a) then var a :| Enabled(p, s, a) && Proper(a); a else Tick
  }

  /** There are schedulers for every walk: one never has to look in vain. */
  lemma SchedulerExists(p: Walk)
    requires p.concurrency > 0
    ensures exists pick :: Schedules(p, pick)
  {
    var pick: State -> Action := s => AnyStep(p, s);
    forall s | Inv(p, s) && Deep(s) && !s.coord.Returned? ensures Enabled(p, s, pick(s)) && Proper(pick(s)) {
      var a := NoDeadlock(p, s);
    }
    assert Schedules(p, pick);
  }

  /** Without cancellation and made-up errors the sequential walk and the parallel walk under
      any scheduler agree on success, which is that of readability; on success the visit maps of
      both are exact, so that they agree on the visited CIDs and, with a limit, on their depths. */
  method Agree(p: Walk, pick: State -> Action) returns (sequential: Visitor, parallel: Walker, r: Option<Error>)
    requires Undisturbed(p) && p.concurrency > 0
    requires Schedules(p, pick)
    ensures parallel.p == p && parallel.coord.Returned?
    ensures r.None? <==> parallel.coord.result.None?
    ensures r.None? <==> Readable(p)
    ensures r.None? ==> Exact(p, sequential.seen) && Exact(p, parallel.seen)
    ensures r.None? ==> sequential.seen.Keys == parallel.seen.Keys
    ensures r.None? && p.limit >= 0 ==> sequential.seen == parallel.seen
    ensures r.None? && p.limit < 0 ==> sequential.total == parallel.total
  {
    var getLinks: Getter := (n, c) => GetLinks(p.store, c);
    r, sequential := WalkFromRoot(p, getLinks);
    parallel := new Walker(p);
    parallel.Run(pick);
    if r.None? { ExactIsUnique(p, sequential.seen, parallel.seen); }
  }

  /** The walk of `FetchGraphWithDepthLimit`: the default concurrency and no other option. Once
      its context is cancelled, `getLinks` may report just that. */
  function FetchWalk(store: Store, root: Cid, depthLim: int, cancellable: bool): Walk {
    Walk(store, NoHandler, root, depthLim, false, 32, {}, {Canceled}, cancellable)
  }

  /** Once the context is cancelled, and only then, a fetch may report that in place of content. */
  lemma FetchInterruptible(store: Store, root: Cid, depthLim: int, cancellable: bool, c: Cid)
    ensures var p := FetchWalk(store, root, depthLim, cancellable);
            && MayAnswer(p, true, c, Failed(Canceled))
            && forall f | MayAnswer(p, false, c, f) :: f == GetLinks(store, c)
  {
  }

  /** Every block within the limit is there, exactly these are recorded, and with a limit each at
      its shortest distance from the root. */
  ghost predicate Fetched(store: Store, root: Cid, depthLim: int, recorded: Depths) {
    && (forall c | Within(store, root, depthLim, c) :: c in store && store[c].Links?)
    && (forall c :: c in recorded <==> Within(store, root, depthLim, c))
    && (depthLim >= 0 ==> forall c | c in recorded ::
          c in Layer(store, root, recorded[c]) && forall n: nat | n < recorded[c] :: c !in Layer(store, root, n))
  }

  /** `FetchGraphWithDepthLimit` under any scheduler, with a context that may be cancelled or not.
      When it succeeds, every block within the limit could be read and it has recorded exactly the
      CIDs within the limit, each at its shortest distance from the root, or, without a limit,
      exactly the reachable CIDs. It fails only by cancellation or on an unreadable block within
      the limit, with that block's error. The progress total counts the visits: one per CID
      recorded and one more for each time a CID was found nearer. */
  method FetchGraphWithDepthLimit(store: Store, root: Cid, depthLim: int, cancellable: bool, pick: State -> Action)
    returns (r: Option<Error>, recorded: Depths, total: nat, ghost log: seq<Item>)
    requires Schedules(FetchWalk(store, root, depthLim, cancellable), pick)
    ensures r.None? ==> Fetched(store, root, depthLim, recorded)
    ensures r.Some? ==> || (cancellable && r.value == Canceled)
                        || exists c :: Within(store, root, depthLim, c) && StoreError(store, c) == Some(r.value)
    ensures total >= |recorded| && (depthLim < 0 ==> total == |recorded|)
    ensures Recorded(FetchWalk(store, root, depthLim, cancellable), recorded, log) && total == |log|
  {
    var p := FetchWalk(store, root, depthLim, cancellable);
    var walker := new Walker(p);
    walker.Run(pick);
    r, recorded, total, log := walker.coord.result, walker.seen, walker.total, walker.log;
    AllVisits(p, log);
    if r.None? { FetchedWithin(p, recorded); } else { FetchBlame(p, log, recorded, r.value); }
  }

  lemma FetchedWithin(p: Walk, recorded: Depths)
    requires Exact(p, recorded) && Readable(p) && !p.skipRoot && p.handler == NoHandler
    ensures Fetched(p.store, p.root, p.limit, recorded)
  {
    OptionsReadable(p);
    forall c ensures c in recorded <==> Within(p.store, p.root, p.limit, c) { ReachedWithin(p, c); }
    forall c, n: nat | p.limit >= 0 && c in recorded && n < recorded[c] ensures c !in Layer(p.store, p.root, n) {
      if At(p, c, n) { assert InScope(p, n); }
    }
  }

  /** An error without interference is that of a CID within the limit. */
  lemma FetchBlame(p: Walk, log: seq<Item>, recorded: Depths, e: Error)
    requires Recorded(p, recorded, log) && Blamed(p, log, Some(e)) && !p.skipRoot
    requires p.handler == NoHandler && MadeUp(p) <= {Canceled} && p.spurious == {}
    ensures || (p.cancellable && e == Canceled)
            || exists c :: Within(p.store, p.root, p.limit, c) && StoreError(p.store, c) == Some(e)
  {
    if !(p.cancellable && e == Canceled) {
      var x :| x in log && Fails(p, x.cid, e);
      var i :| 0 <= i < |log| && log[i] == x;
      LogInLayers(p, log, i);
      assert RecordedItem(p, recorded, x);
      assert Within(p.store, p.root, p.limit, x.cid);
    }
  }
}
