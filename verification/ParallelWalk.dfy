/** `parallelWalkDepth` as a state machine: one coordinator, `concurrency` workers, and one
    atomic action per channel rendezvous, critical section, fetch or deferred call. */
module ParallelWalk {
  import opened Dag
  import opened VisitLog

  /** Where a worker goroutine stands. */
  datatype Phase =
    | Idle                                  // ranging over feed
    | Visiting(item: Item)                  // received, before the visit
    | Fetching(item: Item)                  // to be expanded, in getLinks
    | Sending(item: Item, links: seq<Cid>)  // blocked on out
    | Failing(item: Item, error: Error)     // blocked on errChan
    | Finishing                             // blocked on done
    | Exited

  /** Where the coordinator stands: in its loop, or in one of its deferred calls with the
      result it is about to return. */
  datatype Coordinator =
    | Looping
    | Closing(result: Option<Error>)     // before close(feed)
    | Cancelling(result: Option<Error>)  // before cancel()
    | Joining(result: Option<Error>)     // in wg.Wait()
    | Returned(result: Option<Error>)

  /** `log`, `lost` and `fed` are history: the expansions in order, the jobs whose done was
      never delivered although no worker holds them, and the items sent on feed. */
  datatype State = State(
    next: Option<Item>, send: bool, queue: seq<Item>, inProgress: int,
    coord: Coordinator, feedClosed: bool, stopped: bool, cancelled: bool,
    workers: seq<Phase>, seen: Depths, total: nat,
    log: seq<Item>, lost: nat, fed: nat)

  function Init(p: Walk): State {
    State(Some(Item(p.root, 0)), true, [], 0, Looping, false, false, false,
          seq(p.concurrency, _ => Idle), map[], 0, [], 0, 0)
  }

  datatype Action =
    | Feed(w: nat)                // send <- next, received by worker w
    | Visit(w: nat)               // the critical section under visitlk
    | Get(w: nat, answer: Fetch)  // getLinks returns
    | Emit(w: nat)                // out <- links
    | Raise(w: nat)               // errChan <- err
    | Finish(w: nat)              // done <- struct{}{}
    | Abandon(w: nat)             // fetchersCtx.Done() while blocked on out or errChan
    | Forget(w: nat)              // fetchersCtx.Done() while blocked on done
    | Leave(w: nat)               // feed is closed
    | CancelParent                // the caller cancels
    | Observe                     // the coordinator takes ctx.Done()
    | CloseFeed | StopFetchers | Join
    | Tick

  predicate Enabled(p: Walk, s: State, a: Action) {
    match a
    case Feed(w) => w < |s.workers| && s.coord.Looping? && s.send && s.next.Some? && s.workers[w].Idle?
    case Visit(w) => w < |s.workers| && s.workers[w].Visiting?
    case Get(w, f) => w < |s.workers| && s.workers[w].Fetching? && MayAnswer(p, s.cancelled, s.workers[w].item.cid, f)
    case Emit(w) => w < |s.workers| && s.coord.Looping? && s.workers[w].Sending?
    case Raise(w) => w < |s.workers| && s.coord.Looping? && s.workers[w].Failing?
    case Finish(w) => w < |s.workers| && s.coord.Looping? && s.workers[w].Finishing?
    case Abandon(w) => w < |s.workers| && (s.cancelled || s.stopped) && (s.workers[w].Sending? || s.workers[w].Failing?)
    case Forget(w) => w < |s.workers| && (s.cancelled || s.stopped) && s.workers[w].Finishing?
    case Leave(w) => w < |s.workers| && s.feedClosed && s.workers[w].Idle?
    case CancelParent => p.cancellable && !s.cancelled
    case Observe => s.coord.Looping? && s.cancelled
    case CloseFeed => s.coord.Closing?
    case StopFetchers => s.coord.Cancelling?
    case Join => s.coord.Joining? && forall w | 0 <= w < |s.workers| :: s.workers[w].Exited?
    case Tick => s.coord.Looping?
  }

  /** The coordinator's loop over received links: the first fills an empty `next`. */
  function Enqueue(next: Option<Item>, queue: seq<Item>, links: seq<Cid>, depth: nat): (Option<Item>, seq<Item>)
    decreases |links|
  {
    if links == [] then (next, queue)
    else
      var x := Item(links[0], depth);
      if next.None? then Enqueue(Some(x), queue, links[1..], depth)
      else Enqueue(next, queue + [x], links[1..], depth)
  }

  function SetWorker(s: State, w: nat, phase: Phase): State
    requires w < |s.workers|
  {
    s.(workers := s.workers[w := phase])
  }

  function ApplyFeed(s: State, w: nat): State
    requires w < |s.workers| && s.next.Some?
  {
    var s' := SetWorker(s, w, Visiting(s.next.value)).(inProgress := s.inProgress + 1, fed := s.fed + 1);
    if |s.queue| > 0 then s'.(next := Some(s.queue[0]), queue := s.queue[1..])
    else s'.(next := None, send := false)
  }

  function ApplyVisit(p: Walk, s: State, w: nat): State
    requires w < |s.workers| && s.workers[w].Visiting?
  {
    var x := s.workers[w].item;
    if Skipped(p, x) then SetWorker(s, w, Fetching(x)).(log := s.log + [x])
    else if Covered(p.limit, s.seen, x) then SetWorker(s, w, Finishing)
    else SetWorker(s, w, Fetching(x)).(log := s.log + [x], seen := s.seen[x.cid := x.depth], total := s.total + 1)
  }

  /** The phase an answer of getLinks leads to, after the error handler. */
  function Told(p: Walk, x: Item, f: Fetch): Phase {
    match Answer(p.handler, f)
    case Links(l) => Sending(x, l)
    case Failed(e) => Failing(x, e)
  }

  function ApplyGet(p: Walk, s: State, w: nat, f: Fetch): State
    requires w < |s.workers| && s.workers[w].Fetching?
  {
    SetWorker(s, w, Told(p, s.workers[w].item, f))
  }

  function ApplyEmit(s: State, w: nat): State
    requires w < |s.workers| && s.workers[w].Sending?
  {
    var (next, queue) := Enqueue(s.next, s.queue, s.workers[w].links, s.workers[w].item.depth + 1);
    var send := s.send || (s.next.None? && s.workers[w].links != []);
    SetWorker(s, w, Finishing).(next := next, queue := queue, send := send)
  }

  function ApplyFinish(s: State, w: nat): State
    requires w < |s.workers|
  {
    var s' := SetWorker(s, w, Idle).(inProgress := s.inProgress - 1);
    if s'.inProgress == 0 && s'.next.None? then s'.(coord := Closing(None)) else s'
  }

  function Apply(p: Walk, s: State, a: Action): State
    requires Enabled(p, s, a)
  {
    match a
    case Feed(w) => ApplyFeed(s, w)
    case Visit(w) => ApplyVisit(p, s, w)
    case Get(w, f) => ApplyGet(p, s, w, f)
    case Emit(w) => ApplyEmit(s, w)
    case Raise(w) => SetWorker(s, w, Exited).(coord := Closing(Some(s.workers[w].error)), lost := s.lost + 1)
    case Finish(w) => ApplyFinish(s, w)
    case Abandon(w) => SetWorker(s, w, Exited).(lost := s.lost + 1)
    case Forget(w) => SetWorker(s, w, Idle).(lost := s.lost + 1)
    case Leave(w) => SetWorker(s, w, Exited)
    case CancelParent => s.(cancelled := true)
    case Observe => s.(coord := Closing(Some(Canceled)))
    case CloseFeed => s.(coord := Cancelling(s.coord.result), feedClosed := true)
    case StopFetchers => s.(coord := Joining(s.coord.result), stopped := true)
    case Join => s.(coord := Returned(s.coord.result))
    case Tick => s
  }

  /** `acts` is a schedule the machine can follow from `s`. */
  predicate Runs(p: Walk, s: State, acts: seq<Action>)
    decreases |acts|
  {
    acts != [] ==> Enabled(p, s, acts[0]) && Runs(p, Apply(p, s, acts[0]), acts[1..])
  }

  /** The state a schedule leads to. */
  function Exec(p: Walk, s: State, acts: seq<Action>): State
    requires Runs(p, s, acts)
    decreases |acts|
  {
    if acts == [] then s else Exec(p, Apply(p, s, acts[0]), acts[1..])
  }

  /** The sum of a weight over the workers. */
  function Sum(ws: seq<Phase>, weight: Phase -> nat): nat
    decreases |ws|
  {
    if ws == [] then 0 else weight(ws[0]) + Sum(ws[1..], weight)
  }

  lemma {:induction false} SumUpdate(ws: seq<Phase>, w: nat, phase: Phase, weight: Phase -> nat)
    requires w < |ws|
    ensures Sum(ws[w := phase], weight) == Sum(ws, weight) - weight(ws[w]) + weight(phase)
    ensures Sum(ws, weight) >= weight(ws[w])
    decreases w
  {
    if w > 0 {
      assert ws[w := phase][1..] == ws[1..][w - 1 := phase];
      SumUpdate(ws[1..], w - 1, phase, weight);
    } else {
      assert ws[w := phase][1..] == ws[1..];
    }
  }

  lemma {:induction false} SumZero(ws: seq<Phase>, weight: Phase -> nat)
    requires forall w | 0 <= w < |ws| :: weight(ws[w]) == 0
    ensures Sum(ws, weight) == 0
    decreases |ws|
  {
    if ws != [] { SumZero(ws[1..], weight); }
  }

  /** The received links all get queued, in order, and nothing else does. */
  lemma {:induction false} EnqueueAll(next: Option<Item>, queue: seq<Item>, links: seq<Cid>, depth: nat)
    requires next.None? ==> queue == []
    ensures var (n, q) := Enqueue(next, queue, links, depth);
            && Line(n, q) == Line(next, queue) + Items(links, depth)
            && (n.None? ==> q == [])
            && (n.Some? <==> next.Some? || links != [])
    decreases |links|
  {
    if links == [] {
      assert Line(next, queue) == Line(next, queue) + Items(links, depth);
    } else {
      var x := Item(links[0], depth);
      var rest := Items(links[1..], depth);
      assert Items(links, depth) == [x] + rest;
      if next.None? {
        EnqueueAll(Some(x), queue, links[1..], depth);
      } else {
        EnqueueAll(next, queue + [x], links[1..], depth);
        assert Line(next, queue + [x]) == Line(next, queue) + [x];
      }
    }
  }

  /** The items waiting to be fed, in order. */
  function Line(next: Option<Item>, queue: seq<Item>): seq<Item> {
    if next.None? then queue else [next.value] + queue
  }
}
