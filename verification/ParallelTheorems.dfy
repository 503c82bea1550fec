/** What the parallel walk is for, over every schedule. */
module ParallelTheorems {
  import opened Dag
  import opened VisitLog
  import opened ParallelWalk
  import opened ParallelInvariant
  import opened ParallelProgress

  /** The walk has decided to return nil. */
  predicate Succeeded(s: State) {
    !s.coord.Looping? && s.coord.result.None?
  }

  /** Nothing waits and nobody works. */
  predicate Drained(s: State) {
    s.next.None? && s.queue == [] && s.inProgress == 0 && s.lost == 0 &&
    forall w | 0 <= w < |s.workers| :: s.workers[w].Idle? || s.workers[w].Exited?
  }

  lemma SuccessDrained(p: Walk, s: State)
    requires Control(p, s) && Succeeded(s)
    ensures Drained(s)
  {
    forall w | 0 <= w < |s.workers| ensures Busy(s.workers[w]) == 0 {
      SumUpdate(s.workers, w, Idle, Busy);
    }
  }

  lemma DrainedClosed(p: Walk, s: State)
    requires Complete(p, s) && Drained(s)
    ensures Closed(p, s.seen, s.log)
  {
    assert Line(s.next, s.queue) == [];
    forall x | x in s.log ensures ClosedAt(p, s.seen, s.log, x) {
      assert Handled(p, s, x) && !InFlight(s, x);
      forall e | e in Children(p, x.cid) ensures Settled(p, s.seen, s.log, Item(e, x.depth + 1)) {
        assert Accounted(p, s, Item(e, x.depth + 1));
      }
    }
  }

  /** Whatever the schedule and the handler, with or without cancellation and made-up errors: the
      walk returns nil only when nothing waits, no worker is busy and no job was lost; everything
      it has visited is really there, and the progress total counts the visits. With a handler
      that lets made-up errors through, moreover, everything was readable, the visit map is exact
      (the reachable CIDs, or those within the limit at their shortest distances) and the items
      fed are the root and one per link of each expansion. */
  lemma NilTheorem(p: Walk, acts: seq<Action>)
    requires Runs(p, Init(p), acts) && Succeeded(Exec(p, Init(p), acts))
    ensures var s := Exec(p, Init(p), acts);
            && Drained(s)
            && Counted(p, s.seen, s.log, s.total)
            && (forall c | c in s.seen :: InScope(p, s.seen[c]) && At(p, c, s.seen[c]))
            && (Surfaces(p) ==> Exact(p, s.seen) && Readable(p) && s.fed == 1 + LinkCount(p, s.log))
  {
    var s := Exec(p, Init(p), acts);
    InitInv(p);
    InvAlways(p, Init(p), acts);
    SuccessDrained(p, s);
    RecordedIsReal(p, s.seen, s.log);
    if Surfaces(p) { SuccessInv(p, s); }
  }

  lemma SuccessInv(p: Walk, s: State)
    requires Inv(p, s) && Surfaces(p) && Succeeded(s)
    ensures Exact(p, s.seen) && Readable(p) && s.fed == 1 + LinkCount(p, s.log)
  {
    SuccessDrained(p, s);
    DrainedClosed(p, s);
    ClosedIsExact(p, s.seen, s.log);
    ClosedIsReadable(p, s.seen, s.log);
    SumZero(s.workers, Undelivered(p));
  }

  /** Without cancellation and made-up errors the walk that has left its loop has succeeded
      exactly on readable DAGs, whatever the schedule and the handler. */
  lemma SuccessTheorem(p: Walk, acts: seq<Action>)
    requires Runs(p, Init(p), acts) && Undisturbed(p)
    requires !Exec(p, Init(p), acts).coord.Looping?
    ensures Succeeded(Exec(p, Init(p), acts)) <==> Readable(p)
  {
    InitInv(p);
    InvAlways(p, Init(p), acts);
    SuccessMeansReadable(p, Exec(p, Init(p), acts));
  }

  lemma SuccessMeansReadable(p: Walk, s: State)
    requires Inv(p, s) && Undisturbed(p) && !s.coord.Looping?
    ensures Succeeded(s) <==> Readable(p)
  {
    if Succeeded(s) {
      SuccessInv(p, s);
    } else {
      assert Blamed(p, s.log, s.coord.result);
      var x :| x in s.log && Fails(p, x.cid, s.coord.result.value);
      UnreadableWitness(p, s.seen, s.log, x);
    }
  }

  // ---- the order of the queue

  /** The items that a step sends on feed. */
  function SentIn(p: Walk, s: State, a: Action): seq<Item>
    requires Enabled(p, s, a)
  {
    if a.Feed? then [s.next.value] else []
  }

  /** The links received on out in a step, as items one deeper than the block they are links of. */
  function ReceivedIn(p: Walk, s: State, a: Action): seq<Item>
    requires Enabled(p, s, a)
  {
    if a.Emit? then Items(s.workers[a.w].links, s.workers[a.w].item.depth + 1) else []
  }

  function FedBy(p: Walk, s: State, acts: seq<Action>): seq<Item>
    requires Runs(p, s, acts)
    decreases |acts|
  {
    if acts == [] then [] else SentIn(p, s, acts[0]) + FedBy(p, Apply(p, s, acts[0]), acts[1..])
  }

  function ReceivedBy(p: Walk, s: State, acts: seq<Action>): seq<Item>
    requires Runs(p, s, acts)
    decreases |acts|
  {
    if acts == [] then [] else ReceivedIn(p, s, acts[0]) + ReceivedBy(p, Apply(p, s, acts[0]), acts[1..])
  }

  lemma FeedLine(p: Walk, s: State, w: nat)
    requires Control(p, s) && Enabled(p, s, Feed(w))
    ensures Line(s.next, s.queue) == [s.next.value] + Line(ApplyFeed(s, w).next, ApplyFeed(s, w).queue)
  {
  }

  lemma OtherLine(p: Walk, s: State, a: Action)
    requires Enabled(p, s, a) && !a.Feed? && !a.Emit?
    ensures Apply(p, s, a).next == s.next && Apply(p, s, a).queue == s.queue
  {
    match a
    case Visit(w) => assert ApplyVisit(p, s, w).queue == s.queue;
    case Get(w, f) => assert ApplyGet(p, s, w, f).queue == s.queue;
    case Finish(w) => assert ApplyFinish(s, w).queue == s.queue;
    case _ =>
  }

  lemma LineStep(p: Walk, s: State, a: Action)
    requires Control(p, s) && Enabled(p, s, a)
    ensures Line(s.next, s.queue) + ReceivedIn(p, s, a) ==
            SentIn(p, s, a) + Line(Apply(p, s, a).next, Apply(p, s, a).queue)
  {
    match a
    case Feed(w) => FeedLine(p, s, w);
    case Emit(w) => EnqueueAll(s.next, s.queue, s.workers[w].links, s.workers[w].item.depth + 1);
    case _ => OtherLine(p, s, a);
  }

  lemma {:induction false} LineAlways(p: Walk, s: State, acts: seq<Action>)
    requires Control(p, s) && Runs(p, s, acts)
    ensures var s' := Exec(p, s, acts);
            Line(s.next, s.queue) + ReceivedBy(p, s, acts) == FedBy(p, s, acts) + Line(s'.next, s'.queue)
    decreases |acts|
  {
    if acts != [] {
      var s1, rest := Apply(p, s, acts[0]), acts[1..];
      LineStep(p, s, acts[0]);
      ControlKept(p, s, acts[0]);
      LineAlways(p, s1, rest);
      Regroup(Line(s.next, s.queue), ReceivedIn(p, s, acts[0]), ReceivedBy(p, s1, rest),
              SentIn(p, s, acts[0]), Line(s1.next, s1.queue), FedBy(p, s1, rest),
              Line(Exec(p, s1, rest).next, Exec(p, s1, rest).queue));
    }
  }

  lemma Regroup(a: seq<Item>, b: seq<Item>, c: seq<Item>, d: seq<Item>, e: seq<Item>, f: seq<Item>, g: seq<Item>)
    requires a + b == d + e && e + c == f + g
    ensures a + (b + c) == (d + f) + g
  {
    assert a + (b + c) == (a + b) + c;
    assert (d + e) + c == d + (e + c);
  }

  /** First come, first served: over every schedule the items fed and those still waiting are, in
      this order, the root and the links in the order in which they were received. */
  lemma QueueInOrder(p: Walk, acts: seq<Action>)
    requires Runs(p, Init(p), acts)
    ensures var s := Exec(p, Init(p), acts);
            FedBy(p, Init(p), acts) + Line(s.next, s.queue) == [Item(p.root, 0)] + ReceivedBy(p, Init(p), acts)
  {
    InitInv(p);
    LineAlways(p, Init(p), acts);
  }
}
