/** What every action of the parallel walk keeps. */
module ParallelInvariant {
  import opened Dag
  import opened VisitLog
  import opened ParallelWalk

  function Busy(ph: Phase): nat {
    if ph.Idle? || ph.Exited? then 0 else 1
  }

  /** Termination is detected by counting: `inProgress` is the number of busy workers plus the
      jobs whose done was never delivered, and without cancellation there are none of those. */
  predicate Control(p: Walk, s: State) {
    && |s.workers| == p.concurrency
    && s.send == s.next.Some?
    && (s.next.None? ==> s.queue == [])
    && s.inProgress == Sum(s.workers, Busy) + s.lost
    && (s.feedClosed <==> !s.coord.Looping? && !s.coord.Closing?)
    && (s.stopped <==> s.coord.Joining? || s.coord.Returned?)
    && (s.cancelled ==> p.cancellable)
    && (s.coord.Looping? ==> s.inProgress > 0 || s.next.Some?)
    && (s.coord.Looping? && !s.cancelled ==>
          s.lost == 0 && forall w | 0 <= w < |s.workers| :: !s.workers[w].Exited?)
    && (!s.coord.Looping? && s.coord.result.None? ==> s.inProgress == 0 && s.next.None?)
    && (s.coord.Returned? ==> forall w | 0 <= w < |s.workers| :: s.workers[w].Exited?)
  }

  /** What a worker holds comes from the log, and what it is about to say is true of the store. */
  ghost predicate Justified(p: Walk, log: seq<Item>, ph: Phase) {
    match ph
    case Visiting(x) => Origin(p, log, x)
    case Fetching(x) => x in log
    case Sending(x, l) => x in log && MayLink(p, x.cid, l)
    case Failing(x, e) => x in log && (Fails(p, x.cid, e) || Interference(p, e))
    case _ => true
  }

  /** Nothing is visited, queued or reported that the DAG does not have. */
  ghost predicate Sound(p: Walk, s: State) {
    && Recorded(p, s.seen, s.log)
    && Counted(p, s.seen, s.log, s.total)
    && (forall x {:trigger Origin(p, s.log, x)} | x in Line(s.next, s.queue) :: Origin(p, s.log, x))
    && (forall w {:trigger s.workers[w]} | 0 <= w < |s.workers| :: Justified(p, s.log, s.workers[w]))
    && (!s.coord.Looping? ==> Blamed(p, s.log, s.coord.result))
  }

  predicate Holds(ph: Phase, x: Item) {
    ph == Fetching(x) || (ph.Sending? && ph.item == x) || (ph.Failing? && ph.item == x)
  }

  /** Some worker has still to deliver the links of the expansion `x`. */
  predicate InFlight(s: State, x: Item) {
    exists w :: 0 <= w < |s.workers| && Holds(s.workers[w], x)
  }

  /** `i` is settled, or waits to be fed or visited. */
  predicate Accounted(p: Walk, s: State, i: Item) {
    || Settled(p, s.seen, s.log, i)
    || i in Line(s.next, s.queue)
    || exists w :: 0 <= w < |s.workers| && s.workers[w] == Visiting(i)
  }

  predicate Handled(p: Walk, s: State, x: Item) {
    || InFlight(s, x)
    || (Passable(p, x.cid) && forall e | e in Children(p, x.cid) :: Accounted(p, s, Item(e, x.depth + 1)))
  }

  /** As long as no job was lost, nothing the DAG has is forgotten. */
  predicate Complete(p: Walk, s: State) {
    s.lost == 0 ==>
      && Accounted(p, s, Item(p.root, 0))
      && forall x {:trigger Handled(p, s, x)} | x in s.log :: Handled(p, s, x)
  }

  function LinkCount(p: Walk, log: seq<Item>): nat {
    if log == [] then 0 else LinkCount(p, log[..|log| - 1]) + |Children(p, log[|log| - 1].cid)|
  }

  /** The links of its expansion a worker has not delivered. */
  ghost function Undelivered(p: Walk): Phase -> nat {
    (ph: Phase) => if ph.Fetching? || ph.Sending? || ph.Failing? then |Children(p, ph.item.cid)| else 0
  }

  /** Conservation: fed, waiting and undelivered items are the root and the links of the
      expansions. */
  ghost predicate Conserved(p: Walk, s: State) {
    s.lost == 0 ==>
      s.fed + |Line(s.next, s.queue)| + Sum(s.workers, Undelivered(p)) == 1 + LinkCount(p, s.log)
  }

  /** The last two need a handler that lets made-up errors through. */
  ghost predicate Inv(p: Walk, s: State) {
    Control(p, s) && Sound(p, s) && (Surfaces(p) ==> Complete(p, s) && Conserved(p, s))
  }

  // ---- initially

  lemma InitInv(p: Walk)
    ensures Inv(p, Init(p))
  {
    var s := Init(p);
    SumZero(s.workers, Busy);
    SumZero(s.workers, Undelivered(p));
    assert Item(p.root, 0) in Line(s.next, s.queue);
  }

  // ---- counting

  lemma FeedControl(p: Walk, s: State, w: nat)
    requires Control(p, s) && Enabled(p, s, Feed(w))
    ensures Control(p, ApplyFeed(s, w))
  {
    SumUpdate(s.workers, w, Visiting(s.next.value), Busy);
  }

  lemma EmitControl(p: Walk, s: State, w: nat)
    requires Control(p, s) && Enabled(p, s, Emit(w))
    ensures Control(p, ApplyEmit(s, w))
  {
    SumUpdate(s.workers, w, Finishing, Busy);
    EnqueueAll(s.next, s.queue, s.workers[w].links, s.workers[w].item.depth + 1);
  }

  lemma FinishControl(p: Walk, s: State, w: nat)
    requires Control(p, s) && Enabled(p, s, Finish(w))
    ensures Control(p, ApplyFinish(s, w))
  {
    SumUpdate(s.workers, w, Idle, Busy);
  }

  /** A busy worker goes on being busy. */
  lemma BusyControl(p: Walk, s: State, s': State, w: nat, ph: Phase)
    requires Control(p, s) && w < |s.workers| && Busy(s.workers[w]) == Busy(ph) == 1
    requires s' == SetWorker(s, w, ph).(seen := s'.seen, total := s'.total, log := s'.log)
    ensures Control(p, s')
  {
    SumUpdate(s.workers, w, ph, Busy);
  }

  lemma VisitControl(p: Walk, s: State, w: nat)
    requires Control(p, s) && Enabled(p, s, Visit(w))
    ensures Control(p, ApplyVisit(p, s, w))
  {
    var s', x := ApplyVisit(p, s, w), s.workers[w].item;
    if Skipped(p, x) || !Covered(p.limit, s.seen, x) {
      BusyControl(p, s, s', w, Fetching(x));
    } else {
      BusyControl(p, s, s', w, Finishing);
    }
  }

  lemma GetControl(p: Walk, s: State, w: nat, f: Fetch)
    requires Control(p, s) && Enabled(p, s, Get(w, f))
    ensures Control(p, ApplyGet(p, s, w, f))
  {
    var s' := ApplyGet(p, s, w, f);
    BusyControl(p, s, s', w, s'.workers[w]);
  }

  /** A worker drops its job, or leaves. */
  lemma DropControl(p: Walk, s: State, a: Action)
    requires Control(p, s) && Enabled(p, s, a) && (a.Raise? || a.Abandon? || a.Forget? || a.Leave?)
    ensures Control(p, Apply(p, s, a))
  {
    SumUpdate(s.workers, a.w, if a.Forget? then Idle else Exited, Busy);
  }

  lemma CoordinatorControl(p: Walk, s: State, a: Action)
    requires Control(p, s) && Enabled(p, s, a)
    requires a.CancelParent? || a.Observe? || a.CloseFeed? || a.StopFetchers? || a.Join?
    ensures Control(p, Apply(p, s, a))
  {
  }

  lemma ControlKept(p: Walk, s: State, a: Action)
    requires Control(p, s) && Enabled(p, s, a)
    ensures Control(p, Apply(p, s, a))
  {
    match a
    case Feed(w) => FeedControl(p, s, w);
    case Emit(w) => EmitControl(p, s, w);
    case Finish(w) => FinishControl(p, s, w);
    case Visit(w) => VisitControl(p, s, w);
    case Get(w, f) => GetControl(p, s, w, f);
    case Raise(_) => DropControl(p, s, a);
    case Abandon(_) => DropControl(p, s, a);
    case Forget(_) => DropControl(p, s, a);
    case Leave(_) => DropControl(p, s, a);
    case Tick =>
    case _ => CoordinatorControl(p, s, a);
  }

  // ---- soundness

  lemma JustifiedGrows(p: Walk, log: seq<Item>, more: seq<Item>, ph: Phase)
    requires Justified(p, log, ph)
    ensures Justified(p, log + more, ph)
  {
    if ph.Visiting? { OriginGrows(p, log, more, ph.item); }
  }

  /** An expansion is added to the log. */
  lemma ExpandSound(p: Walk, s: State, s': State, w: nat, x: Item)
    requires Sound(p, s) && w < |s.workers| && s.workers[w] == Visiting(x)
    requires s' == SetWorker(s, w, Fetching(x)).(seen := s'.seen, total := s'.total, log := s.log + [x])
    requires Recorded(p, s'.seen, s'.log) && Counted(p, s'.seen, s'.log, s'.total)
    ensures Sound(p, s')
  {
    forall y | y in Line(s'.next, s'.queue) ensures Origin(p, s'.log, y) { OriginGrows(p, s.log, [x], y); }
    forall v | 0 <= v < |s'.workers| ensures Justified(p, s'.log, s'.workers[v]) {
      if v != w { JustifiedGrows(p, s.log, [x], s.workers[v]); }
    }
    BlamedGrows(p, s, x);
  }

  /** Only the phase of one worker and the coordinator change. */
  lemma PhaseSound(p: Walk, s: State, s': State, w: nat, ph: Phase)
    requires Sound(p, s) && w < |s.workers| && Justified(p, s.log, ph)
    requires s' == s.(workers := s.workers[w := ph], coord := s'.coord, inProgress := s'.inProgress, lost := s'.lost)
    requires s'.coord == s.coord || (!s'.coord.Looping? && Blamed(p, s.log, s'.coord.result))
    ensures Sound(p, s')
  {
  }

  lemma SkipSound(p: Walk, s: State, w: nat, x: Item)
    requires Sound(p, s) && w < |s.workers| && s.workers[w] == Visiting(x) && Skipped(p, x)
    ensures Sound(p, SetWorker(s, w, Fetching(x)).(log := s.log + [x]))
  {
    assert Justified(p, s.log, s.workers[w]);
    VisitsMore(p, s.log, x);
    SkipKeeps(p, s.seen, s.log, x);
    ExpandSound(p, s, SetWorker(s, w, Fetching(x)).(log := s.log + [x]), w, x);
  }

  lemma FreshSound(p: Walk, s: State, s': State, w: nat, x: Item)
    requires Sound(p, s) && w < |s.workers| && s.workers[w] == Visiting(x)
    requires !Skipped(p, x) && !Covered(p.limit, s.seen, x)
    requires s' == SetWorker(s, w, Fetching(x)).(seen := s.seen[x.cid := x.depth], total := s.total + 1,
                                                 log := s.log + [x])
    ensures Sound(p, s')
  {
    assert Justified(p, s.log, s.workers[w]);
    VisitCounts(p, s.seen, s.log, x, s.total);
    VisitKeeps(p, s.seen, s.log, x);
    ExpandSound(p, s, s', w, x);
  }

  lemma VisitSound(p: Walk, s: State, w: nat)
    requires Sound(p, s) && Enabled(p, s, Visit(w))
    ensures Sound(p, ApplyVisit(p, s, w))
  {
    var x := s.workers[w].item;
    if Skipped(p, x) {
      SkipSound(p, s, w, x);
    } else if Covered(p.limit, s.seen, x) {
      PhaseSound(p, s, SetWorker(s, w, Finishing), w, Finishing);
    } else {
      FreshSound(p, s, ApplyVisit(p, s, w), w, x);
    }
  }

  lemma BlamedGrows(p: Walk, s: State, x: Item)
    requires !s.coord.Looping? ==> Blamed(p, s.log, s.coord.result)
    ensures !s.coord.Looping? ==> Blamed(p, s.log + [x], s.coord.result)
  {
    if !s.coord.Looping? && s.coord.result.Some? && !Interference(p, s.coord.result.value) {
      var y :| y in s.log && Fails(p, y.cid, s.coord.result.value);
      assert y in s.log + [x];
    }
  }

  lemma EmitSound(p: Walk, s: State, w: nat)
    requires Control(p, s) && Sound(p, s) && Enabled(p, s, Emit(w))
    ensures Sound(p, ApplyEmit(s, w))
  {
    var s', x, l := ApplyEmit(s, w), s.workers[w].item, s.workers[w].links;
    assert Justified(p, s.log, s.workers[w]);
    LinksOrigin(p, s.log, x, s.next, s.queue, l);
    LineSound(p, s, s', w, Finishing);
  }

  lemma LinksOrigin(p: Walk, log: seq<Item>, x: Item, next: Option<Item>, queue: seq<Item>, l: seq<Cid>)
    requires x in log && MayLink(p, x.cid, l) && (next.None? ==> queue == [])
    requires forall y {:trigger Origin(p, log, y)} | y in Line(next, queue) :: Origin(p, log, y)
    ensures var (n, q) := Enqueue(next, queue, l, x.depth + 1);
            forall y {:trigger Origin(p, log, y)} | y in Line(n, q) :: Origin(p, log, y)
  {
    EnqueueAll(next, queue, l, x.depth + 1);
    var (n, q) := Enqueue(next, queue, l, x.depth + 1);
    forall y | y in Line(n, q) && y !in Line(next, queue) ensures Origin(p, log, y) {
      var i :| 0 <= i < |l| && y == Item(l[i], x.depth + 1);
      assert l[i] in Children(p, x.cid);
    }
  }

  /** The waiting line and the phase of one worker change. */
  lemma LineSound(p: Walk, s: State, s': State, w: nat, ph: Phase)
    requires Sound(p, s) && w < |s.workers| && Justified(p, s.log, ph)
    requires s' == s.(workers := s.workers[w := ph], next := s'.next, queue := s'.queue, send := s'.send,
                      inProgress := s'.inProgress, fed := s'.fed)
    requires forall y {:trigger Origin(p, s.log, y)} | y in Line(s'.next, s'.queue) :: Origin(p, s.log, y)
    ensures Sound(p, s')
  {
  }

  lemma ToldTruly(p: Walk, log: seq<Item>, cancelled: bool, x: Item, f: Fetch)
    requires cancelled ==> p.cancellable
    requires x in log && MayAnswer(p, cancelled, x.cid, f)
    ensures Justified(p, log, Told(p, x, f))
  {
    AnswerIsTrue(p, cancelled, x.cid, f);
  }

  lemma GetSound(p: Walk, s: State, w: nat, f: Fetch)
    requires Control(p, s) && Sound(p, s) && Enabled(p, s, Get(w, f))
    ensures Sound(p, ApplyGet(p, s, w, f))
  {
    var s' := ApplyGet(p, s, w, f);
    assert Justified(p, s.log, s.workers[w]);
    ToldTruly(p, s.log, s.cancelled, s.workers[w].item, f);
    PhaseSound(p, s, s', w, Told(p, s.workers[w].item, f));
  }

  lemma FeedSound(p: Walk, s: State, w: nat)
    requires Sound(p, s) && Enabled(p, s, Feed(w))
    ensures Sound(p, ApplyFeed(s, w))
  {
    var x, s' := s.next.value, ApplyFeed(s, w);
    assert x in Line(s.next, s.queue) && Origin(p, s.log, x);
    forall y | y in Line(s'.next, s'.queue) ensures Origin(p, s.log, y) { assert y in Line(s.next, s.queue); }
    LineSound(p, s, s', w, Visiting(x));
  }

  lemma RaiseSound(p: Walk, s: State, w: nat)
    requires Sound(p, s) && Enabled(p, s, Raise(w))
    ensures Sound(p, Apply(p, s, Raise(w)))
  {
    assert Justified(p, s.log, s.workers[w]);
    assert Blamed(p, s.log, Some(s.workers[w].error)) by { assert s.workers[w].item in s.log; }
    PhaseSound(p, s, Apply(p, s, Raise(w)), w, Exited);
  }

  lemma NilSound(p: Walk, s: State)
    requires Sound(p, s)
    ensures Sound(p, s.(coord := Closing(None)))
  {
  }

  lemma FinishSound(p: Walk, s: State, w: nat)
    requires Sound(p, s) && Enabled(p, s, Finish(w))
    ensures Sound(p, ApplyFinish(s, w))
  {
    var s1 := SetWorker(s, w, Idle).(inProgress := s.inProgress - 1);
    PhaseSound(p, s, s1, w, Idle);
    NilSound(p, s1);
  }

  lemma DropSound(p: Walk, s: State, a: Action)
    requires Sound(p, s) && Enabled(p, s, a) && (a.Abandon? || a.Forget? || a.Leave?)
    ensures Sound(p, Apply(p, s, a))
  {
    PhaseSound(p, s, Apply(p, s, a), a.w, if a.Forget? then Idle else Exited);
  }

  lemma SoundKept(p: Walk, s: State, a: Action)
    requires Control(p, s) && Sound(p, s) && Enabled(p, s, a)
    ensures Sound(p, Apply(p, s, a))
  {
    match a
    case Visit(w) => VisitSound(p, s, w);
    case Feed(w) => FeedSound(p, s, w);
    case Emit(w) => EmitSound(p, s, w);
    case Get(w, f) => GetSound(p, s, w, f);
    case Raise(w) => RaiseSound(p, s, w);
    case Finish(w) => FinishSound(p, s, w);
    case CancelParent =>
    case Observe =>
    case CloseFeed =>
    case StopFetchers =>
    case Join =>
    case Tick =>
    case _ => DropSound(p, s, a);
  }

  // ---- nothing is forgotten

  ghost predicate AccountsKept(p: Walk, s: State, s': State) {
    forall i {:trigger Accounted(p, s', i)} :: Accounted(p, s, i) ==> Accounted(p, s', i)
  }

  lemma HandledKept(p: Walk, s: State, s': State, x: Item)
    requires AccountsKept(p, s, s') && Handled(p, s, x)
    requires InFlight(s, x) ==> Handled(p, s', x)
    ensures Handled(p, s', x)
  {
  }

  /** A worker that was not about to visit changes its phase, keeping the expansion it holds. */
  lemma PhaseComplete(p: Walk, s: State, s': State, w: nat, ph: Phase)
    requires Complete(p, s) && w < |s.workers| && s'.workers == s.workers[w := ph]
    requires s'.seen == s.seen && s'.log == s.log && s'.lost == s.lost
    requires s'.next == s.next && s'.queue == s.queue
    requires !s.workers[w].Visiting? && forall x | Holds(s.workers[w], x) :: Holds(ph, x)
    ensures Complete(p, s')
  {
    if s'.lost == 0 {
      forall i | Accounted(p, s, i) ensures Accounted(p, s', i) {
        if v :| 0 <= v < |s.workers| && s.workers[v] == Visiting(i) { assert s'.workers[v] == Visiting(i); }
      }
      forall x | x in s'.log ensures Handled(p, s', x) {
        assert Handled(p, s, x);
        if InFlight(s, x) {
          var v :| 0 <= v < |s.workers| && Holds(s.workers[v], x);
          assert Holds(s'.workers[v], x);
        }
        HandledKept(p, s, s', x);
      }
    }
  }

  lemma FeedComplete(p: Walk, s: State, w: nat)
    requires Complete(p, s) && Enabled(p, s, Feed(w))
    ensures Complete(p, ApplyFeed(s, w))
  {
    var s' := ApplyFeed(s, w);
    if s'.lost == 0 {
      forall i | Accounted(p, s, i) ensures Accounted(p, s', i) {
        if v :| 0 <= v < |s.workers| && s.workers[v] == Visiting(i) { assert s'.workers[v] == Visiting(i); }
        assert s'.workers[w] == Visiting(s.next.value);
        if i in Line(s.next, s.queue) && i != s.next.value { assert i in Line(s'.next, s'.queue); }
      }
      forall x | x in s'.log ensures Handled(p, s', x) {
        assert Handled(p, s, x);
        if InFlight(s, x) {
          var v :| 0 <= v < |s.workers| && Holds(s.workers[v], x);
          assert Holds(s'.workers[v], x);
        }
        HandledKept(p, s, s', x);
      }
    }
  }

  lemma VisitSettles(p: Walk, s: State, w: nat)
    requires Enabled(p, s, Visit(w))
    ensures var s' := ApplyVisit(p, s, w);
            && Settled(p, s'.seen, s'.log, s.workers[w].item)
            && Refines(s.seen, s'.seen) && s.log <= s'.log
            && s'.next == s.next && s'.queue == s.queue
            && forall v | 0 <= v < |s.workers| && v != w :: s'.workers[v] == s.workers[v]
  {
  }

  lemma VisitAccounts(p: Walk, s: State, w: nat)
    requires Enabled(p, s, Visit(w))
    ensures AccountsKept(p, s, ApplyVisit(p, s, w))
  {
    var s', x := ApplyVisit(p, s, w), s.workers[w].item;
    VisitSettles(p, s, w);
    forall i | Accounted(p, s, i) ensures Accounted(p, s', i) {
      if Settled(p, s.seen, s.log, i) {
        SettledGrows(p, s.seen, s.log, s'.seen, s'.log, i);
      } else if i !in Line(s.next, s.queue) && i != x {
        var v :| 0 <= v < |s.workers| && s.workers[v] == Visiting(i);
        assert s'.workers[v] == Visiting(i);
      }
    }
  }

  lemma VisitComplete(p: Walk, s: State, w: nat)
    requires Complete(p, s) && Enabled(p, s, Visit(w))
    ensures Complete(p, ApplyVisit(p, s, w))
  {
    var s', x := ApplyVisit(p, s, w), s.workers[w].item;
    if s'.lost == 0 {
      VisitAccounts(p, s, w);
      forall y | y in s'.log ensures Handled(p, s', y) {
        if y in s.log {
          assert Handled(p, s, y);
          if InFlight(s, y) {
            var v :| 0 <= v < |s.workers| && Holds(s.workers[v], y);
            assert Holds(s'.workers[v], y);
          }
          HandledKept(p, s, s', y);
        } else {
          assert Holds(s'.workers[w], y);
        }
      }
    }
  }

  lemma GetComplete(p: Walk, s: State, w: nat, f: Fetch)
    requires Complete(p, s) && Enabled(p, s, Get(w, f))
    ensures Complete(p, ApplyGet(p, s, w, f))
  {
    PhaseComplete(p, s, ApplyGet(p, s, w, f), w, Told(p, s.workers[w].item, f));
  }

  lemma EmitAccounts(p: Walk, s: State, w: nat)
    requires Control(p, s) && Enabled(p, s, Emit(w))
    ensures AccountsKept(p, s, ApplyEmit(s, w))
  {
    var s', x, l := ApplyEmit(s, w), s.workers[w].item, s.workers[w].links;
    EnqueueAll(s.next, s.queue, l, x.depth + 1);
    forall i | Accounted(p, s, i) ensures Accounted(p, s', i) {
      if v :| 0 <= v < |s.workers| && s.workers[v] == Visiting(i) { assert s'.workers[v] == Visiting(i); }
    }
  }

  lemma EmitComplete(p: Walk, s: State, w: nat)
    requires Surfaces(p) && Control(p, s) && Sound(p, s) && Complete(p, s) && Enabled(p, s, Emit(w))
    ensures Complete(p, ApplyEmit(s, w))
  {
    var s', x, l := ApplyEmit(s, w), s.workers[w].item, s.workers[w].links;
    assert Justified(p, s.log, s.workers[w]);
    if s'.lost == 0 {
      EmitAccounts(p, s, w);
      forall y | y in s'.log ensures Handled(p, s', y) {
        assert Handled(p, s, y);
        if InFlight(s, y) {
          var v :| 0 <= v < |s.workers| && Holds(s.workers[v], y);
          if v == w { EmittedHandled(p, s, w); } else { assert Holds(s'.workers[v], y); }
        }
        HandledKept(p, s, s', y);
      }
    }
  }

  lemma EmittedHandled(p: Walk, s: State, w: nat)
    requires Surfaces(p) && Control(p, s) && Enabled(p, s, Emit(w)) && Justified(p, s.log, s.workers[w])
    ensures Handled(p, ApplyEmit(s, w), s.workers[w].item)
  {
    var s', x, l := ApplyEmit(s, w), s.workers[w].item, s.workers[w].links;
    EnqueueAll(s.next, s.queue, l, x.depth + 1);
    forall e | e in Children(p, x.cid) ensures Accounted(p, s', Item(e, x.depth + 1)) {
      var i :| 0 <= i < |l| && l[i] == e;
      assert Items(l, x.depth + 1)[i] == Item(e, x.depth + 1);
      assert Item(e, x.depth + 1) in Line(s'.next, s'.queue);
    }
  }

  lemma CompleteKept(p: Walk, s: State, a: Action)
    requires Surfaces(p) && Control(p, s) && Sound(p, s) && Complete(p, s) && Enabled(p, s, a)
    ensures Complete(p, Apply(p, s, a))
  {
    match a
    case Feed(w) => FeedComplete(p, s, w);
    case Visit(w) => VisitComplete(p, s, w);
    case Emit(w) => EmitComplete(p, s, w);
    case Get(w, f) => GetComplete(p, s, w, f);
    case Finish(_) => DropComplete(p, s, a);
    case Leave(_) => DropComplete(p, s, a);
    case Raise(_) => DropComplete(p, s, a);
    case Abandon(_) => DropComplete(p, s, a);
    case Forget(_) => DropComplete(p, s, a);
    case Tick =>
    case _ => CoordinatorComplete(p, s, a);
  }

  lemma DropComplete(p: Walk, s: State, a: Action)
    requires Complete(p, s) && Enabled(p, s, a) && (a.Finish? || a.Leave? || a.Raise? || a.Abandon? || a.Forget?)
    ensures Complete(p, Apply(p, s, a))
  {
    if a.Finish? || a.Leave? {
      PhaseComplete(p, s, Apply(p, s, a), a.w, if a.Finish? then Idle else Exited);
    }
  }

  lemma CoordinatorComplete(p: Walk, s: State, a: Action)
    requires Complete(p, s) && Enabled(p, s, a)
    requires a.CancelParent? || a.Observe? || a.CloseFeed? || a.StopFetchers? || a.Join?
    ensures Complete(p, Apply(p, s, a))
  {
    var s' := Apply(p, s, a);
    assert s' == s.(coord := s'.coord, cancelled := s'.cancelled, feedClosed := s'.feedClosed, stopped := s'.stopped);
    if s'.lost == 0 {
      forall x | x in s'.log ensures Handled(p, s', x) {
        assert Handled(p, s, x);
        if InFlight(s, x) {
          var v :| 0 <= v < |s.workers| && Holds(s.workers[v], x);
          assert Holds(s'.workers[v], x);
        } else {
          forall e | e in Children(p, x.cid) ensures Accounted(p, s', Item(e, x.depth + 1)) {
            assert Accounted(p, s, Item(e, x.depth + 1));
          }
        }
      }
    }
  }

  // ---- conservation

  lemma FeedConserved(p: Walk, s: State, w: nat)
    requires Conserved(p, s) && Enabled(p, s, Feed(w))
    ensures Conserved(p, ApplyFeed(s, w))
  {
    SumUpdate(s.workers, w, Visiting(s.next.value), Undelivered(p));
  }

  lemma EmitConserved(p: Walk, s: State, w: nat)
    requires Control(p, s) && Conserved(p, s) && Enabled(p, s, Emit(w))
    requires s.workers[w].links == Children(p, s.workers[w].item.cid)
    ensures Conserved(p, ApplyEmit(s, w))
  {
    SumUpdate(s.workers, w, Finishing, Undelivered(p));
    EnqueueAll(s.next, s.queue, s.workers[w].links, s.workers[w].item.depth + 1);
  }

  /** A worker changes its phase and what it has to deliver stays the same. */
  lemma PhaseConserved(p: Walk, s: State, s': State, w: nat, ph: Phase)
    requires Conserved(p, s) && w < |s.workers| && s'.workers == s.workers[w := ph]
    requires s'.lost == s.lost && s'.fed == s.fed && s'.next == s.next && s'.queue == s.queue && s'.log == s.log
    requires Undelivered(p)(s.workers[w]) == Undelivered(p)(ph)
    ensures Conserved(p, s')
  {
    SumUpdate(s.workers, w, ph, Undelivered(p));
  }

  lemma VisitConserved(p: Walk, s: State, w: nat)
    requires Conserved(p, s) && Enabled(p, s, Visit(w))
    ensures Conserved(p, ApplyVisit(p, s, w))
  {
    var s', x := ApplyVisit(p, s, w), s.workers[w].item;
    if Skipped(p, x) || !Covered(p.limit, s.seen, x) {
      ExpandConserved(p, s, s', w, x);
    } else {
      PhaseConserved(p, s, s', w, Finishing);
    }
  }

  lemma ExpandConserved(p: Walk, s: State, s': State, w: nat, x: Item)
    requires Conserved(p, s) && w < |s.workers| && s.workers[w] == Visiting(x)
    requires s' == SetWorker(s, w, Fetching(x)).(seen := s'.seen, total := s'.total, log := s.log + [x])
    ensures Conserved(p, s')
  {
    SumUpdate(s.workers, w, Fetching(x), Undelivered(p));
    assert s'.log[..|s'.log| - 1] == s.log;
  }

  lemma OtherConserved(p: Walk, s: State, a: Action)
    requires Conserved(p, s) && Enabled(p, s, a) && !a.Feed? && !a.Visit? && !a.Emit? && !a.Finish?
    ensures Conserved(p, Apply(p, s, a))
  {
    match a
    case Get(w, f) => PhaseConserved(p, s, ApplyGet(p, s, w, f), w, Told(p, s.workers[w].item, f));
    case Leave(w) => PhaseConserved(p, s, Apply(p, s, a), w, Exited);
    case _ =>
  }

  lemma ConservedKept(p: Walk, s: State, a: Action)
    requires Surfaces(p) && Control(p, s) && Sound(p, s) && Conserved(p, s) && Enabled(p, s, a)
    ensures Conserved(p, Apply(p, s, a))
  {
    match a
    case Feed(w) => FeedConserved(p, s, w);
    case Visit(w) => VisitConserved(p, s, w);
    case Get(_, _) => OtherConserved(p, s, a);
    case Emit(w) =>
      assert Justified(p, s.log, s.workers[w]);
      EmitConserved(p, s, w);
    case Finish(w) => PhaseConserved(p, s, ApplyFinish(s, w), w, Idle);
    case _ => OtherConserved(p, s, a);
  }

  // ---- all together

  lemma InvKept(p: Walk, s: State, a: Action)
    requires Inv(p, s) && Enabled(p, s, a)
    ensures Inv(p, Apply(p, s, a))
  {
    ControlKept(p, s, a);
    SoundKept(p, s, a);
    if Surfaces(p) {
      CompleteKept(p, s, a);
      ConservedKept(p, s, a);
    }
  }

  /** The counting holds at the end of every schedule, whatever else is known at its start. */
  lemma {:induction false} ControlAlways(p: Walk, s: State, acts: seq<Action>)
    requires Control(p, s) && Runs(p, s, acts)
    ensures Control(p, Exec(p, s, acts))
    decreases |acts|
  {
    if acts != [] {
      ControlKept(p, s, acts[0]);
      ControlAlways(p, Apply(p, s, acts[0]), acts[1..]);
    }
  }

  /** The invariant holds at the end of every schedule, for every handler. */
  lemma {:induction false} InvAlways(p: Walk, s: State, acts: seq<Action>)
    requires Inv(p, s) && Runs(p, s, acts)
    ensures Inv(p, Exec(p, s, acts))
    decreases |acts|
  {
    if acts != [] {
      InvKept(p, s, acts[0]);
      InvAlways(p, Apply(p, s, acts[0]), acts[1..]);
    }
  }
}
