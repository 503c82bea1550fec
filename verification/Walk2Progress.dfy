/** The walk of `Walk2` is never blocked and cannot go on forever, whatever the prefetcher does,
    as long as the session answers. */
module Walk2Progress {
  import opened Dag
  import opened VisitLog
  import opened Walk2
  import WD = WalkDepth
  import Credit
  import Cache
  import Race

  /** A step on the side of the walk: of a walker, of its visit closure, or of one of its calls. Not
      the requester, nor the receiver, nor the caller, nor the ticker. */
  predicate WalkSide(a: Action) {
    match a
    case Walking(w) => WD.Real(w)
    case Prefetching(c) => c.Settle?
    case Caching(k) => k.Register? || k.Wake? || k.Recheck?
    case Racing(_, r) => !r.ParentCancel?
    case _ => true
  }

  /** What ties the parts together, and what the cache keeps. */
  predicate Tied(p: Walk, s: State) {
    NotFound in p.spurious && Linked(p, s) && Cache.Inv(s.cache)
  }

  /** Everything the parts keep. */
  ghost predicate Sane(p: Walk, s: State) {
    Tied(p, s) && WD.Inv(p, s.walk)
  }

  lemma SaneAlways(p: Walk, acts: seq<Action>)
    requires IsWalk2(p) && Runs(p, Init(p), acts)
    ensures Sane(p, Exec(p, Init(p), acts))
  {
    LinkedAlways(p, Init(p), acts);
    var walk := WalkProjection(p, Init(p), acts);
    WD.InitInv(p);
    WD.InvAlways(p, WD.Init(p), walk);
    var cache := CacheProjection(p, Init(p), acts);
    Cache.InvAlways(Cache.Init, cache);
  }

  // ---- no step of the walk waits for the prefetcher

  /** The lock of the cache gets free. */
  lemma LockMoves(p: Walk, s: State)
    requires Cache.Inv(s.cache) && s.cache.lock.Some?
    ensures Enabled(p, s, Caching(Cache.Register))
  {
  }

  /** The cache's goroutine of a call can go on, at the latest when the other one is gone. */
  lemma CacheMoves(p: Walk, s: State, i: nat) returns (a: Action)
    requires Tied(p, s) && i in s.calls && s.calls[i].race.phase[0].Asking? && s.calls[i].race.phase[1].Gone?
    ensures Enabled(p, s, a) && WalkSide(a)
  {
    assert GoodCall(p, s, i);
    var call := s.calls[i];
    if s.cache.lock.Some? {
      LockMoves(p, s);
      return Caching(Cache.Register);
    }
    if call.getter.None? {
      return Look(i);
    }
    a := GetterMoves(p, s, i, call.getter.value);
  }

  lemma GetterMoves(p: Walk, s: State, i: nat, g: nat) returns (a: Action)
    requires Tied(p, s) && i in s.calls && s.calls[i].race.phase[0].Asking? && s.calls[i].race.phase[1].Gone?
    requires s.cache.lock.None? && s.calls[i].getter == Some(g)
    ensures Enabled(p, s, a) && WalkSide(a)
  {
    assert GoodCall(p, s, i) && Cache.GoodGetter(s.cache, g);
    match s.cache.getters[g].phase
    case Parked => a := Abandon(i);
    case Woken => a := Caching(Cache.Recheck(g));
    case Found => a := Racing(i, Race.Answer(0, Race.NodeOf(p.store, s.calls[i].c)));
    case Abandoned => a := Racing(i, Race.Answer(0, None));
  }

  /** A call can go on. The session's goroutine answers when nothing else is left to do. */
  lemma CallMoves(p: Walk, s: State, i: nat) returns (a: Action)
    requires Tied(p, s) && i in s.calls
    ensures Enabled(p, s, a) && WalkSide(a)
  {
    assert GoodCall(p, s, i);
    var race := s.calls[i].race;
    if !race.result.Pending? {
      return Deliver(i);
    }
    var r := Race.Moves(race);
    if r.Some? {
      return Racing(i, r.value);
    }
    if race.phase[1].Asking? {
      return Racing(i, Race.Answer(1, Race.NodeOf(p.store, s.calls[i].c)));
    }
    a := CacheMoves(p, s, i);
  }

  lemma FetchMoves(p: Walk, s: State, i: nat) returns (a: Action)
    requires Tied(p, s) && WD.FetchedBy(s.walk, i).Some? && s.closure.None?
    ensures Enabled(p, s, a) && WalkSide(a)
  {
    if i in s.calls {
      a := CallMoves(p, s, i);
    } else {
      a := Begin(i);
    }
  }

  /** A step of the walk itself, or what it waits for. */
  lemma WalkMoves(p: Walk, s: State, w: WD.Action) returns (a: Action)
    requires IsWalk2(p) && Tied(p, s) && s.closure.None? && WD.Enabled(p, s.walk, w) && WD.Real(w)
    ensures Enabled(p, s, a) && WalkSide(a)
  {
    if WD.IsGet(w) {
      var i := if w.Many? then w.pa.w else 0;
      a := FetchMoves(p, s, i);
    } else {
      a := Walking(w);
    }
  }

  /** In every reachable state in which the walk has not returned there is a step to take on its
      side: it never waits for the requester, for a block to arrive or for an alert. */
  lemma NeverBlocked(p: Walk, acts: seq<Action>) returns (a: Action)
    requires IsWalk2(p) && Runs(p, Init(p), acts) && !WD.Returned(Exec(p, Init(p), acts).walk)
    ensures Enabled(p, Exec(p, Init(p), acts), a) && WalkSide(a)
  {
    var s := Exec(p, Init(p), acts);
    SaneAlways(p, acts);
    if s.credit.visitor.Some? {
      return Prefetching(Credit.Settle);
    }
    if s.closure.Some? {
      return Increment;
    }
    var w := WD.NoDeadlock(p, s.walk);
    a := WalkMoves(p, s, w);
  }

  // ---- and there are finitely many of them

  /** The steps that are left of the fetch of worker `i`, but for its getter in the cache. */
  function CallWork(s: State, i: nat): nat {
    if WD.FetchedBy(s.walk, i).None? then 0
    else if i !in s.calls then 14
    else Race.Work(s.calls[i].race) + if s.calls[i].getter.None? then 6 else 0
  }

  function CallsWork(s: State, n: nat): nat {
    if n == 0 then 0 else CallsWork(s, n - 1) + CallWork(s, n - 1)
  }

  function Workers(w: WD.Walker): nat {
    match w case Parallel(s) => |s.workers| case Sequential(_) => 1
  }

  /** The steps that are left before the walker itself takes its next one. */
  function Work(s: State): nat {
    CallsWork(s, Workers(s.walk)) + Cache.GettersWork(s.cache.getters)
    + (if s.credit.visitor.Some? then 1 else 0) + (if s.closure.Some? then 1 else 0)
  }

  lemma {:induction false} CallsChange(s: State, s': State, n: nat, i: nat)
    requires forall j | 0 <= j < n && j != i :: CallWork(s', j) == CallWork(s, j)
    ensures i < n ==> CallsWork(s', n) == CallsWork(s, n) - CallWork(s, i) + CallWork(s', i)
    ensures i >= n ==> CallsWork(s', n) == CallsWork(s, n)
    decreases n
  {
    if n > 0 { CallsChange(s, s', n - 1, i); }
  }

  lemma FetcherIsWorker(w: WD.Walker, i: nat)
    requires WD.FetchedBy(w, i).Some?
    ensures i < Workers(w)
  {
  }

  /** The call of worker `i` changes. */
  lemma CallLess(s: State, s': State, i: nat, call: Call)
    requires WD.FetchedBy(s.walk, i).Some? && s' == s.(calls := s.calls[i := call], cache := s'.cache)
    ensures Work(s') == Work(s) - CallWork(s, i) + CallWork(s', i)
                        - Cache.GettersWork(s.cache.getters) + Cache.GettersWork(s'.cache.getters)
  {
    FetcherIsWorker(s.walk, i);
    CallsChange(s, s', Workers(s.walk), i);
  }

  lemma BeginLess(p: Walk, s: State, i: nat)
    requires Enabled(p, s, Begin(i))
    ensures Work(Apply(p, s, Begin(i))) < Work(s)
  {
    var s' := Apply(p, s, Begin(i));
    CallLess(s, s', i, s'.calls[i]);
  }

  lemma LookLess(p: Walk, s: State, i: nat)
    requires Tied(p, s) && Enabled(p, s, Look(i))
    ensures Work(Apply(p, s, Look(i))) < Work(s)
  {
    var s' := Apply(p, s, Look(i));
    assert GoodCall(p, s, i);
    Cache.StepWork(s.cache, Cache.Lookup(s.calls[i].c));
    CallLess(s, s', i, s'.calls[i]);
  }

  lemma RacingLess(p: Walk, s: State, i: nat, r: Race.Action)
    requires Tied(p, s) && Enabled(p, s, Racing(i, r))
    ensures if r.ParentCancel? then Work(Apply(p, s, Racing(i, r))) == Work(s)
            else Work(Apply(p, s, Racing(i, r))) < Work(s)
  {
    var s' := Apply(p, s, Racing(i, r));
    assert GoodCall(p, s, i);
    Race.StepLess(s.calls[i].race, r);
    CallLess(s, s', i, s'.calls[i]);
  }

  lemma SameCalls(s: State, s': State)
    requires s'.walk == s.walk && s'.calls == s.calls
    ensures CallsWork(s', Workers(s'.walk)) == CallsWork(s, Workers(s.walk))
  {
    CallsChange(s, s', Workers(s.walk), Workers(s.walk));
  }

  /** While the walker takes no step, the steps on its side use up the work that is left, and no
      other step adds to it. */
  lemma WorkLess(p: Walk, s: State, a: Action)
    requires Tied(p, s) && Enabled(p, s, a) && !a.Walking? && !a.Deliver?
    ensures Apply(p, s, a).walk == s.walk
    ensures if WalkSide(a) then Work(Apply(p, s, a)) < Work(s) else Work(Apply(p, s, a)) <= Work(s)
  {
    match a
    case Begin(i) => BeginLess(p, s, i);
    case Look(i) => LookLess(p, s, i);
    case Racing(i, r) => RacingLess(p, s, i, r);
    case Caching(k) => CachingLess(s, k);
    case Abandon(i) => CachingLess(s, Cache.GiveUp(s.calls[i].getter.value));
    case _ => ClosureLess(p, s, a);
  }

  lemma ClosureLess(p: Walk, s: State, a: Action)
    requires Enabled(p, s, a) && (a.Prefetching? || a.Increment?)
    ensures if WalkSide(a) then Work(Apply(p, s, a)) < Work(s) else Work(Apply(p, s, a)) == Work(s)
  {
    SameCalls(s, Apply(p, s, a));
  }

  lemma CachingLess(s: State, k: Cache.Action)
    requires Cache.Inv(s.cache) && Cache.Enabled(s.cache, k) && !k.Lookup?
    ensures var s' := s.(cache := Cache.Apply(s.cache, k));
            if k.Put? || k.Alert? then Work(s') == Work(s) else Work(s') < Work(s)
  {
    SameCalls(s, s.(cache := Cache.Apply(s.cache, k)));
    Cache.StepWork(s.cache, k);
  }

  /** The measure of the whole: the walker's, and within it the work of its calls. */
  ghost predicate Less(p: Walk, s': State, s: State) {
    WD.Less(p, s'.walk, s.walk) || (s'.walk == s.walk && Work(s') < Work(s))
  }

  ghost predicate NotMore(p: Walk, s': State, s: State) {
    Less(p, s', s) || (s'.walk == s.walk && Work(s') <= Work(s))
  }

  lemma WalkingLess(p: Walk, s: State, w: WD.Action)
    requires WD.Inv(p, s.walk) && Enabled(p, s, Walking(w))
    ensures if WD.Real(w) then Less(p, Apply(p, s, Walking(w)), s) else NotMore(p, Apply(p, s, Walking(w)), s)
  {
    if w.Many? && w.pa.Tick? {
      SameCalls(s, Apply(p, s, Walking(w)));
    } else {
      WD.StepLess(p, s.walk, w);
    }
  }

  lemma DeliverLess(p: Walk, s: State, i: nat)
    requires Sane(p, s) && Enabled(p, s, Deliver(i))
    ensures Less(p, Apply(p, s, Deliver(i)), s)
  {
    DeliverIsGet(p, s, i);
    WD.StepLess(p, s.walk, WD.GetBy(s.walk, i, Race.AsFetch(s.calls[i].race.result)));
  }

  lemma StepLess(p: Walk, s: State, a: Action)
    requires Sane(p, s) && Enabled(p, s, a)
    ensures if WalkSide(a) then Less(p, Apply(p, s, a), s) else NotMore(p, Apply(p, s, a), s)
  {
    match a
    case Walking(w) => WalkingLess(p, s, w);
    case Deliver(i) => DeliverLess(p, s, i);
    case _ => CallStepLess(p, s, a);
  }

  lemma CallStepLess(p: Walk, s: State, a: Action)
    requires Tied(p, s) && Enabled(p, s, a) && !a.Walking? && !a.Deliver?
    ensures if WalkSide(a) then Less(p, Apply(p, s, a), s) else NotMore(p, Apply(p, s, a), s)
  {
    WorkLess(p, s, a);
  }

  /** In every reachable state, every step on the side of the walk makes a well-founded measure
      smaller, and no other step (of the prefetcher, the receiver or the caller) makes it larger.
      So a run has finitely many steps on the side of the walk. */
  lemma WalkTerminates(p: Walk, acts: seq<Action>, a: Action)
    requires IsWalk2(p) && Runs(p, Init(p), acts) && Enabled(p, Exec(p, Init(p), acts), a)
    ensures var s := Exec(p, Init(p), acts);
            if WalkSide(a) then Less(p, Apply(p, s, a), s) else NotMore(p, Apply(p, s, a), s)
  {
    SaneAlways(p, acts);
    StepLess(p, Exec(p, Init(p), acts), a);
  }
}
