/** `WalkDepth`: the parallel walk when more than one worker is asked for, the sequential one
    otherwise. What both promise, and exactly which error handlers can be trusted with it. */
module WalkDepth {
  import opened Dag
  import opened VisitLog
  import PW = ParallelWalk
  import PI = ParallelInvariant
  import PP = ParallelProgress
  import PT = ParallelTheorems
  import DF = DepthFirst

  datatype Walker = Parallel(par: PW.State) | Sequential(dfs: DF.State)

  datatype Action = Many(pa: PW.Action) | One(sa: DF.Action)

  function Init(p: Walk): Walker {
    if p.concurrency > 1 then Parallel(PW.Init(p)) else Sequential(DF.Init(p))
  }

  predicate Enabled(p: Walk, w: Walker, a: Action) {
    match a
    case Many(pa) => w.Parallel? && PW.Enabled(p, w.par, pa)
    case One(sa) => w.Sequential? && DF.Enabled(p, w.dfs, sa)
  }

  function Apply(p: Walk, w: Walker, a: Action): Walker
    requires Enabled(p, w, a)
  {
    match a
    case Many(pa) => Parallel(PW.Apply(p, w.par, pa))
    case One(sa) => Sequential(DF.Apply(p, w.dfs, sa))
  }

  predicate Runs(p: Walk, w: Walker, acts: seq<Action>)
    decreases |acts|
  {
    acts != [] ==> Enabled(p, w, acts[0]) && Runs(p, Apply(p, w, acts[0]), acts[1..])
  }

  function Exec(p: Walk, w: Walker, acts: seq<Action>): Walker
    requires Runs(p, w, acts)
    decreases |acts|
  {
    if acts == [] then w else Exec(p, Apply(p, w, acts[0]), acts[1..])
  }

  function Seen(w: Walker): Depths {
    match w case Parallel(s) => s.seen case Sequential(s) => s.seen
  }

  function Log(w: Walker): seq<Item> {
    match w case Parallel(s) => s.log case Sequential(s) => s.log
  }

  function Total(w: Walker): nat {
    match w case Parallel(s) => s.total case Sequential(s) => s.total
  }

  /** The walk has decided to return nil. */
  predicate Succeeded(w: Walker) {
    match w
    case Parallel(s) => PT.Succeeded(s)
    case Sequential(s) => DF.Ended(s) && s.failed.None?
  }

  predicate Ended(w: Walker) {
    match w
    case Parallel(s) => !s.coord.Looping?
    case Sequential(s) => DF.Ended(s)
  }

  // ---- fetches and visits, whichever walker is chosen

  /** The CID whose links worker `i` is fetching; the sequential walker is worker 0. */
  function FetchedBy(w: Walker, i: nat): Option<Cid> {
    match w
    case Parallel(s) =>
      if i < |s.workers| && s.workers[i].Fetching? then Some(s.workers[i].item.cid) else None
    case Sequential(s) =>
      if i == 0 && s.failed.None? && s.fetching.Some? then Some(s.fetching.value.cid) else None
  }

  predicate IsGet(a: Action) {
    match a case Many(pa) => pa.Get? case One(sa) => sa.Get?
  }

  predicate IsVisit(a: Action) {
    match a case Many(pa) => pa.Visit? case One(sa) => sa.Visit?
  }

  /** The action in which `getLinks` answers worker `i`, and what it does. */
  function GetBy(w: Walker, i: nat, f: Fetch): Action {
    if w.Parallel? then Many(PW.Get(i, f)) else One(DF.Get(f))
  }

  function Receive(p: Walk, w: Walker, i: nat, f: Fetch): Walker
    requires FetchedBy(w, i).Some?
  {
    match w
    case Parallel(s) => Parallel(PW.ApplyGet(p, s, i, f))
    case Sequential(s) => Sequential(DF.ApplyGet(p, s, f))
  }

  /** The worker that visits. */
  function VisitorOf(a: Action): nat {
    if a.Many? && a.pa.Visit? then a.pa.w else 0
  }

  /** The caller's context may be found done. */
  predicate ContextDone(p: Walk, w: Walker) {
    match w case Parallel(s) => s.cancelled case Sequential(s) => p.cancellable
  }

  /** The CID that an action visits for the first time or at a smaller depth, if any. */
  function FirstVisit(p: Walk, w: Walker, a: Action): Option<Cid>
    requires Enabled(p, w, a)
  {
    if !IsVisit(a) then None
    else
      var x := match w case Parallel(s) => s.workers[a.pa.w].item case Sequential(s) => s.todo[0];
      if !Skipped(p, x) && !Covered(p.limit, Seen(w), x) then Some(x.cid) else None
  }

  lemma SeenChanges(p: Walk, w: Walker, a: Action)
    requires Enabled(p, w, a)
    ensures Seen(Apply(p, w, a)).Keys == Seen(w).Keys + (match FirstVisit(p, w, a) case None => {} case Some(c) => {c})
  {
    match a
    case Many(pa) => ParallelSeen(p, w.par, pa);
    case One(sa) =>
  }

  /** What is visited for the first time is fetched next, by a worker that fetched nothing. */
  lemma VisitThenFetch(p: Walk, w: Walker, a: Action)
    requires Enabled(p, w, a) && FirstVisit(p, w, a).Some?
    ensures FetchedBy(w, VisitorOf(a)).None? && FetchedBy(Apply(p, w, a), VisitorOf(a)) == FirstVisit(p, w, a)
  {
  }

  lemma ParallelSeen(p: Walk, s: PW.State, a: PW.Action)
    requires PW.Enabled(p, s, a)
    ensures !a.Visit? ==> PW.Apply(p, s, a).seen == s.seen
  {
    match a
    case Emit(w) => assert PW.ApplyEmit(s, w).seen == s.seen;
    case _ =>
  }

  /** A fetch goes on until it is answered. */
  lemma FetchGoesOn(p: Walk, w: Walker, a: Action, i: nat)
    requires Enabled(p, w, a) && !IsGet(a) && FetchedBy(w, i).Some?
    ensures FetchedBy(Apply(p, w, a), i) == FetchedBy(w, i)
  {
    match a
    case Many(pa) => WorkerGoesOn(p, w.par, pa, i);
    case One(sa) =>
  }

  lemma WorkerGoesOn(p: Walk, s: PW.State, a: PW.Action, i: nat)
    requires PW.Enabled(p, s, a) && !a.Get? && i < |s.workers| && s.workers[i].Fetching?
    ensures |PW.Apply(p, s, a).workers| == |s.workers| && PW.Apply(p, s, a).workers[i] == s.workers[i]
  {
    match a
    case Feed(w) => assert w != i;
    case Visit(w) => assert w != i;
    case Emit(w) => assert w != i;
    case Finish(w) => assert w != i;
    case Raise(_) => OthersGoOn(p, s, a, i);
    case Abandon(_) => OthersGoOn(p, s, a, i);
    case Forget(_) => OthersGoOn(p, s, a, i);
    case Leave(_) => OthersGoOn(p, s, a, i);
    case _ =>
  }

  lemma OthersGoOn(p: Walk, s: PW.State, a: PW.Action, i: nat)
    requires PW.Enabled(p, s, a) && (a.Raise? || a.Abandon? || a.Forget? || a.Leave?)
    requires i < |s.workers| && s.workers[i].Fetching?
    ensures |PW.Apply(p, s, a).workers| == |s.workers| && PW.Apply(p, s, a).workers[i] == s.workers[i]
  {
    assert a.w != i;
  }

  /** An answer visits nothing, and leaves the other fetches alone. */
  lemma ReceiveKeeps(p: Walk, w: Walker, i: nat, f: Fetch)
    requires FetchedBy(w, i).Some?
    ensures Seen(Receive(p, w, i, f)) == Seen(w)
    ensures forall j: nat | j != i :: FetchedBy(Receive(p, w, i, f), j) == FetchedBy(w, j)
  {
  }

  // ---- what both walkers promise

  ghost predicate Inv(p: Walk, w: Walker) {
    match w
    case Parallel(s) => p.concurrency > 1 && PI.Inv(p, s) && PP.Deep(s)
    case Sequential(s) => DF.Inv(p, s) && DF.Deep(s)
  }

  lemma InitInv(p: Walk)
    ensures Inv(p, Init(p))
  {
    PI.InitInv(p);
    DF.InitInv(p);
  }

  lemma InvKept(p: Walk, w: Walker, a: Action)
    requires Inv(p, w) && Enabled(p, w, a)
    ensures Inv(p, Apply(p, w, a))
  {
    match a
    case Many(pa) =>
      PI.InvKept(p, w.par, pa);
      PP.DeepKept(p, w.par, pa);
    case One(sa) =>
      DF.InvKept(p, w.dfs, sa);
      DF.StepLess(p, w.dfs, sa);
  }

  lemma {:induction false} InvAlways(p: Walk, w: Walker, acts: seq<Action>)
    requires Inv(p, w) && Runs(p, w, acts)
    ensures Inv(p, Exec(p, w, acts))
    decreases |acts|
  {
    if acts != [] {
      InvKept(p, w, acts[0]);
      InvAlways(p, Apply(p, w, acts[0]), acts[1..]);
    }
  }

  // ---- progress

  /** The walk has returned. */
  predicate Returned(w: Walker) {
    match w
    case Parallel(s) => s.coord.Returned?
    case Sequential(s) => DF.Ended(s)
  }

  /** A real step of the walk: neither the ticker nor the caller's cancellation. */
  predicate Real(a: Action) {
    a.Many? ==> !a.pa.Tick? && !a.pa.CancelParent?
  }

  /** The measure of a walk, in the order of its weight. */
  ghost function Potential(p: Walk, w: Walker): nat {
    match w case Parallel(s) => PP.Potential(p, s) case Sequential(s) => DF.Potential(p, s)
  }

  ghost function Expansions(w: Walker): nat {
    match w case Parallel(s) => PP.Expansions(s) case Sequential(s) => DF.Expansions(s)
  }

  ghost function Waiting(w: Walker): nat {
    match w case Parallel(s) => PP.Waiting(s) case Sequential(s) => |s.todo|
  }

  ghost function Phases(w: Walker): nat {
    match w case Parallel(s) => PP.Phases(s) case Sequential(s) => 0
  }

  ghost predicate Less(p: Walk, w': Walker, w: Walker) {
    || Potential(p, w') < Potential(p, w)
    || (Potential(p, w') == Potential(p, w) && Expansions(w') < Expansions(w))
    || (Potential(p, w') == Potential(p, w) && Expansions(w') == Expansions(w) && Waiting(w') < Waiting(w))
    || (Potential(p, w') == Potential(p, w) && Expansions(w') == Expansions(w) && Waiting(w') == Waiting(w) &&
        Phases(w') < Phases(w))
  }

  /** Every step but the ticker makes the measure smaller, with either walker. */
  lemma StepLess(p: Walk, w: Walker, a: Action)
    requires Inv(p, w) && Enabled(p, w, a) && (a.Many? ==> !a.pa.Tick?)
    ensures Less(p, Apply(p, w, a), w)
  {
    match a
    case Many(pa) => PP.StepLess(p, w.par, pa);
    case One(sa) => DF.StepLess(p, w.dfs, sa);
  }

  /** Until it has returned the walk has a real step to take. */
  lemma NoDeadlock(p: Walk, w: Walker) returns (a: Action)
    requires Inv(p, w) && !Returned(w)
    ensures Enabled(p, w, a) && Real(a)
  {
    match w
    case Parallel(s) =>
      var pa := PP.NoDeadlock(p, s);
      a := Many(pa);
    case Sequential(s) =>
      var sa := DF.NoDeadlock(p, s);
      a := One(sa);
  }

  /** Every walk can be brought to its end. */
  lemma {:induction false} Completes(p: Walk, w: Walker) returns (acts: seq<Action>)
    requires Inv(p, w)
    ensures Runs(p, w, acts) && Returned(Exec(p, w, acts))
    decreases Potential(p, w), Expansions(w), Waiting(w), Phases(w)
  {
    acts := [];
    if !Returned(w) {
      var a := NoDeadlock(p, w);
      InvKept(p, w, a);
      StepLess(p, w, a);
      var rest := Completes(p, Apply(p, w, a));
      RunOne(p, w, a, rest);
      acts := [a] + rest;
    }
  }

  /** Both walkers, over every schedule and every answer of the getter: what has been visited is
      really there and the progress total counts it; nil from a walk whose handler lets made-up
      errors through means that everything was readable and that the visit map is exact. */
  lemma WalkTheorem(p: Walk, acts: seq<Action>)
    requires Runs(p, Init(p), acts)
    ensures var w := Exec(p, Init(p), acts);
            && Counted(p, Seen(w), Log(w), Total(w))
            && (forall c | c in Seen(w) :: InScope(p, Seen(w)[c]) && At(p, c, Seen(w)[c]))
            && (Surfaces(p) && Succeeded(w) ==> Exact(p, Seen(w)) && Readable(p))
  {
    var w := Exec(p, Init(p), acts);
    InitInv(p);
    InvAlways(p, Init(p), acts);
    RecordedIsReal(p, Seen(w), Log(w));
    if Surfaces(p) && Succeeded(w) { SucceededExact(p, w); }
  }

  /** A walk that has succeeded fetches nothing any more. */
  lemma SucceededIdle(p: Walk, w: Walker, i: nat)
    requires Inv(p, w) && Succeeded(w)
    ensures FetchedBy(w, i).None?
  {
    if w.Parallel? { PT.SuccessDrained(p, w.par); }
  }

  /** Without cancellation and made-up errors either walker succeeds exactly on readable DAGs. */
  lemma SuccessTheorem(p: Walk, acts: seq<Action>)
    requires Runs(p, Init(p), acts) && Undisturbed(p) && Ended(Exec(p, Init(p), acts))
    ensures Succeeded(Exec(p, Init(p), acts)) <==> Readable(p)
  {
    InitInv(p);
    InvAlways(p, Init(p), acts);
    EndedReadable(p, Exec(p, Init(p), acts));
  }

  lemma EndedReadable(p: Walk, w: Walker)
    requires Inv(p, w) && Undisturbed(p) && Ended(w)
    ensures Succeeded(w) <==> Readable(p)
  {
    match w
    case Parallel(s) => PT.SuccessMeansReadable(p, s);
    case Sequential(s) => DF.EndedReadable(p, s);
  }

  lemma SucceededExact(p: Walk, w: Walker)
    requires Inv(p, w) && Surfaces(p) && Succeeded(w)
    ensures Exact(p, Seen(w)) && Readable(p)
  {
    match w
    case Parallel(s) => PT.SuccessInv(p, s);
    case Sequential(s) => DF.EndedExact(p, s);
  }

  // ---- the plain walk

  lemma PlainStep(p: Walk, w: Walker, a: Action)
    requires Enabled(Plain(p), w, a)
    ensures Enabled(p, w, a) && Apply(p, w, a) == Apply(Plain(p), w, a)
  {
    match a
    case Many(pa) => PlainParallel(p, w.par, pa);
    case One(sa) => PlainSequential(p, w.dfs, sa);
  }

  lemma PlainParallel(p: Walk, s: PW.State, a: PW.Action)
    requires PW.Enabled(Plain(p), s, a)
    ensures PW.Enabled(p, s, a) && PW.Apply(p, s, a) == PW.Apply(Plain(p), s, a)
  {
    match a
    case Visit(w) => assert PW.ApplyVisit(p, s, w) == PW.ApplyVisit(Plain(p), s, w);
    case Get(w, f) => assert PW.Told(p, s.workers[w].item, f) == PW.Told(Plain(p), s.workers[w].item, f);
    case _ =>
  }

  lemma PlainSequential(p: Walk, s: DF.State, a: DF.Action)
    requires DF.Enabled(Plain(p), s, a)
    ensures DF.Enabled(p, s, a) && DF.Apply(p, s, a) == DF.Apply(Plain(p), s, a)
  {
  }

  /** What the plain walk does, the walk of `Walk2` can do. */
  lemma {:induction false} PlainRuns(p: Walk, w: Walker, acts: seq<Action>)
    requires Runs(Plain(p), w, acts)
    ensures Runs(p, w, acts) && Exec(p, w, acts) == Exec(Plain(p), w, acts)
    decreases |acts|
  {
    if acts != [] {
      PlainStep(p, w, acts[0]);
      PlainRuns(p, Apply(p, w, acts[0]), acts[1..]);
    }
  }

  /** The walk so far is one that the plain walk could have made: nothing has gone wrong. */
  ghost predicate Unharmed(p: Walk, w: Walker) {
    exists walk :: Runs(Plain(p), Init(Plain(p)), walk) && Exec(Plain(p), Init(Plain(p)), walk) == w
  }

  lemma UnharmedInv(p: Walk, w: Walker)
    requires Unharmed(p, w)
    ensures Inv(Plain(p), w)
  {
    var q := Plain(p);
    var walk :| Runs(q, Init(q), walk) && Exec(q, Init(q), walk) == w;
    InitInv(q);
    InvAlways(q, Init(q), walk);
  }

  // ---- which handlers can be trusted

  /** A schedule on which the walk returns nil with a visit map that is not the answer. */
  ghost predicate Fooled(p: Walk, acts: seq<Action>) {
    Runs(p, Init(p), acts) && Succeeded(Exec(p, Init(p), acts)) && !Exact(p, Seen(Exec(p, Init(p), acts)))
  }

  const A := Cid(0x71, "a")
  const B := Cid(0x55, "b")

  /** Two blocks, one linking to the other. */
  function Pair(handler: Handler, spurious: set<Error>, late: set<Error>, cancellable: bool, workers: nat): Walk {
    Walk(map[A := Links([B]), B := Links([])], handler, A, -1, false, workers, spurious, late, cancellable)
  }

  ghost predicate IsPair(p: Walk) {
    p == Pair(p.handler, p.spurious, p.late, p.cancellable, p.concurrency)
  }

  lemma RunOne(p: Walk, w: Walker, a: Action, rest: seq<Action>)
    requires Enabled(p, w, a) && Runs(p, Apply(p, w, a), rest)
    ensures Runs(p, w, [a] + rest) && Exec(p, w, [a] + rest) == Exec(p, Apply(p, w, a), rest)
  {
    assert ([a] + rest)[1..] == rest;
  }

  /** Nothing but the first block has been visited. */
  predicate OnlyFirst(w: Walker) {
    Succeeded(w) && Seen(w) == map[A := 0]
  }

  /** The worker that fetches the first block gets an error that its handler swallows. */
  lemma SwallowedFetch(p: Walk, s: PW.State, e: Error) returns (acts: seq<Action>)
    requires |s.workers| > 0 && s.workers[0] == PW.Fetching(Item(A, 0)) && s.coord.Looping?
    requires s.next.None? && s.queue == [] && s.inProgress == 1 && s.seen == map[A := 0]
    requires p.handler(e).None? && MayAnswer(p, s.cancelled, A, Failed(e))
    ensures Runs(p, Parallel(s), acts) && OnlyFirst(Exec(p, Parallel(s), acts))
  {
    var s1 := PW.Apply(p, s, PW.Get(0, Failed(e)));
    assert s1.workers[0] == PW.Sending(Item(A, 0), []);
    var s2 := PW.Apply(p, s1, PW.Emit(0));
    assert s2.workers[0] == PW.Finishing && s2.next.None?;
    var s3 := PW.Apply(p, s2, PW.Finish(0));
    RunOne(p, Parallel(s2), Many(PW.Finish(0)), []);
    RunOne(p, Parallel(s1), Many(PW.Emit(0)), [Many(PW.Finish(0))]);
    acts := [Many(PW.Get(0, Failed(e)))] + ([Many(PW.Emit(0))] + [Many(PW.Finish(0))]);
    RunOne(p, Parallel(s), Many(PW.Get(0, Failed(e))), [Many(PW.Emit(0))] + [Many(PW.Finish(0))]);
  }

  lemma ParallelMishap(p: Walk, s: PW.State, e: Error) returns (acts: seq<Action>)
    requires IsPair(p) && p.concurrency > 1 && p.handler(e).None?
    requires s == PW.Init(p).(cancelled := s.cancelled) && MayAnswer(p, s.cancelled, A, Failed(e))
    ensures Runs(p, Parallel(s), acts) && OnlyFirst(Exec(p, Parallel(s), acts))
  {
    var s1 := PW.Apply(p, s, PW.Feed(0));
    assert s1.workers[0] == PW.Visiting(Item(A, 0));
    var s2 := PW.Apply(p, s1, PW.Visit(0));
    var rest := SwallowedFetch(p, s2, e);
    RunOne(p, Parallel(s1), Many(PW.Visit(0)), rest);
    RunOne(p, Parallel(s), Many(PW.Feed(0)), [Many(PW.Visit(0))] + rest);
    acts := [Many(PW.Feed(0))] + ([Many(PW.Visit(0))] + rest);
  }

  lemma SequentialMishap(p: Walk, e: Error) returns (acts: seq<Action>)
    requires IsPair(p) && p.handler(e).None? && MayAnswer(p, p.cancellable, A, Failed(e))
    ensures Runs(p, Sequential(DF.Init(p)), acts) && OnlyFirst(Exec(p, Sequential(DF.Init(p)), acts))
  {
    var s := DF.Init(p);
    var s1 := DF.Apply(p, s, DF.Visit);
    var s2 := DF.Apply(p, s1, DF.Get(Failed(e)));
    assert s2.todo == [];
    RunOne(p, Sequential(s1), One(DF.Get(Failed(e))), []);
    RunOne(p, Sequential(s), One(DF.Visit), [One(DF.Get(Failed(e)))]);
    acts := [One(DF.Visit)] + [One(DF.Get(Failed(e)))];
  }

  lemma SecondReached(p: Walk)
    requires IsPair(p)
    ensures Reached(p, B)
  {
    assert At(p, A, 0) && B in Children(p, A);
    AtStep(p, 0, A, B);
    assert InScope(p, 1) && At(p, B, 1);
  }

  /** A handler that swallows an error which is not about the content turns a failed fetch into
      a block without links, and the walk into a false success, whichever walker is chosen. */
  lemma SwallowedError(p: Walk) returns (acts: seq<Action>)
    requires IsPair(p) && !Surfaces(p)
    ensures Fooled(p, acts) && Reached(p, B) && B !in Seen(Exec(p, Init(p), acts))
  {
    SecondReached(p);
    var e :| e in MadeUp(p) && p.handler(e).None?;
    if p.concurrency <= 1 {
      acts := SequentialMishap(p, e);
    } else if e in p.spurious {
      acts := ParallelMishap(p, PW.Init(p), e);
    } else {
      var s := PW.Apply(p, PW.Init(p), PW.CancelParent);
      var rest := ParallelMishap(p, s, e);
      RunOne(p, Init(p), Many(PW.CancelParent), rest);
      acts := [Many(PW.CancelParent)] + rest;
    }
  }

  /** Whatever the DAG, the options and the schedule, nil means an exact visit map. */
  ghost predicate Trusted(handler: Handler, spurious: set<Error>, late: set<Error>, cancellable: bool, workers: nat) {
    forall p: Walk, acts: seq<Action> |
      && p.handler == handler && p.spurious == spurious && p.late == late
      && p.cancellable == cancellable && p.concurrency == workers ::
      !Fooled(p, acts)
  }

  /** A walk with any given number of workers, over a getter that may make up the errors
      `spurious` and, once cancelled, `late`, can be trusted exactly when its handler lets all
      the errors through that can occur. */
  lemma TrustedHandlers(handler: Handler, spurious: set<Error>, late: set<Error>, cancellable: bool, workers: nat)
    ensures Trusted(handler, spurious, late, cancellable, workers) <==>
            forall e | e in spurious || (cancellable && e in late) :: handler(e).Some?
  {
    var q := Pair(handler, spurious, late, cancellable, workers);
    if Surfaces(q) {
      forall p: Walk, acts: seq<Action> |
        && p.handler == handler && p.spurious == spurious && p.late == late
        && p.cancellable == cancellable && p.concurrency == workers
        ensures !Fooled(p, acts)
      {
        if Fooled(p, acts) { WalkTheorem(p, acts); }
      }
      assert forall e | e in spurious || (cancellable && e in late) :: e in MadeUp(q);
    } else {
      var acts := SwallowedError(q);
    }
  }

  /** The handlers of the walk options, when the getter reports nothing but the content and, once
      cancelled, the cancellation: only IgnoreErrors cannot be trusted, and only with a context
      that may be cancelled. */
  lemma OptionHandlers(cancellable: bool, workers: nat)
    ensures Trusted(NoHandler, {}, {Canceled}, cancellable, workers)
    ensures Trusted(IgnoreMissing, {}, {Canceled}, cancellable, workers)
    ensures Trusted(IgnoreErrors, {}, {Canceled}, cancellable, workers) <==> !cancellable
  {
    TrustedHandlers(NoHandler, {}, {Canceled}, cancellable, workers);
    TrustedHandlers(IgnoreMissing, {}, {Canceled}, cancellable, workers);
    TrustedHandlers(IgnoreErrors, {}, {Canceled}, cancellable, workers);
    assert Canceled in {Canceled};
  }
}
