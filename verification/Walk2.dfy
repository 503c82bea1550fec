/** `Walk2`: the walk, the credit-limited prefetcher, the block receiver with its cache, and for
    every fetch of the walk a race between that cache and the session. The parts meet in the
    visit closure, which feeds the credit protocol, and in the fetches, which the prefetched
    blocks may win. */
module Walk2 {
  import opened Dag
  import opened VisitLog
  import WD = WalkDepth
  import Credit
  import Cache
  import Race

  /** One call of `multing.Get`: its race, and its getter in the cache once that has looked. */
  datatype Call = Call(c: Cid, race: Race.State, getter: Option<nat>)

  /** `calls` has the call of each worker that is fetching, `closure` the worker whose visit closure
      has answered true in its first section and has not returned yet. `total` is the progress. */
  datatype State = State(
    walk: WD.Walker, credit: Credit.State, cache: Cache.State, calls: map<nat, Call>,
    closure: Option<nat>, total: nat)

  function Init(p: Walk): State {
    State(WD.Init(p), Credit.Init, Cache.Init, map[], None, 0)
  }

  datatype Action =
    | Walking(w: WD.Action)             // the walk, but for the answers of getLinks
    | Prefetching(c: Credit.Action)     // requester and second visitor section
    | Increment                         // pt.Increment(), and the closure returns
    | Caching(k: Cache.Action)          // the receiver, and getters in the cache
    | Begin(i: nat)                     // worker i calls multing.Get
    | Look(i: nat)                      // its first goroutine looks into the cache
    | Abandon(i: nat)                   // its getter finds the shared context done
    | Racing(i: nat, r: Race.Action)    // any other step of the call
    | Deliver(i: nat)                   // the call has returned: getLinks answers

  /** The answer of the call's getter in the cache, if it has one: with content addressing the
      block found is the content of the CID asked for. */
  function CacheAnswer(p: Walk, s: State, call: Call): Option<Option<Race.Node>> {
    if call.getter.None? || call.getter.value >= |s.cache.getters| then None
    else
      match s.cache.getters[call.getter.value].phase
      case Found => Some(Race.NodeOf(p.store, call.c))
      case Absent => Some(None)
      case Abandoned => Some(None)
      case _ => None
  }

  /** The cache's goroutine answers with its getter, the session's with the content or an error. */
  predicate MayRace(p: Walk, s: State, call: Call, a: Race.Action) {
    match a
    case Answer(i, node) =>
      if i == 0 then CacheAnswer(p, s, call) == Some(node)
      else node.None? || node == Race.NodeOf(p.store, call.c)
    case ParentCancel => WD.ContextDone(p, s.walk)
    case _ => true
  }

  /** The visit lock is held until the closure returns, and its worker fetches only then. */
  predicate Enabled(p: Walk, s: State, a: Action) {
    match a
    case Walking(w) =>
      && WD.Enabled(p, s.walk, w) && !WD.IsGet(w)
      && (WD.IsVisit(w) ==> s.closure.None?)
      && (match WD.FirstVisit(p, s.walk, w)
          case None => true
          case Some(c) => Credit.Enabled(s.credit, Credit.Visit(c)))
    case Prefetching(c) =>
      Credit.Enabled(s.credit, c) && !c.Visit? && (c.Cancel? ==> WD.ContextDone(p, s.walk))
    case Increment => s.closure.Some? && s.credit.visitor.None?
    case Caching(k) => Cache.Enabled(s.cache, k) && !k.Lookup? && !k.GiveUp?
    case Begin(i) => WD.FetchedBy(s.walk, i).Some? && i !in s.calls && s.closure != Some(i)
    case Look(i) => i in s.calls && s.calls[i].getter.None? && Cache.Enabled(s.cache, Cache.Lookup(s.calls[i].c))
    case Abandon(i) =>
      && i in s.calls && s.calls[i].getter.Some? && Race.Done(s.calls[i].race)
      && Cache.Enabled(s.cache, Cache.GiveUp(s.calls[i].getter.value))
    case Racing(i, r) => i in s.calls && Race.Enabled(s.calls[i].race, r) && MayRace(p, s, s.calls[i], r)
    case Deliver(i) => i in s.calls && !s.calls[i].race.result.Pending? && WD.FetchedBy(s.walk, i).Some?
  }

  function Apply(p: Walk, s: State, a: Action): State
    requires Enabled(p, s, a)
  {
    match a
    case Walking(w) =>
      (match WD.FirstVisit(p, s.walk, w)
       case None => s.(walk := WD.Apply(p, s.walk, w))
       case Some(c) =>
         s.(walk := WD.Apply(p, s.walk, w), credit := Credit.Apply(s.credit, Credit.Visit(c)),
            closure := Some(WD.VisitorOf(w))))
    case Prefetching(c) => s.(credit := Credit.Apply(s.credit, c))
    case Increment => s.(closure := None, total := s.total + 1)
    case Caching(k) => s.(cache := Cache.Apply(s.cache, k))
    case Begin(i) => s.(calls := s.calls[i := Call(WD.FetchedBy(s.walk, i).value, Race.Init, None)])
    case Look(i) =>
      s.(cache := Cache.Apply(s.cache, Cache.Lookup(s.calls[i].c)),
         calls := s.calls[i := s.calls[i].(getter := Some(|s.cache.getters|))])
    case Abandon(i) => s.(cache := Cache.Apply(s.cache, Cache.GiveUp(s.calls[i].getter.value)))
    case Racing(i, r) => s.(calls := s.calls[i := s.calls[i].(race := Race.Apply(s.calls[i].race, r))])
    case Deliver(i) =>
      s.(walk := WD.Receive(p, s.walk, i, Race.AsFetch(s.calls[i].race.result)), calls := s.calls - {i})
  }

  predicate Runs(p: Walk, s: State, acts: seq<Action>)
    decreases |acts|
  {
    acts != [] ==> Enabled(p, s, acts[0]) && Runs(p, Apply(p, s, acts[0]), acts[1..])
  }

  function Exec(p: Walk, s: State, acts: seq<Action>): State
    requires Runs(p, s, acts)
    decreases |acts|
  {
    if acts == [] then s else Exec(p, Apply(p, s, acts[0]), acts[1..])
  }

  /** The walk of `Walk2`: visited-set visits. Whatever goes wrong in a call, and also when the
      context is done, `multing.Get` reports ErrNotFound. */
  predicate IsWalk2(p: Walk) {
    p.limit < 0 && p.spurious == {NotFound} && p.late == {}
  }

  // ---- what ties the parts together

  /** The getters of a call tell the truth. */
  predicate GoodRace(p: Walk, call: Call) {
    Race.Inv(call.race) && Race.Truthful(call.race, Race.NodeOf(p.store, call.c))
  }

  /** A call is for the CID its worker fetches. */
  predicate GoodCall(p: Walk, s: State, i: nat)
    requires i in s.calls
  {
    var call := s.calls[i];
    && WD.FetchedBy(s.walk, i) == Some(call.c)
    && GoodRace(p, call)
    && (call.getter.Some? ==> call.getter.value < |s.cache.getters| && s.cache.getters[call.getter.value].c == call.c)
  }

  /** A closure that has not returned belongs to a worker that is about to fetch, and is not yet
      counted in the progress. */
  predicate GoodClosure(s: State) {
    match s.closure
    case None => s.credit.visitor.None? && s.total == |s.credit.cset|
    case Some(i) => WD.FetchedBy(s.walk, i).Some? && i !in s.calls && s.total + 1 == |s.credit.cset|
  }

  predicate Linked(p: Walk, s: State) {
    && s.credit.cset == WD.Seen(s.walk).Keys
    && GoodClosure(s)
    && forall i | i in s.calls :: GoodCall(p, s, i)
  }

  lemma WalkingKept(p: Walk, s: State, w: WD.Action)
    requires Linked(p, s) && Enabled(p, s, Walking(w))
    ensures Linked(p, Apply(p, s, Walking(w)))
  {
    var s' := Apply(p, s, Walking(w));
    WD.SeenChanges(p, s.walk, w);
    forall i | i in s'.calls ensures GoodCall(p, s', i) {
      assert GoodCall(p, s, i);
      WD.FetchGoesOn(p, s.walk, w, i);
    }
    ClosureKept(p, s, w);
  }

  lemma ClosureKept(p: Walk, s: State, w: WD.Action)
    requires Linked(p, s) && Enabled(p, s, Walking(w))
    ensures GoodClosure(Apply(p, s, Walking(w)))
  {
    if WD.FirstVisit(p, s.walk, w).Some? {
      assert forall j | j in s.calls :: GoodCall(p, s, j) && WD.FetchedBy(s.walk, j).Some?;
      WD.VisitThenFetch(p, s.walk, w);
    } else if s.closure.Some? {
      WD.FetchGoesOn(p, s.walk, w, s.closure.value);
    }
  }

  /** A step of the cache: no getter is forgotten or changes its CID. */
  lemma CacheKept(p: Walk, s: State, k: Cache.Action)
    requires Linked(p, s) && Cache.Enabled(s.cache, k)
    ensures Linked(p, s.(cache := Cache.Apply(s.cache, k)))
    ensures |Cache.Apply(s.cache, k).getters| == |s.cache.getters| + if k.Lookup? then 1 else 0
  {
    var s' := s.(cache := Cache.Apply(s.cache, k));
    forall i | i in s'.calls ensures GoodCall(p, s', i) { assert GoodCall(p, s, i); }
  }

  lemma RaceKept(p: Walk, s: State, i: nat, r: Race.Action)
    requires Enabled(p, s, Racing(i, r)) && GoodRace(p, s.calls[i])
    ensures GoodRace(p, s.calls[i].(race := Race.Apply(s.calls[i].race, r)))
  {
    Race.InvKept(s.calls[i].race, r);
  }

  lemma RacingKept(p: Walk, s: State, i: nat, r: Race.Action)
    requires Linked(p, s) && Enabled(p, s, Racing(i, r))
    ensures Linked(p, Apply(p, s, Racing(i, r)))
  {
    var s' := Apply(p, s, Racing(i, r));
    assert GoodCall(p, s, i);
    RaceKept(p, s, i, r);
    forall j | j in s'.calls ensures GoodCall(p, s', j) { assert GoodCall(p, s, j); }
  }

  /** What the call delivers is what `getLinks` may answer. */
  lemma DeliverIsGet(p: Walk, s: State, i: nat)
    requires NotFound in p.spurious && Linked(p, s) && Enabled(p, s, Deliver(i))
    ensures var get := WD.GetBy(s.walk, i, Race.AsFetch(s.calls[i].race.result));
            && WD.Enabled(p, s.walk, get)
            && WD.Apply(p, s.walk, get) == Apply(p, s, Deliver(i)).walk
  {
    assert GoodCall(p, s, i);
    Race.RaceAnswers(p, WD.ContextDone(p, s.walk), s.calls[i].c, s.calls[i].race);
  }

  lemma DeliverKept(p: Walk, s: State, i: nat)
    requires Linked(p, s) && Enabled(p, s, Deliver(i))
    ensures Linked(p, Apply(p, s, Deliver(i)))
  {
    var s' := Apply(p, s, Deliver(i));
    WD.ReceiveKeeps(p, s.walk, i, Race.AsFetch(s.calls[i].race.result));
    forall j | j in s'.calls ensures GoodCall(p, s', j) { assert GoodCall(p, s, j); }
  }

  lemma LinkedKept(p: Walk, s: State, a: Action)
    requires NotFound in p.spurious && Linked(p, s) && Enabled(p, s, a)
    ensures Linked(p, Apply(p, s, a))
  {
    match a
    case Walking(w) => WalkingKept(p, s, w);
    case Caching(k) => CacheKept(p, s, k);
    case Abandon(i) => CacheKept(p, s, Cache.GiveUp(s.calls[i].getter.value));
    case Racing(i, r) => RacingKept(p, s, i, r);
    case Deliver(i) => DeliverKept(p, s, i);
    case Look(i) => LookKept(p, s, i);
    case _ => OtherKept(p, s, a);
  }

  lemma LookKept(p: Walk, s: State, i: nat)
    requires Linked(p, s) && Enabled(p, s, Look(i))
    ensures Linked(p, Apply(p, s, Look(i)))
  {
    var s', k := Apply(p, s, Look(i)), Cache.Lookup(s.calls[i].c);
    CacheKept(p, s, k);
    var t := s.(cache := Cache.Apply(s.cache, k));
    assert GoodCall(p, s, i);
    forall j | j in s'.calls ensures GoodCall(p, s', j) { assert GoodCall(p, t, j); }
  }

  lemma OtherKept(p: Walk, s: State, a: Action)
    requires Linked(p, s) && Enabled(p, s, a) && (a.Prefetching? || a.Increment? || a.Begin?)
    ensures Linked(p, Apply(p, s, a))
  {
    var s' := Apply(p, s, a);
    forall i | i in s'.calls ensures GoodCall(p, s', i) {
      if i in s.calls { assert GoodCall(p, s, i); }
    }
  }

  lemma {:induction false} LinkedAlways(p: Walk, s: State, acts: seq<Action>)
    requires NotFound in p.spurious && Linked(p, s) && Runs(p, s, acts)
    ensures Linked(p, Exec(p, s, acts))
    decreases |acts|
  {
    if acts != [] {
      LinkedKept(p, s, acts[0]);
      LinkedAlways(p, Apply(p, s, acts[0]), acts[1..]);
    }
  }

  // ---- projections

  /** The walk's part of a run is a run of the walk whose `getLinks` makes ErrNotFound up: neither
      prefetching nor the race disturbs it in any other way. */
  lemma {:induction false} WalkProjection(p: Walk, s: State, acts: seq<Action>) returns (part: seq<WD.Action>)
    requires NotFound in p.spurious && Linked(p, s) && Runs(p, s, acts)
    ensures WD.Runs(p, s.walk, part) && WD.Exec(p, s.walk, part) == Exec(p, s, acts).walk
    decreases |acts|
  {
    part := [];
    if acts != [] {
      var a, s' := acts[0], Apply(p, s, acts[0]);
      LinkedKept(p, s, a);
      part := WalkProjection(p, s', acts[1..]);
      if a.Walking? {
        WD.RunOne(p, s.walk, a.w, part);
        part := [a.w] + part;
      } else if a.Deliver? {
        var get := WD.GetBy(s.walk, a.i, Race.AsFetch(s.calls[a.i].race.result));
        DeliverIsGet(p, s, a.i);
        WD.RunOne(p, s.walk, get, part);
        part := [get] + part;
      }
    }
  }

  /** The credit protocol's part of a run is a run of it. */
  lemma {:induction false} CreditProjection(p: Walk, s: State, acts: seq<Action>) returns (part: seq<Credit.Action>)
    requires Runs(p, s, acts)
    ensures Credit.Runs(s.credit, part) && Credit.Exec(s.credit, part) == Exec(p, s, acts).credit
    decreases |acts|
  {
    part := [];
    if acts != [] {
      var a := acts[0];
      part := CreditProjection(p, Apply(p, s, a), acts[1..]);
      if a.Walking? && WD.FirstVisit(p, s.walk, a.w).Some? {
        var visit := Credit.Visit(WD.FirstVisit(p, s.walk, a.w).value);
        Credit.RunOne(s.credit, visit, part);
        part := [visit] + part;
      } else if a.Prefetching? {
        Credit.RunOne(s.credit, a.c, part);
        part := [a.c] + part;
      }
    }
  }

  /** The cache's part of a run is a run of it. */
  lemma {:induction false} CacheProjection(p: Walk, s: State, acts: seq<Action>) returns (part: seq<Cache.Action>)
    requires Runs(p, s, acts)
    ensures Cache.Runs(s.cache, part) && Cache.Exec(s.cache, part) == Exec(p, s, acts).cache
    decreases |acts|
  {
    part := [];
    if acts != [] {
      var a := acts[0];
      part := CacheProjection(p, Apply(p, s, a), acts[1..]);
      if a.Caching? || a.Look? || a.Abandon? {
        var k := match a
          case Caching(k) => k
          case Look(i) => Cache.Lookup(s.calls[i].c)
          case Abandon(i) => Cache.GiveUp(s.calls[i].getter.value);
        Cache.RunOne(s.cache, k, part);
        part := [k] + part;
      }
    }
  }

  // ---- what `Walk2` promises

  /** Every run of `Walk2`, whatever the manifest, whichever prefetched blocks arrive and when,
      whoever wins the races, with either walker and any handler: what was visited is really in
      the DAG, the progress total is its number (less one while a visit closure is not done, and
      exactly when nil is returned), the books of the credit protocol are kept, all
      credit is back when the requester is through with a duplicate-free manifest of visited CIDs,
      the requester does not panic, and no wakeup of the cache is lost. When it returns nil and its
      handler lets ErrNotFound through, every reachable CID was readable and the visited CIDs are
      exactly those that the plain walk is to visit. */
  lemma Walk2Theorem(p: Walk, acts: seq<Action>)
    requires IsWalk2(p) && Runs(p, Init(p), acts)
    ensures var s := Exec(p, Init(p), acts);
            && s.total + (if s.closure.Some? then 1 else 0) == |s.credit.cset|
            && (forall c | c in s.credit.cset :: Reached(Plain(p), c))
            && Credit.BooksKept(s.credit)
            && (Credit.Through(s.credit) ==>
                  s.credit.outstanding == {} && s.credit.currentCredit == s.credit.maxCredit)
            && Cache.NothingLost(s.cache)
            && (WD.Succeeded(s.walk) ==> s.total == |s.credit.cset|)
            && (WD.Succeeded(s.walk) && p.handler(NotFound).Some? ==>
                  Readable(p) && forall c :: c in s.credit.cset <==> Reached(Plain(p), c))
  {
    var s := Exec(p, Init(p), acts);
    LinkedAlways(p, Init(p), acts);
    var walk := WalkProjection(p, Init(p), acts);
    WD.WalkTheorem(p, walk);
    PartsTheorem(p, acts);
    assert WD.Seen(s.walk).Keys == s.credit.cset;
    SameDagReached(p, Plain(p));
    if p.handler(NotFound).Some? { assert Surfaces(p); }
    if WD.Succeeded(s.walk) && s.closure.Some? {
      WD.InitInv(p);
      WD.InvAlways(p, WD.Init(p), walk);
      WD.SucceededIdle(p, s.walk, s.closure.value);
    }
  }

  /** Only the receiver puts blocks into the cache. */
  lemma {:induction false} ArrivedBlocks(p: Walk, s: State, acts: seq<Action>)
    requires Runs(p, s, acts)
    ensures forall h :: h in Exec(p, s, acts).cache.stored <==> h in s.cache.stored || Caching(Cache.Put(h)) in acts
    decreases |acts|
  {
    if acts != [] {
      ArrivedBlocks(p, Apply(p, s, acts[0]), acts[1..]);
      assert acts == [acts[0]] + acts[1..];
    }
  }

  /** What the cache has answered is stored. */
  predicate Arrived(s: State) {
    forall i | i in s.calls && Race.FromFirst(s.calls[i].race).Some? :: s.calls[i].c.hash in s.cache.stored
  }

  lemma AnswerArrived(p: Walk, s: State, i: nat, r: Race.Action)
    requires Linked(p, s) && Cache.Inv(s.cache) && Arrived(s) && Enabled(p, s, Racing(i, r))
    ensures Race.FromFirst(Race.Apply(s.calls[i].race, r)).Some? ==> s.calls[i].c.hash in s.cache.stored
  {
    assert GoodCall(p, s, i);
    if r.Answer? && r.i == 0 {
      assert Cache.GoodGetter(s.cache, s.calls[i].getter.value);
    }
  }

  lemma ArrivedKept(p: Walk, s: State, a: Action)
    requires Linked(p, s) && Cache.Inv(s.cache) && Arrived(s) && Enabled(p, s, a)
    ensures Arrived(Apply(p, s, a)) && Cache.Inv(Apply(p, s, a).cache)
  {
    match a
    case Racing(i, r) => AnswerArrived(p, s, i, r);
    case Caching(k) => CacheArrived(s, k);
    case Look(i) => LookArrived(p, s, i);
    case Abandon(i) => CacheArrived(s, Cache.GiveUp(s.calls[i].getter.value));
    case _ => OtherArrived(p, s, a);
  }

  lemma CacheArrived(s: State, k: Cache.Action)
    requires Cache.Inv(s.cache) && Arrived(s) && Cache.Enabled(s.cache, k)
    ensures Arrived(s.(cache := Cache.Apply(s.cache, k))) && Cache.Inv(Cache.Apply(s.cache, k))
  {
    Cache.InvKept(s.cache, k);
  }

  lemma LookArrived(p: Walk, s: State, i: nat)
    requires Cache.Inv(s.cache) && Arrived(s) && Enabled(p, s, Look(i))
    ensures Arrived(Apply(p, s, Look(i))) && Cache.Inv(Apply(p, s, Look(i)).cache)
  {
    CacheArrived(s, Cache.Lookup(s.calls[i].c));
  }

  lemma OtherArrived(p: Walk, s: State, a: Action)
    requires Cache.Inv(s.cache) && Arrived(s) && Enabled(p, s, a)
    requires !a.Racing? && !a.Caching? && !a.Look? && !a.Abandon?
    ensures Arrived(Apply(p, s, a)) && Cache.Inv(Apply(p, s, a).cache)
  {
  }

  lemma {:induction false} ArrivedAlways(p: Walk, s: State, acts: seq<Action>)
    requires NotFound in p.spurious && Linked(p, s) && Cache.Inv(s.cache) && Arrived(s) && Runs(p, s, acts)
    ensures Arrived(Exec(p, s, acts))
    decreases |acts|
  {
    if acts != [] {
      LinkedKept(p, s, acts[0]);
      ArrivedKept(p, s, acts[0]);
      ArrivedAlways(p, Apply(p, s, acts[0]), acts[1..]);
    }
  }

  /** In every run, a call gets a node from the cache only of a block that the receiver has put
      there. */
  lemma NodesFromCache(p: Walk, acts: seq<Action>, i: nat)
    requires IsWalk2(p) && Runs(p, Init(p), acts) && i in Exec(p, Init(p), acts).calls
    ensures var call := Exec(p, Init(p), acts).calls[i];
            Race.FromFirst(call.race).Some? ==>
              Race.FromFirst(call.race) == Race.NodeOf(p.store, call.c) && Caching(Cache.Put(call.c.hash)) in acts
  {
    LinkedAlways(p, Init(p), acts);
    assert GoodCall(p, Exec(p, Init(p), acts), i);
    ArrivedAlways(p, Init(p), acts);
    ArrivedBlocks(p, Init(p), acts);
  }

  /** What the credit protocol and the cache promise, they promise in `Walk2`. */
  lemma PartsTheorem(p: Walk, acts: seq<Action>)
    requires Runs(p, Init(p), acts)
    ensures var s := Exec(p, Init(p), acts);
            && Credit.BooksKept(s.credit)
            && (Credit.Through(s.credit) ==>
                  s.credit.outstanding == {} && s.credit.currentCredit == s.credit.maxCredit)
            && Cache.NothingLost(s.cache)
  {
    var credit := CreditProjection(p, Init(p), acts);
    Credit.CreditTheorem(credit);
    if Credit.Through(Exec(p, Init(p), acts).credit) { Credit.SettledUp(credit); }
    var cache := CacheProjection(p, Init(p), acts);
    Cache.NoLostWakeup(cache);
  }

  /** When `Walk2` has returned nil, the plain walk, under any schedule and with either walker,
      ends in nil as well and has visited the same. */
  lemma SameAsPlain(p: Walk, acts: seq<Action>, workers: nat, plain: seq<WD.Action>)
    requires IsWalk2(p) && p.handler(NotFound).Some?
    requires Runs(p, Init(p), acts) && WD.Succeeded(Exec(p, Init(p), acts).walk)
    requires var q := Plain(p).(concurrency := workers);
             WD.Runs(q, WD.Init(q), plain) && WD.Ended(WD.Exec(q, WD.Init(q), plain))
    ensures var q := Plain(p).(concurrency := workers);
            && WD.Succeeded(WD.Exec(q, WD.Init(q), plain))
            && WD.Seen(WD.Exec(q, WD.Init(q), plain)).Keys == Exec(p, Init(p), acts).credit.cset
  {
    var q := Plain(p).(concurrency := workers);
    Walk2Theorem(p, acts);
    SameDagReached(p, q);
    SameDagReached(p, Plain(p));
    WD.SuccessTheorem(q, plain);
    WD.WalkTheorem(q, plain);
    var seen := WD.Seen(WD.Exec(q, WD.Init(q), plain));
    forall c ensures c in seen <==> c in Exec(p, Init(p), acts).credit.cset {
      assert Reached(q, c) <==> Reached(Plain(p), c);
    }
  }

  /** The coupling holds nothing up beyond the visit lock: the first section never finds its CID
      visited already. */
  lemma VisitNotHeldUp(p: Walk, acts: seq<Action>, w: WD.Action)
    requires IsWalk2(p) && Runs(p, Init(p), acts) && !WD.IsGet(w)
    ensures var s := Exec(p, Init(p), acts);
            Enabled(p, s, Walking(w)) <==>
            WD.Enabled(p, s.walk, w) && (WD.IsVisit(w) ==> s.closure.None?)
  {
    LinkedAlways(p, Init(p), acts);
  }
}
