/** The converse of the projections: whatever the walk can do over a `getLinks` that makes ErrNotFound
    up, and whatever the requester can do by itself, `Walk2` can do with its races and its cache. */
module Walk2Lift {
  import opened Dag
  import opened VisitLog
  import opened Walk2
  import WD = WalkDepth
  import PW = ParallelWalk
  import DF = DepthFirst
  import Credit
  import Cache
  import Race

  // ---- one state leads to another

  ghost predicate Leads(p: Walk, s: State, s': State) {
    exists acts :: Runs(p, s, acts) && Exec(p, s, acts) == s'
  }

  lemma {:induction false} RunsOn(p: Walk, s: State, acts: seq<Action>, more: seq<Action>)
    requires Runs(p, s, acts) && Runs(p, Exec(p, s, acts), more)
    ensures Runs(p, s, acts + more) && Exec(p, s, acts + more) == Exec(p, Exec(p, s, acts), more)
    decreases |acts|
  {
    if acts == [] {
      assert acts + more == more;
    } else {
      RunsOn(p, Apply(p, s, acts[0]), acts[1..], more);
      assert (acts + more)[1..] == acts[1..] + more;
    }
  }

  lemma LeadsNowhere(p: Walk, s: State)
    ensures Leads(p, s, s)
  {
    assert Runs(p, s, []) && Exec(p, s, []) == s;
  }

  lemma LeadsOn(p: Walk, s: State, s': State, s'': State)
    requires Leads(p, s, s') && Leads(p, s', s'')
    ensures Leads(p, s, s'')
  {
    var acts :| Runs(p, s, acts) && Exec(p, s, acts) == s';
    var more :| Runs(p, s', more) && Exec(p, s', more) == s'';
    RunsOn(p, s, acts, more);
  }

  lemma LeadsOne(p: Walk, s: State, a: Action) returns (s': State)
    requires Enabled(p, s, a)
    ensures s' == Apply(p, s, a) && Leads(p, s, s')
  {
    s' := Apply(p, s, a);
    assert Runs(p, s', []) && Exec(p, s', []) == s';
    assert [a][1..] == [];
    assert Runs(p, s, [a]) && Exec(p, s, [a]) == s';
  }

  // ---- one call of multing.Get that the cache does not win

  /** Between the steps of the walk: no visit closure or call open, and no block has arrived. */
  predicate Calm(p: Walk, s: State) {
    Linked(p, s) && s.closure.None? && s.calls == map[] && s.cache.lock.None? && s.cache.stored == {}
  }

  /** Worker `i` has one call open, whose getter `g` is parked in the cache. */
  predicate Open(s: State, i: nat, call: Call) {
    && s.calls == map[i := call] && s.cache.lock.None? && s.cache.stored == {}
    && call.getter.Some? && call.getter.value < |s.cache.getters|
    && s.cache.getters[call.getter.value].phase.Parked?
  }

  lemma OpenCall(p: Walk, s: State, i: nat) returns (s': State)
    requires Calm(p, s) && WD.FetchedBy(s.walk, i).Some?
    ensures Leads(p, s, s') && s' == s.(cache := s'.cache, calls := s'.calls)
    ensures Open(s', i, Call(WD.FetchedBy(s.walk, i).value, Race.Init, Some(|s.cache.getters|)))
  {
    var c := WD.FetchedBy(s.walk, i).value;
    var s1 := LeadsOne(p, s, Begin(i));
    assert s1.calls == map[i := Call(c, Race.Init, None)];
    var s2 := LeadsOne(p, s1, Look(i));
    assert s2.calls == map[i := Call(c, Race.Init, Some(|s.cache.getters|))];
    s' := LeadsOne(p, s2, Caching(Cache.Register));
    LeadsOn(p, s, s1, s2);
    LeadsOn(p, s, s2, s');
  }

  lemma RaceOn(p: Walk, s: State, i: nat, call: Call, r: Race.Action) returns (s': State, call': Call)
    requires s.calls == map[i := call] && Enabled(p, s, Racing(i, r))
    ensures Leads(p, s, s') && call' == call.(race := Race.Apply(call.race, r)) && s' == s.(calls := map[i := call'])
  {
    s' := LeadsOne(p, s, Racing(i, r));
    call' := call.(race := Race.Apply(call.race, r));
    assert s'.calls == map[i := call'];
  }

  /** The race after the session has answered `node` and left. */
  function Answered(node: Option<Race.Node>): Race.State {
    Race.State([Race.Asking, Race.Gone], if node.Some? then [node.value] else [], true, false,
               [None, node], Some(1), Race.Pending)
  }

  function Finished(node: Option<Race.Node>): Race.State {
    Answered(node).(phase := [Race.Gone, Race.Gone],
                    result := if node.Some? then Race.Got(node.value) else Race.ErrNotFound)
  }

  lemma SessionAnswers(p: Walk, s: State, i: nat, call: Call, node: Option<Race.Node>) returns (s': State)
    requires Open(s, i, call) && call.race == Race.Init
    requires node.None? || node == Race.NodeOf(p.store, call.c)
    ensures Leads(p, s, s') && s' == s.(calls := map[i := call.(race := Answered(node))])
  {
    var s1, call1 := RaceOn(p, s, i, call, Race.Answer(1, node));
    var s2, call2 := s1, call1;
    if node.Some? {
      s2, call2 := RaceOn(p, s1, i, call1, Race.Push(1));
      LeadsOn(p, s, s1, s2);
    }
    var s3, call3 := RaceOn(p, s2, i, call2, Race.Cancel(1));
    LeadsOn(p, s, s2, s3);
    assert call3.race == Answered(node);
    s' := s3;
  }

  lemma CacheGivesUp(p: Walk, s: State, i: nat, call: Call, node: Option<Race.Node>) returns (s': State)
    requires Open(s, i, call) && call.race == Answered(node)
    ensures Leads(p, s, s') && s' == s.(cache := s'.cache, calls := map[i := call.(race := Finished(node))])
    ensures s'.cache.lock.None? && s'.cache.stored == {}
  {
    var s1 := LeadsOne(p, s, Abandon(i));
    assert s1.cache.getters[call.getter.value].phase.Abandoned?;
    s' := RaceEnds(p, s1, i, call, node);
    LeadsOn(p, s, s1, s');
  }

  lemma RaceEnds(p: Walk, s: State, i: nat, call: Call, node: Option<Race.Node>) returns (s': State)
    requires s.calls == map[i := call] && call.race == Answered(node) && CacheAnswer(p, s, call) == Some(None)
    ensures Leads(p, s, s') && s' == s.(calls := map[i := call.(race := Finished(node))])
  {
    var s1, call1 := RaceOn(p, s, i, call, Race.Answer(0, None));
    var s2, call2 := RaceOn(p, s1, i, call1, Race.Cancel(0));
    assert call2.race == Finished(node).(result := Race.Pending);
    var s3, call3 := RaceOn(p, s2, i, call2, Race.Return);
    LeadsOn(p, s, s1, s2);
    LeadsOn(p, s, s2, s3);
    s' := s3;
  }

  /** The answer `f` of getLinks comes about by a call. */
  lemma GetLifts(p: Walk, s: State, i: nat, f: Fetch) returns (s': State)
    requires NotFound in p.spurious && Calm(p, s) && WD.FetchedBy(s.walk, i).Some?
    requires f == Failed(NotFound) || (f.Links? && f == GetLinks(p.store, WD.FetchedBy(s.walk, i).value))
    ensures Leads(p, s, s') && Calm(p, s') && s'.walk == WD.Receive(p, s.walk, i, f) && s'.credit == s.credit
  {
    var node := if f.Links? then Some(f.links) else None;
    var call := Call(WD.FetchedBy(s.walk, i).value, Race.Init, Some(|s.cache.getters|));
    var s1 := OpenCall(p, s, i);
    var s2 := SessionAnswers(p, s1, i, call, node);
    var s3 := CacheGivesUp(p, s2, i, call.(race := Answered(node)), node);
    assert Race.AsFetch(s3.calls[i].race.result) == f;
    s' := LeadsOne(p, s3, Deliver(i));
    LeadsOn(p, s, s1, s2);
    LeadsOn(p, s, s2, s3);
    LeadsOn(p, s, s3, s');
    WD.ReceiveKeeps(p, s.walk, i, f);
    assert s'.calls == map[];
  }

  // ---- whole runs

  /** Content has links or is not found. */
  predicate OnlyMissing(p: Walk) {
    forall c | c in p.store :: p.store[c].Links? || p.store[c] == Failed(NotFound)
  }

  /** Only the visit closure has touched the credit: the requester is where it was, or was notified
      in its select; and if it was not, nothing visited since was outstanding. */
  predicate Quiet(c: Credit.State, c': Credit.State) {
    && c'.recorded == c.recorded && c'.forfeited == c.forfeited && c.cset <= c'.cset
    && c'.currentCredit >= c.currentCredit
    && (c'.requester == c.requester || (c.requester.Waiting? && c'.requester.Notified?))
    && (c'.requester.Waiting? ==>
          c'.outstanding == c.outstanding && forall d | d in c'.cset && d !in c.cset :: d.hash !in c.outstanding)
  }

  lemma VisitLifts(p: Walk, s: State, a: WD.Action) returns (s': State)
    requires IsWalk2(p) && Calm(p, s) && WD.Enabled(p, s.walk, a) && !WD.IsGet(a)
    ensures Leads(p, s, s') && Calm(p, s') && s'.walk == WD.Apply(p, s.walk, a) && Quiet(s.credit, s'.credit)
  {
    s' := LeadsOne(p, s, Walking(a));
    WalkingKept(p, s, a);
    if WD.FirstVisit(p, s.walk, a).Some? {
      var s1 := s';
      s' := ClosureReturns(p, s1);
      LeadsOn(p, s, s1, s');
    }
  }

  /** The rest of a visit closure: it settles, counts and returns. */
  lemma ClosureReturns(p: Walk, s: State) returns (s': State)
    requires Linked(p, s) && s.closure.Some? && s.credit.visitor.Some?
    ensures Leads(p, s, s') && Linked(p, s') && s'.closure.None?
    ensures s' == s.(credit := Credit.Apply(s.credit, Credit.Settle), closure := None, total := s.total + 1)
  {
    var s1 := LeadsOne(p, s, Prefetching(Credit.Settle));
    OtherKept(p, s, Prefetching(Credit.Settle));
    s' := LeadsOne(p, s1, Increment);
    OtherKept(p, s1, Increment);
    LeadsOn(p, s, s1, s');
  }

  lemma StepLifts(p: Walk, s: State, a: WD.Action) returns (s': State)
    requires IsWalk2(p) && OnlyMissing(p) && Calm(p, s) && WD.Enabled(p, s.walk, a)
    ensures Leads(p, s, s') && Calm(p, s') && s'.walk == WD.Apply(p, s.walk, a) && Quiet(s.credit, s'.credit)
  {
    if !WD.IsGet(a) {
      s' := VisitLifts(p, s, a);
    } else {
      match a
      case Many(pa) => s' := GetLifts(p, s, pa.w, pa.answer);
      case One(sa) => s' := GetLifts(p, s, 0, sa.answer);
    }
  }

  lemma QuietOn(c: Credit.State, c': Credit.State, c'': Credit.State)
    requires Quiet(c, c') && Quiet(c', c'')
    ensures Quiet(c, c'')
  {
  }

  /** Whatever the walk can do over a `getLinks` that makes up ErrNotFound, `Walk2` can. */
  lemma {:induction false} LiftRuns(p: Walk, s: State, walk: seq<WD.Action>) returns (s': State)
    requires IsWalk2(p) && OnlyMissing(p) && Calm(p, s) && WD.Runs(p, s.walk, walk)
    ensures Leads(p, s, s') && Calm(p, s') && s'.walk == WD.Exec(p, s.walk, walk) && Quiet(s.credit, s'.credit)
    decreases |walk|
  {
    if walk == [] {
      s' := s;
      LeadsNowhere(p, s);
    } else {
      var s1 := StepLifts(p, s, walk[0]);
      s' := LiftRuns(p, s1, walk[1..]);
      LeadsOn(p, s, s1, s');
      QuietOn(s.credit, s1.credit, s'.credit);
    }
  }

  /** Whatever the requester can do by itself, it can do in `Walk2`. */
  lemma {:induction false} RequesterLifts(p: Walk, s: State, acts: seq<Credit.Action>) returns (s': State)
    requires Credit.RequesterOnly(acts) && Credit.Runs(s.credit, acts)
    ensures Leads(p, s, s') && s' == s.(credit := Credit.Exec(s.credit, acts))
    decreases |acts|
  {
    if acts == [] {
      s' := s;
      LeadsNowhere(p, s);
    } else {
      assert acts[0] in acts;
      var s1 := LeadsOne(p, s, Prefetching(acts[0]));
      s' := RequesterLifts(p, s1, acts[1..]);
      LeadsOn(p, s, s1, s');
    }
  }
}
