/** The requester of `Walk2` without credit: when it waits for ever, and that it does so for bogus
    manifests as well as for honest ones. */
module Walk2Starved {
  import opened Dag
  import opened VisitLog
  import opened Walk2
  import opened Walk2Lift
  import WD = WalkDepth
  import PW = ParallelWalk
  import DF = DepthFirst
  import Credit

  /** The CIDs that the walk can visit. */
  ghost function Reach(p: Walk): iset<Cid> {
    iset c | Reached(p, c)
  }

  /** The requester waits for credit and never gets any. */
  ghost predicate StarvedForEver(p: Walk, s: State) {
    forall s' {:trigger Leads(p, s, s')} | Leads(p, s, s') :: Credit.Starved(s'.credit)
  }

  /** Reachable states visit only what the DAG has. */
  lemma VisitedInReach(p: Walk, s: State)
    requires IsWalk2(p) && Leads(p, Init(p), s)
    ensures forall c | c in s.credit.cset :: c in Reach(p)
    ensures Credit.Inv(s.credit)
  {
    var acts :| Runs(p, Init(p), acts) && Exec(p, Init(p), acts) == s;
    Walk2Theorem(p, acts);
    SameDagReached(p, Plain(p));
    var part := CreditProjection(p, Init(p), acts);
    Credit.InvAlways(Credit.Init, part);
  }

  /** A requester without credit waits for ever when neither the pending visit nor anything the walk
      can still visit is of something outstanding. */
  lemma Starves(p: Walk, s: State)
    requires IsWalk2(p) && Leads(p, Init(p), s)
    requires Credit.Starved(s.credit) && !Credit.CanEarn(s.credit, Reach(p))
    ensures StarvedForEver(p, s)
  {
    forall s' {:trigger Leads(p, s, s')} | Leads(p, s, s') ensures Credit.Starved(s'.credit) {
      LeadsOn(p, Init(p), s, s');
      VisitedInReach(p, s');
      var more :| Runs(p, s, more) && Exec(p, s, more) == s';
      var part := CreditProjection(p, s, more);
      Credit.CsetGrows(s.credit, part);
      Credit.StuckAlways(s.credit, part, Reach(p));
    }
  }

  // ---- bogus manifests

  /** A manifest that begins with as many distinct multihashes as there is credit, none of them of a
      CID that the DAG has, stops the prefetcher for good: all the credit is outstanding. */
  lemma BogusManifest(p: Walk, m: seq<Cid>) returns (s: State)
    requires IsWalk2(p) && |m| > Credit.STARTING_CREDIT && Credit.DistinctHashes(m[..Credit.STARTING_CREDIT])
    requires forall i, c | 0 <= i < Credit.STARTING_CREDIT && Reached(p, c) :: c.hash != m[i].hash
    ensures Leads(p, Init(p), s) && StarvedForEver(p, s)
    ensures |s.credit.outstanding| == Credit.STARTING_CREDIT && s.credit.currentCredit == 0
  {
    var acts := Credit.OutOfCredit(m);
    s := RequesterLifts(p, Init(p), acts);
    assert !Credit.CanEarn(s.credit, Reach(p));
    Starves(p, s);
  }

  // ---- honest manifests

  /** From a state in which nothing has gone wrong yet, the walk of a readable DAG can visit all of
      it, the requester taking no step. */
  lemma WalkOn(p: Walk, s: State) returns (s': State)
    requires IsWalk2(p) && OnlyMissing(p) && Readable(p) && Calm(p, s) && WD.Inv(Plain(p), s.walk)
    ensures Leads(p, s, s') && Calm(p, s') && Quiet(s.credit, s'.credit) && WD.Succeeded(s'.walk)
    ensures forall c :: c in s'.credit.cset <==> Reached(p, c)
  {
    var q := Plain(p);
    var walk := WD.Completes(q, s.walk);
    WD.InvAlways(q, s.walk, walk);
    SameDagReached(p, q);
    WD.EndedReadable(q, WD.Exec(q, s.walk, walk));
    WD.SucceededExact(q, WD.Exec(q, s.walk, walk));
    WD.PlainRuns(p, s.walk, walk);
    s' := LiftRuns(p, s, walk);
  }

  /** Even an honest manifest, that of a readable DAG with as many CIDs as there is credit and without
      shared multihashes, can stop the prefetcher for good: the requester finds no credit, and
      before it is parked the walk visits everything outstanding. All notifications are missed,
      all the credit is there, and the walk has succeeded. */
  lemma MissedNotification(p: Walk, m: seq<Cid>) returns (s: State)
    requires IsWalk2(p) && OnlyMissing(p) && Readable(p)
    requires |m| > Credit.STARTING_CREDIT && Credit.DistinctHashes(m[..Credit.STARTING_CREDIT])
    requires forall i | 0 <= i < Credit.STARTING_CREDIT :: Reached(p, m[i])
    requires forall c, d | Reached(p, c) && Reached(p, d) && c.hash == d.hash :: c == d
    ensures Leads(p, Init(p), s) && StarvedForEver(p, s) && WD.Succeeded(s.walk)
    ensures s.credit.outstanding == {} && s.credit.currentCredit == s.credit.maxCredit >= 100
  {
    s := Overtaken(p, m);
    VisitedInReach(p, s);
    NothingOutstanding(p, s.credit);
    Starves(p, s);
  }

  /** The requester takes all the credit, and then the walk visits everything. */
  lemma Overtaken(p: Walk, m: seq<Cid>) returns (s: State)
    requires IsWalk2(p) && OnlyMissing(p) && Readable(p)
    requires |m| > Credit.STARTING_CREDIT && Credit.DistinctHashes(m[..Credit.STARTING_CREDIT])
    ensures Leads(p, Init(p), s) && WD.Succeeded(s.walk) && s.credit.visitor.None? && s.credit.forfeited == 0
    ensures s.credit.requester.Broke? && s.credit.recorded == m[..Credit.STARTING_CREDIT]
    ensures forall c :: c in s.credit.cset <==> Reached(p, c)
  {
    var acts := Credit.OutOfCredit(m);
    var s1 := RequesterLifts(p, Init(p), acts);
    WD.InitInv(Plain(p));
    s := WalkOn(p, s1);
    LeadsOn(p, Init(p), s1, s);
  }

  /** When all of the DAG is visited, nothing that it has stays outstanding. */
  lemma NothingOutstanding(p: Walk, c: Credit.State)
    requires Credit.Inv(c) && c.visitor.None? && c.forfeited == 0 && Credit.Held(c.requester) == 0
    requires Credit.DistinctHashes(c.recorded) && forall d :: d in c.cset <==> Reached(p, d)
    requires forall i | 0 <= i < |c.recorded| :: Reached(p, c.recorded[i])
    requires forall d, e | Reached(p, d) && Reached(p, e) && d.hash == e.hash :: d == e
    ensures c.outstanding == {} && c.currentCredit == c.maxCredit
  {
    assert Credit.Unambiguous(c.cset, c.recorded);
    assert forall h | h in c.outstanding :: Credit.Listed(c.recorded, h);
  }

  /** On a readable DAG, from any state between the steps of a walk in which nothing has gone wrong:
      the requester without credit waits for ever exactly when nothing the DAG still has to visit is
      outstanding. */
  lemma StarvedExactly(p: Walk, s: State)
    requires IsWalk2(p) && OnlyMissing(p) && Readable(p)
    requires Leads(p, Init(p), s) && Calm(p, s) && WD.Unharmed(p, s.walk) && Credit.Starved(s.credit)
    ensures StarvedForEver(p, s) <==>
            !exists c :: Reached(p, c) && c !in s.credit.cset && c.hash in s.credit.outstanding
  {
    if c :| Reached(p, c) && c !in s.credit.cset && c.hash in s.credit.outstanding {
      WD.UnharmedInv(p, s.walk);
      var s1 := s;
      if s.credit.requester.Broke? {
        s1 := LeadsOne(p, s, Prefetching(Credit.Park));
        OtherKept(p, s, Prefetching(Credit.Park));
      } else {
        LeadsNowhere(p, s);
      }
      var s2 := WalkOn(p, s1);
      LeadsOn(p, s, s1, s2);
      assert c in s2.credit.cset;
      assert !Credit.Starved(s2.credit);
    } else {
      Starves(p, s);
    }
  }

  // ---- a shared multihash

  /** The visit of the root, as the next step of the walk. */
  lemma VisitRoot(p: Walk, s: State, visit: WD.Action) returns (s': State)
    requires IsWalk2(p) && Calm(p, s) && s.credit.cset == {}
    requires WD.Enabled(p, s.walk, visit) && WD.FirstVisit(p, s.walk, visit) == Some(p.root)
    ensures Leads(p, s, s') && Calm(p, s') && Quiet(s.credit, s'.credit) && s'.credit.cset == {p.root}
  {
    s' := VisitLifts(p, s, visit);
    WD.SeenChanges(p, s.walk, visit);
  }

  lemma RootFed(p: Walk) returns (s: State)
    requires IsWalk2(p) && p.concurrency > 1
    ensures Leads(p, Init(p), s) && Calm(p, s) && s.credit == Credit.Init
    ensures s.walk.Parallel? && |s.walk.par.workers| > 0 && s.walk.par.workers[0] == PW.Visiting(Item(p.root, 0))
    ensures s.walk.par.seen == map[]
  {
    var feed := WD.Many(PW.Feed(0));
    s := LeadsOne(p, Init(p), Walking(feed));
    WalkingKept(p, Init(p), feed);
  }

  /** The walk visits the root. */
  lemma RootVisited(p: Walk) returns (s: State)
    requires IsWalk2(p) && !p.skipRoot
    ensures Leads(p, Init(p), s) && Calm(p, s) && Quiet(Credit.Init, s.credit) && s.credit.cset == {p.root}
  {
    if p.concurrency > 1 {
      var s0 := RootFed(p);
      s := VisitRoot(p, s0, WD.Many(PW.Visit(0)));
      LeadsOn(p, Init(p), s0, s);
    } else {
      s := VisitRoot(p, Init(p), WD.One(DF.Visit));
    }
  }

  /** A manifest with a CID that shares the root's multihash: once the root is visited, prefetching
      the other leaves that multihash outstanding with no visitor to settle it. */
  lemma SharedWithRoot(p: Walk, d: Cid) returns (s: State)
    requires IsWalk2(p) && !p.skipRoot && d != p.root && d.hash == p.root.hash
    ensures Leads(p, Init(p), s) && !Credit.Prompt(s.credit)
  {
    var s1 := RootVisited(p);
    var c := Credit.Prefetched(s1.credit, d, []);
    var acts: seq<Credit.Action> := [Credit.Take(d), Credit.Request, Credit.Record];
    assert Credit.Runs(c, []) && acts + [] == acts;
    s := RequesterLifts(p, s1, acts);
    LeadsOn(p, Init(p), s1, s);
    assert p.root in s.credit.cset && p.root.hash in s.credit.outstanding && s.credit.visitor.None?;
  }
}
