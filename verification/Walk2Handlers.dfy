/** Which error handlers `Walk2` can be trusted with. */
module Walk2Handlers {
  import opened Dag
  import opened VisitLog
  import opened Walk2
  import opened Walk2Lift
  import WD = WalkDepth

  /** A run on which `Walk2` returns nil without having visited what the plain walk is to visit. */
  ghost predicate Misled(p: Walk, acts: seq<Action>) {
    && Runs(p, Init(p), acts)
    && WD.Succeeded(Exec(p, Init(p), acts).walk)
    && !forall c :: c in Exec(p, Init(p), acts).credit.cset <==> Reached(Plain(p), c)
  }

  /** Whatever the DAG, the other options, the manifest and the schedule, nil means that the
      visited CIDs are those of the plain walk. */
  ghost predicate Trusted(handler: Handler, cancellable: bool, workers: nat) {
    forall p: Walk, acts: seq<Action> |
      IsWalk2(p) && p.handler == handler && p.cancellable == cancellable && p.concurrency == workers ::
      !Misled(p, acts)
  }

  /** `Walk2` reports ErrNotFound for every fetch that fails, so it can be trusted exactly when its
      handler lets ErrNotFound through, with either walker, and whether or not its context may be
      cancelled. */
  lemma Walk2Trusted(handler: Handler, cancellable: bool, workers: nat)
    ensures Trusted(handler, cancellable, workers) <==> handler(NotFound).Some?
  {
    if handler(NotFound).Some? {
      forall p: Walk, acts: seq<Action> |
        IsWalk2(p) && p.handler == handler && p.cancellable == cancellable && p.concurrency == workers
        ensures !Misled(p, acts)
      {
        if Misled(p, acts) { Walk2Theorem(p, acts); }
      }
    } else {
      var q := WD.Pair(handler, {NotFound}, {}, cancellable, workers);
      assert NotFound in MadeUp(q);
      var walk := WD.SwallowedError(q);
      var s := LiftRuns(q, Init(q), walk);
      var acts :| Runs(q, Init(q), acts) && Exec(q, Init(q), acts) == s;
      SameDagReached(q, Plain(q));
      assert Misled(q, acts);
    }
  }

  /** Of the handlers of the walk options only the default one can be trusted. */
  lemma OptionHandlers(cancellable: bool, workers: nat)
    ensures Trusted(NoHandler, cancellable, workers)
    ensures !Trusted(IgnoreMissing, cancellable, workers)
    ensures !Trusted(IgnoreErrors, cancellable, workers)
  {
    Walk2Trusted(NoHandler, cancellable, workers);
    Walk2Trusted(IgnoreMissing, cancellable, workers);
    Walk2Trusted(IgnoreErrors, cancellable, workers);
  }
}
