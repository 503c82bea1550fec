/** The manifest server: a visit closure that writes each CID it first visits, over a parallel
    walk. */
module Manifest {
  import opened Dag
  import opened VisitLog
  import opened ParallelWalk
  import opened ParallelInvariant
  import opened ParallelProgress
  import opened ParallelTheorems
  import opened ParallelWalker

  /** The CIDs written so far: one per expansion, in order. */
  function Written(log: seq<Item>): seq<Cid> {
    seq(|log|, i requires 0 <= i < |log| => log[i].cid)
  }

  /** A stream that a receiver can follow: no repetition, the root first, and every later CID
      linked from an earlier one. */
  ghost predicate WellOrdered(store: Store, root: Cid, m: seq<Cid>) {
    && (forall i, j | 0 <= i < j < |m| :: m[i] != m[j])
    && (m != [] ==> m[0] == root)
    && (forall i | 0 < i < |m| :: exists j :: 0 <= j < i && m[i] in StoreLinks(store, m[j]))
  }

  lemma WrittenWellOrdered(p: Walk, seen: Depths, log: seq<Item>)
    requires Recorded(p, seen, log) && p.limit < 0 && !p.skipRoot
    ensures WellOrdered(p.store, p.root, Written(log))
  {
    var m := Written(log);
    if log != [] { assert Origin(p, log[..0], log[0]); }
    forall i | 0 < i < |m| ensures exists j :: 0 <= j < i && m[i] in StoreLinks(p.store, m[j]) {
      assert Origin(p, log[..i], log[i]);
      assert log[0].cid != log[i].cid;
      var y :| y in log[..i] && log[i].cid in Children(p, y.cid);
      var j :| 0 <= j < i && log[j] == y;
      assert m[i] in StoreLinks(p.store, m[j]);
    }
  }

  lemma WrittenComplete(p: Walk, seen: Depths, log: seq<Item>)
    requires Recorded(p, seen, log) && !p.skipRoot && Exact(p, seen)
    ensures forall c :: c in Written(log) <==> Reached(p, c)
  {
    var m := Written(log);
    forall c ensures c in m <==> c in seen {
      if c in m {
        var i :| 0 <= i < |m| && m[i] == c;
        assert log[i] in log && RecordedItem(p, seen, log[i]);
      }
      if c in seen {
        var i :| 0 <= i < |log| && log[i] == Item(c, seen[c]);
        assert m[i] == c;
      }
    }
  }

  /** In every schedule, at every moment and for every handler, what was written is well ordered;
      once a walk whose handler lets made-up errors through has succeeded it is exactly the
      reachable CIDs. */
  lemma ManifestTheorem(p: Walk, acts: seq<Action>)
    requires p.limit < 0 && !p.skipRoot && Runs(p, Init(p), acts)
    ensures var s := Exec(p, Init(p), acts);
            && WellOrdered(p.store, p.root, Written(s.log))
            && (Surfaces(p) && Succeeded(s) ==> forall c :: c in Written(s.log) <==> Reached(p, c))
  {
    var s := Exec(p, Init(p), acts);
    InitInv(p);
    InvAlways(p, Init(p), acts);
    WrittenWellOrdered(p, s.seen, s.log);
    if Surfaces(p) && Succeeded(s) {
      NilTheorem(p, acts);
      WrittenComplete(p, s.seen, s.log);
    }
  }

  /** The server's walk: no options but its concurrency. */
  function ServerWalk(store: Store, root: Cid): Walk {
    Walk(store, NoHandler, root, -1, false, 500, {}, {}, false)
  }

  /** Serving one request under any scheduler: the stream written is well ordered, it is reset
      exactly when some block reached from the requested CID is missing or wrong, and otherwise it
      lists exactly the blocks reached. */
  method Serve(store: Store, reqCid: Cid, pick: State -> Action) returns (written: seq<Cid>, reset: bool)
    requires Schedules(ServerWalk(store, reqCid), pick)
    ensures WellOrdered(store, reqCid, written)
    ensures reset <==> exists c :: Within(store, reqCid, -1, c) && !(c in store && store[c].Links?)
    ensures !reset ==> forall c :: c in written <==> Within(store, reqCid, -1, c)
    ensures !reset ==> forall c | c in written :: c in store && store[c].Links?
  {
    var p := ServerWalk(store, reqCid);
    var walker := new Walker(p);
    walker.Run(pick);
    written, reset := Written(walker.log), walker.coord.result.Some?;
    WrittenWellOrdered(p, walker.seen, walker.log);
    OptionsReadable(p);
    if !reset {
      WrittenComplete(p, walker.seen, walker.log);
      forall c ensures c in written <==> Within(store, reqCid, -1, c) { ReachedWithin(p, c); }
    }
  }
}
