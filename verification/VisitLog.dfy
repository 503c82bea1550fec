/** The visit rule of `FetchGraphWithDepthLimit` and the log of expansions it produces.
    Both walkers keep `Recorded`; a log that is also `Closed` determines the visit map. */
module VisitLog {
  import opened Dag

  /** Visiting `x` would change nothing: it is too deep or already recorded well enough. */
  predicate Covered(limit: int, rec: Depths, x: Item) {
    if limit < 0 then x.cid in rec
    else x.depth > limit || (x.cid in rec && rec[x.cid] <= x.depth)
  }

  /** The visit closure, on the visit map `rec`: whether to expand `c`, and the new map. */
  method VisitRule(limit: int, rec: Depths, c: Cid, depth: nat) returns (should: bool, rec': Depths)
    ensures should == !Covered(limit, rec, Item(c, depth))
    ensures rec' == if should then rec[c := depth] else rec
  {
    var ok := c in rec;
    if (ok && limit < 0) || (limit >= 0 && depth > limit) {
      return false, rec;
    }
    if !ok || rec[c] > depth {
      return true, rec[c := depth];
    }
    return false, rec;
  }

  /** The root item that SkipRoot expands without visiting. */
  predicate Skipped(p: Walk, x: Item) {
    p.skipRoot && x.depth == 0
  }

  /** `x` is the root item, or a link of an expansion in `log`. */
  predicate Origin(p: Walk, log: seq<Item>, x: Item) {
    x == Item(p.root, 0) || exists y | y in log :: x.cid in Children(p, y.cid) && x.depth == y.depth + 1
  }

  /** Every expansion is of the root or of a link of an earlier expansion. */
  predicate Ordered(p: Walk, log: seq<Item>) {
    forall i {:trigger Origin(p, log[..i], log[i])} | 0 <= i < |log| :: Origin(p, log[..i], log[i])
  }

  /** A CID is expanded again only when it is found strictly nearer to the root, and never
      without a depth limit. */
  predicate Improving(p: Walk, log: seq<Item>) {
    forall i, j | 0 <= i < j < |log| && log[i].cid == log[j].cid && !Skipped(p, log[i]) && !Skipped(p, log[j]) ::
      p.limit >= 0 && log[j].depth < log[i].depth
  }

  predicate RecordedItem(p: Walk, rec: Depths, x: Item) {
    Skipped(p, x) || (x.cid in rec && rec[x.cid] <= x.depth && (p.limit >= 0 ==> x.depth <= p.limit))
  }

  /** The visit map and the log of expansions belong together. */
  predicate Recorded(p: Walk, rec: Depths, log: seq<Item>) {
    && Ordered(p, log)
    && Improving(p, log)
    && (forall c | c in rec :: Item(c, rec[c]) in log && !Skipped(p, Item(c, rec[c])))
    && (forall x {:trigger RecordedItem(p, rec, x)} | x in log :: RecordedItem(p, rec, x))
  }

  /** `x` needs no further work. */
  predicate Settled(p: Walk, rec: Depths, log: seq<Item>, x: Item) {
    if Skipped(p, x) then x in log else Covered(p.limit, rec, x)
  }

  /** The expansion `x` went well and all its links are settled. */
  predicate ClosedAt(p: Walk, rec: Depths, log: seq<Item>, x: Item) {
    Passable(p, x.cid) &&
    forall e | e in Children(p, x.cid) :: Settled(p, rec, log, Item(e, x.depth + 1))
  }

  predicate Closed(p: Walk, rec: Depths, log: seq<Item>) {
    && Settled(p, rec, log, Item(p.root, 0))
    && forall x {:trigger ClosedAt(p, rec, log, x)} | x in log :: ClosedAt(p, rec, log, x)
  }

  /** The visit map is the answer: exactly the CIDs in scope, and with a depth limit each
      with its shortest distance (among the distances in scope). */
  ghost predicate Exact(p: Walk, rec: Depths) {
    && (forall c :: c in rec <==> Reached(p, c))
    && (forall c | c in rec :: InScope(p, rec[c]) && At(p, c, rec[c]))
    && (p.limit >= 0 ==> forall c, n: nat | InScope(p, n) && At(p, c, n) :: c in rec && rec[c] <= n)
  }

  /** Every CID the walk has to expand has content that can be read. */
  ghost predicate Readable(p: Walk) {
    forall c, n: nat | At(p, c, n) && (p.limit < 0 || n <= p.limit) :: Passable(p, c)
  }

  /** What that says of the store, for the handlers of the walk options: everything is there and
      right; or nothing is wrong but missing content; or nothing at all. */
  lemma OptionsReadable(p: Walk)
    ensures p.handler == NoHandler ==>
              (Readable(p) <==> forall c | Within(p.store, p.root, p.limit, c) :: c in p.store && p.store[c].Links?)
    ensures p.handler == IgnoreMissing ==>
              (Readable(p) <==> forall c | Within(p.store, p.root, p.limit, c) && c in p.store ::
                                  p.store[c].Links? || p.store[c] == Failed(NotFound))
    ensures p.handler == IgnoreErrors ==> Readable(p)
  {
    forall c, n: nat | At(p, c, n) && (p.limit < 0 || n <= p.limit) ensures Within(p.store, p.root, p.limit, c) {
      assert c in Layer(p.store, p.root, n);
    }
    forall c | Within(p.store, p.root, p.limit, c)
      ensures exists n: nat :: At(p, c, n) && (p.limit < 0 || n <= p.limit)
    {
      var n: nat :| (p.limit < 0 || n <= p.limit) && c in Layer(p.store, p.root, n);
      assert At(p, c, n);
    }
  }

  /** An error the walk returns is the content's, or an interference. */
  ghost predicate Blamed(p: Walk, log: seq<Item>, r: Option<Error>) {
    r.Some? ==> Interference(p, r.value) || exists x :: x in log && Fails(p, x.cid, r.value)
  }

  /** What the walk may take for the links of `c`: all its links, or none when the handler has
      swallowed an error that is not about the content. */
  predicate MayLink(p: Walk, c: Cid, links: seq<Cid>) {
    (Passable(p, c) && links == Children(p, c)) || (!Surfaces(p) && links == [])
  }

  /** After the handler, links are all the links in the store or, with a handler that swallows
      made-up errors, none; an error is what the handler makes of the content's error, or an
      interference. */
  lemma AnswerIsTrue(p: Walk, cancelled: bool, c: Cid, f: Fetch)
    requires (cancelled ==> p.cancellable) && MayAnswer(p, cancelled, c, f)
    ensures match Answer(p.handler, f)
            case Links(l) => MayLink(p, c, l)
            case Failed(e) => Fails(p, c, e) || Interference(p, e)
  {
    if f != GetLinks(p.store, c) {
      assert f.error in MadeUp(p);
    }
  }

  /** The visits that answered true: all expansions but the skipped root. */
  function Visits(p: Walk, log: seq<Item>): nat {
    if log == [] then 0 else Visits(p, log[..|log| - 1]) + if Skipped(p, log[|log| - 1]) then 0 else 1
  }

  lemma VisitsMore(p: Walk, log: seq<Item>, x: Item)
    ensures Visits(p, log + [x]) == Visits(p, log) + if Skipped(p, x) then 0 else 1
  {
    assert (log + [x])[..|log|] == log;
  }

  lemma {:induction false} AllVisits(p: Walk, log: seq<Item>)
    requires !p.skipRoot
    ensures Visits(p, log) == |log|
  {
    if log != [] { AllVisits(p, log[..|log| - 1]); }
  }

  /** The progress total is the number of true visits: at least one per CID recorded, and
      exactly one without a depth limit. */
  predicate Counted(p: Walk, rec: Depths, log: seq<Item>, total: nat) {
    total == Visits(p, log) && |rec| <= total && (p.limit < 0 ==> total == |rec|)
  }

  lemma VisitCounts(p: Walk, rec: Depths, log: seq<Item>, x: Item, total: nat)
    requires Counted(p, rec, log, total) && !Skipped(p, x) && !Covered(p.limit, rec, x)
    ensures Counted(p, rec[x.cid := x.depth], log + [x], total + 1)
  {
    VisitsMore(p, log, x);
    if x.cid in rec {
      assert rec[x.cid := x.depth].Keys == rec.Keys;
    } else {
      assert rec[x.cid := x.depth].Keys == rec.Keys + {x.cid};
    }
  }

  /** Everything recorded is really there, at a depth that is the length of a path to it. */
  lemma RecordedIsReal(p: Walk, rec: Depths, log: seq<Item>)
    requires Recorded(p, rec, log)
    ensures forall c | c in rec :: InScope(p, rec[c]) && At(p, c, rec[c])
  {
    forall c | c in rec ensures InScope(p, rec[c]) && At(p, c, rec[c]) {
      var x := Item(c, rec[c]);
      var i :| 0 <= i < |log| && log[i] == x;
      LogInLayers(p, log, i);
      assert RecordedItem(p, rec, x);
    }
  }

  lemma OriginGrows(p: Walk, log: seq<Item>, more: seq<Item>, x: Item)
    requires Origin(p, log, x)
    ensures Origin(p, log + more, x)
  {
    if x != Item(p.root, 0) {
      var y :| y in log && x.cid in Children(p, y.cid) && x.depth == y.depth + 1;
      assert y in log + more;
    }
  }

  lemma OrderedAppend(p: Walk, log: seq<Item>, x: Item)
    requires Ordered(p, log) && Origin(p, log, x)
    ensures Ordered(p, log + [x])
  {
    var log' := log + [x];
    forall i | 0 <= i < |log'| ensures Origin(p, log'[..i], log'[i]) {
      assert log'[..i] == log[..i];
      assert i == |log| ==> log[..i] == log;
    }
  }

  /** A visit that answers true keeps map and log together. */
  lemma VisitKeeps(p: Walk, rec: Depths, log: seq<Item>, x: Item)
    requires Recorded(p, rec, log) && Origin(p, log, x)
    requires !Skipped(p, x) && !Covered(p.limit, rec, x)
    ensures Recorded(p, rec[x.cid := x.depth], log + [x])
  {
    var log', rec' := log + [x], rec[x.cid := x.depth];
    OrderedAppend(p, log, x);
    forall i, j | 0 <= i < j < |log'| && log'[i].cid == log'[j].cid && !Skipped(p, log'[i]) && !Skipped(p, log'[j])
      ensures p.limit >= 0 && log'[j].depth < log'[i].depth
    {
      assert log[i] in log;
      if j == |log| { assert RecordedItem(p, rec, log[i]); }
    }
    assert x in log';
    forall c | c in rec' ensures Item(c, rec'[c]) in log' && !Skipped(p, Item(c, rec'[c])) {
      if c != x.cid { assert Item(c, rec[c]) in log; }
    }
    forall y | y in log' ensures RecordedItem(p, rec', y) {
      if y != x { assert y in log && RecordedItem(p, rec, y); }
    }
  }

  /** Expanding the skipped root keeps map and log together. */
  lemma SkipKeeps(p: Walk, rec: Depths, log: seq<Item>, x: Item)
    requires Recorded(p, rec, log) && Origin(p, log, x) && Skipped(p, x)
    ensures Recorded(p, rec, log + [x])
  {
    var log' := log + [x];
    OrderedAppend(p, log, x);
    forall c | c in rec ensures Item(c, rec[c]) in log' { assert Item(c, rec[c]) in log; }
    forall y | y in log' ensures RecordedItem(p, rec, y) {
      if y != x { assert y in log && RecordedItem(p, rec, y); }
    }
  }

  /** Settling is never undone by a visit. */
  lemma SettledGrows(p: Walk, rec: Depths, log: seq<Item>, rec': Depths, log': seq<Item>, x: Item)
    requires Settled(p, rec, log, x)
    requires Refines(rec, rec') && log <= log'
    ensures Settled(p, rec', log', x)
  {
    if Skipped(p, x) {
      var i :| 0 <= i < |log| && log[i] == x;
      assert log'[i] == x;
    }
  }

  /** `rec'` records at least what `rec` does, at the same depths or nearer ones. */
  predicate Refines(rec: Depths, rec': Depths) {
    forall c | c in rec :: c in rec' && rec'[c] <= rec[c]
  }

  /** The depth of an expansion is the length of a real path to it. */
  lemma {:induction false} LogInLayers(p: Walk, log: seq<Item>, i: nat)
    requires Ordered(p, log) && i < |log|
    ensures At(p, log[i].cid, log[i].depth)
    decreases i
  {
    if log[i] != Item(p.root, 0) {
      assert Origin(p, log[..i], log[i]);
      var y :| y in log[..i] && log[i].cid in Children(p, y.cid) && log[i].depth == y.depth + 1;
      var j :| 0 <= j < i && log[..i][j] == y;
      LogInLayers(p, log, j);
      AtStep(p, y.depth, y.cid, log[i].cid);
    }
  }

  lemma OriginInLayer(p: Walk, log: seq<Item>, x: Item)
    requires Ordered(p, log) && Origin(p, log, x)
    ensures At(p, x.cid, x.depth)
  {
    if x != Item(p.root, 0) {
      var y :| y in log && x.cid in Children(p, y.cid) && x.depth == y.depth + 1;
      var j :| 0 <= j < |log| && log[j] == y;
      LogInLayers(p, log, j);
      AtStep(p, y.depth, y.cid, x.cid);
    }
  }

  lemma InUniverse(p: Walk, log: seq<Item>, x: Item)
    requires Ordered(p, log) && Origin(p, log, x)
    ensures x.cid in Universe(p)
  {
    OriginInLayer(p, log, x);
    AtInUniverse(p, x.depth, x.cid);
  }

  /** In a closed log the links of a settled item are settled. */
  lemma SettledStep(p: Walk, rec: Depths, log: seq<Item>, b: Cid, n: nat, c: Cid)
    requires Recorded(p, rec, log) && Closed(p, rec, log)
    requires Settled(p, rec, log, Item(b, n)) && c in Children(p, b)
    requires p.limit < 0 || n < p.limit
    ensures Settled(p, rec, log, Item(c, n + 1))
  {
    var x := if Skipped(p, Item(b, n)) then Item(b, n) else Item(b, rec[b]);
    assert x in log && ClosedAt(p, rec, log, x);
    assert Settled(p, rec, log, Item(c, x.depth + 1));
  }

  /** Everything in scope is covered by a closed log. */
  lemma {:induction false} LayersCovered(p: Walk, rec: Depths, log: seq<Item>, n: nat, c: Cid)
    requires Recorded(p, rec, log) && Closed(p, rec, log)
    requires At(p, c, n) && (p.limit < 0 || n <= p.limit)
    ensures Settled(p, rec, log, Item(c, n))
    decreases n
  {
    if n > 0 {
      var b := AtBack(p, n, c);
      LayersCovered(p, rec, log, n - 1, b);
      SettledStep(p, rec, log, b, n - 1, c);
    } else {
      assert c == p.root;
    }
  }

  /** A closed log makes the visit map exact. */
  lemma ClosedIsExact(p: Walk, rec: Depths, log: seq<Item>)
    requires Recorded(p, rec, log) && Closed(p, rec, log)
    ensures Exact(p, rec)
  {
    RecordedIsReal(p, rec, log);
    forall c, n: nat | InScope(p, n) && At(p, c, n) ensures c in rec && (p.limit >= 0 ==> rec[c] <= n) {
      LayersCovered(p, rec, log, n, c);
    }
  }

  /** ... and everything to expand readable. */
  lemma ClosedIsReadable(p: Walk, rec: Depths, log: seq<Item>)
    requires Recorded(p, rec, log) && Closed(p, rec, log)
    ensures Readable(p)
  {
    forall c, n: nat | At(p, c, n) && (p.limit < 0 || n <= p.limit) ensures Passable(p, c) {
      LayersCovered(p, rec, log, n, c);
      var x := if Skipped(p, Item(c, n)) then Item(c, n) else Item(c, rec[c]);
      assert x in log && ClosedAt(p, rec, log, x);
    }
  }

  /** A log with an unreadable expansion shows the DAG is not readable. */
  lemma UnreadableWitness(p: Walk, rec: Depths, log: seq<Item>, x: Item)
    requires Recorded(p, rec, log) && x in log && !Passable(p, x.cid)
    ensures !Readable(p)
  {
    var i :| 0 <= i < |log| && log[i] == x;
    LogInLayers(p, log, i);
    assert RecordedItem(p, rec, x);
  }

  lemma ExactBelow(p: Walk, rec: Depths, rec': Depths, c: Cid)
    requires Exact(p, rec) && Exact(p, rec') && c in rec
    ensures c in rec' && (p.limit >= 0 ==> rec'[c] <= rec[c])
  {
    var n := rec[c];
    assert InScope(p, n) && At(p, c, n);
  }

  /** There is only one exact answer. */
  lemma ExactIsUnique(p: Walk, rec: Depths, rec': Depths)
    requires Exact(p, rec) && Exact(p, rec')
    ensures rec.Keys == rec'.Keys
    ensures p.limit >= 0 ==> rec == rec'
  {
    forall c | c in rec ensures c in rec' && (p.limit >= 0 ==> rec'[c] <= rec[c]) {
      ExactBelow(p, rec, rec', c);
    }
    forall c | c in rec' ensures c in rec && (p.limit >= 0 ==> rec[c] <= rec'[c]) {
      ExactBelow(p, rec', rec, c);
    }
  }

  // ---- what walks of the same DAG have in common

  /** The walks differ at most in what goes wrong and in the number of workers. */
  ghost predicate SameDag(p: Walk, q: Walk) {
    q == p.(concurrency := q.concurrency, spurious := q.spurious, late := q.late, cancellable := q.cancellable)
  }

  lemma SameDagReached(p: Walk, q: Walk)
    requires SameDag(p, q)
    ensures forall c :: Reached(p, c) <==> Reached(q, c)
    ensures Readable(p) <==> Readable(q)
  {
    assert forall n: nat, c :: At(p, c, n) <==> At(q, c, n);
    forall c ensures Reached(p, c) <==> Reached(q, c) {
      if n: nat :| InScope(p, n) && At(p, c, n) { assert InScope(q, n) && At(q, c, n); }
      if n: nat :| InScope(q, n) && At(q, c, n) { assert InScope(p, n) && At(p, c, n); }
    }
  }

  /** The plain walk of the same DAG with the same options: nothing interferes. */
  function Plain(p: Walk): Walk {
    p.(spurious := {}, late := {}, cancellable := false)
  }

  /** The visits still to come: pairs of CID and depth not yet covered. */
  function Missing(p: Walk, rec: Depths): set<Item> {
    set c, k |
      c in Universe(p) && 0 <= k <= (if p.limit < 0 then 0 else p.limit) && !Covered(p.limit, rec, Item(c, k)) ::
      Item(c, k)
  }

  lemma MissingShrinks(p: Walk, rec: Depths, rec': Depths)
    requires Refines(rec, rec')
    ensures Missing(p, rec') <= Missing(p, rec) && |Missing(p, rec')| <= |Missing(p, rec)|
  {
    SubsetSize(Missing(p, rec'), Missing(p, rec));
  }

  /** A visit that answers true uses up one of the visits still to come. */
  lemma VisitUsesUp(p: Walk, rec: Depths, x: Item)
    requires x.cid in Universe(p) && !Covered(p.limit, rec, x)
    ensures |Missing(p, rec[x.cid := x.depth])| < |Missing(p, rec)|
  {
    var rec' := rec[x.cid := x.depth];
    var gone := Item(x.cid, if p.limit < 0 then 0 else x.depth);
    assert gone in Missing(p, rec) && gone !in Missing(p, rec');
    SubsetSize(Missing(p, rec'), Missing(p, rec) - {gone});
  }

  lemma SubsetSize<T>(a: set<T>, b: set<T>)
    requires a <= b
    ensures |a| <= |b|
  {
    assert |b| == |a| + |b - a| by { assert b == a + (b - a); }
  }
}
