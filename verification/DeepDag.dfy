/** The deep test DAG: a chain of nodes above one raw leaf, built leaf first. */
module DeepDag {
  import opened Dag
  import opened VisitLog
  import opened SequentialWalk

  datatype Node = Raw(data: string) | Linked(height: nat, next: Cid, extra: string)

  type Nodes = map<Cid, Node>

  /** CIDs are taken as an injective function of the node. */
  ghost predicate Injective(cidOf: Node -> Cid) {
    forall a, b :: cidOf(a) == cidOf(b) ==> a == b
  }

  function Height(node: Node): nat {
    match node case Raw(_) => 0 case Linked(h, _, _) => h
  }

  /** From `c` the nodes go down one height per link to a raw leaf. */
  predicate Chain(nodes: Nodes, c: Cid, h: nat)
    decreases h
  {
    && c in nodes && Height(nodes[c]) == h
    && (h == 0 ==> nodes[c].Raw?)
    && (h > 0 ==> nodes[c].Linked? && Chain(nodes, nodes[c].next, h - 1))
  }

  /** The CID `i` links below `c`. */
  function Below(nodes: Nodes, c: Cid, h: nat, i: nat): Cid
    requires Chain(nodes, c, h) && i <= h
    decreases i
  {
    if i == 0 then c else Below(nodes, nodes[c].next, h - 1, i - 1)
  }

  lemma {:induction false} ChainGrows(nodes: Nodes, c: Cid, h: nat, d: Cid, node: Node)
    requires Chain(nodes, c, h) && d !in nodes
    ensures Chain(nodes[d := node], c, h)
    decreases h
  {
    if h > 0 { ChainGrows(nodes, nodes[c].next, h - 1, d, node); }
  }

  /** The i-th node from below carries the i-th random bytes. */
  predicate Carries(nodes: Nodes, c: Cid, h: nat, blob: nat -> string)
    requires Chain(nodes, c, h)
    decreases h
  {
    match nodes[c]
    case Raw(data) => data == blob(0)
    case Linked(_, next, extra) => extra == blob(h) && Carries(nodes, next, h - 1, blob)
  }

  lemma {:induction false} CarriesGrows(nodes: Nodes, c: Cid, h: nat, blob: nat -> string, d: Cid, node: Node)
    requires Chain(nodes, c, h) && Carries(nodes, c, h, blob) && d !in nodes
    ensures Chain(nodes[d := node], c, h) && Carries(nodes[d := node], c, h, blob)
    decreases h
  {
    ChainGrows(nodes, c, h, d, node);
    if h > 0 { CarriesGrows(nodes, nodes[c].next, h - 1, blob, d, node); }
  }

  /** A node above the chain makes it longer. */
  lemma NodeAdded(nodes: Nodes, c: Cid, h: nat, blob: nat -> string, cidOf: Node -> Cid, d: Cid, node: Node)
    requires Injective(cidOf) && Chain(nodes, c, h) && Carries(nodes, c, h, blob)
    requires node == Linked(h + 1, c, blob(h + 1)) && d == cidOf(node)
    requires forall b | b in nodes :: cidOf(nodes[b]) == b && Height(nodes[b]) <= h
    ensures d !in nodes && Chain(nodes[d := node], d, h + 1) && Carries(nodes[d := node], d, h + 1, blob)
  {
    assert d !in nodes;
    CarriesGrows(nodes, c, h, blob, d, node);
  }

  /** The chain-building loop. `blob(i)` are the random bytes of the i-th block. */
  method Build(depth: int, blob: nat -> string, cidOf: Node -> Cid) returns (root: Cid, nodes: Nodes, height: nat)
    requires Injective(cidOf)
    ensures height + 1 == if depth > 1 then depth else 1
    ensures Chain(nodes, root, height) && |nodes| == height + 1 && Carries(nodes, root, height, blob)
    ensures forall c | c in nodes :: cidOf(nodes[c]) == c
  {
    var leaf := Raw(blob(0));
    var nextCid := cidOf(leaf);
    nodes := map[nextCid := leaf];
    height := 0;
    var i := 1;
    while i < depth
      invariant i == height + 1 && (i == 1 || i <= depth)
      invariant Chain(nodes, nextCid, height) && |nodes| == height + 1 && Carries(nodes, nextCid, height, blob)
      invariant forall c | c in nodes :: cidOf(nodes[c]) == c && Height(nodes[c]) <= height
    {
      var next := Linked(i, nextCid, blob(i));
      var lnk := cidOf(next);
      NodeAdded(nodes, nextCid, height, blob, cidOf, lnk, next);
      nodes := nodes[lnk := next];
      nextCid, height, i := lnk, i, i + 1;
    }
    root := nextCid;
  }

  // ---- the chain under the walk

  function LinksOf(nodes: Nodes): Store {
    map c | c in nodes :: Links(match nodes[c] case Raw(_) => [] case Linked(_, next, _) => [next])
  }

  function ChainWalk(nodes: Nodes, root: Cid): Walk {
    Walk(LinksOf(nodes), NoHandler, root, -1, false, 1, {}, {}, false)
  }

  lemma {:induction false} BelowChain(nodes: Nodes, c: Cid, h: nat, i: nat)
    requires Chain(nodes, c, h) && i <= h
    ensures Chain(nodes, Below(nodes, c, h, i), h - i)
    decreases i
  {
    if i > 0 { BelowChain(nodes, nodes[c].next, h - 1, i - 1); }
  }

  lemma {:induction false} BelowStep(nodes: Nodes, c: Cid, h: nat, i: nat)
    requires Chain(nodes, c, h) && i < h
    ensures Below(nodes, c, h, i) in nodes && nodes[Below(nodes, c, h, i)].Linked?
    ensures Below(nodes, c, h, i + 1) == nodes[Below(nodes, c, h, i)].next
    decreases i
  {
    if i > 0 { BelowStep(nodes, nodes[c].next, h - 1, i - 1); }
  }

  /** Height drops by one per link, so the CIDs of the chain are distinct. */
  lemma BelowDistinct(nodes: Nodes, c: Cid, h: nat, i: nat, j: nat)
    requires Chain(nodes, c, h) && i < j <= h
    ensures Below(nodes, c, h, i) != Below(nodes, c, h, j)
  {
    BelowChain(nodes, c, h, i);
    BelowChain(nodes, c, h, j);
  }

  /** Following n links from the root leads to the n-th CID of the chain and nowhere else. */
  lemma {:induction false} ChainLayers(nodes: Nodes, root: Cid, h: nat, n: nat)
    requires Chain(nodes, root, h)
    ensures Layer(ChainWalk(nodes, root).store, root, n) == if n <= h then {Below(nodes, root, h, n)} else {}
    decreases n
  {
    var p := ChainWalk(nodes, root);
    if n > 0 {
      ChainLayers(nodes, root, h, n - 1);
      if n - 1 <= h {
        var b := Below(nodes, root, h, n - 1);
        BelowChain(nodes, root, h, n - 1);
        if n <= h {
          BelowStep(nodes, root, h, n - 1);
          var x := Below(nodes, root, h, n);
          assert Children(p, b) == [x];
          assert b in Layer(p.store, root, n - 1) && x in Children(p, b);
          assert forall d :: d in Layer(p.store, root, n) <==> d == x;
        } else {
          assert Children(p, b) == [];
        }
      }
    }
  }

  /** The root reaches exactly the CIDs of the chain. */
  lemma ChainReached(nodes: Nodes, root: Cid, h: nat, c: Cid)
    requires Chain(nodes, root, h)
    ensures Reached(ChainWalk(nodes, root), c) <==> exists i: nat :: i <= h && Below(nodes, root, h, i) == c
  {
    var p := ChainWalk(nodes, root);
    if Reached(p, c) {
      var n: nat :| InScope(p, n) && At(p, c, n);
      ChainLayers(nodes, root, h, n);
    }
    if i: nat :| i <= h && Below(nodes, root, h, i) == c {
      ChainLayers(nodes, root, h, i);
      assert InScope(p, i) && At(p, c, i);
    }
  }

  lemma ChainReadable(nodes: Nodes, root: Cid, h: nat)
    requires Chain(nodes, root, h)
    ensures Readable(ChainWalk(nodes, root))
  {
    var p := ChainWalk(nodes, root);
    forall c, n: nat | At(p, c, n) && (p.limit < 0 || n <= p.limit) ensures Passable(p, c) {
      ChainLayers(nodes, root, h, n);
      BelowChain(nodes, root, h, n);
    }
  }

  /** Any log of a walk of the chain lists a prefix of it, in order. */
  lemma {:induction false} ChainLog(nodes: Nodes, root: Cid, h: nat, seen: Depths, log: seq<Item>, i: nat)
    requires Chain(nodes, root, h) && Recorded(ChainWalk(nodes, root), seen, log) && i < |log|
    ensures i <= h && log[i] == Item(Below(nodes, root, h, i), i)
    decreases i
  {
    var p := ChainWalk(nodes, root);
    LogInLayers(p, log, i);
    var d := log[i].depth;
    ChainLayers(nodes, root, h, d);
    assert d <= h && log[i] == Item(Below(nodes, root, h, d), d);
    assert Origin(p, log[..i], log[i]);
    if d > 0 {
      var y :| y in log[..i] && log[i].depth == y.depth + 1;
      var j :| 0 <= j < i && log[j] == y;
      ChainLog(nodes, root, h, seen, log, j);
    }
    if d < i {
      ChainLog(nodes, root, h, seen, log, d);
    }
  }

  /** Every walk that has visited all of the chain has visited it once each and in order. */
  lemma ChainInOrder(nodes: Nodes, root: Cid, h: nat, seen: Depths, log: seq<Item>)
    requires Chain(nodes, root, h)
    requires Recorded(ChainWalk(nodes, root), seen, log) && Exact(ChainWalk(nodes, root), seen)
    ensures |log| == h + 1
    ensures forall i | 0 <= i <= h :: log[i] == Item(Below(nodes, root, h, i), i)
  {
    forall i | 0 <= i < |log| ensures i <= h && log[i] == Item(Below(nodes, root, h, i), i) {
      ChainLog(nodes, root, h, seen, log, i);
    }
    var last := Below(nodes, root, h, h);
    var p := ChainWalk(nodes, root);
    ChainLayers(nodes, root, h, h);
    assert InScope(p, h) && At(p, last, h);
    assert Reached(p, last);
    var k :| 0 <= k < |log| && log[k] == Item(last, seen[last]);
    ChainLog(nodes, root, h, seen, log, k);
    if k < h { BelowDistinct(nodes, root, h, k, h); }
    assert k == h;
    ChainLog(nodes, root, h, seen, log, |log| - 1);
  }

  /** Building the DAG and walking it sequentially: the walk succeeds and visits the max(1, depth)
      CIDs of the chain once each, from the root down. */
  method BuildAndWalk(depth: int, blob: nat -> string, cidOf: Node -> Cid)
    returns (root: Cid, nodes: Nodes, height: nat, v: Visitor)
    requires Injective(cidOf)
    ensures height + 1 == (if depth > 1 then depth else 1) && Chain(nodes, root, height)
    ensures |v.log| == height + 1 && v.total == height + 1
    ensures forall i | 0 <= i <= height :: v.log[i] == Item(Below(nodes, root, height, i), i)
  {
    root, nodes, height := Build(depth, blob, cidOf);
    var p := ChainWalk(nodes, root);
    var r;
    r, v := WalkFromRoot(p, (n, c) => GetLinks(p.store, c));
    ChainReadable(nodes, root, height);
    ChainInOrder(nodes, root, height, v.seen, v.log);
    AllVisits(p, v.log);
  }
}
