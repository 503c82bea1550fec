/** `sequentialWalkDepth` in the form of the source: the recursion, its visit closure and its
    progress counter, over a `getLinks` that may also fail out of turn. Every call is a run of
    the depth-first machine, for every handler. */
module SequentialWalk {
  import opened Dag
  import opened VisitLog
  import DF = DepthFirst

  /** The state behind the visit closure of `FetchGraphWithDepthLimit` (a negative limit gives
      the visited-set closures of `Walk2` and of the manifest server), with the progress total. */
  class Visitor {
    const limit: int
    var seen: Depths
    var total: nat
    var calls: nat          // how often getLinks was called
    ghost var log: seq<Item>

    constructor (limit: int)
      ensures this.limit == limit && seen == map[] && total == 0 && log == []
    {
      this.limit, seen, total, calls, log := limit, map[], 0, 0, [];
    }

    /** The machine's state with this visitor, the calls `todo` still to be made. */
    ghost function Now(todo: seq<Item>, fetching: Option<Item>, failed: Option<Error>): DF.State
      reads this
    {
      DF.State(todo, fetching, failed, seen, total, log)
    }

    ghost predicate In(s: DF.State)
      reads this
    {
      s.seen == seen && s.total == total && s.log == log
    }

    /** The visit closure with its progress counter. */
    method Visit(c: Cid, depth: nat) returns (should: bool)
      modifies this`seen, this`total, this`log
      ensures should == !Covered(limit, old(seen), Item(c, depth))
      ensures seen == if should then old(seen)[c := depth] else old(seen)
      ensures total == if should then old(total) + 1 else old(total)
      ensures log == if should then old(log) + [Item(c, depth)] else old(log)
    {
      should, seen := VisitRule(limit, seen, c, depth);
      if should {
        total := total + 1;
        log := log + [Item(c, depth)];
      }
    }

    /** The visited-or-skipped test: whether `c` is to be expanded. */
    method Enter(p: Walk, c: Cid, depth: nat, ghost rest: seq<Item>) returns (go: bool)
      requires limit == p.limit
      modifies this
      ensures var x := Item(c, depth);
              && go == !(Covered(limit, old(seen), x) && !Skipped(p, x))
              && (go && !Skipped(p, x) ==> seen == old(seen)[c := depth])
              && (Skipped(p, x) ==> seen == old(seen))
              && Now(rest, if go then Some(x) else None, None) ==
                 DF.ApplyVisit(p, old(Now([x] + rest, None, None)))
    {
      if p.skipRoot && depth == 0 {
        log := log + [Item(c, depth)];
        return true;
      }
      go := Visit(c, depth);
    }
  }

  /** `getLinks`: the answer to the n-th call. */
  type Getter = (nat, Cid) -> Fetch

  ghost predicate Faithful(p: Walk, getLinks: Getter) {
    forall n, c :: MayAnswer(p, p.cancellable, c, getLinks(n, c))
  }

  /** The recursive call for one item: it takes the machine from the state `s` with that item on
      top of the stack to the rest of the stack, or to an error with `left` on the stack. */
  method SequentialWalkDepth(p: Walk, getLinks: Getter, v: Visitor, c: Cid, depth: nat,
                             ghost rest: seq<Item>, ghost s: DF.State)
    returns (r: Option<Error>, ghost left: seq<Item>)
    requires Faithful(p, getLinks) && v.limit == p.limit
    requires v.In(s) && s.todo == [Item(c, depth)] + rest && s.fetching.None? && s.failed.None? && DF.Possible(p, s)
    modifies v
    ensures DF.Leads(p, s, v.Now(left, None, r))
    ensures r.None? ==> left == rest
    decreases if Skipped(p, Item(c, depth)) then 1 else 0, |Missing(p, v.seen)|, 0
  {
    var x := Item(c, depth);
    DF.InvLeads(p, s);
    assert x in s.todo;
    InUniverse(p, v.log, x);
    if !Skipped(p, x) && !Covered(p.limit, v.seen, x) { VisitUsesUp(p, v.seen, x); }
    var go := v.Enter(p, c, depth, rest);
    ghost var s' := DF.Apply(p, s, DF.Visit);
    DF.LeadsOne(p, s, DF.Visit);
    if !go {
      return None, rest;
    }
    DF.LeadsOn(p, DF.Init(p), s, s');
    r, left := Expansion(p, getLinks, v, x, rest, s');
    DF.LeadsOn(p, s, s', v.Now(left, None, r));
  }

  /** The expansion of `x`: fetch its links and walk them. */
  method Expansion(p: Walk, getLinks: Getter, v: Visitor, x: Item, ghost rest: seq<Item>, ghost s: DF.State)
    returns (r: Option<Error>, ghost left: seq<Item>)
    requires Faithful(p, getLinks) && v.limit == p.limit
    requires v.In(s) && s.todo == rest && s.fetching == Some(x) && s.failed.None? && DF.Possible(p, s)
    modifies v
    ensures DF.Leads(p, s, v.Now(left, None, r))
    ensures r.None? ==> left == rest
    decreases 0, |Missing(p, v.seen)|, 3
  {
    var g;
    ghost var todo, s';
    g, todo, s' := FetchLinks(p, getLinks, v, x, rest, s);
    if g.Failed? {
      return Some(g.error), rest;
    }
    DF.LeadsOn(p, DF.Init(p), s, s');
    r, left := WalkLinks(p, getLinks, v, g.links, x.depth + 1, rest, todo, s');
    DF.LeadsOn(p, s, s', v.Now(left, None, r));
  }

  /** The links are on top of the stack. */
  ghost predicate Stacked(todo: seq<Item>, links: seq<Cid>, depth: nat, rest: seq<Item>) {
    todo == Items(links, depth) + rest
  }

  /** The call of getLinks and of the error handler. */
  method FetchLinks(p: Walk, getLinks: Getter, v: Visitor, x: Item, ghost rest: seq<Item>, ghost s: DF.State)
    returns (g: Fetch, ghost todo: seq<Item>, ghost s': DF.State)
    requires Faithful(p, getLinks)
    requires v.In(s) && s.todo == rest && s.fetching == Some(x) && s.failed.None? && DF.Possible(p, s)
    modifies v`calls
    ensures if g.Links? then Stacked(todo, g.links, x.depth + 1, rest) else todo == rest
    ensures s' == v.Now(todo, None, if g.Links? then None else Some(g.error))
    ensures DF.Leads(p, s, s')
  {
    var f := getLinks(v.calls, x.cid);
    v.calls := v.calls + 1;
    g := Answer(p.handler, f);
    todo := if g.Links? then Items(g.links, x.depth + 1) + rest else rest;
    s' := DF.GetLeads(p, s, f, g, todo);
  }

  /** The loop of the walk over the links of an expansion. */
  method WalkLinks(p: Walk, getLinks: Getter, v: Visitor, links: seq<Cid>, depth: nat,
                   ghost rest: seq<Item>, ghost todo: seq<Item>, ghost s: DF.State)
    returns (r: Option<Error>, ghost left: seq<Item>)
    requires Faithful(p, getLinks) && v.limit == p.limit && depth > 0 && Stacked(todo, links, depth, rest)
    requires v.In(s) && s.todo == todo && s.fetching.None? && s.failed.None? && DF.Possible(p, s)
    modifies v
    ensures DF.Leads(p, s, v.Now(left, None, r))
    ensures r.None? ==> left == rest
    decreases 0, |Missing(p, v.seen)|, 2
  {
    ghost var s' := s;
    DF.LeadsNowhere(p, s);
    for i := 0 to |links|
      invariant v.In(s') && s'.todo == Items(links[i..], depth) + rest && s'.fetching.None? && s'.failed.None?
      invariant DF.Leads(p, s, s')
    {
      DF.RefinesLeads(p, s, s');
      DF.LeadsOn(p, DF.Init(p), s, s');
      MissingShrinks(p, s.seen, s'.seen);
      LinksLeft(links, i, depth, rest);
      r, left := SequentialWalkDepth(p, getLinks, v, links[i], depth, Items(links[i + 1..], depth) + rest, s');
      DF.LeadsOn(p, s, s', v.Now(left, None, r));
      s' := v.Now(left, None, r);
      if r.Some? {
        return r, left;
      }
    }
    assert Items(links[|links|..], depth) + rest == rest;
    return None, rest;
  }

  lemma LinksLeft(links: seq<Cid>, i: nat, depth: nat, rest: seq<Item>)
    requires i < |links|
    ensures Items(links[i..], depth) + rest == [Item(links[i], depth)] + (Items(links[i + 1..], depth) + rest)
  {
  }

  /** The whole sequential walk, which terminates for every handler and every answer of the
      getter. What it has visited is really there, and an error is the content's or an
      interference. With a handler that lets made-up errors through, success means an exact
      visit map; with nothing made up, it succeeds exactly on readable DAGs. */
  method WalkFromRoot(p: Walk, getLinks: Getter) returns (r: Option<Error>, v: Visitor)
    requires Faithful(p, getLinks)
    ensures fresh(v) && Recorded(p, v.seen, v.log) && Counted(p, v.seen, v.log, v.total)
    ensures DF.LogInTurn(p, v.log)
    ensures forall c | c in v.seen :: InScope(p, v.seen[c]) && At(p, c, v.seen[c])
    ensures Blamed(p, v.log, r)
    ensures Surfaces(p) && r.None? ==> Exact(p, v.seen) && Readable(p)
    ensures Undisturbed(p) ==> (r.None? <==> Readable(p))
  {
    v := new Visitor(p.limit);
    ghost var left;
    assert [Item(p.root, 0)] + [] == [Item(p.root, 0)];
    DF.LeadsNowhere(p, DF.Init(p));
    r, left := SequentialWalkDepth(p, getLinks, v, p.root, 0, [], DF.Init(p));
    ghost var s := v.Now(left, None, r);
    DF.InvLeads(p, s);
    DF.PossibleInTurn(p, s);
    RecordedIsReal(p, v.seen, v.log);
    if Surfaces(p) && r.None? { DF.EndedExact(p, s); }
    if Undisturbed(p) { DF.EndedReadable(p, s); }
  }
}
