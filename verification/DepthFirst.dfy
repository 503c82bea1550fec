/** `sequentialWalkDepth` as a state machine: the calls still to be made are a stack of items,
    and one action is one visit or one fetch. */
module DepthFirst {
  import opened Dag
  import opened VisitLog

  /** `todo` is the stack, `fetching` the expansion in `getLinks`, `failed` the error returned. */
  datatype State = State(
    todo: seq<Item>, fetching: Option<Item>, failed: Option<Error>,
    seen: Depths, total: nat, log: seq<Item>)

  function Init(p: Walk): State {
    State([Item(p.root, 0)], None, None, map[], 0, [])
  }

  datatype Action = Visit | Get(answer: Fetch)

  predicate Enabled(p: Walk, s: State, a: Action) {
    && s.failed.None?
    && match a
       case Visit => s.fetching.None? && s.todo != []
       case Get(f) => s.fetching.Some? && MayAnswer(p, p.cancellable, s.fetching.value.cid, f)
  }

  function ApplyVisit(p: Walk, s: State): State
    requires s.todo != []
  {
    var x, s' := s.todo[0], s.(todo := s.todo[1..]);
    if Skipped(p, x) then s'.(fetching := Some(x), log := s.log + [x])
    else if Covered(p.limit, s.seen, x) then s'
    else s'.(fetching := Some(x), log := s.log + [x], seen := s.seen[x.cid := x.depth], total := s.total + 1)
  }

  function ApplyGet(p: Walk, s: State, f: Fetch): State
    requires s.fetching.Some?
  {
    match Answer(p.handler, f)
    case Links(l) => s.(fetching := None, todo := Items(l, s.fetching.value.depth + 1) + s.todo)
    case Failed(e) => s.(fetching := None, failed := Some(e))
  }

  function Apply(p: Walk, s: State, a: Action): State
    requires Enabled(p, s, a)
  {
    match a
    case Visit => ApplyVisit(p, s)
    case Get(f) => ApplyGet(p, s, f)
  }

  predicate Runs(p: Walk, s: State, acts: seq<Action>)
    decreases |acts|
  {
    acts != [] ==> Enabled(p, s, acts[0]) && Runs(p, Apply(p, s, acts[0]), acts[1..])
  }

  function Exec(p: Walk, s: State, acts: seq<Action>): State
    requires Runs(p, s, acts)
    decreases |acts|
  {
    if acts == [] then s else Exec(p, Apply(p, s, acts[0]), acts[1..])
  }

  /** The walk has returned. */
  predicate Ended(s: State) {
    s.failed.Some? || (s.fetching.None? && s.todo == [])
  }

  // ---- what every action keeps

  ghost predicate Sound(p: Walk, s: State) {
    && Recorded(p, s.seen, s.log)
    && Counted(p, s.seen, s.log, s.total)
    && (forall x {:trigger Origin(p, s.log, x)} | x in s.todo :: Origin(p, s.log, x))
    && (s.fetching.Some? ==> s.fetching.value in s.log)
    && Blamed(p, s.log, s.failed)
  }

  predicate Accounted(p: Walk, s: State, i: Item) {
    Settled(p, s.seen, s.log, i) || i in s.todo
  }

  predicate Handled(p: Walk, s: State, x: Item) {
    || s.fetching == Some(x)
    || (Passable(p, x.cid) && forall e | e in Children(p, x.cid) :: Accounted(p, s, Item(e, x.depth + 1)))
  }

  predicate Complete(p: Walk, s: State) {
    s.failed.None? ==>
      && Accounted(p, s, Item(p.root, 0))
      && forall x {:trigger Handled(p, s, x)} | x in s.log :: Handled(p, s, x)
  }

  ghost predicate Inv(p: Walk, s: State) {
    Sound(p, s) && (Surfaces(p) ==> Complete(p, s))
  }

  lemma InitInv(p: Walk)
    ensures Inv(p, Init(p))
  {
  }

  /** The item on top of the stack is expanded. */
  lemma ExpandSound(p: Walk, s: State, s': State, x: Item)
    requires Sound(p, s) && Enabled(p, s, Visit) && s.todo[0] == x
    requires s' == s.(todo := s.todo[1..], fetching := Some(x), log := s.log + [x], seen := s'.seen, total := s'.total)
    requires Recorded(p, s'.seen, s'.log) && Counted(p, s'.seen, s'.log, s'.total)
    ensures Sound(p, s')
  {
    forall y | y in s'.todo ensures Origin(p, s'.log, y) {
      assert y in s.todo && Origin(p, s.log, y);
      OriginGrows(p, s.log, [x], y);
    }
  }

  lemma VisitSound(p: Walk, s: State)
    requires Sound(p, s) && Enabled(p, s, Visit)
    ensures Sound(p, ApplyVisit(p, s))
  {
    var x, s' := s.todo[0], ApplyVisit(p, s);
    assert Origin(p, s.log, x);
    if Skipped(p, x) {
      VisitsMore(p, s.log, x);
      SkipKeeps(p, s.seen, s.log, x);
      ExpandSound(p, s, s', x);
    } else if Covered(p.limit, s.seen, x) {
      forall y | y in s'.todo ensures Origin(p, s.log, y) { assert y in s.todo; }
    } else {
      VisitCounts(p, s.seen, s.log, x, s.total);
      VisitKeeps(p, s.seen, s.log, x);
      ExpandSound(p, s, s', x);
    }
  }

  lemma GetSound(p: Walk, s: State, f: Fetch)
    requires Sound(p, s) && Enabled(p, s, Get(f))
    ensures Sound(p, ApplyGet(p, s, f))
  {
    var x, s' := s.fetching.value, ApplyGet(p, s, f);
    AnswerIsTrue(p, p.cancellable, x.cid, f);
    match Answer(p.handler, f)
    case Links(l) =>
      forall y | y in s'.todo && y !in s.todo ensures Origin(p, s.log, y) {
        var i :| 0 <= i < |l| && y == Item(l[i], x.depth + 1);
        assert l[i] in Children(p, x.cid);
      }
    case Failed(e) =>
  }

  lemma VisitAccounts(p: Walk, s: State, i: Item)
    requires Enabled(p, s, Visit) && Accounted(p, s, i)
    ensures Accounted(p, ApplyVisit(p, s), i)
  {
    var s' := ApplyVisit(p, s);
    assert Settled(p, s'.seen, s'.log, s.todo[0]);
    if Settled(p, s.seen, s.log, i) {
      SettledGrows(p, s.seen, s.log, s'.seen, s'.log, i);
    } else if i != s.todo[0] {
      assert i in s.todo[1..];
    }
  }

  lemma VisitComplete(p: Walk, s: State)
    requires Complete(p, s) && Enabled(p, s, Visit)
    ensures Complete(p, ApplyVisit(p, s))
  {
    var s' := ApplyVisit(p, s);
    VisitAccounts(p, s, Item(p.root, 0));
    forall x | x in s'.log ensures Handled(p, s', x) {
      if x in s.log {
        assert Handled(p, s, x);
        forall e | e in Children(p, x.cid) ensures Accounted(p, s', Item(e, x.depth + 1)) {
          VisitAccounts(p, s, Item(e, x.depth + 1));
        }
      }
    }
  }

  lemma GetComplete(p: Walk, s: State, f: Fetch)
    requires Surfaces(p) && Complete(p, s) && Enabled(p, s, Get(f))
    ensures Complete(p, ApplyGet(p, s, f))
  {
    var x, s' := s.fetching.value, ApplyGet(p, s, f);
    AnswerIsTrue(p, p.cancellable, x.cid, f);
    if s'.failed.None? {
      var l := Answer(p.handler, f).links;
      assert forall i | Accounted(p, s, i) :: Accounted(p, s', i);
      forall y | y in s'.log ensures Handled(p, s', y) {
        assert Handled(p, s, y);
        forall e | y == x && e in Children(p, x.cid) ensures Accounted(p, s', Item(e, x.depth + 1)) {
          var i :| 0 <= i < |l| && l[i] == e;
          assert s'.todo[i] == Item(e, x.depth + 1);
        }
      }
    }
  }

  lemma InvKept(p: Walk, s: State, a: Action)
    requires Inv(p, s) && Enabled(p, s, a)
    ensures Inv(p, Apply(p, s, a))
  {
    match a
    case Visit =>
      VisitSound(p, s);
      if Surfaces(p) { VisitComplete(p, s); }
    case Get(f) =>
      GetSound(p, s, f);
      if Surfaces(p) { GetComplete(p, s, f); }
  }

  // ---- in order

  /** There is nothing left to do for `x`: it is too deep, or has been expanded already, with a depth
      limit at its depth or nearer. */
  predicate Had(p: Walk, log: seq<Item>, x: Item) {
    || (p.limit >= 0 && x.depth > p.limit)
    || exists y :: y in log && y.cid == x.cid && (p.limit >= 0 ==> y.depth <= x.depth)
  }

  /** `x` is the i-th link of `y`. */
  predicate IsLink(p: Walk, y: Item, i: nat, x: Item) {
    i < |Children(p, y.cid)| && x == Item(Children(p, y.cid)[i], y.depth + 1)
  }

  /** `x` is the root, or a link of an expansion all of whose earlier links are done, or come
      before it in `front`. */
  ghost predicate InTurn(p: Walk, log: seq<Item>, front: seq<Item>, x: Item) {
    || x == Item(p.root, 0)
    || exists y, i: nat :: y in log && IsLink(p, y, i, x) &&
         forall j: nat {:trigger Children(p, y.cid)[j]} | j < i ::
           Had(p, log, Item(Children(p, y.cid)[j], x.depth)) || Item(Children(p, y.cid)[j], x.depth) in front
  }

  /** Every expansion was in turn. */
  ghost predicate LogInTurn(p: Walk, log: seq<Item>) {
    forall k {:trigger log[k]} | 0 <= k < |log| :: InTurn(p, log[..k], [], log[k])
  }

  ghost predicate StackInTurn(p: Walk, s: State) {
    forall t {:trigger s.todo[t]} | 0 <= t < |s.todo| :: InTurn(p, s.log, s.todo[..t], s.todo[t])
  }

  lemma InTurnOn(p: Walk, log: seq<Item>, front: seq<Item>, log': seq<Item>, front': seq<Item>, x: Item)
    requires InTurn(p, log, front, x) && log <= log'
    requires forall y | y in front :: y in front' || Had(p, log', y)
    ensures InTurn(p, log', front', x)
  {
    if x != Item(p.root, 0) {
      var y, i: nat :| y in log && IsLink(p, y, i, x) &&
        forall j: nat {:trigger Children(p, y.cid)[j]} | j < i ::
          Had(p, log, Item(Children(p, y.cid)[j], x.depth)) || Item(Children(p, y.cid)[j], x.depth) in front;
      assert y in log';
      forall j: nat | j < i
        ensures Had(p, log', Item(Children(p, y.cid)[j], x.depth)) || Item(Children(p, y.cid)[j], x.depth) in front'
      {
        HadOn(p, log, log', Item(Children(p, y.cid)[j], x.depth));
      }
    }
  }

  lemma HadOn(p: Walk, log: seq<Item>, log': seq<Item>, x: Item)
    requires log <= log'
    ensures Had(p, log, x) ==> Had(p, log', x)
  {
    if y :| y in log && y.cid == x.cid && (p.limit >= 0 ==> y.depth <= x.depth) { assert y in log'; }
  }

  /** What was just visited is done. */
  lemma VisitHas(p: Walk, s: State)
    requires Sound(p, s) && Enabled(p, s, Visit)
    ensures Had(p, ApplyVisit(p, s).log, s.todo[0])
  {
    var x, s' := s.todo[0], ApplyVisit(p, s);
    if Skipped(p, x) || !Covered(p.limit, s.seen, x) {
      assert x in s'.log;
    } else if !(p.limit >= 0 && x.depth > p.limit) {
      assert Item(x.cid, s.seen[x.cid]) in s.log;
    }
  }

  lemma VisitInTurn(p: Walk, s: State)
    requires Sound(p, s) && Enabled(p, s, Visit) && LogInTurn(p, s.log) && StackInTurn(p, s)
    ensures LogInTurn(p, ApplyVisit(p, s).log) && StackInTurn(p, ApplyVisit(p, s))
  {
    var s' := ApplyVisit(p, s);
    VisitHas(p, s);
    assert s.todo[..0] == [] && InTurn(p, s.log, s.todo[..0], s.todo[0]);
    LogGrows(p, s.log, s'.log, s.todo[0]);
    forall t: nat | t < |s'.todo| ensures InTurn(p, s'.log, s'.todo[..t], s'.todo[t]) {
      assert InTurn(p, s.log, s.todo[..t + 1], s.todo[t + 1]);
      Popped(p, s.log, s.todo, s'.log, t);
    }
  }

  lemma LogGrows(p: Walk, log: seq<Item>, log': seq<Item>, x: Item)
    requires LogInTurn(p, log) && InTurn(p, log, [], x) && (log' == log || log' == log + [x])
    ensures LogInTurn(p, log')
  {
    forall k | 0 <= k < |log'| ensures InTurn(p, log'[..k], [], log'[k]) {
      if k < |log| {
        assert log'[..k] == log[..k] && log'[k] == log[k];
      } else {
        assert log'[..k] == log;
      }
    }
  }

  lemma Popped(p: Walk, log: seq<Item>, todo: seq<Item>, log': seq<Item>, t: nat)
    requires t + 1 < |todo| && InTurn(p, log, todo[..t + 1], todo[t + 1]) && log <= log' && Had(p, log', todo[0])
    ensures InTurn(p, log', todo[1..][..t], todo[1..][t])
  {
    var front := todo[1..][..t];
    assert todo[..t + 1] == [todo[0]] + front;
    InTurnOn(p, log, todo[..t + 1], log', front, todo[t + 1]);
  }

  lemma GetInTurn(p: Walk, s: State, f: Fetch)
    requires Sound(p, s) && Enabled(p, s, Get(f)) && StackInTurn(p, s)
    ensures StackInTurn(p, ApplyGet(p, s, f))
  {
    var x, s' := s.fetching.value, ApplyGet(p, s, f);
    AnswerIsTrue(p, p.cancellable, x.cid, f);
    match Answer(p.handler, f)
    case Failed(_) =>
    case Links(l) =>
      var items := Items(l, x.depth + 1);
      forall t: nat | t < |s'.todo| ensures InTurn(p, s'.log, s'.todo[..t], s'.todo[t]) {
        if t < |l| {
          assert s'.todo[t] == items[t] && IsLink(p, x, t, s'.todo[t]);
          forall j: nat | j < t ensures Item(Children(p, x.cid)[j], x.depth + 1) in s'.todo[..t] {
            assert s'.todo[..t][j] == items[j];
          }
        } else {
          var u := t - |l|;
          assert s'.todo[t] == s.todo[u] && s'.todo[..t] == items + s.todo[..u];
          assert InTurn(p, s.log, s.todo[..u], s.todo[u]);
          InTurnOn(p, s.log, s.todo[..u], s'.log, s'.todo[..t], s'.todo[t]);
        }
      }
  }

  lemma {:induction false} InTurnAlways(p: Walk, s: State, acts: seq<Action>)
    requires Inv(p, s) && LogInTurn(p, s.log) && StackInTurn(p, s) && Runs(p, s, acts)
    ensures LogInTurn(p, Exec(p, s, acts).log)
    decreases |acts|
  {
    if acts != [] {
      match acts[0] {
        case Visit => VisitInTurn(p, s);
        case Get(f) => GetInTurn(p, s, f);
      }
      InvKept(p, s, acts[0]);
      InTurnAlways(p, Apply(p, s, acts[0]), acts[1..]);
    }
  }

  /** The sequential walk takes the links of a block in order: whatever it expands is the root, or a
      link of an earlier expansion whose links before it were all done by then. */
  lemma LinksInOrder(p: Walk, acts: seq<Action>)
    requires Runs(p, Init(p), acts)
    ensures LogInTurn(p, Exec(p, Init(p), acts).log)
  {
    InitInv(p);
    InTurnAlways(p, Init(p), acts);
  }

  // ---- the machine cannot go on forever

  /** Only the root is on the stack at depth 0, and only at the start. */
  predicate Deep(s: State) {
    forall i | 0 <= i < |s.todo| && (i > 0 || s.fetching.Some?) :: s.todo[i].depth > 0
  }

  /** Visits that can still answer true, and the root item. */
  ghost function Potential(p: Walk, s: State): nat {
    |Missing(p, s.seen)| + if s.todo != [] && s.todo[0].depth == 0 then 1 else 0
  }

  function Expansions(s: State): nat {
    if s.fetching.Some? then 1 else 0
  }

  ghost predicate Less(p: Walk, s': State, s: State) {
    || Potential(p, s') < Potential(p, s)
    || (Potential(p, s') == Potential(p, s) && Expansions(s') < Expansions(s))
    || (Potential(p, s') == Potential(p, s) && Expansions(s') == Expansions(s) && |s'.todo| < |s.todo|)
  }

  lemma VisitLess(p: Walk, s: State)
    requires Sound(p, s) && Deep(s) && Enabled(p, s, Visit)
    ensures Deep(ApplyVisit(p, s)) && Less(p, ApplyVisit(p, s), s)
  {
    var x, s' := s.todo[0], ApplyVisit(p, s);
    assert forall i | 0 <= i < |s'.todo| :: s'.todo[i] == s.todo[i + 1];
    assert Origin(p, s.log, x);
    InUniverse(p, s.log, x);
    if !Skipped(p, x) && !Covered(p.limit, s.seen, x) { VisitUsesUp(p, s.seen, x); }
  }

  lemma GetLess(p: Walk, s: State, f: Fetch)
    requires Deep(s) && Enabled(p, s, Get(f))
    ensures Deep(ApplyGet(p, s, f)) && Less(p, ApplyGet(p, s, f), s)
  {
  }

  /** Every action makes the measure smaller. */
  lemma StepLess(p: Walk, s: State, a: Action)
    requires Sound(p, s) && Deep(s) && Enabled(p, s, a)
    ensures Deep(Apply(p, s, a)) && Less(p, Apply(p, s, a), s)
  {
    match a
    case Visit => VisitLess(p, s);
    case Get(f) => GetLess(p, s, f);
  }

  /** Until it has returned the walk has a step to take. */
  lemma NoDeadlock(p: Walk, s: State) returns (a: Action)
    requires !Ended(s)
    ensures Enabled(p, s, a)
  {
    a := if s.fetching.Some? then Get(GetLinks(p.store, s.fetching.value.cid)) else Visit;
  }

  /** A walk that has returned nil has an exact visit map, if its handler lets made-up errors
      through. */
  lemma EndedExact(p: Walk, s: State)
    requires Inv(p, s) && Surfaces(p) && Ended(s) && s.failed.None?
    ensures Exact(p, s.seen) && Readable(p)
  {
    forall x | x in s.log ensures ClosedAt(p, s.seen, s.log, x) {
      assert Handled(p, s, x);
      forall e | e in Children(p, x.cid) ensures Settled(p, s.seen, s.log, Item(e, x.depth + 1)) {
        assert Accounted(p, s, Item(e, x.depth + 1));
      }
    }
    ClosedIsExact(p, s.seen, s.log);
    ClosedIsReadable(p, s.seen, s.log);
  }

  /** Without cancellation and made-up errors a walk succeeds exactly on readable DAGs. */
  lemma EndedReadable(p: Walk, s: State)
    requires Inv(p, s) && Undisturbed(p) && Ended(s)
    ensures s.failed.None? <==> Readable(p)
  {
    if s.failed.None? {
      EndedExact(p, s);
    } else {
      var x :| x in s.log && Fails(p, x.cid, s.failed.value);
      UnreadableWitness(p, s.seen, s.log, x);
    }
  }

  // ---- one state leads to another

  ghost predicate Leads(p: Walk, s: State, s': State) {
    exists acts :: Runs(p, s, acts) && Exec(p, s, acts) == s'
  }

  lemma {:induction false} RunsOn(p: Walk, s: State, acts: seq<Action>, more: seq<Action>)
    requires Runs(p, s, acts) && Runs(p, Exec(p, s, acts), more)
    ensures Runs(p, s, acts + more) && Exec(p, s, acts + more) == Exec(p, Exec(p, s, acts), more)
    decreases |acts|
  {
    if acts == [] {
      assert acts + more == more;
    } else {
      RunsOn(p, Apply(p, s, acts[0]), acts[1..], more);
      assert (acts + more)[1..] == acts[1..] + more;
    }
  }

  lemma LeadsNowhere(p: Walk, s: State)
    ensures Leads(p, s, s)
  {
    assert Runs(p, s, []) && Exec(p, s, []) == s;
  }

  lemma LeadsOn(p: Walk, s: State, s': State, s'': State)
    requires Leads(p, s, s') && Leads(p, s', s'')
    ensures Leads(p, s, s'')
  {
    var acts :| Runs(p, s, acts) && Exec(p, s, acts) == s';
    var more :| Runs(p, s', more) && Exec(p, s', more) == s'';
    RunsOn(p, s, acts, more);
  }

  lemma LeadsOne(p: Walk, s: State, a: Action)
    requires Enabled(p, s, a)
    ensures Leads(p, s, Apply(p, s, a))
  {
    var s' := Apply(p, s, a);
    assert Runs(p, s', []) && Exec(p, s', []) == s';
    assert [a][1..] == [];
    assert Runs(p, s, [a]) && Exec(p, s, [a]) == s';
  }

  lemma GetLeads(p: Walk, s: State, f: Fetch, g: Fetch, todo: seq<Item>) returns (s': State)
    requires Enabled(p, s, Get(f)) && g == Answer(p.handler, f)
    requires todo == if g.Links? then Items(g.links, s.fetching.value.depth + 1) + s.todo else s.todo
    ensures Leads(p, s, s')
    ensures s' == State(todo, None, if g.Links? then None else Some(g.error), s.seen, s.total, s.log)
  {
    s' := ApplyGet(p, s, f);
    assert s'.todo == todo;
    LeadsOne(p, s, Get(f));
  }

  lemma {:induction false} InvAlways(p: Walk, s: State, acts: seq<Action>)
    requires Inv(p, s) && Runs(p, s, acts)
    ensures Inv(p, Exec(p, s, acts))
    decreases |acts|
  {
    if acts != [] {
      InvKept(p, s, acts[0]);
      InvAlways(p, Apply(p, s, acts[0]), acts[1..]);
    }
  }

  lemma {:induction false} RefinesAlways(p: Walk, s: State, acts: seq<Action>)
    requires Runs(p, s, acts)
    ensures Refines(s.seen, Exec(p, s, acts).seen)
    decreases |acts|
  {
    if acts != [] {
      var s' := Apply(p, s, acts[0]);
      assert Refines(s.seen, s'.seen);
      RefinesAlways(p, s', acts[1..]);
    }
  }

  /** The machine can be in the state. */
  ghost predicate Possible(p: Walk, s: State) {
    Leads(p, Init(p), s)
  }

  lemma InvLeads(p: Walk, s: State)
    requires Possible(p, s)
    ensures Inv(p, s)
  {
    var acts :| Runs(p, Init(p), acts) && Exec(p, Init(p), acts) == s;
    InitInv(p);
    InvAlways(p, Init(p), acts);
  }

  lemma PossibleInTurn(p: Walk, s: State)
    requires Possible(p, s)
    ensures LogInTurn(p, s.log)
  {
    var acts :| Runs(p, Init(p), acts) && Exec(p, Init(p), acts) == s;
    LinksInOrder(p, acts);
  }

  lemma RefinesLeads(p: Walk, s: State, s': State)
    requires Leads(p, s, s')
    ensures Refines(s.seen, s'.seen)
  {
    var acts :| Runs(p, s, acts) && Exec(p, s, acts) == s';
    RefinesAlways(p, s, acts);
  }
}
