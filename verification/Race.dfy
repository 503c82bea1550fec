/** `multing.Get`: two goroutines ask two getters for one CID, each cancelling the shared context
    when it is through; whatever node was pushed first is returned. */
module Race {
  import opened Dag

  /** A node, as far as the walk looks at it. */
  type Node = seq<Cid>

  datatype Phase =
    | Asking               // in Get of its getter
    | Offering(node: Node) // has a node, in the select
    | Leaving              // about to run its deferred cancel
    | Gone

  datatype Result = Pending | Got(node: Node) | ErrNotFound

  /** History: the node each getter returned, and the first goroutine to run its cancel. */
  datatype State = State(
    phase: seq<Phase>, ch: seq<Node>, cancelled: bool, parentDone: bool,
    got: seq<Option<Node>>, first: Option<nat>, result: Result)

  const Init := State([Asking, Asking], [], false, false, [None, None], None, Pending)

  datatype Action =
    | Answer(i: nat, node: Option<Node>)  // the getter returns a node, or an error
    | Push(i: nat)                        // ch <- nd
    | GiveUp(i: nat)                      // parallelCtx.Done() instead
    | Cancel(i: nat)                      // the deferred cancel
    | ParentCancel
    | Return

  /** The shared context is done. */
  predicate Done(s: State) {
    s.cancelled || s.parentDone
  }

  /** The node that the first getter has given, if any. */
  function FromFirst(s: State): Option<Node> {
    if |s.got| > 0 then s.got[0] else None
  }

  predicate Enabled(s: State, a: Action) {
    match a
    case Answer(i, _) => i < |s.phase| && i < |s.got| && s.phase[i].Asking?
    case Push(i) => i < |s.phase| && s.phase[i].Offering?
    case GiveUp(i) => i < |s.phase| && s.phase[i].Offering? && Done(s)
    case Cancel(i) => i < |s.phase| && s.phase[i].Leaving?
    case ParentCancel => true
    case Return => s.result.Pending? && forall i | 0 <= i < |s.phase| :: s.phase[i].Gone?
  }

  function Apply(s: State, a: Action): State
    requires Enabled(s, a)
  {
    match a
    case Answer(i, node) =>
      s.(phase := s.phase[i := if node.Some? then Offering(node.value) else Leaving], got := s.got[i := node])
    case Push(i) => s.(phase := s.phase[i := Leaving], ch := s.ch + [s.phase[i].node])
    case GiveUp(i) => s.(phase := s.phase[i := Leaving])
    case Cancel(i) =>
      s.(phase := s.phase[i := Gone], cancelled := true, first := if s.first.None? then Some(i) else s.first)
    case ParentCancel => s.(parentDone := true)
    case Return => s.(result := if s.ch != [] then Got(s.ch[0]) else ErrNotFound)
  }

  predicate Runs(s: State, acts: seq<Action>)
    decreases |acts|
  {
    acts != [] ==> Enabled(s, acts[0]) && Runs(Apply(s, acts[0]), acts[1..])
  }

  function Exec(s: State, acts: seq<Action>): State
    requires Runs(s, acts)
    decreases |acts|
  {
    if acts == [] then s else Exec(Apply(s, acts[0]), acts[1..])
  }

  predicate Inv(s: State) {
    && |s.phase| == |s.got| == 2
    && (forall i | 0 <= i < 2 && s.phase[i].Offering? :: s.got[i] == Some(s.phase[i].node))
    && (forall i | 0 <= i < 2 && s.phase[i].Asking? :: s.got[i].None?)
    && (forall n | n in s.ch :: Some(n) in s.got)
    && (s.cancelled <==> s.first.Some?)
    && (forall i | 0 <= i < 2 && s.phase[i].Gone? :: s.cancelled)
    && (s.first.Some? ==> s.first.value < 2 && s.phase[s.first.value].Gone?)
    && (!Done(s) ==> forall i | 0 <= i < 2 && s.phase[i].Leaving? && s.got[i].Some? :: s.ch != [])
    && (!s.parentDone && s.first.Some? && s.got[s.first.value].Some? ==> s.ch != [])
    && (s.result.Got? ==> s.ch != [] && s.result.node == s.ch[0])
    && (s.result.ErrNotFound? ==> s.ch == [])
    && (!s.result.Pending? ==> s.phase[0].Gone? && s.phase[1].Gone?)
  }

  lemma AnswerKeeps(s: State, i: nat, node: Option<Node>)
    requires Inv(s) && Enabled(s, Answer(i, node))
    ensures Inv(Apply(s, Answer(i, node)))
  {
    var s' := Apply(s, Answer(i, node));
    forall n | n in s'.ch ensures Some(n) in s'.got {
      var j :| 0 <= j < |s.got| && s.got[j] == Some(n);
      assert s'.got[j] == Some(n);
    }
  }

  lemma PushKeeps(s: State, i: nat)
    requires Inv(s) && Enabled(s, Push(i))
    ensures Inv(Apply(s, Push(i)))
  {
    assert s.got[i] == Some(s.phase[i].node);
  }

  lemma CancelKeeps(s: State, i: nat)
    requires Inv(s) && Enabled(s, Cancel(i))
    ensures Inv(Apply(s, Cancel(i)))
  {
  }

  lemma OtherKeeps(s: State, a: Action)
    requires Inv(s) && Enabled(s, a) && (a.GiveUp? || a.ParentCancel? || a.Return?)
    ensures Inv(Apply(s, a))
  {
  }

  lemma InvKept(s: State, a: Action)
    requires Inv(s) && Enabled(s, a)
    ensures Inv(Apply(s, a))
  {
    match a
    case Answer(i, node) => AnswerKeeps(s, i, node);
    case Push(i) => PushKeeps(s, i);
    case Cancel(i) => CancelKeeps(s, i);
    case _ => OtherKeeps(s, a);
  }

  lemma {:induction false} InvAlways(s: State, acts: seq<Action>)
    requires Inv(s) && Runs(s, acts)
    ensures Inv(Exec(s, acts))
    decreases |acts|
  {
    if acts != [] {
      InvKept(s, acts[0]);
      InvAlways(Apply(s, acts[0]), acts[1..]);
    }
  }

  /** In every interleaving a node returned is one that a getter gave for this CID; and when the
      parent context was never done and the first goroutine to cancel had a node, a node is
      returned and not ErrNotFound. */
  lemma RaceTheorem(acts: seq<Action>)
    requires Runs(Init, acts) && !Exec(Init, acts).result.Pending?
    ensures var s := Exec(Init, acts);
            && |s.got| == 2
            && s.first.Some? && s.first.value < 2
            && (s.result.Got? ==> Some(s.result.node) in s.got)
            && (!s.parentDone && s.got[s.first.value].Some? ==> s.result.Got?)
  {
    InvAlways(Init, acts);
    var s := Exec(Init, acts);
    if s.ch != [] { assert s.ch[0] in s.ch; }
  }

  /** The first goroutine to push, in a run that starts with an empty channel. */
  function FirstPush(acts: seq<Action>): Option<nat>
    decreases |acts|
  {
    if acts == [] then None else if acts[0].Push? then Some(acts[0].i) else FirstPush(acts[1..])
  }

  /** What was pushed first stays first. */
  lemma {:induction false} HeadStays(s: State, acts: seq<Action>)
    requires s.ch != [] && Runs(s, acts)
    ensures Exec(s, acts).ch != [] && Exec(s, acts).ch[0] == s.ch[0]
    decreases |acts|
  {
    if acts != [] { HeadStays(Apply(s, acts[0]), acts[1..]); }
  }

  /** A getter answers once. */
  lemma {:induction false} GotStays(s: State, acts: seq<Action>, i: nat)
    requires Runs(s, acts) && |s.got| == |s.phase| && i < |s.got| && !s.phase[i].Asking?
    ensures i < |Exec(s, acts).got| && Exec(s, acts).got[i] == s.got[i]
    decreases |acts|
  {
    if acts != [] { GotStays(Apply(s, acts[0]), acts[1..], i); }
  }

  lemma {:induction false} PushedFirst(s: State, acts: seq<Action>)
    requires Inv(s) && s.ch == [] && Runs(s, acts)
    ensures match FirstPush(acts)
            case None => Exec(s, acts).ch == []
            case Some(i) =>
              && i < |Exec(s, acts).got| && Exec(s, acts).ch != []
              && Exec(s, acts).got[i] == Some(Exec(s, acts).ch[0])
    decreases |acts|
  {
    if acts != [] {
      var s1 := Apply(s, acts[0]);
      InvKept(s, acts[0]);
      if acts[0].Push? {
        HeadStays(s1, acts[1..]);
        GotStays(s1, acts[1..], acts[0].i);
      } else {
        PushedFirst(s1, acts[1..]);
      }
    }
  }

  /** The node returned is that of the goroutine that pushed first; without a push it is
      ErrNotFound. */
  lemma FirstPushWins(acts: seq<Action>)
    requires Runs(Init, acts) && !Exec(Init, acts).result.Pending?
    ensures var s := Exec(Init, acts);
            match FirstPush(acts)
            case None => s.result.ErrNotFound?
            case Some(i) => i < |s.got| && s.result.Got? && s.got[i] == Some(s.result.node)
  {
    PushedFirst(Init, acts);
    InvAlways(Init, acts);
  }

  // ---- progress

  /** What the race can do by itself, unless a getter is still to answer. */
  lemma Moves(race: State) returns (r: Option<Action>)
    requires |race.phase| == 2 && race.result.Pending?
    ensures r.Some? ==> Enabled(race, r.value) && (r.value.Push? || r.value.Cancel? || r.value.Return?)
    ensures r.None? ==> race.phase[1].Asking? || (race.phase[0].Asking? && race.phase[1].Gone?)
  {
    if j: nat :| j < 2 && race.phase[j].Offering? {
      return Some(Push(j));
    }
    if j: nat :| j < 2 && race.phase[j].Leaving? {
      return Some(Cancel(j));
    }
    if race.phase[0].Gone? && race.phase[1].Gone? {
      return Some(Return);
    }
    return None;
  }

  function PhaseWork(ph: Phase): nat {
    match ph case Asking => 3 case Offering(_) => 2 case Leaving => 1 case Gone => 0
  }

  /** The steps that are left of a race. */
  function Work(r: State): nat {
    (if r.result.Pending? then 1 else 0) + if |r.phase| == 2 then PhaseWork(r.phase[0]) + PhaseWork(r.phase[1]) else 0
  }

  lemma StepLess(r: State, a: Action)
    requires Inv(r) && Enabled(r, a)
    ensures if a.ParentCancel? then Work(Apply(r, a)) == Work(r)
            else Work(Apply(r, a)) < Work(r)
  {
  }

  // ---- when the node is lost

  /** A complete interleaving in which the getters answer `a0` and `a1`, and in which the parent
      context is done only if it `may` be. */
  ghost predicate Plays(acts: seq<Action>, a0: Option<Node>, a1: Option<Node>, may: bool) {
    && Runs(Init, acts)
    && !Exec(Init, acts).result.Pending?
    && Exec(Init, acts).got == [a0, a1]
    && (Exec(Init, acts).parentDone ==> may)
  }

  lemma RunOne(s: State, a: Action, rest: seq<Action>)
    requires Enabled(s, a) && Runs(Apply(s, a), rest)
    ensures Runs(s, [a] + rest) && Exec(s, [a] + rest) == Exec(Apply(s, a), rest)
  {
    assert ([a] + rest)[1..] == rest;
  }

  /** Goroutine `i` gets the answer `a` and leaves without pushing a node. */
  function Loss(i: nat, a: Option<Node>): seq<Action> {
    [Answer(i, a)] + ((if a.Some? then [GiveUp(i)] else []) + [Cancel(i)])
  }

  function Lost(s: State, i: nat, a: Option<Node>): State
    requires i < |s.phase| == |s.got|
  {
    s.(phase := s.phase[i := Gone], got := s.got[i := a], cancelled := true,
       first := if s.first.None? then Some(i) else s.first)
  }

  lemma LossRun(s: State, i: nat, a: Option<Node>, rest: seq<Action>)
    requires i < |s.phase| == |s.got| && s.phase[i].Asking? && (a.Some? ==> Done(s)) && Runs(Lost(s, i, a), rest)
    ensures Runs(s, Loss(i, a) + rest) && Exec(s, Loss(i, a) + rest) == Exec(Lost(s, i, a), rest)
  {
    var s1 := Apply(s, Answer(i, a));
    var s2 := if a.Some? then Apply(s1, GiveUp(i)) else s1;
    assert Apply(s2, Cancel(i)) == Lost(s, i, a);
    RunOne(s2, Cancel(i), rest);
    var tail := [Cancel(i)] + rest;
    if a.Some? {
      RunOne(s1, GiveUp(i), tail);
      tail := [GiveUp(i)] + tail;
    }
    RunOne(s, Answer(i, a), tail);
    assert Loss(i, a) + rest == [Answer(i, a)] + tail;
  }

  /** Goroutine `i` leaves first, without a node or with the parent context done, and takes the
      other's node with it. */
  lemma FailureFirst(i: nat, mine: Option<Node>, other: Option<Node>, parentDone: bool) returns (acts: seq<Action>)
    requires i < 2 && (mine.Some? ==> parentDone)
    ensures Plays(acts, if i == 0 then mine else other, if i == 0 then other else mine, parentDone)
    ensures Exec(Init, acts).result.ErrNotFound?
  {
    var s := if parentDone then Apply(Init, ParentCancel) else Init;
    var s1 := Lost(s, i, mine);
    var s2 := Lost(s1, 1 - i, other);
    assert Apply(s2, Return).result.ErrNotFound?;
    RunOne(s2, Return, []);
    LossRun(s1, 1 - i, other, [Return]);
    LossRun(s, i, mine, Loss(1 - i, other) + [Return]);
    acts := Loss(i, mine) + (Loss(1 - i, other) + [Return]);
    if parentDone {
      RunOne(Init, ParentCancel, acts);
      acts := [ParentCancel] + acts;
    }
  }

  /** Exactly when the node is never lost: every interleaving returns a node if and only if both
      getters have it and the parent context cannot be done. One getter having it is not enough. */
  lemma RaceExactly(a0: Option<Node>, a1: Option<Node>, may: bool)
    ensures (forall acts | Plays(acts, a0, a1, may) :: Exec(Init, acts).result.Got?) <==>
            a0.Some? && a1.Some? && !may
  {
    if a0.Some? && a1.Some? && !may {
      forall acts | Plays(acts, a0, a1, may) ensures Exec(Init, acts).result.Got? { RaceTheorem(acts); }
    } else {
      var acts;
      if a0.None? {
        acts := FailureFirst(0, a0, a1, false);
      } else if a1.None? {
        acts := FailureFirst(1, a1, a0, false);
      } else {
        acts := FailureFirst(0, a0, a1, true);
      }
      assert Plays(acts, a0, a1, may);
    }
  }

  // ---- as an answer to the walk

  /** The node of `c`, if it has one. */
  function NodeOf(store: Store, c: Cid): Option<Node> {
    match GetLinks(store, c)
    case Links(l) => Some(l)
    case Failed(_) => None
  }

  /** What `GetLinksDirect` makes of the result. */
  function AsFetch(r: Result): Fetch {
    if r.Got? then Links(r.node) else Failed(NotFound)
  }

  /** Every node the getters gave is the content's. */
  predicate Truthful(s: State, node: Option<Node>) {
    forall i | 0 <= i < |s.got| && s.got[i].Some? :: s.got[i] == node
  }

  /** With content addressing the race answers like `getLinks` with made-up ErrNotFound. */
  lemma RaceAnswers(p: Walk, cancelled: bool, c: Cid, s: State)
    requires Inv(s) && !s.result.Pending? && Truthful(s, NodeOf(p.store, c)) && NotFound in p.spurious
    ensures MayAnswer(p, cancelled, c, AsFetch(s.result))
  {
    if s.result.Got? {
      assert s.ch[0] in s.ch;
      var i :| 0 <= i < |s.got| && s.got[i] == Some(s.result.node);
    }
  }
}
