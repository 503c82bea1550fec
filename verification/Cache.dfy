/** The wait/alert cache of `Walk2` (`ngwrapper`): getters that look a block up under waitLk and
    otherwise park on a channel of their own, and one receiver that puts a block outside the
    lock and then alerts. */
module Cache {
  import opened Dag

  datatype Phase =
    | Missed     // looked up and missed, still holding waitLk
    | Parked     // registered, waiting on its channel
    | Woken      // received from its channel, about to look again
    | Found
    | Absent     // woken and still missing: returns ErrNotFound
    | Abandoned  // left because its context was done; its channel stays registered

  /** One call of Get with its channel of capacity one. */
  datatype Getter = Getter(c: Cid, phase: Phase, buffered: nat, closed: bool)

  /** `alerting` is the multihash the receiver has put and not yet alerted. */
  datatype State = State(
    stored: set<Multihash>, waiters: map<Multihash, set<nat>>, getters: seq<Getter>,
    lock: Option<nat>, alerting: Option<Multihash>)

  const Init := State({}, map[], [], None, None)

  datatype Action =
    | Lookup(c: Cid)    // a new Get takes waitLk and looks
    | Register          // the holder of waitLk registers its channel and unlocks
    | Put(h: Multihash) // the receiver stores a block, without the lock
    | Alert             // the receiver takes waitLk and signals
    | Wake(i: nat)      // a parked getter receives from its channel
    | Recheck(i: nat)   // and looks again
    | GiveUp(i: nat)    // a parked getter takes ctx.Done()

  predicate Enabled(s: State, a: Action) {
    match a
    case Lookup(_) => s.lock.None?
    case Register => s.lock.Some? && s.lock.value < |s.getters|
    case Put(_) => s.alerting.None?
    case Alert => s.alerting.Some? && s.lock.None?
    case Wake(i) => i < |s.getters| && s.getters[i].phase.Parked? && s.getters[i].buffered > 0
    case Recheck(i) => i < |s.getters| && s.getters[i].phase.Woken?
    case GiveUp(i) => i < |s.getters| && s.getters[i].phase.Parked?
  }

  function WaitersOf(s: State, h: Multihash): set<nat> {
    if h in s.waiters then s.waiters[h] else {}
  }

  /** The channels of `ws` get a token and are closed. */
  function Signal(getters: seq<Getter>, ws: set<nat>): seq<Getter> {
    seq(|getters|, i requires 0 <= i < |getters| =>
      if i in ws then getters[i].(buffered := getters[i].buffered + 1, closed := true) else getters[i])
  }

  function Apply(s: State, a: Action): State
    requires Enabled(s, a)
  {
    match a
    case Lookup(c) =>
      if c.hash in s.stored then s.(getters := s.getters + [Getter(c, Found, 0, false)])
      else s.(getters := s.getters + [Getter(c, Missed, 0, false)], lock := Some(|s.getters|))
    case Register =>
      var i := s.lock.value;
      var h := s.getters[i].c.hash;
      s.(waiters := s.waiters[h := WaitersOf(s, h) + {i}], lock := None,
         getters := s.getters[i := s.getters[i].(phase := Parked)])
    case Put(h) => s.(stored := s.stored + {h}, alerting := Some(h))
    case Alert =>
      s.(getters := Signal(s.getters, WaitersOf(s, s.alerting.value)),
         waiters := s.waiters - {s.alerting.value}, alerting := None)
    case Wake(i) =>
      s.(getters := s.getters[i := s.getters[i].(phase := Woken, buffered := s.getters[i].buffered - 1)])
    case Recheck(i) =>
      var phase := if s.getters[i].c.hash in s.stored then Found else Absent;
      s.(getters := s.getters[i := s.getters[i].(phase := phase)])
    case GiveUp(i) => s.(getters := s.getters[i := s.getters[i].(phase := Abandoned)])
  }

  predicate Runs(s: State, acts: seq<Action>)
    decreases |acts|
  {
    acts != [] ==> Enabled(s, acts[0]) && Runs(Apply(s, acts[0]), acts[1..])
  }

  function Exec(s: State, acts: seq<Action>): State
    requires Runs(s, acts)
    decreases |acts|
  {
    if acts == [] then s else Exec(Apply(s, acts[0]), acts[1..])
  }

  lemma RunOne(s: State, a: Action, rest: seq<Action>)
    requires Enabled(s, a) && Runs(Apply(s, a), rest)
    ensures Runs(s, [a] + rest) && Exec(s, [a] + rest) == Exec(Apply(s, a), rest)
  {
    assert ([a] + rest)[1..] == rest;
  }

  /** Sending on the channel would not block and not panic. */
  predicate Open(g: Getter) {
    g.buffered == 0 && !g.closed
  }

  /** A getter that has missed and was not signalled since. */
  predicate Unsignalled(g: Getter) {
    g.phase.Missed? || (g.phase.Parked? && Open(g))
  }

  predicate GoodWaiter(s: State, h: Multihash, i: nat) {
    i < |s.getters| && s.getters[i].c.hash == h && Open(s.getters[i]) &&
    (s.getters[i].phase.Parked? || s.getters[i].phase.Abandoned?)
  }

  predicate GoodGetter(s: State, i: nat)
    requires i < |s.getters|
  {
    var g := s.getters[i];
    && (g.phase.Missed? <==> s.lock == Some(i))
    && (g.phase.Missed? ==> Open(g))
    && (g.phase.Parked? ==> Open(g) || (g.buffered == 1 && g.closed))
    && (g.phase.Parked? && Open(g) ==> i in WaitersOf(s, g.c.hash))
    && (g.closed || g.phase.Woken? || g.phase.Found? ==> g.c.hash in s.stored)
    && (Unsignalled(g) && g.c.hash in s.stored ==> s.alerting == Some(g.c.hash))
    && !g.phase.Absent?
  }

  predicate Inv(s: State) {
    && (forall h, i {:trigger GoodWaiter(s, h, i)} | h in s.waiters && i in s.waiters[h] :: GoodWaiter(s, h, i))
    && (forall i: nat {:trigger GoodGetter(s, i)} | i < |s.getters| :: GoodGetter(s, i))
    && (s.lock.Some? ==> s.lock.value < |s.getters|)
    && (s.alerting.Some? ==> s.alerting.value in s.stored)
  }

  lemma AlertKeeps(s: State)
    requires Inv(s) && Enabled(s, Alert)
    ensures Inv(Apply(s, Alert))
  {
    var s', h := Apply(s, Alert), s.alerting.value;
    forall i | i in WaitersOf(s, h) ensures i < |s.getters| && s.getters[i].c.hash == h && Open(s.getters[i]) {
      assert GoodWaiter(s, h, i);
    }
    forall k, i | k in s'.waiters && i in s'.waiters[k] ensures GoodWaiter(s', k, i) { assert GoodWaiter(s, k, i); }
    forall i: nat | i < |s'.getters| ensures GoodGetter(s', i) { assert GoodGetter(s, i); }
  }

  lemma RegisterKeeps(s: State)
    requires Inv(s) && Enabled(s, Register)
    ensures Inv(Apply(s, Register))
  {
    var s', j := Apply(s, Register), s.lock.value;
    assert GoodGetter(s, j);
    forall k, i | k in s'.waiters && i in s'.waiters[k] ensures GoodWaiter(s', k, i) {
      if i != j { assert GoodWaiter(s, k, i); }
      if i == j && k in s.waiters && i in s.waiters[k] { assert GoodWaiter(s, k, i); }
    }
    forall i: nat | i < |s'.getters| ensures GoodGetter(s', i) { assert GoodGetter(s, i); }
  }

  /** Steps that concern one getter, or add one, or store a block. */
  lemma OtherKeeps(s: State, a: Action)
    requires Inv(s) && Enabled(s, a) && !a.Alert? && !a.Register?
    ensures Inv(Apply(s, a))
  {
    var s' := Apply(s, a);
    forall k, i | k in s'.waiters && i in s'.waiters[k] ensures GoodWaiter(s', k, i) {
      assert GoodWaiter(s, k, i);
    }
    forall i: nat | i < |s'.getters| ensures GoodGetter(s', i) {
      if i < |s.getters| { assert GoodGetter(s, i); }
    }
  }

  lemma InvKept(s: State, a: Action)
    requires Inv(s) && Enabled(s, a)
    ensures Inv(Apply(s, a))
  {
    match a
    case Alert => AlertKeeps(s);
    case Register => RegisterKeeps(s);
    case _ => OtherKeeps(s, a);
  }

  lemma {:induction false} InvAlways(s: State, acts: seq<Action>)
    requires Inv(s) && Runs(s, acts)
    ensures Inv(Exec(s, acts))
    decreases |acts|
  {
    if acts != [] {
      InvKept(s, acts[0]);
      InvAlways(Apply(s, acts[0]), acts[1..]);
    }
  }

  /** Whenever the receiver is about to alert, every channel it will send on is open and empty,
      abandoned ones included. A block that is stored and not being alerted leaves no getter for
      it unsignalled. No getter was ever woken for nothing, and none found a block that is not
      there. */
  predicate NothingLost(s: State) {
    && (s.alerting.Some? ==> forall i | i in WaitersOf(s, s.alerting.value) :: i < |s.getters| && Open(s.getters[i]))
    && (forall g | g in s.getters && g.c.hash in s.stored && s.alerting != Some(g.c.hash) :: !Unsignalled(g))
    && (forall g | g in s.getters :: !g.phase.Absent? && (g.phase.Found? ==> g.c.hash in s.stored))
  }

  lemma InvLosesNothing(s: State)
    requires Inv(s)
    ensures NothingLost(s)
  {
    if s.alerting.Some? {
      forall i | i in WaitersOf(s, s.alerting.value) ensures i < |s.getters| && Open(s.getters[i]) {
        assert GoodWaiter(s, s.alerting.value, i);
      }
    }
    forall g | g in s.getters
      ensures !g.phase.Absent? && (g.phase.Found? ==> g.c.hash in s.stored)
      ensures g.c.hash in s.stored && s.alerting != Some(g.c.hash) ==> !Unsignalled(g)
    {
      var i: nat :| i < |s.getters| && s.getters[i] == g;
      assert GoodGetter(s, i);
    }
  }

  /** No lost wakeup, in every run. */
  lemma NoLostWakeup(acts: seq<Action>)
    requires Runs(Init, acts)
    ensures NothingLost(Exec(Init, acts))
  {
    InvAlways(Init, acts);
    InvLosesNothing(Exec(Init, acts));
  }

  /** A getter that leaves because its context is done stays registered: the next alert for its block
      signals and closes its channel all the same. */
  lemma AbandonedSignalled(acts: seq<Action>, i: nat)
    requires Runs(Init, acts) && Enabled(Exec(Init, acts), GiveUp(i)) && Open(Exec(Init, acts).getters[i])
    requires Exec(Init, acts).lock.None? && Exec(Init, acts).alerting.None?
    ensures var s1 := Apply(Exec(Init, acts), GiveUp(i));
            var s2 := Apply(s1, Put(s1.getters[i].c.hash));
            && Enabled(s2, Alert)
            && i < |Apply(s2, Alert).getters|
            && var g := Apply(s2, Alert).getters[i]; g.phase.Abandoned? && g.buffered == 1 && g.closed
  {
    InvAlways(Init, acts);
    assert GoodGetter(Exec(Init, acts), i);
  }

  /** What is stored is what the receiver has put. */
  lemma {:induction false} StoredArePut(s: State, acts: seq<Action>)
    requires Runs(s, acts)
    ensures forall h :: h in Exec(s, acts).stored <==> h in s.stored || Put(h) in acts
    decreases |acts|
  {
    if acts != [] {
      StoredArePut(Apply(s, acts[0]), acts[1..]);
      assert acts == [acts[0]] + acts[1..];
    }
  }

  /** A getter that looks finds the block at once exactly when the receiver has put it; otherwise it
      holds the lock until it has registered and then waits on an open, empty channel. */
  lemma LookupExactly(acts: seq<Action>, c: Cid)
    requires Runs(Init, acts) && Enabled(Exec(Init, acts), Lookup(c))
    ensures var s := Exec(Init, acts);
            var s1, i := Apply(s, Lookup(c)), |s.getters|;
            && |s1.getters| == i + 1 && s1.getters[i].c == c
            && (s1.getters[i].phase.Found? <==> Put(c.hash) in acts)
            && (Put(c.hash) !in acts ==>
                  && Enabled(s1, Register)
                  && var s2 := Apply(s1, Register);
                     s2.lock.None? && s2.getters[i].phase.Parked? && Open(s2.getters[i]) && i in WaitersOf(s2, c.hash))
  {
    StoredArePut(Init, acts);
  }

  /** Right after an alert for `h` nobody waits for `h` unsignalled. */
  lemma AlertReachesAll(acts: seq<Action>, h: Multihash)
    requires Runs(Init, acts)
    requires var s := Exec(Init, acts); s.alerting == Some(h) && s.lock.None?
    ensures var s' := Apply(Exec(Init, acts), Alert);
            forall i | 0 <= i < |s'.getters| && s'.getters[i].c.hash == h :: !Unsignalled(s'.getters[i])
  {
    InvAlways(Init, acts);
    var s := Exec(Init, acts);
    AlertKeeps(s);
    var s' := Apply(s, Alert);
    forall i: nat | i < |s'.getters| && s'.getters[i].c.hash == h ensures !Unsignalled(s'.getters[i]) {
      assert GoodGetter(s', i);
    }
  }

  // ---- progress

  function GetterWork(g: Getter): nat {
    match g.phase case Missed => 4 case Parked => 3 case Woken => 2 case _ => 0
  }

  function GettersWork(gs: seq<Getter>): nat {
    if gs == [] then 0 else GettersWork(gs[..|gs| - 1]) + GetterWork(gs[|gs| - 1])
  }

  lemma {:induction false} GettersChange(gs: seq<Getter>, i: nat, g: Getter)
    requires i < |gs|
    ensures GettersWork(gs[i := g]) == GettersWork(gs) - GetterWork(gs[i]) + GetterWork(g)
    decreases |gs|
  {
    var front := gs[..|gs| - 1];
    if i < |gs| - 1 {
      GettersChange(front, i, g);
      assert gs[i := g][..|gs| - 1] == front[i := g];
    } else {
      assert gs[i := g][..|gs| - 1] == front;
    }
  }

  /** Signals do not count as work. */
  lemma {:induction false} SignalSame(gs: seq<Getter>, ws: set<nat>)
    ensures GettersWork(Signal(gs, ws)) == GettersWork(gs)
    decreases |gs|
  {
    if gs != [] {
      var front := gs[..|gs| - 1];
      SignalSame(front, ws);
      assert Signal(gs, ws)[..|gs| - 1] == Signal(front, ws);
    }
  }

  /** What a step of the cache does to the work left in it. */
  lemma StepWork(s: State, k: Action)
    requires Inv(s) && Enabled(s, k)
    ensures var before, after := GettersWork(s.getters), GettersWork(Apply(s, k).getters);
            match k
            case Lookup(_) => after <= before + 4
            case Put(_) => after == before
            case Alert => after == before
            case _ => after < before
  {
    match k
    case Lookup(c) => assert Apply(s, k).getters[..|s.getters|] == s.getters;
    case Put(_) =>
    case Alert => SignalSame(s.getters, WaitersOf(s, s.alerting.value));
    case Register =>
      assert GoodGetter(s, s.lock.value);
      GettersChange(s.getters, s.lock.value, Apply(s, k).getters[s.lock.value]);
    case Wake(i) => GettersChange(s.getters, i, Apply(s, k).getters[i]);
    case Recheck(i) => GettersChange(s.getters, i, Apply(s, k).getters[i]);
    case GiveUp(i) => GettersChange(s.getters, i, Apply(s, k).getters[i]);
  }

  /** `ngwrapper` in the form of the source: maps and channels updated in place under waitLk, by
      getters and a receiver in any order. */
  class NgWrapper {
    var stored: set<Multihash>
    var waitMHMap: map<Multihash, set<nat>>
    var getters: seq<Getter>
    var waitLk: Option<nat>
    var alerting: Option<Multihash>

    function View(): State
      reads this
    {
      State(stored, waitMHMap, getters, waitLk, alerting)
    }

    constructor ()
      ensures View() == Init
    {
      stored, waitMHMap, getters, waitLk, alerting := {}, map[], [], None, None;
    }

    /** The first look of Get, under waitLk. */
    method Look(c: Cid)
      requires Enabled(View(), Lookup(c))
      modifies this
      ensures View() == Apply(old(View()), Lookup(c))
    {
      if c.hash in stored {
        getters := getters + [Getter(c, Found, 0, false)];
      } else {
        waitLk := Some(|getters|);
        getters := getters + [Getter(c, Missed, 0, false)];
      }
    }

    /** The rest of its section: the channel is registered. */
    method AddChannel()
      requires Enabled(View(), Register)
      modifies this
      ensures View() == Apply(old(View()), Register)
    {
      var i := waitLk.value;
      var h := getters[i].c.hash;
      if h !in waitMHMap {
        waitMHMap := waitMHMap[h := {}];
      }
      waitMHMap := waitMHMap[h := waitMHMap[h] + {i}];
      getters := getters[i := getters[i].(phase := Parked)];
      waitLk := None;
      assert waitMHMap == old(View()).waiters[h := WaitersOf(old(View()), h) + {i}];
    }

    /** The loop of Alert over the registered channels: every send finds its channel open and
        empty. */
    method SignalAll()
      requires Inv(View()) && Enabled(View(), Alert)
      modifies this
      ensures View() == Apply(old(View()), Alert)
    {
      var h := alerting.value;
      alerting := None;
      if h !in waitMHMap {
        assert getters == Signal(getters, {});
        assert waitMHMap == waitMHMap - {h};
        return;
      }
      forall i | i in waitMHMap[h] ensures i < |getters| && Open(getters[i]) {
        assert GoodWaiter(old(View()), h, i);
      }
      var todo := waitMHMap[h];
      while todo != {}
        invariant waitMHMap == old(waitMHMap) && stored == old(stored) && waitLk == old(waitLk) && alerting.None?
        invariant todo <= waitMHMap[h] && getters == Signal(old(getters), waitMHMap[h] - todo)
        decreases todo
      {
        var i :| i in todo;
        assert Open(getters[i]);  // the send neither blocks nor panics
        getters := getters[i := getters[i].(buffered := getters[i].buffered + 1, closed := true)];
        todo := todo - {i};
      }
      assert waitMHMap[h] - todo == waitMHMap[h];
      waitMHMap := waitMHMap - {h};
    }

    /** The wait of Get, and the receiver's put. */
    method Other(a: Action)
      requires Enabled(View(), a) && (a.Put? || a.Wake? || a.Recheck? || a.GiveUp?)
      modifies this
      ensures View() == Apply(old(View()), a)
    {
      match a
      case Put(h) =>
        stored, alerting := stored + {h}, Some(h);
      case Wake(i) =>
        getters := getters[i := getters[i].(phase := Woken, buffered := getters[i].buffered - 1)];
      case Recheck(i) =>
        if getters[i].c.hash in stored {
          getters := getters[i := getters[i].(phase := Found)];
        } else {
          getters := getters[i := getters[i].(phase := Absent)];
        }
      case GiveUp(i) =>
        getters := getters[i := getters[i].(phase := Abandoned)];
    }

    /** Any schedule of getters and receiver: no wakeup is lost, no getter is woken for nothing,
        and while no alert is pending every getter for a stored block has been signalled. */
    method Run(acts: seq<Action>)
      requires View() == Init && Runs(Init, acts)
      modifies this
      ensures View() == Exec(Init, acts) && NothingLost(View())
      ensures alerting.None? ==> forall g | g in getters && g.c.hash in stored :: !Unsignalled(g)
    {
      for k := 0 to |acts|
        invariant Inv(View()) && Runs(View(), acts[k..]) && Exec(View(), acts[k..]) == Exec(Init, acts)
      {
        var a := acts[k];
        assert acts[k..][0] == a && acts[k..][1..] == acts[k + 1..];
        InvKept(View(), a);
        match a {
          case Lookup(c) => Look(c);
          case Register => AddChannel();
          case Alert => SignalAll();
          case _ => Other(a);
        }
      }
      InvLosesNothing(View());
    }
  }
}
