/** The credit protocol of `Walk2`: a visitor, a requester that prefetches the manifest, and the
    credit they share under two locks. One action is one critical section or channel operation. */
module Credit {
  import opened Dag

  const STARTING_CREDIT := 100

  /** Where the requester goroutine stands with the manifest entry it handles. */
  datatype Requester =
    | Ready              // ranging over the manifest
    | Broke(c: Cid)      // found no credit, not (or not any more) in the select
    | Waiting(c: Cid)    // parked in the select on manifestCreditAvailable
    | Notified(c: Cid)   // received a notification, has not taken the credit yet
    | Holding(c: Cid)    // has a credit, sending on reqCids
    | Recording(c: Cid)  // request sent, before the record section
    | Stopped
    | Crashed            // the panic

  /** `visitor` is the CID whose visit is between its two critical sections. History: credits that
      vanished in the outstanding set, credits held when the requester stopped, and the manifest
      entries recorded. */
  datatype State = State(
    cset: set<Cid>, visitor: Option<Cid>,
    maxCredit: int, currentCredit: int, outstanding: set<Multihash>, requester: Requester,
    merged: nat, forfeited: nat, recorded: seq<Cid>)

  const Init := State({}, None, STARTING_CREDIT, STARTING_CREDIT, {}, Ready, 0, 0, [])

  datatype Action =
    | Visit(c: Cid)  // cset.Visit answers true
    | Settle         // the visitor's section under manifestLk
    | Take(c: Cid)   // the next manifest entry, and the first look at the credit
    | Park           // into the select
    | Timeout        // the timer arm of the select
    | Spend          // the section after a notification
    | Request        // reqCids <- c
    | Record         // the section under both locks
    | Cancel         // ctx.Done() instead of the request
    | EndOfManifest

  predicate Enabled(s: State, a: Action) {
    match a
    case Visit(c) => s.visitor.None? && c !in s.cset
    case Settle => s.visitor.Some?
    case Take(_) => s.requester.Ready?
    case Park => s.requester.Broke?
    case Timeout => s.requester.Waiting?
    case Spend => s.requester.Notified?
    case Request => s.requester.Holding?
    case Record => s.requester.Recording?
    case Cancel => s.requester.Holding?
    case EndOfManifest => s.requester.Ready?
  }

  function Apply(s: State, a: Action): State
    requires Enabled(s, a)
  {
    match a
    case Visit(c) => s.(cset := s.cset + {c}, visitor := Some(c))
    case Settle =>
      if s.visitor.value.hash in s.outstanding then
        s.(outstanding := s.outstanding - {s.visitor.value.hash}, visitor := None,
           maxCredit := s.maxCredit + 1, currentCredit := s.currentCredit + 2,
           requester := if s.requester.Waiting? then Notified(s.requester.c) else s.requester)
      else s.(visitor := None)
    case Take(c) =>
      if s.currentCredit > 0 then s.(currentCredit := s.currentCredit - 1, requester := Holding(c))
      else s.(requester := Broke(c))
    case Park => s.(requester := Waiting(s.requester.c))
    case Timeout => s.(requester := Broke(s.requester.c))
    case Spend =>
      if s.currentCredit > 0 then s.(currentCredit := s.currentCredit - 1, requester := Holding(s.requester.c))
      else s.(requester := Crashed)
    case Request => s.(requester := Recording(s.requester.c))
    case Record =>
      var c := s.requester.c;
      var s' := s.(requester := Ready, recorded := s.recorded + [c]);
      if c !in s.cset then
        s'.(outstanding := s.outstanding + {c.hash},
            merged := if c.hash in s.outstanding then s.merged + 1 else s.merged)
      else s'.(currentCredit := s.currentCredit + 1)
    case Cancel => s.(requester := Stopped, forfeited := s.forfeited + 1)
    case EndOfManifest => s.(requester := Stopped)
  }

  predicate Runs(s: State, acts: seq<Action>)
    decreases |acts|
  {
    acts != [] ==> Enabled(s, acts[0]) && Runs(Apply(s, acts[0]), acts[1..])
  }

  function Exec(s: State, acts: seq<Action>): State
    requires Runs(s, acts)
    decreases |acts|
  {
    if acts == [] then s else Exec(Apply(s, acts[0]), acts[1..])
  }

  /** The credit the requester has taken and not yet turned into an outstanding request. */
  function Held(r: Requester): nat {
    if r.Holding? || r.Recording? then 1 else 0
  }

  predicate DistinctHashes(cids: seq<Cid>) {
    forall i, j | 0 <= i < j < |cids| :: cids[i].hash != cids[j].hash
  }

  predicate Listed(cids: seq<Cid>, h: Multihash) {
    exists i :: 0 <= i < |cids| && cids[i].hash == h
  }

  /** No visited CID shares its multihash with another recorded one. */
  predicate Unambiguous(cset: set<Cid>, recorded: seq<Cid>) {
    forall c, i | c in cset && 0 <= i < |recorded| && c.hash == recorded[i].hash :: c == recorded[i]
  }

  function PendingVisit(s: State): nat {
    if s.visitor.Some? then 1 else 0
  }

  /** Credit is neither made nor lost, the maximum grows by one at most per visit, and the panic is
      out of reach. */
  predicate Conserved(s: State) {
    && s.currentCredit >= 0
    && 100 <= s.maxCredit && s.maxCredit + PendingVisit(s) <= 100 + |s.cset|
    && s.currentCredit + |s.outstanding| + Held(s.requester) + s.merged + s.forfeited == s.maxCredit
    && (s.requester.Notified? ==> s.currentCredit > 0)
    && !s.requester.Crashed?
  }

  /** What is outstanding was recorded, and credit vanishes only on repeated multihashes. */
  predicate Tracked(s: State) {
    && (forall h | h in s.outstanding :: Listed(s.recorded, h))
    && (DistinctHashes(s.recorded) ==> s.merged == 0)
    && (s.forfeited > 0 ==> s.requester.Stopped?)
  }

  /** A visited CID is outstanding only while its visitor is between its sections. */
  predicate Prompt(s: State) {
    forall c | c in s.cset && c.hash in s.outstanding :: s.visitor == Some(c)
  }

  ghost predicate Inv(s: State) {
    Conserved(s) && Tracked(s) && (Unambiguous(s.cset, s.recorded) ==> Prompt(s))
  }

  lemma ConservedKept(s: State, a: Action)
    requires Conserved(s) && Enabled(s, a)
    ensures Conserved(Apply(s, a))
  {
    match a
    case Settle => SettleConserved(s);
    case Record => RecordConserved(s);
    case _ => OtherConserved(s, a);
  }

  lemma SettleConserved(s: State)
    requires Conserved(s) && Enabled(s, Settle)
    ensures Conserved(Apply(s, Settle))
  {
    var h := s.visitor.value.hash;
    if h in s.outstanding { assert |s.outstanding - {h}| == |s.outstanding| - 1; }
  }

  lemma RecordConserved(s: State)
    requires Conserved(s) && Enabled(s, Record)
    ensures Conserved(Apply(s, Record))
  {
    var h := s.requester.c.hash;
    if h in s.outstanding {
      assert s.outstanding + {h} == s.outstanding;
    } else {
      assert |s.outstanding + {h}| == |s.outstanding| + 1;
    }
  }

  lemma OtherConserved(s: State, a: Action)
    requires Conserved(s) && Enabled(s, a) && !a.Settle? && !a.Record?
    ensures Conserved(Apply(s, a))
  {
    if a.Visit? { assert |s.cset + {a.c}| == |s.cset| + 1; }
  }

  lemma TrackedKept(s: State, a: Action)
    requires Tracked(s) && Enabled(s, a)
    ensures Tracked(Apply(s, a))
  {
    if a.Record? {
      var s', c := Apply(s, a), s.requester.c;
      assert s'.recorded[|s.recorded|] == c;
      forall h | h in s'.outstanding ensures Listed(s'.recorded, h) {
        if h != c.hash {
          var i :| 0 <= i < |s.recorded| && s.recorded[i].hash == h;
          assert s'.recorded[i].hash == h;
        }
      }
      if DistinctHashes(s'.recorded) {
        forall i, j | 0 <= i < j < |s.recorded| ensures s.recorded[i].hash != s.recorded[j].hash {
          assert s'.recorded[i].hash != s'.recorded[j].hash;
        }
        if c.hash in s.outstanding {
          var i :| 0 <= i < |s.recorded| && s.recorded[i].hash == c.hash;
          assert s'.recorded[i].hash != s'.recorded[|s.recorded|].hash;
        }
      }
    }
  }

  lemma PromptKept(s: State, a: Action)
    requires Enabled(s, a) && (Unambiguous(s.cset, s.recorded) ==> Prompt(s))
    requires Tracked(s) && Unambiguous(Apply(s, a).cset, Apply(s, a).recorded)
    ensures Prompt(Apply(s, a))
  {
    var s' := Apply(s, a);
    forall c, i | c in s.cset && 0 <= i < |s.recorded| && c.hash == s.recorded[i].hash ensures c == s.recorded[i] {
      assert c in s'.cset && s'.recorded[i] == s.recorded[i];
    }
    if a.Record? {
      assert s'.recorded[|s.recorded|] == s.requester.c;
    } else if a.Visit? {
      forall c | c in s'.cset && c.hash in s'.outstanding ensures s'.visitor == Some(c) {
        var i :| 0 <= i < |s.recorded| && s.recorded[i].hash == c.hash;
        assert c == s'.recorded[i];
      }
    }
  }

  lemma InvKept(s: State, a: Action)
    requires Inv(s) && Enabled(s, a)
    ensures Inv(Apply(s, a))
  {
    var s' := Apply(s, a);
    ConservedKept(s, a);
    TrackedKept(s, a);
    if Unambiguous(s'.cset, s'.recorded) { PromptKept(s, a); }
  }

  lemma {:induction false} InvAlways(s: State, acts: seq<Action>)
    requires Inv(s) && Runs(s, acts)
    ensures Inv(Exec(s, acts))
    decreases |acts|
  {
    if acts != [] {
      InvKept(s, acts[0]);
      InvAlways(Apply(s, acts[0]), acts[1..]);
    }
  }

  /** The books: the maximum is at most 100 plus the visits settled; the current credit is never
      negative; current, outstanding and held credit never exceed the maximum, and make it up when
      the manifest's multihashes are distinct and the requester was not cancelled with a credit in
      hand; the requester never panics. */
  predicate BooksKept(s: State) {
    && 100 <= s.maxCredit && s.maxCredit + PendingVisit(s) <= 100 + |s.cset|
    && s.currentCredit >= 0
    && s.currentCredit + |s.outstanding| + Held(s.requester) <= s.maxCredit
    && (DistinctHashes(s.recorded) && s.forfeited == 0 ==>
          s.currentCredit + |s.outstanding| + Held(s.requester) == s.maxCredit)
    && |s.outstanding| <= s.maxCredit
    && !s.requester.Crashed?
  }

  /** The books are kept in every reachable state. */
  lemma CreditTheorem(acts: seq<Action>)
    requires Runs(Init, acts)
    ensures BooksKept(Exec(Init, acts))
  {
    InvAlways(Init, acts);
  }

  /** The requester has recorded a manifest of distinct multihashes, all of visited CIDs, and no
      visitor is pending. */
  predicate Through(s: State) {
    && DistinctHashes(s.recorded) && Unambiguous(s.cset, s.recorded)
    && (forall c | c in s.recorded :: c in s.cset)
    && s.visitor.None? && (s.requester.Ready? || (s.requester.Stopped? && s.forfeited == 0))
  }

  /** Then nothing is outstanding and all credit is back. */
  lemma SettledUp(acts: seq<Action>)
    requires Runs(Init, acts) && Through(Exec(Init, acts))
    ensures Exec(Init, acts).outstanding == {} && Exec(Init, acts).currentCredit == Exec(Init, acts).maxCredit
  {
    InvAlways(Init, acts);
    var s := Exec(Init, acts);
    forall h | h in s.outstanding ensures exists c :: c in s.recorded && c.hash == h {
      var i :| 0 <= i < |s.recorded| && s.recorded[i].hash == h;
      assert s.recorded[i] in s.recorded;
    }
  }

  // ---- when distinct CIDs share a multihash

  /** The schedule visits and prefetches only the given CIDs. */
  predicate Within(acts: seq<Action>, cids: set<Cid>) {
    forall a | a in acts && (a.Visit? || a.Take?) :: a.c in cids
  }

  predicate About(s: State, cids: set<Cid>) {
    && s.cset <= cids
    && (forall c | c in s.recorded :: c in cids)
    && (s.requester.Ready? || s.requester.Stopped? || s.requester.Crashed? || s.requester.c in cids)
  }

  lemma {:induction false} AboutAlways(s: State, acts: seq<Action>, cids: set<Cid>)
    requires Runs(s, acts) && Within(acts, cids) && About(s, cids)
    ensures About(Exec(s, acts), cids)
    decreases |acts|
  {
    if acts != [] {
      assert acts[0] in acts;
      AboutAlways(Apply(s, acts[0]), acts[1..], cids);
    }
  }

  /** Prefetching a CID whose multihash belongs to another CID, visited already, leaves that
      multihash outstanding with no visitor to settle it. */
  lemma SharedMultihash(c: Cid, d: Cid)
    requires c != d && c.hash == d.hash
    ensures var acts := [Visit(c), Settle, Take(d), Request, Record];
            Runs(Init, acts) && !Prompt(Exec(Init, acts))
  {
    var s1 := Apply(Init, Visit(c));
    var s2 := Apply(s1, Settle);
    var s3 := Prefetched(s2, d, []);
    assert Runs(s3, []) && [Take(d), Request, Record] + [] == [Take(d), Request, Record];
    RunOne(s1, Settle, [Take(d), Request, Record]);
    RunOne(Init, Visit(c), [Settle, Take(d), Request, Record]);
    assert [Visit(c)] + [Settle, Take(d), Request, Record] == [Visit(c), Settle, Take(d), Request, Record];
    assert [Settle] + [Take(d), Request, Record] == [Settle, Take(d), Request, Record];
    assert c in s3.cset && c.hash in s3.outstanding && s3.visitor.None?;
  }

  lemma RunOne(s: State, a: Action, rest: seq<Action>)
    requires Enabled(s, a) && Runs(Apply(s, a), rest)
    ensures Runs(s, [a] + rest) && Exec(s, [a] + rest) == Exec(Apply(s, a), rest)
  {
    assert ([a] + rest)[1..] == rest;
  }

  /** The requester has credit and prefetches `c`, not visited yet. */
  lemma Prefetched(s: State, c: Cid, rest: seq<Action>) returns (s': State)
    requires s.requester.Ready? && s.currentCredit > 0 && c !in s.cset
    ensures s' == s.(currentCredit := s.currentCredit - 1, outstanding := s.outstanding + {c.hash},
                     recorded := s.recorded + [c], merged := s'.merged)
    ensures c.hash !in s.outstanding ==> s'.merged == s.merged
    ensures Runs(s', rest) ==> var acts := [Take(c), Request, Record] + rest;
                               Runs(s, acts) && Exec(s, acts) == Exec(s', rest)
  {
    var s1 := Apply(s, Take(c));
    var s2 := Apply(s1, Request);
    s' := Apply(s2, Record);
    if Runs(s', rest) {
      RunOne(s2, Record, rest);
      RunOne(s1, Request, [Record] + rest);
      RunOne(s, Take(c), [Request] + ([Record] + rest));
      assert [Take(c), Request, Record] + rest == [Take(c)] + ([Request] + ([Record] + rest));
    }
  }

  /** For a set of CIDs: every run over them settles promptly exactly when no two of them share
      a multihash. */
  lemma PromptExactly(cids: set<Cid>)
    ensures (forall acts | Runs(Init, acts) && Within(acts, cids) :: Prompt(Exec(Init, acts))) <==>
            (forall c, d | c in cids && d in cids && c.hash == d.hash :: c == d)
  {
    if forall c, d | c in cids && d in cids && c.hash == d.hash :: c == d {
      forall acts | Runs(Init, acts) && Within(acts, cids) ensures Prompt(Exec(Init, acts)) {
        InvAlways(Init, acts);
        AboutAlways(Init, acts, cids);
        var s := Exec(Init, acts);
        forall c, i | c in s.cset && 0 <= i < |s.recorded| && c.hash == s.recorded[i].hash ensures c == s.recorded[i] {
          assert s.recorded[i] in s.recorded;
        }
      }
    } else {
      var c, d :| c in cids && d in cids && c.hash == d.hash && c != d;
      SharedMultihash(c, d);
      assert Within([Visit(c), Settle, Take(d), Request, Record], cids);
    }
  }

  // ---- a requester without credit

  /** The requester waits for credit. */
  predicate Starved(s: State) {
    s.requester.Broke? || s.requester.Waiting?
  }

  ghost predicate VisitsOnly(acts: seq<Action>, cids: iset<Cid>) {
    forall a | a in acts && a.Visit? :: a.c in cids
  }

  /** The visits of a run are of CIDs that are visited in the end. */
  lemma {:induction false} CsetGrows(s: State, acts: seq<Action>)
    requires Runs(s, acts)
    ensures s.cset <= Exec(s, acts).cset
    ensures VisitsOnly(acts, iset c | c in Exec(s, acts).cset)
    decreases |acts|
  {
    if acts != [] { CsetGrows(Apply(s, acts[0]), acts[1..]); }
  }

  /** The timer takes the requester out of the select for a moment, and a notification that comes
      then is missed. */
  lemma TimerGap(s: State)
    requires s.requester.Waiting? && s.visitor.Some? && s.visitor.value.hash in s.outstanding
    ensures Enabled(s, Timeout) && Enabled(Apply(s, Timeout), Settle) && Enabled(s, Settle)
    ensures Apply(s, Settle).requester.Notified?
    ensures Starved(Apply(Apply(s, Timeout), Settle)) && !Enabled(Apply(Apply(s, Timeout), Settle), Spend)
    ensures Enabled(Apply(Apply(s, Timeout), Settle), Park)
  {
  }

  /** The pending visit, or one of `cids` still to come, is of something outstanding. */
  ghost predicate CanEarn(s: State, cids: iset<Cid>) {
    || (s.visitor.Some? && s.visitor.value.hash in s.outstanding)
    || exists c :: c in cids && c !in s.cset && c.hash in s.outstanding
  }

  lemma {:induction false} StuckAlways(s: State, acts: seq<Action>, cids: iset<Cid>)
    requires Starved(s) && !CanEarn(s, cids) && Runs(s, acts) && VisitsOnly(acts, cids)
    ensures Starved(Exec(s, acts)) && !CanEarn(Exec(s, acts), cids)
    decreases |acts|
  {
    if acts != [] {
      assert acts[0] in acts;
      StuckAlways(Apply(s, acts[0]), acts[1..], cids);
    }
  }

  /** A parked requester is notified as soon as something outstanding is visited. */
  lemma EarnRun(s: State, cids: iset<Cid>) returns (acts: seq<Action>)
    requires s.requester.Waiting? && CanEarn(s, cids)
    ensures Runs(s, acts) && VisitsOnly(acts, cids) && !Starved(Exec(s, acts))
  {
    var s1 := if s.visitor.Some? then Apply(s, Settle) else s;
    if s1.requester.Waiting? {
      var c :| c in cids && c !in s.cset && c.hash in s.outstanding;
      var s2 := Apply(s1, Visit(c));
      RunOne(s2, Settle, []);
      RunOne(s1, Visit(c), [Settle]);
      acts := [Visit(c)] + [Settle];
    } else {
      acts := [];
    }
    if s.visitor.Some? {
      RunOne(s, Settle, acts);
      acts := [Settle] + acts;
    }
  }

  /** A requester that waits for credit waits for ever, while no more than `cids` is visited,
      exactly when neither the pending visit nor any of `cids` still to be visited is of something
      outstanding, however much credit and however much outstanding there is. */
  lemma StuckExactly(s: State, cids: iset<Cid>)
    requires Starved(s)
    ensures (forall acts | Runs(s, acts) && VisitsOnly(acts, cids) :: Starved(Exec(s, acts))) <==> !CanEarn(s, cids)
  {
    if !CanEarn(s, cids) {
      forall acts | Runs(s, acts) && VisitsOnly(acts, cids) ensures Starved(Exec(s, acts)) {
        StuckAlways(s, acts, cids);
      }
    } else {
      var s1 := if s.requester.Broke? then Apply(s, Park) else s;
      var acts := EarnRun(s1, cids);
      if s.requester.Broke? {
        RunOne(s, Park, acts);
        acts := [Park] + acts;
      }
      assert Runs(s, acts) && VisitsOnly(acts, cids) && !Starved(Exec(s, acts));
    }
  }

  /** The steps of the requester alone, without cancellation. */
  predicate RequesterOnly(acts: seq<Action>) {
    forall a | a in acts :: !a.Visit? && !a.Settle? && !a.Cancel?
  }

  /** The first `k` CIDs of a manifest have been prefetched and none visited. */
  function Filled(m: seq<Cid>, k: nat): State
    requires k <= |m|
  {
    Init.(currentCredit := STARTING_CREDIT - k, outstanding := set i | 0 <= i < k :: m[i].hash, recorded := m[..k])
  }

  lemma {:induction false} FillRun(m: seq<Cid>, k: nat, rest: seq<Action>) returns (acts: seq<Action>)
    requires k <= STARTING_CREDIT && k <= |m| && DistinctHashes(m[..k])
    requires Runs(Filled(m, k), rest) && RequesterOnly(rest)
    ensures Runs(Init, acts) && Exec(Init, acts) == Exec(Filled(m, k), rest) && RequesterOnly(acts)
    decreases k
  {
    if k == 0 {
      assert Filled(m, 0) == Init;
      acts := rest;
    } else {
      var c := m[k - 1];
      assert forall i | 0 <= i < k :: m[..k][i] == m[i];
      var s := Prefetched(Filled(m, k - 1), c, rest);
      assert s.outstanding == Filled(m, k).outstanding;
      assert s.recorded == m[..k];
      assert s == Filled(m, k);
      acts := FillRun(m, k - 1, [Take(c), Request, Record] + rest);
    }
  }

  /** A manifest that begins with as many distinct multihashes as there is credit takes it all
      before anything is visited, and leaves the requester without credit for its next CID. */
  lemma OutOfCredit(m: seq<Cid>) returns (acts: seq<Action>)
    requires |m| > STARTING_CREDIT && DistinctHashes(m[..STARTING_CREDIT])
    ensures Runs(Init, acts) && RequesterOnly(acts)
    ensures Exec(Init, acts) == Filled(m, STARTING_CREDIT).(requester := Broke(m[STARTING_CREDIT]))
    ensures |Exec(Init, acts).outstanding| == STARTING_CREDIT
  {
    var s, take := Filled(m, STARTING_CREDIT), Take(m[STARTING_CREDIT]);
    RunOne(s, take, []);
    acts := FillRun(m, STARTING_CREDIT, [take] + []);
    CreditTheorem(acts);
  }

  // ---- the source's own form

  /** The shared variables of `Walk2`, with one method per critical section, entered by visitor
      and requester in any order. */
  class Ledger {
    var cset: set<Cid>
    var visitor: Option<Cid>
    var manifestMaxCredit: int
    var manifestCurrentCredit: int
    var manifestOutstandingMHs: set<Multihash>
    var requester: Requester
    var merged: nat
    var forfeited: nat
    var recorded: seq<Cid>

    function View(): State
      reads this
    {
      State(cset, visitor, manifestMaxCredit, manifestCurrentCredit, manifestOutstandingMHs, requester,
            merged, forfeited, recorded)
    }

    constructor ()
      ensures View() == Init
    {
      cset, visitor, manifestMaxCredit, manifestCurrentCredit := {}, None, STARTING_CREDIT, STARTING_CREDIT;
      manifestOutstandingMHs, requester, merged, forfeited, recorded := {}, Ready, 0, 0, [];
    }

    /** The visit closure under manifestLk: settle the credit of a prefetched CID and notify. */
    method SettleSection()
      requires Enabled(View(), Settle)
      modifies this
      ensures View() == Apply(old(View()), Settle)
    {
      var h := visitor.value.hash;
      if h in manifestOutstandingMHs {
        manifestOutstandingMHs := manifestOutstandingMHs - {h};
        manifestMaxCredit := manifestMaxCredit + 1;
        manifestCurrentCredit := manifestCurrentCredit + 2;
        if requester.Waiting? {
          requester := Notified(requester.c);
        }
      }
      visitor := None;
    }

    /** The requester's first look at the credit. */
    method TakeSection(c: Cid)
      requires Enabled(View(), Take(c))
      modifies this
      ensures View() == Apply(old(View()), Take(c))
    {
      var gotCredit := false;
      if manifestCurrentCredit > 0 {
        manifestCurrentCredit := manifestCurrentCredit - 1;
        gotCredit := true;
      }
      requester := if gotCredit then Holding(c) else Broke(c);
    }

    /** The requester after a notification: there is credit, so it never panics. */
    method SpendSection()
      requires Inv(View()) && Enabled(View(), Spend)
      modifies this
      ensures View() == Apply(old(View()), Spend) && requester.Holding?
    {
      if manifestCurrentCredit > 0 {
        manifestCurrentCredit := manifestCurrentCredit - 1;
        requester := Holding(requester.c);
      } else {
        assert false;
      }
    }

    /** The requester after its request, under both locks. */
    method RecordSection()
      requires Enabled(View(), Record)
      modifies this
      ensures View() == Apply(old(View()), Record)
    {
      var c := requester.c;
      if c !in cset {
        if c.hash in manifestOutstandingMHs { merged := merged + 1; }
        manifestOutstandingMHs := manifestOutstandingMHs + {c.hash};
      } else {
        manifestCurrentCredit := manifestCurrentCredit + 1;
      }
      recorded := recorded + [c];
      requester := Ready;
    }

    /** The first section of the visit closure, and the requester's channel operations. */
    method Other(a: Action)
      requires Enabled(View(), a) && !a.Settle? && !a.Take? && !a.Spend? && !a.Record?
      modifies this
      ensures View() == Apply(old(View()), a)
    {
      match a
      case Visit(c) => cset, visitor := cset + {c}, Some(c);
      case Park => requester := Waiting(requester.c);
      case Timeout => requester := Broke(requester.c);
      case Request => requester := Recording(requester.c);
      case Cancel => requester, forfeited := Stopped, forfeited + 1;
      case EndOfManifest => requester := Stopped;
    }

    /** Any schedule of visitor and requester: the books are kept and the panic is dead code; and
        when the requester is through with a duplicate-free manifest of visited CIDs, nothing is
        outstanding and all credit is back. */
    method Run(acts: seq<Action>)
      requires View() == Init && Runs(Init, acts)
      modifies this
      ensures View() == Exec(Init, acts) && BooksKept(View())
      ensures Through(View()) ==> manifestOutstandingMHs == {} && manifestCurrentCredit == manifestMaxCredit
    {
      for k := 0 to |acts|
        invariant Inv(View()) && Runs(View(), acts[k..]) && Exec(View(), acts[k..]) == Exec(Init, acts)
      {
        var a := acts[k];
        assert acts[k..][0] == a && acts[k..][1..] == acts[k + 1..];
        InvKept(View(), a);
        match a {
          case Settle => SettleSection();
          case Take(c) => TakeSection(c);
          case Spend => SpendSection();
          case Record => RecordSection();
          case _ => Other(a);
        }
      }
      if Through(View()) { SettledUp(acts); }
    }
  }
}
