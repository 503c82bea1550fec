/** The credit protocol read off its history: what the shared variables are, in terms of the steps
    that were taken. */
module CreditAccounts {
  import opened Dag
  import opened Credit

  lemma {:induction false} RunsLast(s: State, acts: seq<Action>)
    requires acts != [] && Runs(s, acts)
    ensures var front, last := acts[..|acts| - 1], acts[|acts| - 1];
            && Runs(s, front) && Enabled(Exec(s, front), last)
            && Exec(s, acts) == Apply(Exec(s, front), last)
    decreases |acts|
  {
    var front := acts[..|acts| - 1];
    if |acts| > 1 {
      RunsLast(Apply(s, acts[0]), acts[1..]);
      assert front[1..] == acts[1..][..|acts[1..]| - 1];
    }
  }

  lemma {:induction false} RunsFront(acts: seq<Action>, i: nat)
    requires Runs(Init, acts) && i <= |acts|
    ensures Runs(Init, acts[..i])
    decreases |acts|
  {
    if i < |acts| {
      RunsLast(Init, acts);
      RunsFront(acts[..|acts| - 1], i);
      assert acts[..|acts| - 1][..i] == acts[..i];
    } else {
      assert acts[..i] == acts;
    }
  }

  /** The state before the i-th step of a run. */
  ghost function Before(acts: seq<Action>, i: nat): State
    requires Runs(Init, acts) && i <= |acts|
  {
    RunsFront(acts, i);
    Exec(Init, acts[..i])
  }

  /** The i-th step settles a visit of something outstanding. */
  ghost predicate Earns(acts: seq<Action>, i: nat)
    requires Runs(Init, acts) && i < |acts|
  {
    var s := Before(acts, i);
    acts[i].Settle? && s.visitor.Some? && s.visitor.value.hash in s.outstanding
  }

  /** The i-th step finds credit for a manifest entry. */
  ghost predicate Spends(acts: seq<Action>, i: nat)
    requires Runs(Init, acts) && i < |acts|
  {
    (acts[i].Take? || acts[i].Spend?) && Before(acts, i).currentCredit > 0
  }

  /** The i-th step records a request for `c`. */
  ghost predicate Records(acts: seq<Action>, i: nat, c: Cid)
    requires Runs(Init, acts) && i < |acts|
  {
    acts[i].Record? && Before(acts, i).requester == Recording(c)
  }

  /** The i-th step records a request for a CID that has been visited meanwhile. */
  ghost predicate Refunds(acts: seq<Action>, i: nat)
    requires Runs(Init, acts) && i < |acts|
  {
    exists c :: Records(acts, i, c) && c in Before(acts, i).cset
  }

  /** The i-th step records a request that is to stay outstanding, for the multihash `h`. */
  ghost predicate Requests(acts: seq<Action>, i: nat, h: Multihash)
    requires Runs(Init, acts) && i < |acts|
  {
    exists c :: Records(acts, i, c) && c.hash == h && c !in Before(acts, i).cset
  }

  /** The i-th step settles a visit of the multihash `h`. */
  ghost predicate Settles(acts: seq<Action>, i: nat, h: Multihash)
    requires Runs(Init, acts) && i < |acts|
  {
    acts[i].Settle? && Before(acts, i).visitor.Some? && Before(acts, i).visitor.value.hash == h
  }

  /** How many of the steps before the n-th are of a kind. */
  ghost function Earned(acts: seq<Action>, n: nat): nat
    requires Runs(Init, acts) && n <= |acts|
  {
    if n == 0 then 0 else Earned(acts, n - 1) + if Earns(acts, n - 1) then 1 else 0
  }

  ghost function Spent(acts: seq<Action>, n: nat): nat
    requires Runs(Init, acts) && n <= |acts|
  {
    if n == 0 then 0 else Spent(acts, n - 1) + if Spends(acts, n - 1) then 1 else 0
  }

  ghost function Refunded(acts: seq<Action>, n: nat): nat
    requires Runs(Init, acts) && n <= |acts|
  {
    if n == 0 then 0 else Refunded(acts, n - 1) + if Refunds(acts, n - 1) then 1 else 0
  }

  lemma BeforeNext(acts: seq<Action>, i: nat)
    requires Runs(Init, acts) && i < |acts|
    ensures Enabled(Before(acts, i), acts[i]) && Before(acts, i + 1) == Apply(Before(acts, i), acts[i])
  {
    RunsFront(acts, i + 1);
    RunsLast(Init, acts[..i + 1]);
    assert acts[..i + 1][..i] == acts[..i];
  }

  /** What one step does to the two credits. */
  lemma CountStep(acts: seq<Action>, i: nat)
    requires Runs(Init, acts) && i < |acts| && Conserved(Before(acts, i))
    ensures var s, s' := Before(acts, i), Before(acts, i + 1);
            && Conserved(s')
            && s'.maxCredit == s.maxCredit + (if Earns(acts, i) then 1 else 0)
            && s'.currentCredit == s.currentCredit + (if Earns(acts, i) then 2 else 0)
                                   - (if Spends(acts, i) then 1 else 0) + if Refunds(acts, i) then 1 else 0
  {
    BeforeNext(acts, i);
    var s := Before(acts, i);
    ConservedKept(s, acts[i]);
    if acts[i].Record? { assert Records(acts, i, s.requester.c); }
  }

  lemma {:induction false} CountsUpTo(acts: seq<Action>, n: nat)
    requires Runs(Init, acts) && n <= |acts|
    ensures var s := Before(acts, n);
            && s.maxCredit == 100 + Earned(acts, n)
            && s.currentCredit == 100 + 2 * Earned(acts, n) - Spent(acts, n) + Refunded(acts, n)
            && Conserved(s)
  {
    if n > 0 {
      CountsUpTo(acts, n - 1);
      CountStep(acts, n - 1);
    }
  }

  lemma {:induction false} VisitedUpTo(acts: seq<Action>, n: nat)
    requires Runs(Init, acts) && n <= |acts|
    ensures forall c :: c in Before(acts, n).cset <==> exists i :: 0 <= i < n && acts[i] == Visit(c)
  {
    if n > 0 {
      VisitedUpTo(acts, n - 1);
      BeforeNext(acts, n - 1);
    }
  }

  /** A request for `h` was recorded and no visit of `h` settled since. */
  ghost predicate Open(acts: seq<Action>, n: nat, h: Multihash)
    requires Runs(Init, acts) && n <= |acts|
  {
    exists i: nat :: i < n && Requests(acts, i, h) && forall j: nat | i < j < n :: !Settles(acts, j, h)
  }

  lemma OpenNext(acts: seq<Action>, n: nat, h: Multihash)
    requires Runs(Init, acts) && n < |acts|
    ensures Open(acts, n + 1, h) <==> Requests(acts, n, h) || (Open(acts, n, h) && !Settles(acts, n, h))
  {
    if Open(acts, n, h) && !Settles(acts, n, h) {
      var i: nat :| i < n && Requests(acts, i, h) && forall j: nat | i < j < n :: !Settles(acts, j, h);
      assert i < n + 1 && forall j: nat | i < j < n + 1 :: !Settles(acts, j, h);
    }
    if Open(acts, n + 1, h) {
      var i: nat :| i < n + 1 && Requests(acts, i, h) && forall j: nat | i < j < n + 1 :: !Settles(acts, j, h);
    }
  }

  lemma {:induction false} OutstandingUpTo(acts: seq<Action>, n: nat)
    requires Runs(Init, acts) && n <= |acts|
    ensures forall h :: h in Before(acts, n).outstanding <==> Open(acts, n, h)
  {
    if n > 0 {
      OutstandingUpTo(acts, n - 1);
      BeforeNext(acts, n - 1);
      var s := Before(acts, n - 1);
      forall h ensures h in Before(acts, n).outstanding <==> Open(acts, n, h) {
        OpenNext(acts, n - 1, h);
        if acts[n - 1].Record? { assert Records(acts, n - 1, s.requester.c); }
      }
    }
  }

  /** The accounts of every run. The maximum is 100 and one more for each settled visit of something
      outstanding; the current credit is 100 and two for each of these, less one for each manifest
      entry that found credit, plus one for each recorded when visited already; a multihash is
      outstanding when it was recorded for a CID not visited then and no visit of it has settled
      since; and a CID is in the visited set when its visit has begun. */
  lemma Accounts(acts: seq<Action>)
    requires Runs(Init, acts)
    ensures var s, n := Exec(Init, acts), |acts|;
            && s.maxCredit == 100 + Earned(acts, n)
            && s.currentCredit == 100 + 2 * Earned(acts, n) - Spent(acts, n) + Refunded(acts, n)
            && (forall h :: h in s.outstanding <==> Open(acts, n, h))
            && (forall c :: c in s.cset <==> Visit(c) in acts)
  {
    assert acts[..|acts|] == acts;
    CountsUpTo(acts, |acts|);
    OutstandingUpTo(acts, |acts|);
    VisitedUpTo(acts, |acts|);
  }

  // ---- the requester

  /** The manifest entries taken, in order. */
  function Taken(acts: seq<Action>): seq<Cid> {
    if acts == [] then []
    else Taken(acts[..|acts| - 1]) + match acts[|acts| - 1] case Take(c) => [c] case _ => []
  }

  /** The manifest entry the requester is at. */
  function Current(r: Requester): seq<Cid> {
    if r.Ready? || r.Stopped? || r.Crashed? then [] else [r.c]
  }

  /** The requester handles the manifest in order: it has recorded all entries it has taken, but for
      the one it is at, or the one it gave up when it was cancelled. */
  lemma {:induction false} InOrder(acts: seq<Action>)
    requires Runs(Init, acts)
    ensures var s := Exec(Init, acts);
            if s.requester.Stopped? || s.requester.Crashed?
            then s.recorded <= Taken(acts) && |Taken(acts)| <= |s.recorded| + 1
            else s.recorded + Current(s.requester) == Taken(acts)
    decreases |acts|
  {
    if acts != [] {
      RunsLast(Init, acts);
      InOrder(acts[..|acts| - 1]);
    }
  }
}
