/** The Merkle DAG as the walkers see it: CIDs, what `getLinks` answers, the walk
    options, and the independent notion of "reached by exactly n links" against which
    both walkers are proved. */
module Dag {

  datatype Option<+T> = None | Some(value: T)

  type Multihash = string

  /** A defined CID. Two CIDs of different codecs may share one multihash. */
  datatype Cid = Cid(codec: nat, hash: Multihash)

  datatype Error = NotFound | Canceled | Other(code: nat)

  /** One answer of `getLinks`. */
  datatype Fetch = Links(links: seq<Cid>) | Failed(error: Error)

  /** What `getLinks` answers, CID by CID; a CID outside the map is not found. */
  type Store = map<Cid, Fetch>

  /** An error handler of the walk options; `None` is Go's nil error. */
  type Handler = Error -> Option<Error>

  function NoHandler(e: Error): Option<Error> { Some(e) }

  function IgnoreErrors(e: Error): Option<Error> { None }

  function IgnoreMissing(e: Error): Option<Error> { if e.NotFound? then None else Some(e) }

  function GetLinks(store: Store, c: Cid): Fetch {
    if c in store then store[c] else Failed(NotFound)
  }

  /** The answer after the error handler: a swallowed error leaves no links. */
  function Answer(handler: Handler, f: Fetch): Fetch {
    match f
    case Links(_) => f
    case Failed(e) =>
      match handler(e)
      case None => Links([])
      case Some(e') => Failed(e')
  }

  /** The parameters of one walk. `limit` is the depth limit (negative: none). `cancellable`
      says whether the caller's context may be cancelled. `spurious` holds the errors that
      `getLinks` may give although the content exists, `late` those it may give once cancelled. */
  datatype Walk = Walk(
    store: Store, handler: Handler, root: Cid, limit: int, skipRoot: bool,
    concurrency: nat, spurious: set<Error>, late: set<Error>, cancellable: bool)

  /** Whether `f` is an answer `getLinks` may give for `c`. */
  predicate MayAnswer(p: Walk, cancelled: bool, c: Cid, f: Fetch) {
    f == GetLinks(p.store, c) || (f.Failed? && (f.error in p.spurious || (cancelled && f.error in p.late)))
  }

  /** The errors of `getLinks` that are not about the content. */
  function MadeUp(p: Walk): set<Error> {
    p.spurious + if p.cancellable then p.late else {}
  }

  /** The handler lets through every error that is not about the content. */
  predicate Surfaces(p: Walk) {
    forall e | e in MadeUp(p) :: p.handler(e).Some?
  }

  /** Nothing but the content decides how the walk ends. */
  predicate Undisturbed(p: Walk) {
    p.spurious == {} && !p.cancellable
  }

  /** An error the walk may return that is not about the content. */
  ghost predicate Interference(p: Walk, e: Error) {
    (p.cancellable && e == Canceled) || exists e' :: e' in MadeUp(p) && p.handler(e') == Some(e)
  }

  // ---- the DAG, from the store alone

  /** All the links that the content of `c` has, in order. */
  function StoreLinks(store: Store, c: Cid): seq<Cid> {
    if c in store && store[c].Links? then store[c].links else []
  }

  /** What is wrong with the content of `c`, if anything. */
  function StoreError(store: Store, c: Cid): Option<Error> {
    if c !in store then Some(NotFound) else if store[c].Failed? then Some(store[c].error) else None
  }

  /** The CIDs reached from `root` by following exactly `n` links of the store. */
  function Layer(store: Store, root: Cid, n: nat): set<Cid> {
    if n == 0 then {root} else set c, d | c in Layer(store, root, n - 1) && d in StoreLinks(store, c) :: d
  }

  /** The CIDs reached from `root`, within the limit if there is one (negative: none). */
  ghost predicate Within(store: Store, root: Cid, limit: int, c: Cid) {
    exists n: nat :: (limit < 0 || n <= limit) && c in Layer(store, root, n)
  }

  // ---- as a walk is about it

  function Children(p: Walk, c: Cid): seq<Cid> {
    StoreLinks(p.store, c)
  }

  /** The content of `c` is right, or the handler swallows what is wrong with it. */
  predicate Passable(p: Walk, c: Cid) {
    match StoreError(p.store, c)
    case None => true
    case Some(e) => p.handler(e).None?
  }

  /** The content of `c` is wrong, and the handler makes `e` of it. */
  predicate Fails(p: Walk, c: Cid, e: Error) {
    match StoreError(p.store, c)
    case None => false
    case Some(e') => p.handler(e') == Some(e)
  }

  /** `c` is reached by following exactly `n` links. */
  predicate At(p: Walk, c: Cid, n: nat) {
    c in Layer(p.store, p.root, n)
  }

  lemma AtStep(p: Walk, n: nat, c: Cid, d: Cid)
    requires At(p, c, n) && d in Children(p, c)
    ensures At(p, d, n + 1)
  {
  }

  lemma AtBack(p: Walk, n: nat, d: Cid) returns (c: Cid)
    requires n > 0 && At(p, d, n)
    ensures At(p, c, n - 1) && d in Children(p, c)
  {
    var b, e :| b in Layer(p.store, p.root, n - 1) && e in StoreLinks(p.store, b) && e == d;
    c := b;
  }

  /** The link distances the walk is about. */
  predicate InScope(p: Walk, n: nat) {
    (p.skipRoot ==> n > 0) && (p.limit < 0 || n <= p.limit)
  }

  /** `c` is reached by a number of links that the walk is about. */
  ghost predicate Reached(p: Walk, c: Cid) {
    exists n: nat :: InScope(p, n) && At(p, c, n)
  }

  /** A CID with its link distance on the path followed. */
  datatype Item = Item(cid: Cid, depth: nat)

  function Items(links: seq<Cid>, depth: nat): seq<Item> {
    seq(|links|, i requires 0 <= i < |links| => Item(links[i], depth))
  }

  /** The visit map: for each visited CID the depth last recorded for it. */
  type Depths = map<Cid, nat>

  /** Every CID that can come up in the walk. */
  function Universe(p: Walk): set<Cid> {
    {p.root} + set c, d | c in p.store && d in Children(p, c) :: d
  }

  lemma AtInUniverse(p: Walk, n: nat, d: Cid)
    requires At(p, d, n)
    ensures d in Universe(p)
  {
    if n > 0 {
      var c := AtBack(p, n, d);
      assert c in p.store;
    }
  }

  lemma ReachedWithin(p: Walk, c: Cid)
    requires !p.skipRoot
    ensures Reached(p, c) <==> Within(p.store, p.root, p.limit, c)
  {
    if n: nat :| InScope(p, n) && At(p, c, n) { assert c in Layer(p.store, p.root, n); }
    if n: nat :| (p.limit < 0 || n <= p.limit) && c in Layer(p.store, p.root, n) {
      assert InScope(p, n) && At(p, c, n);
    }
  }
}
