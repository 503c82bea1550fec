/** The block service: adding one block, adding a batch, and how the two relate. */
module BlockService {
  import opened Dag

  type Data = string

  datatype Block = Block(cid: Cid, data: Data)

  datatype Outcome = Ok | InvalidCid | StoreError

  /** The blockstore, keyed by multihash, and the CIDs announced to the exchange. */
  datatype State = State(store: map<Multihash, Data>, announced: seq<Cid>)

  /** What is wrong with the blockstore: nothing; every operation fails; or looking works and every
      put fails, that of a batch after `done` blocks. */
  datatype Fault = Working | Unreadable | Unwritable(done: nat)

  /** `valid` is verifcid.ValidateCid; `online` says there is an exchange. */
  datatype Config = Config(checkFirst: bool, online: bool, valid: Cid -> bool, fault: Fault)

  function Announce(cfg: Config, announced: seq<Cid>, c: Cid): seq<Cid> {
    if cfg.online then announced + [c] else announced
  }

  function AddOne(cfg: Config, s: State, b: Block): (State, Outcome) {
    if !cfg.valid(b.cid) then (s, InvalidCid)
    else if cfg.fault.Unreadable? then (s, StoreError)
    else if cfg.checkFirst && b.cid.hash in s.store then (s, Ok)
    else if !cfg.fault.Working? then (s, StoreError)
    else (State(s.store[b.cid.hash := b.data], Announce(cfg, s.announced, b.cid)), Ok)
  }

  /** Adding the blocks one by one, up to the first failure. */
  function AddEach(cfg: Config, s: State, bs: seq<Block>): (State, Outcome)
    decreases |bs|
  {
    if bs == [] then (s, Ok)
    else
      var (s', o) := AddOne(cfg, s, bs[0]);
      if o.Ok? then AddEach(cfg, s', bs[1..]) else (s', o)
  }

  function Absent(known: set<Multihash>, bs: seq<Block>): seq<Block>
    decreases |bs|
  {
    if bs == [] then [] else (if bs[0].cid.hash in known then [] else [bs[0]]) + Absent(known, bs[1..])
  }

  /** The blocks that are absent when their turn comes. */
  function FirstAbsent(known: set<Multihash>, bs: seq<Block>): seq<Block>
    decreases |bs|
  {
    if bs == [] then []
    else if bs[0].cid.hash in known then FirstAbsent(known, bs[1..])
    else [bs[0]] + FirstAbsent(known + {bs[0].cid.hash}, bs[1..])
  }

  function PutMany(store: map<Multihash, Data>, bs: seq<Block>): map<Multihash, Data>
    decreases |bs|
  {
    if bs == [] then store else PutMany(store[bs[0].cid.hash := bs[0].data], bs[1..])
  }

  function AnnounceAll(cfg: Config, announced: seq<Cid>, bs: seq<Block>): seq<Cid>
    decreases |bs|
  {
    if bs == [] then announced else AnnounceAll(cfg, Announce(cfg, announced, bs[0].cid), bs[1..])
  }

  predicate AllValid(cfg: Config, bs: seq<Block>) {
    forall i | 0 <= i < |bs| :: cfg.valid(bs[i].cid)
  }

  function ToPut(cfg: Config, s: State, bs: seq<Block>): seq<Block> {
    if cfg.checkFirst then Absent(s.store.Keys, bs) else bs
  }

  function Min(a: nat, b: nat): nat {
    if a < b then a else b
  }

  /** As much of a batch as a failing put gets done. */
  function DoneOf(fault: Fault, bs: seq<Block>): seq<Block> {
    if fault.Unwritable? && fault.done < |bs| then bs[..fault.done] else if fault.Unreadable? then [] else bs
  }

  /** The batch: validate all, choose what to put, put it, announce it. */
  function AddBatch(cfg: Config, s: State, bs: seq<Block>): (State, Outcome) {
    if !AllValid(cfg, bs) then (s, InvalidCid)
    else if cfg.checkFirst && cfg.fault.Unreadable? && bs != [] then (s, StoreError)
    else
      var toput := ToPut(cfg, s, bs);
      if toput == [] then (s, Ok)
      else if !cfg.fault.Working? then (s.(store := PutMany(s.store, DoneOf(cfg.fault, toput))), StoreError)
      else (State(PutMany(s.store, toput), AnnounceAll(cfg, s.announced, toput)), Ok)
  }

  class Service {
    const cfg: Config
    var store: map<Multihash, Data>
    var announced: seq<Cid>

    function View(): State
      reads this
    {
      State(store, announced)
    }

    constructor (cfg: Config, store: map<Multihash, Data>)
      ensures this.cfg == cfg && View() == State(store, [])
    {
      this.cfg, this.store, announced := cfg, store, [];
    }

    method AddBlock(o: Block) returns (r: Outcome)
      modifies this
      ensures (View(), r) == AddOne(cfg, old(View()), o)
    {
      if !cfg.valid(o.cid) {
        return InvalidCid;
      }
      if cfg.checkFirst {
        if cfg.fault.Unreadable? { return StoreError; }
        if o.cid.hash in store { return Ok; }
      }
      if !cfg.fault.Working? { return StoreError; }
      store := store[o.cid.hash := o.data];
      if cfg.online {
        announced := announced + [o.cid];
      }
      return Ok;
    }

    /** Adding the blocks of a batch one by one, up to the first failure. */
    method AddOneByOne(bs: seq<Block>) returns (r: Outcome)
      modifies this
      ensures (View(), r) == AddEach(cfg, old(View()), bs)
    {
      for i := 0 to |bs|
        invariant AddEach(cfg, View(), bs[i..]) == AddEach(cfg, old(View()), bs)
      {
        assert bs[i..][1..] == bs[i + 1..];
        r := AddBlock(bs[i]);
        if !r.Ok? { return; }
      }
      return Ok;
    }

    /** An invalid CID anywhere in the batch is reported before anything is done. When the store
        fails, nothing has been announced and a prefix of the blocks to be put may be there. */
    method AddBlocks(bs: seq<Block>) returns (r: Outcome)
      modifies this
      ensures (View(), r) == AddBatch(cfg, old(View()), bs)
      ensures r.InvalidCid? <==> exists i :: 0 <= i < |bs| && !cfg.valid(bs[i].cid)
      ensures r.InvalidCid? ==> View() == old(View())
      ensures r.Ok? <==>
              && AllValid(cfg, bs)
              && (cfg.fault.Working? || (ToPut(cfg, old(View()), bs) == [] && (cfg.fault.Unreadable? ==> bs == [])))
      ensures r.StoreError? ==> announced == old(announced)
      ensures r.StoreError? ==>
                var toput := ToPut(cfg, old(View()), bs);
                exists k :: 0 <= k <= |toput| && store == PutMany(old(store), toput[..k])
                            && k == (if cfg.fault.Unreadable? then 0 else Min(cfg.fault.done, |toput|))
    {
      for i := 0 to |bs|
        invariant forall j | 0 <= j < i :: cfg.valid(bs[j].cid)
      {
        if !cfg.valid(bs[i].cid) {
          return InvalidCid;
        }
      }
      var toput := bs;
      if cfg.checkFirst {
        var failed;
        toput, failed := Select(bs);
        if failed {
          assert ToPut(cfg, old(View()), bs)[..0] == [];
          return StoreError;
        }
      }
      if toput == [] {
        return Ok;
      }
      assert toput == ToPut(cfg, old(View()), bs);
      if !cfg.fault.Working? {
        assert toput[..|toput|] == toput && toput[..0] == [];
        store := PutMany(store, DoneOf(cfg.fault, toput));
        return StoreError;
      }
      store := PutMany(store, toput);
      AnnounceEach(toput);
      return Ok;
    }

    /** The loop that drops the blocks already stored. */
    method Select(bs: seq<Block>) returns (toput: seq<Block>, failed: bool)
      ensures failed <==> cfg.fault.Unreadable? && bs != []
      ensures !failed ==> toput == Absent(store.Keys, bs)
    {
      toput := [];
      for i := 0 to |bs|
        invariant toput + Absent(store.Keys, bs[i..]) == Absent(store.Keys, bs)
        invariant i > 0 ==> !cfg.fault.Unreadable?
      {
        if cfg.fault.Unreadable? { return toput, true; }
        SelectStep(store.Keys, bs, i, toput);
        if bs[i].cid.hash !in store {
          toput := toput + [bs[i]];
        }
      }
      return toput, false;
    }

    /** The loop that tells the exchange, if there is one. */
    method AnnounceEach(toput: seq<Block>)
      modifies this`announced
      ensures announced == AnnounceAll(cfg, old(announced), toput)
    {
      if cfg.online {
        for i := 0 to |toput|
          invariant AnnounceAll(cfg, announced, toput[i..]) == AnnounceAll(cfg, old(announced), toput)
        {
          announced := announced + [toput[i].cid];
          assert toput[i..][1..] == toput[i + 1..];
        }
      } else {
        Offline(cfg, announced, toput);
      }
    }
  }

  lemma SelectStep(known: set<Multihash>, bs: seq<Block>, i: nat, chosen: seq<Block>)
    requires i < |bs| && chosen + Absent(known, bs[i..]) == Absent(known, bs)
    ensures (if bs[i].cid.hash in known then chosen else chosen + [bs[i]]) + Absent(known, bs[i + 1..])
            == Absent(known, bs)
  {
    assert bs[i..][1..] == bs[i + 1..];
  }

  lemma {:induction false} Offline(cfg: Config, announced: seq<Cid>, bs: seq<Block>)
    requires !cfg.online
    ensures AnnounceAll(cfg, announced, bs) == announced
    decreases |bs|
  {
    if bs != [] { Offline(cfg, announced, bs[1..]); }
  }

  // ---- the batch against the fold

  /** A multihash determines the content it is the hash of. */
  predicate ContentAddressed(content: Multihash -> Data, bs: seq<Block>) {
    forall i | 0 <= i < |bs| :: bs[i].data == content(bs[i].cid.hash)
  }

  function Hashes(bs: seq<Block>): set<Multihash>
    decreases |bs|
  {
    if bs == [] then {} else {bs[0].cid.hash} + Hashes(bs[1..])
  }

  /** Putting content-addressed blocks depends only on their multihashes. */
  lemma {:induction false} PutManyIs(content: Multihash -> Data, store: map<Multihash, Data>, bs: seq<Block>)
    requires ContentAddressed(content, bs)
    ensures PutMany(store, bs) == store + map h | h in Hashes(bs) :: content(h)
    decreases |bs|
  {
    if bs != [] {
      assert bs[0].data == content(bs[0].cid.hash);
      PutManyIs(content, store[bs[0].cid.hash := bs[0].data], bs[1..]);
    }
  }

  /** The fold, when nothing fails, puts and announces the blocks absent at their turn (all
      blocks when it does not look first). */
  lemma {:induction false} EachIsPut(cfg: Config, s: State, bs: seq<Block>)
    requires AllValid(cfg, bs) && cfg.fault.Working?
    ensures var put := if cfg.checkFirst then FirstAbsent(s.store.Keys, bs) else bs;
            AddEach(cfg, s, bs) == (State(PutMany(s.store, put), AnnounceAll(cfg, s.announced, put)), Ok)
    decreases |bs|
  {
    if bs != [] {
      assert cfg.valid(bs[0].cid);
      var (s', o) := AddOne(cfg, s, bs[0]);
      assert AllValid(cfg, bs[1..]) by {
        forall i | 0 <= i < |bs[1..]| ensures cfg.valid(bs[1..][i].cid) { assert bs[1..][i] == bs[i + 1]; }
      }
      EachIsPut(cfg, s', bs[1..]);
      if cfg.checkFirst && bs[0].cid.hash !in s.store {
        var put := FirstAbsent(s.store.Keys, bs);
        assert s'.store.Keys == s.store.Keys + {bs[0].cid.hash};
        assert put[1..] == FirstAbsent(s'.store.Keys, bs[1..]);
      }
    }
  }

  /** Adding one by one with a working store stops at the first invalid CID and not before; what was
      added until then stays. */
  lemma {:induction false} EachStops(cfg: Config, s: State, bs: seq<Block>) returns (k: nat)
    requires cfg.fault.Working?
    ensures k <= |bs| && AllValid(cfg, bs[..k]) && (k < |bs| ==> !cfg.valid(bs[k].cid))
    ensures AddEach(cfg, s, bs) == (AddEach(cfg, s, bs[..k]).0, if k < |bs| then InvalidCid else Ok)
    decreases |bs|
  {
    k := 0;
    if bs != [] && cfg.valid(bs[0].cid) {
      var k' := EachStops(cfg, AddOne(cfg, s, bs[0]).0, bs[1..]);
      k := k' + 1;
      assert bs[..k][0] == bs[0] && bs[..k][1..] == bs[1..][..k'];
      assert forall i | 0 < i < k :: bs[..k][i] == bs[1..][..k'][i - 1];
    }
  }

  /** With a failing store nothing is added, and only blocks that are found there are no error. */
  lemma {:induction false} EachFails(cfg: Config, s: State, bs: seq<Block>)
    requires !cfg.fault.Working?
    ensures AddEach(cfg, s, bs).0 == s
    ensures AddEach(cfg, s, bs).1.Ok? <==>
            forall i | 0 <= i < |bs| ::
              cfg.valid(bs[i].cid) && cfg.checkFirst && !cfg.fault.Unreadable? && bs[i].cid.hash in s.store
    decreases |bs|
  {
    if bs != [] {
      EachFails(cfg, s, bs[1..]);
      assert forall i | 0 < i < |bs| :: bs[i] == bs[1..][i - 1];
      assert bs[0] == bs[0];
    }
  }

  /** The last block with the multihash. */
  function LastOf(bs: seq<Block>, h: Multihash): Option<Data> {
    if bs == [] then None
    else if bs[|bs| - 1].cid.hash == h then Some(bs[|bs| - 1].data)
    else LastOf(bs[..|bs| - 1], h)
  }

  /** A put of many leaves, for each multihash, the data of the last block that has it. */
  lemma {:induction false} PutManyLast(store: map<Multihash, Data>, bs: seq<Block>, h: Multihash)
    ensures var r := PutMany(store, bs);
            match LastOf(bs, h)
            case Some(d) => h in r && r[h] == d
            case None => (h in r <==> h in store) && (h in r ==> r[h] == store[h])
    decreases |bs|
  {
    if bs != [] {
      PutManyLast(store[bs[0].cid.hash := bs[0].data], bs[1..], h);
      LastOfFront(bs, h);
    }
  }

  lemma {:induction false} LastOfFront(bs: seq<Block>, h: Multihash)
    requires bs != []
    ensures LastOf(bs, h) ==
            if LastOf(bs[1..], h).Some? then LastOf(bs[1..], h)
            else if bs[0].cid.hash == h then Some(bs[0].data) else None
    decreases |bs|
  {
    if |bs| > 1 {
      LastOfFront(bs[..|bs| - 1], h);
      assert bs[1..][..|bs| - 2] == bs[..|bs| - 1][1..];
    }
  }

  /** The batch puts the multihashes of the batch that are absent. */
  lemma {:induction false} AbsentHashes(content: Multihash -> Data, known: set<Multihash>, bs: seq<Block>)
    requires ContentAddressed(content, bs)
    ensures Hashes(Absent(known, bs)) == Hashes(bs) - known
    ensures ContentAddressed(content, Absent(known, bs))
    decreases |bs|
  {
    if bs != [] {
      AbsentHashes(content, known, bs[1..]);
      if bs[0].cid.hash in known {
        assert Absent(known, bs) == Absent(known, bs[1..]);
      } else {
        assert Absent(known, bs)[1..] == Absent(known, bs[1..]);
      }
    }
  }

  /** ... and so does adding one by one. */
  lemma {:induction false} FirstAbsentHashes(content: Multihash -> Data, known: set<Multihash>, bs: seq<Block>)
    requires ContentAddressed(content, bs)
    ensures Hashes(FirstAbsent(known, bs)) == Hashes(bs) - known
    ensures ContentAddressed(content, FirstAbsent(known, bs))
    decreases |bs|
  {
    if bs != [] {
      var h := bs[0].cid.hash;
      if h in known {
        FirstAbsentHashes(content, known, bs[1..]);
      } else {
        FirstAbsentHashes(content, known + {h}, bs[1..]);
        assert FirstAbsent(known, bs)[1..] == FirstAbsent(known + {h}, bs[1..]);
      }
    }
  }

  /** With valid CIDs and a working store, the batch leaves the store that adding the blocks one
      by one leaves, with and without checkFirst. */
  lemma BatchStore(content: Multihash -> Data, cfg: Config, s: State, bs: seq<Block>)
    requires AllValid(cfg, bs) && cfg.fault.Working? && ContentAddressed(content, bs)
    ensures AddBatch(cfg, s, bs).1.Ok? && AddEach(cfg, s, bs).1.Ok?
    ensures AddBatch(cfg, s, bs).0.store == AddEach(cfg, s, bs).0.store
  {
    EachIsPut(cfg, s, bs);
    if cfg.checkFirst {
      AbsentHashes(content, s.store.Keys, bs);
      FirstAbsentHashes(content, s.store.Keys, bs);
      PutManyIs(content, s.store, Absent(s.store.Keys, bs));
      PutManyIs(content, s.store, FirstAbsent(s.store.Keys, bs));
    }
  }

  // ---- announcements

  /** Two blocks of the batch share a multihash that is not known. */
  predicate Repeats(known: set<Multihash>, bs: seq<Block>) {
    exists i, j :: 0 <= i < j < |bs| && bs[i].cid.hash == bs[j].cid.hash && bs[i].cid.hash !in known
  }

  predicate Occurs(h: Multihash, bs: seq<Block>) {
    exists i :: 0 <= i < |bs| && bs[i].cid.hash == h
  }

  lemma {:induction false} AbsentLess(known: set<Multihash>, h: Multihash, bs: seq<Block>)
    requires h !in known
    ensures if Occurs(h, bs) then |Absent(known + {h}, bs)| < |Absent(known, bs)|
            else Absent(known + {h}, bs) == Absent(known, bs)
    decreases |bs|
  {
    if bs != [] {
      var rest := bs[1..];
      AbsentLess(known, h, rest);
      if bs[0].cid.hash != h {
        assert Occurs(h, bs) <==> Occurs(h, rest) by {
          if i :| 0 <= i < |bs| && bs[i].cid.hash == h { assert rest[i - 1].cid.hash == h; }
          if i :| 0 <= i < |rest| && rest[i].cid.hash == h { assert bs[i + 1].cid.hash == h; }
        }
      } else {
        assert Occurs(h, bs);
      }
    }
  }

  lemma {:induction false} FirstAbsentShort(known: set<Multihash>, bs: seq<Block>)
    ensures |FirstAbsent(known, bs)| <= |Absent(known, bs)|
    decreases |bs|
  {
    if bs != [] {
      FirstAbsentShort(known, bs[1..]);
      if bs[0].cid.hash !in known {
        FirstAbsentShort(known + {bs[0].cid.hash}, bs[1..]);
        AbsentLess(known, bs[0].cid.hash, bs[1..]);
      }
    }
  }

  lemma RepeatsFront(known: set<Multihash>, bs: seq<Block>)
    requires bs != []
    ensures Repeats(known, bs) <==>
            if bs[0].cid.hash in known then Repeats(known, bs[1..])
            else Occurs(bs[0].cid.hash, bs[1..]) || Repeats(known + {bs[0].cid.hash}, bs[1..])
  {
    var rest, h, k := bs[1..], bs[0].cid.hash, known + {bs[0].cid.hash};
    if i, j :| 0 <= i < j < |bs| && bs[i].cid.hash == bs[j].cid.hash && bs[i].cid.hash !in known {
      assert rest[j - 1] == bs[j];
      if i > 0 { assert rest[i - 1] == bs[i]; }
    }
    if i, j :| 0 <= i < j < |rest| && rest[i].cid.hash == rest[j].cid.hash && rest[i].cid.hash !in known {
      assert bs[i + 1] == rest[i] && bs[j + 1] == rest[j];
    }
    if i :| 0 <= i < |rest| && rest[i].cid.hash == h { assert bs[i + 1].cid.hash == bs[0].cid.hash; }
    if i, j :| 0 <= i < j < |rest| && rest[i].cid.hash == rest[j].cid.hash && rest[i].cid.hash !in k {
      assert bs[i + 1] == rest[i] && bs[j + 1] == rest[j];
    }
  }

  lemma {:induction false} SameChoice(known: set<Multihash>, bs: seq<Block>)
    ensures Absent(known, bs) == FirstAbsent(known, bs) <==> !Repeats(known, bs)
    decreases |bs|
  {
    if bs != [] {
      var rest, h := bs[1..], bs[0].cid.hash;
      RepeatsFront(known, bs);
      if h in known {
        SameChoice(known, rest);
      } else {
        SameChoice(known + {h}, rest);
        AbsentLess(known, h, rest);
        FirstAbsentShort(known + {h}, rest);
        assert Absent(known, bs)[1..] == Absent(known, rest);
        assert FirstAbsent(known, bs)[1..] == FirstAbsent(known + {h}, rest);
      }
    }
  }

  lemma {:induction false} AnnouncedCids(cfg: Config, announced: seq<Cid>, bs: seq<Block>)
    requires cfg.online
    ensures AnnounceAll(cfg, announced, bs) == announced + seq(|bs|, i requires 0 <= i < |bs| => bs[i].cid)
    decreases |bs|
  {
    if bs != [] {
      AnnouncedCids(cfg, announced + [bs[0].cid], bs[1..]);
    }
  }

  /** The batch announces what adding one by one announces exactly when there is no exchange, or
      it does not look first, or no two blocks share a multihash absent from the store. Distinct
      CIDs are not enough: they may share a multihash. */
  lemma BatchAnnouncements(cfg: Config, s: State, bs: seq<Block>)
    requires AllValid(cfg, bs) && cfg.fault.Working?
    ensures AddBatch(cfg, s, bs).0.announced == AddEach(cfg, s, bs).0.announced <==>
            !cfg.online || !cfg.checkFirst || !Repeats(s.store.Keys, bs)
  {
    EachIsPut(cfg, s, bs);
    if cfg.checkFirst {
      var a, b := Absent(s.store.Keys, bs), FirstAbsent(s.store.Keys, bs);
      if cfg.online {
        SameChoice(s.store.Keys, bs);
        AnnouncedCids(cfg, s.announced, a);
        AnnouncedCids(cfg, s.announced, b);
        if Repeats(s.store.Keys, bs) { RepeatsShort(s.store.Keys, bs); }
      } else {
        Offline(cfg, s.announced, a);
        Offline(cfg, s.announced, b);
      }
    }
  }

  lemma {:induction false} RepeatsShort(known: set<Multihash>, bs: seq<Block>)
    requires Repeats(known, bs)
    ensures |FirstAbsent(known, bs)| < |Absent(known, bs)|
    decreases |bs|
  {
    var rest, h := bs[1..], bs[0].cid.hash;
    RepeatsFront(known, bs);
    if h in known {
      RepeatsShort(known, rest);
    } else {
      AbsentLess(known, h, rest);
      FirstAbsentShort(known + {h}, rest);
      if Repeats(known + {h}, rest) { RepeatsShort(known + {h}, rest); }
    }
  }

  /** The same blocks added as a batch and one by one, to two services over the same store. With
      valid CIDs, a working store and content addressing both succeed and the stores are the same;
      the announcements are the same exactly when there is no exchange, or nobody looks first, or
      no two blocks share a multihash absent from the store. */
  method BothWays(ghost content: Multihash -> Data, cfg: Config, store: map<Multihash, Data>, bs: seq<Block>)
    returns (batch: Service, single: Service, r: Outcome, r': Outcome)
    requires AllValid(cfg, bs) && cfg.fault.Working? && ContentAddressed(content, bs)
    ensures fresh(batch) && fresh(single) && r.Ok? && r'.Ok?
    ensures batch.store == single.store
    ensures batch.announced == single.announced <==>
            !cfg.online || !cfg.checkFirst || !Repeats(store.Keys, bs)
  {
    batch := new Service(cfg, store);
    single := new Service(cfg, store);
    BatchStore(content, cfg, State(store, []), bs);
    BatchAnnouncements(cfg, State(store, []), bs);
    r := batch.AddBlocks(bs);
    r' := single.AddOneByOne(bs);
  }
}
