/** Batch fetching: `getBlocks` of the block service under `getNodesFromBG` of the DAG service. */
module NodeFetch {
  import opened Dag
  import opened BlockService

  /** The exchange's answer to a batch of misses; `None` is an error. */
  type Exchange = seq<Cid> -> Option<seq<Block>>

  function ValidKeys(valid: Cid -> bool, ks: seq<Cid>): seq<Cid>
    decreases |ks|
  {
    if ks == [] then [] else (if valid(ks[0]) then [ks[0]] else []) + ValidKeys(valid, ks[1..])
  }

  function Hits(store: map<Multihash, Data>, ks: seq<Cid>): seq<Block>
    decreases |ks|
  {
    if ks == [] then []
    else (if ks[0].hash in store then [Block(ks[0], store[ks[0].hash])] else []) + Hits(store, ks[1..])
  }

  function Misses(store: map<Multihash, Data>, ks: seq<Cid>): seq<Cid>
    decreases |ks|
  {
    if ks == [] then [] else (if ks[0].hash in store then [] else [ks[0]]) + Misses(store, ks[1..])
  }

  function Replies(exchange: Option<Exchange>, misses: seq<Cid>): seq<Block> {
    if misses == [] || exchange.None? || exchange.value(misses).None? then [] else exchange.value(misses).value
  }

  /** All the blocks an uncancelled `getBlocks` delivers. */
  function Delivered(valid: Cid -> bool, store: map<Multihash, Data>, exchange: Option<Exchange>, ks: seq<Cid>)
    : seq<Block>
  {
    Hits(store, ValidKeys(valid, ks)) + Replies(exchange, Misses(store, ValidKeys(valid, ks)))
  }

  lemma {:induction false} HitsAre(store: map<Multihash, Data>, ks: seq<Cid>)
    ensures forall b :: b in Hits(store, ks) <==> b.cid in ks && b.cid.hash in store && b.data == store[b.cid.hash]
    ensures forall c :: c in Misses(store, ks) <==> c in ks && c.hash !in store
    decreases |ks|
  {
    if ks != [] {
      HitsAre(store, ks[1..]);
      assert ks == [ks[0]] + ks[1..];
    }
  }

  lemma {:induction false} ValidKeysAre(valid: Cid -> bool, ks: seq<Cid>)
    ensures forall c :: c in ValidKeys(valid, ks) <==> c in ks && valid(c)
    decreases |ks|
  {
    if ks != [] {
      ValidKeysAre(valid, ks[1..]);
      assert ks == [ks[0]] + ks[1..];
    }
  }

  /** The blocks delivered are those in the store for the valid keys, with the data stored, and the
      exchange's replies to the valid keys that are not; unsafe keys are neither looked up nor
      asked for. */
  lemma DeliveredAre(valid: Cid -> bool, store: map<Multihash, Data>, exchange: Option<Exchange>, ks: seq<Cid>)
    ensures var misses := Misses(store, ValidKeys(valid, ks));
            && (forall c :: c in misses <==> c in ks && valid(c) && c.hash !in store)
            && (forall b :: b in Delivered(valid, store, exchange, ks) <==>
                  || (b.cid in ks && valid(b.cid) && b.cid.hash in store && b.data == store[b.cid.hash])
                  || (misses != [] && exchange.Some? && exchange.value(misses).Some? &&
                      b in exchange.value(misses).value))
  {
    ValidKeysAre(valid, ks);
    HitsAre(store, ValidKeys(valid, ks));
  }

  method FilterKeys(valid: Cid -> bool, ks: seq<Cid>) returns (ks2: seq<Cid>)
    ensures ks2 == ValidKeys(valid, ks)
  {
    ks2 := [];
    for i := 0 to |ks|
      invariant ks2 + ValidKeys(valid, ks[i..]) == ValidKeys(valid, ks)
    {
      assert ks[i..][1..] == ks[i + 1..];
      if valid(ks[i]) {
        ks2 := ks2 + [ks[i]];
      }
    }
  }

  lemma {:induction false} AllKeysValid(valid: Cid -> bool, ks: seq<Cid>)
    requires forall i | 0 <= i < |ks| :: valid(ks[i])
    ensures ValidKeys(valid, ks) == ks
    decreases |ks|
  {
    if ks != [] {
      AllKeysValid(valid, ks[1..]);
      assert [ks[0]] + ks[1..] == ks;
    }
  }

  /** The check for unsafe CIDs, and the copy without them when there are some. */
  method SafeKeys(valid: Cid -> bool, keys: seq<Cid>) returns (ks: seq<Cid>)
    ensures ks == ValidKeys(valid, keys)
  {
    var allValid := true;
    var v := 0;
    while v < |keys| && allValid
      invariant v <= |keys|
      invariant allValid ==> forall j | 0 <= j < v :: valid(keys[j])
    {
      allValid := valid(keys[v]);
      v := v + 1;
    }
    if !allValid {
      ks := FilterKeys(valid, keys);
    } else {
      AllKeysValid(valid, keys);
      ks := keys;
    }
  }

  /** What is still to come of the loop over the local store, from the i-th key on. */
  ghost predicate LocalSoFar(store: map<Multihash, Data>, ks: seq<Cid>, i: nat, out: seq<Block>, misses: seq<Cid>)
    requires i <= |ks|
  {
    out + Hits(store, ks[i..]) == Hits(store, ks) && misses + Misses(store, ks[i..]) == Misses(store, ks)
  }

  lemma LocalStep(store: map<Multihash, Data>, ks: seq<Cid>, i: nat, out: seq<Block>, misses: seq<Cid>)
    requires i < |ks| && LocalSoFar(store, ks, i, out, misses)
    ensures if ks[i].hash in store then LocalSoFar(store, ks, i + 1, out + [Block(ks[i], store[ks[i].hash])], misses)
            else LocalSoFar(store, ks, i + 1, out, misses + [ks[i]])
  {
    assert ks[i..][1..] == ks[i + 1..];
  }

  /** The loop over the local store. */
  method LocalBlocks(store: map<Multihash, Data>, ks: seq<Cid>, done: nat -> bool)
    returns (out: seq<Block>, misses: seq<Cid>, stopped: bool)
    ensures out <= Hits(store, ks) && (forall n | 0 <= n < |out| :: !done(n)) && (stopped ==> done(|out|))
    ensures stopped ==> |out| < |Hits(store, ks)|
    ensures !stopped ==> out == Hits(store, ks) && misses == Misses(store, ks)
    ensures (forall n :: !done(n)) ==> !stopped
  {
    out, misses := [], [];
    for i := 0 to |ks|
      invariant LocalSoFar(store, ks, i, out, misses) && forall n | 0 <= n < |out| :: !done(n)
    {
      LocalStep(store, ks, i, out, misses);
      if ks[i].hash !in store {
        misses := misses + [ks[i]];
      } else {
        if done(|out|) {
          return out, misses, true;
        }
        out := out + [Block(ks[i], store[ks[i].hash])];
      }
    }
    return out, misses, false;
  }

  /** The goroutine of `getBlocks`. `done(n)` says that the context's Done wins the select of the
      n-th block. The blocks sent are a prefix of those delivered without cancellation. */
  method GetBlocks(valid: Cid -> bool, store: map<Multihash, Data>, exchange: Option<Exchange>, keys: seq<Cid>,
                   done: nat -> bool) returns (out: seq<Block>)
    ensures out <= Delivered(valid, store, exchange, keys) && forall n | 0 <= n < |out| :: !done(n)
    ensures out == Delivered(valid, store, exchange, keys) || done(|out|)
  {
    var ks := SafeKeys(valid, keys);
    var misses, stopped;
    out, misses, stopped := LocalBlocks(store, ks, done);
    if stopped || misses == [] || exchange.None? {
      return;
    }
    var rblocks := exchange.value(misses);
    if rblocks.None? {
      return;
    }
    var hits := out;
    for i := 0 to |rblocks.value|
      invariant out == hits + rblocks.value[..i] && forall n | 0 <= n < |out| :: !done(n)
    {
      if done(|out|) {
        return;
      }
      out := out + [rblocks.value[i]];
    }
  }

  // ---- nodes

  datatype NodeOption = Node(cid: Cid) | Err

  predicate Distinct<T(==)>(s: seq<T>) {
    forall i, j | 0 <= i < j < |s| :: s[i] != s[j]
  }

  /** dedupKeys: each key once. */
  method DedupKeys(keys: seq<Cid>) returns (r: seq<Cid>)
    ensures Distinct(r) && (forall c :: c in r <==> c in keys)
    ensures Distinct(keys) ==> r == keys
  {
    r := [];
    for i := 0 to |keys|
      invariant Distinct(r) && forall c :: c in r <==> c in keys[..i]
      invariant Distinct(keys[..i]) ==> r == keys[..i]
    {
      assert keys[..i + 1] == keys[..i] + [keys[i]];
      if keys[i] !in r {
        r := r + [keys[i]];
      } else {
        var j :| 0 <= j < i && keys[j] == keys[i];
        assert keys[..i + 1][j] == keys[..i + 1][i];
      }
      if Distinct(keys[..i + 1]) {
        forall a, b | 0 <= a < b < i ensures keys[..i][a] != keys[..i][b] {
          assert keys[..i + 1][a] != keys[..i + 1][b];
        }
      }
    }
    assert keys[..|keys|] == keys;
  }

  predicate Nodes(out: seq<NodeOption>) {
    forall i | 0 <= i < |out| :: out[i].Node?
  }

  /** Exactly one error, and it comes last. */
  predicate EndsInError(out: seq<NodeOption>) {
    |out| > 0 && out[|out| - 1].Err? && Nodes(out[..|out| - 1])
  }

  /** One node per key, and nothing else. */
  ghost predicate OneEach(keys: seq<Cid>, out: seq<NodeOption>) {
    Nodes(out) && Distinct(out) && forall c :: c in keys <==> Node(c) in out
  }

  /** The blocks come from the keys, each at most once. */
  predicate AtMostOnce(keys: seq<Cid>, blocks: seq<Block>) {
    && (forall i | 0 <= i < |blocks| :: blocks[i].cid in keys)
    && (forall i, j | 0 <= i < j < |blocks| :: blocks[i].cid != blocks[j].cid)
  }

  /** The stream is passed on up to the k-th block: there the context's Done wins the select, or the
      stream is at its end, or its block does not decode. */
  predicate Passed(blocks: seq<Block>, decodes: Block -> bool, done: nat -> bool, k: nat)
    requires k <= |blocks|
  {
    && (forall j | 0 <= j < k :: !done(j) && decodes(blocks[j]))
    && (done(k) || k == |blocks| || !decodes(blocks[k]))
  }

  function NodesOf(blocks: seq<Block>): seq<NodeOption> {
    seq(|blocks|, i requires 0 <= i < |blocks| => Node(blocks[i].cid))
  }

  /** The goroutine of `getNodesFromBG` over the stream `blocks`, for keys without repetition. It
      only counts: without an error it has passed on as many blocks as there are keys, and those
      are one node per key exactly when the stream had each key at most once and nothing else. */
  method Collect(keys: seq<Cid>, blocks: seq<Block>, decodes: Block -> bool, done: nat -> bool)
    returns (out: seq<NodeOption>)
    requires Distinct(keys)
    ensures EndsInError(out) || (out == NodesOf(blocks) && |out| == |keys|)
    ensures exists k :: 0 <= k <= |blocks| && Passed(blocks, decodes, done, k) && out ==
              NodesOf(blocks[..k]) + if k == |blocks| == |keys| && !done(k) then [] else [Err]
    ensures EndsInError(out) || (OneEach(keys, out) <==> AtMostOnce(keys, blocks))
    ensures (forall n :: !done(n)) && (forall b :: decodes(b)) ==>
              out == NodesOf(blocks) + if |blocks| == |keys| then [] else [Err]
  {
    out := [];
    var count := 0;
    while true
      invariant count == |out| <= |blocks|
      invariant out == NodesOf(blocks[..count])
      invariant forall j | 0 <= j < count :: !done(j) && decodes(blocks[j])
      decreases |blocks| - count
    {
      if done(count) {
        out := out + [Err];
        return;
      }
      if count == |blocks| {
        if count != |keys| {
          out := out + [Err];
        } else {
          FullCount(keys, blocks);
          assert out == NodesOf(blocks);
        }
        return;
      }
      if !decodes(blocks[count]) {
        out := out + [Err];
        return;
      }
      out := out + [Node(blocks[count].cid)];
      count := count + 1;
    }
  }

  /** A stream that repeats one block and omits another passes: two keys, and twice the first. */
  method RepeatedBlock(a: Block, b: Block) returns (out: seq<NodeOption>)
    requires a.cid != b.cid
    ensures out == [Node(a.cid), Node(a.cid)] && !EndsInError(out) && !OneEach([a.cid, b.cid], out)
  {
    out := Collect([a.cid, b.cid], [a, a], _ => true, _ => false);
    assert [a, a][0].cid == [a, a][1].cid;
  }

  /** As many blocks as there are keys are one per key exactly when none comes twice or unasked. */
  lemma FullCount(keys: seq<Cid>, blocks: seq<Block>)
    requires Distinct(keys) && |blocks| == |keys|
    ensures OneEach(keys, NodesOf(blocks)) <==> AtMostOnce(keys, blocks)
  {
    var out := NodesOf(blocks);
    if AtMostOnce(keys, blocks) { AllComeOnce(keys, blocks); }
    if OneEach(keys, out) {
      forall i | 0 <= i < |blocks| ensures blocks[i].cid in keys { assert out[i] == Node(blocks[i].cid); }
      forall i, j | 0 <= i < j < |blocks| ensures blocks[i].cid != blocks[j].cid { assert out[i] != out[j]; }
    }
  }

  /** Counting suffices: as many distinct blocks of the keys as there are keys is all of them. */
  lemma AllComeOnce(keys: seq<Cid>, blocks: seq<Block>)
    requires Distinct(keys) && AtMostOnce(keys, blocks) && |blocks| == |keys|
    ensures OneEach(keys, NodesOf(blocks))
  {
    var cids, out := seq(|blocks|, i requires 0 <= i < |blocks| => blocks[i].cid), NodesOf(blocks);
    DistinctSize(keys);
    DistinctSize(cids);
    var a, b := (set c | c in cids), (set c | c in keys);
    assert a <= b;
    SameSize(a, b);
    forall c ensures c in keys <==> Node(c) in out {
      if c in keys {
        assert c in a;
        var i :| 0 <= i < |cids| && cids[i] == c;
        assert out[i] == Node(c);
      }
    }
  }

  lemma SameSize<T>(a: set<T>, b: set<T>)
    requires a <= b && |a| == |b|
    ensures a == b
  {
    assert b == a + (b - a);
  }

  lemma {:induction false} DistinctSize(s: seq<Cid>)
    requires Distinct(s)
    ensures |set c | c in s| == |s|
    decreases |s|
  {
    if s != [] {
      var t := s[..|s| - 1];
      DistinctSize(t);
      assert (set c | c in s) == (set c | c in t) + {s[|s| - 1]};
      assert s[|s| - 1] !in t;
    }
  }

  /** The exchange answers only misses, each at most once. */
  ghost predicate Orderly(exchange: Option<Exchange>) {
    exchange.Some? ==> forall m | Distinct(m) && exchange.value(m).Some? :: AtMostOnce(m, exchange.value(m).value)
  }

  /** ... and every one of them. */
  ghost predicate Answers(exchange: Option<Exchange>) {
    exchange.Some? && forall m | Distinct(m) :: exchange.value(m).Some? && |exchange.value(m).value| == |m|
  }

  lemma {:induction false} ValidKeysSubset(valid: Cid -> bool, ks: seq<Cid>)
    requires Distinct(ks)
    ensures Distinct(ValidKeys(valid, ks)) && forall c | c in ValidKeys(valid, ks) :: c in ks
    decreases |ks|
  {
    if ks != [] {
      ValidKeysSubset(valid, ks[1..]);
      assert ks[0] !in ks[1..];
    }
  }

  predicate AllStored(store: map<Multihash, Data>, blocks: seq<Block>) {
    forall i | 0 <= i < |blocks| :: blocks[i].cid.hash in store
  }

  /** Hits and misses share the keys out between them. */
  lemma {:induction false} HitsOnce(store: map<Multihash, Data>, ks: seq<Cid>)
    requires Distinct(ks)
    ensures AtMostOnce(ks, Hits(store, ks)) && AllStored(store, Hits(store, ks))
    ensures |Hits(store, ks)| + |Misses(store, ks)| == |ks|
    decreases |ks|
  {
    if ks != [] {
      var c, rest := ks[0], ks[1..];
      HitsOnce(store, rest);
      assert c !in rest && [c] + rest == ks;
      var hits := Hits(store, rest);
      if c.hash in store {
        HitFirst(store, c, rest, hits);
        assert Hits(store, ks) == [Block(c, store[c.hash])] + hits;
      } else {
        assert Hits(store, ks) == hits;
      }
    }
  }

  lemma HitFirst(store: map<Multihash, Data>, c: Cid, rest: seq<Cid>, hits: seq<Block>)
    requires c.hash in store && c !in rest && AtMostOnce(rest, hits) && AllStored(store, hits)
    ensures AtMostOnce([c] + rest, [Block(c, store[c.hash])] + hits)
    ensures AllStored(store, [Block(c, store[c.hash])] + hits)
  {
  }

  lemma {:induction false} MissesOnce(store: map<Multihash, Data>, ks: seq<Cid>)
    requires Distinct(ks)
    ensures Distinct(Misses(store, ks)) && forall c | c in Misses(store, ks) :: c in ks && c.hash !in store
    decreases |ks|
  {
    if ks != [] {
      MissesOnce(store, ks[1..]);
      assert ks[0] !in ks[1..];
    }
  }

  lemma JoinOnce(store: map<Multihash, Data>, ks: seq<Cid>, hits: seq<Block>, misses: seq<Cid>, replies: seq<Block>)
    requires AtMostOnce(ks, hits) && AllStored(store, hits) && AtMostOnce(misses, replies)
    requires forall c | c in misses :: c in ks && c.hash !in store
    ensures AtMostOnce(ks, hits + replies)
  {
    var all := hits + replies;
    assert forall i | |hits| <= i < |all| :: all[i] == replies[i - |hits|];
    assert forall i | |hits| <= i < |all| :: all[i].cid in misses;
  }

  lemma AmongMore(few: seq<Cid>, many: seq<Cid>, blocks: seq<Block>)
    requires AtMostOnce(few, blocks) && forall c | c in few :: c in many
    ensures AtMostOnce(many, blocks)
  {
  }

  lemma DeliveredOnce(valid: Cid -> bool, store: map<Multihash, Data>, exchange: Option<Exchange>, ks: seq<Cid>)
    requires Distinct(ks) && Orderly(exchange)
    ensures AtMostOnce(ks, Delivered(valid, store, exchange, ks))
    ensures (forall c | c in ks :: valid(c)) && Answers(exchange) ==> |Delivered(valid, store, exchange, ks)| == |ks|
  {
    var vks := ValidKeys(valid, ks);
    ValidKeysSubset(valid, ks);
    HitsOnce(store, vks);
    MissesOnce(store, vks);
    var hits, misses := Hits(store, vks), Misses(store, vks);
    var replies := Replies(exchange, misses);
    assert AtMostOnce(misses, replies);
    JoinOnce(store, vks, hits, misses, replies);
    AmongMore(vks, ks, hits + replies);
    if forall c | c in ks :: valid(c) { AllKeysValid(valid, ks); }
  }

  /** Fetching many nodes: over an exchange that answers only what it is asked and no more than
      once, either one node per distinct key and no error, or nodes and then one error; and the
      former whenever nothing is cancelled, the keys are valid, the blocks decode and the
      exchange leaves no miss out. */
  method GetMany(keys: seq<Cid>, valid: Cid -> bool, store: map<Multihash, Data>, exchange: Option<Exchange>,
                 decodes: Block -> bool, done: nat -> bool, done': nat -> bool) returns (out: seq<NodeOption>)
    ensures Nodes(out) || EndsInError(out)
    ensures exists ks ::
              && Distinct(ks) && (forall c :: c in ks <==> c in keys)
              && var nodes := NodesOf(Delivered(valid, store, exchange, ks));
                 && (if EndsInError(out) then out[..|out| - 1] <= nodes else out <= nodes)
                 && ((forall n :: !done(n) && !done'(n)) && (forall b :: decodes(b)) ==>
                       out == nodes + if |nodes| == |ks| then [] else [Err])
    ensures Orderly(exchange) ==> OneEach(keys, out) || EndsInError(out)
    ensures (forall n :: !done(n) && !done'(n)) && (forall c | c in keys :: valid(c)) && (forall b :: decodes(b)) &&
            Orderly(exchange) && Answers(exchange)
            ==> OneEach(keys, out)
  {
    var ks := DedupKeys(keys);
    var blocks := GetBlocks(valid, store, exchange, ks, done);
    out := Collect(ks, blocks, decodes, done');
    ghost var all := Delivered(valid, store, exchange, ks);
    assert NodesOf(blocks) <= NodesOf(all) && |NodesOf(all)| == |all|;
    if Orderly(exchange) {
      DeliveredOnce(valid, store, exchange, ks);
      PrefixOnce(ks, blocks, Delivered(valid, store, exchange, ks));
    }
  }

  lemma PrefixOnce(ks: seq<Cid>, blocks: seq<Block>, all: seq<Block>)
    requires blocks <= all && AtMostOnce(ks, all)
    ensures AtMostOnce(ks, blocks)
  {
    assert forall i | 0 <= i < |blocks| :: blocks[i] == all[i];
  }
}
