/** The client's table of pending wants as a value: what replies and requesters do to it, and exactly
    when the handler of replies blocks. */
module WantsTable {
  import opened Dag
  import opened BlockService

  // ---- messages

  predicate Mentions(blocks: seq<Block>, c: Cid) {
    exists i :: 0 <= i < |blocks| && blocks[i].cid == c
  }

  predicate DistinctCids(blocks: seq<Block>) {
    forall i, j | 0 <= i < j < |blocks| :: blocks[i].cid != blocks[j].cid
  }

  /** The blocks for `c` in a message. */
  function BlocksFor(blocks: seq<Block>, c: Cid): seq<Block> {
    if blocks == [] then []
    else BlocksFor(blocks[..|blocks| - 1], c) + if blocks[|blocks| - 1].cid == c then [blocks[|blocks| - 1]] else []
  }

  lemma {:induction false} OneBlock(blocks: seq<Block>, c: Cid)
    requires DistinctCids(blocks)
    ensures if Mentions(blocks, c) then |BlocksFor(blocks, c)| == 1 && BlocksFor(blocks, c)[0].cid == c
            else BlocksFor(blocks, c) == []
  {
    if blocks != [] {
      var rest := blocks[..|blocks| - 1];
      OneBlock(rest, c);
      assert Mentions(blocks, c) <==> Mentions(rest, c) || blocks[|blocks| - 1].cid == c by {
        if i :| 0 <= i < |rest| && rest[i].cid == c { assert blocks[i].cid == c; }
        if i :| 0 <= i < |blocks| && blocks[i].cid == c { assert i < |rest| ==> rest[i].cid == c; }
      }
    }
  }

  // ---- the table as a value

  /** What was asked for, what was sent on each channel (the n-th request has channel n, of capacity
      one), the requests whose entry still stands, the requesters that have read a block, which is
      all they read, and those that have left without one. */
  datatype Table = Table(asked: seq<Cid>, chans: seq<seq<Block>>, pend: set<nat>, read: set<nat>, left: set<nat>)

  predicate Sensible(t: Table) {
    && |t.asked| == |t.chans|
    && (forall n | n in t.pend :: n < |t.asked|)
    && (forall n | n in t.read :: n < |t.asked|)
  }

  function Ask(t: Table, c: Cid): Table {
    t.(asked := t.asked + [c], chans := t.chans + [[]], pend := t.pend + {|t.asked|})
  }

  /** There is a block in the channel, which then is full. */
  predicate Occupied(t: Table, n: nat)
    requires n < |t.chans|
  {
    |t.chans[n]| > if n in t.read then 1 else 0
  }

  /** Nobody will read from the channel any more. */
  predicate Deserted(t: Table, n: nat) {
    n in t.read || n in t.left
  }

  /** The channels after one block was sent to the pending requests for it. */
  function Post(t: Table, blk: Block): Table
    requires Sensible(t)
  {
    t.(chans := seq(|t.chans|, n requires 0 <= n < |t.chans| =>
                      if n in t.pend && t.asked[n] == blk.cid then t.chans[n] + [blk] else t.chans[n]))
  }

  /** Sending the block would find a channel full, and block the handler. */
  predicate Full(t: Table, blk: Block)
    requires Sensible(t)
  {
    exists n :: n in t.pend && t.asked[n] == blk.cid && Occupied(t, n)
  }

  /** ... and block it for ever. */
  predicate Lasting(t: Table, blk: Block)
    requires Sensible(t)
  {
    exists n :: n in t.pend && t.asked[n] == blk.cid && Occupied(t, n) && Deserted(t, n)
  }

  /** The sends of a message. */
  function PostAll(t: Table, blocks: seq<Block>): (r: Table)
    requires Sensible(t)
    ensures Sensible(r) && r == t.(chans := r.chans)
    decreases |blocks|
  {
    if blocks == [] then t else Post(PostAll(t, blocks[..|blocks| - 1]), blocks[|blocks| - 1])
  }

  lemma {:induction false} PostedAt(t: Table, blocks: seq<Block>, n: nat)
    requires Sensible(t) && n < |t.chans|
    ensures PostAll(t, blocks).chans[n] == t.chans[n] + if n in t.pend then BlocksFor(blocks, t.asked[n]) else []
    decreases |blocks|
  {
    if blocks != [] { PostedAt(t, blocks[..|blocks| - 1], n); }
  }

  /** The i-th block of a message finds a channel full. */
  predicate JamsAt(t: Table, blocks: seq<Block>, i: nat)
    requires Sensible(t)
  {
    i < |blocks| && Full(PostAll(t, blocks[..i]), blocks[i])
  }

  /** The first `i` blocks of a message do not. */
  predicate Clear(t: Table, blocks: seq<Block>, i: nat)
    requires Sensible(t)
  {
    forall j: nat {:trigger JamsAt(t, blocks, j)} | j < i :: !JamsAt(t, blocks, j)
  }

  lemma ClearMore(t: Table, blocks: seq<Block>, i: nat)
    requires Sensible(t) && Clear(t, blocks, i)
    ensures if JamsAt(t, blocks, i) then Jams(t, blocks) else Clear(t, blocks, i + 1)
  {
  }

  predicate Jams(t: Table, blocks: seq<Block>)
    requires Sensible(t)
  {
    exists i: nat {:trigger JamsAt(t, blocks, i)} :: i < |blocks| && JamsAt(t, blocks, i)
  }

  /** What the handler may delete after the sends of a message: for each CID that was mentioned and
      is pending, one of the pending requests, whichever was sent to last. */
  predicate MayDelete(t: Table, blocks: seq<Block>, gone: set<nat>)
    requires Sensible(t)
  {
    && gone <= t.pend
    && (forall n | n in gone :: Mentions(blocks, t.asked[n]))
    && (forall m, n | m in gone && n in gone && t.asked[m] == t.asked[n] :: m == n)
    && (forall n | n in t.pend && Mentions(blocks, t.asked[n]) :: exists m :: m in gone && t.asked[m] == t.asked[n])
  }

  function Settle(t: Table, blocks: seq<Block>, gone: set<nat>): Table
    requires Sensible(t)
  {
    PostAll(t, blocks).(pend := t.pend - gone)
  }

  /** No two pending requests name the same CID. */
  predicate Single(t: Table)
    requires Sensible(t)
  {
    forall m, n | m in t.pend && n in t.pend && t.asked[m] == t.asked[n] :: m == n
  }

  /** Nothing was sent yet to a pending request, and so nothing read. */
  predicate Unsent(t: Table)
    requires Sensible(t)
  {
    forall n | n in t.pend :: t.chans[n] == [] && n !in t.read
  }

  /** All blocks sent on a channel are of the CID it was made for, one at most until it is read from
      and one more after that. */
  predicate TidyAt(t: Table, n: nat)
    requires n < |t.chans| == |t.asked|
  {
    && (forall b | b in t.chans[n] :: b.cid == t.asked[n])
    && |t.chans[n]| <= (if n in t.read then 2 else 1)
    && (n in t.read ==> t.chans[n] != [])
  }

  predicate Tidy(t: Table)
    requires Sensible(t)
  {
    forall n: nat {:trigger TidyAt(t, n)} | n < |t.chans| :: TidyAt(t, n)
  }

  /** Every request without an entry has had exactly one block. */
  predicate Served(t: Table)
    requires Sensible(t)
  {
    forall n {:trigger t.chans[n]} | 0 <= n < |t.chans| && n !in t.pend :: |t.chans[n]| == 1
  }

  predicate Awaits(t: Table, c: Cid)
    requires Sensible(t)
  {
    exists n :: n in t.pend && t.asked[n] == c
  }

  /** Nothing was sent but these blocks. */
  predicate Only(t: Table, t': Table, blocks: seq<Block>) {
    && |t'.chans| == |t.chans|
    && forall n {:trigger t'.chans[n]} | 0 <= n < |t.chans| ::
         forall b | b in t'.chans[n] :: b in t.chans[n] || b in blocks
  }

  lemma OnlyAmong(t: Table, t': Table, blocks: seq<Block>, i: nat)
    requires i < |blocks| && Only(t, t', [blocks[i]])
    ensures Only(t, t', blocks)
  {
  }

  lemma OnlyOn(t: Table, t': Table, t'': Table, blocks: seq<Block>)
    requires Only(t, t', blocks) && Only(t', t'', blocks)
    ensures Only(t, t'', blocks)
  {
    forall n | 0 <= n < |t.chans| ensures forall b | b in t''.chans[n] :: b in t.chans[n] || b in blocks {
      assert forall b | b in t'.chans[n] :: b in t.chans[n] || b in blocks;
    }
  }

  // ---- when a send blocks

  lemma {:induction false} BlocksForNone(blocks: seq<Block>, c: Cid)
    ensures BlocksFor(blocks, c) != [] <==> Mentions(blocks, c)
  {
    if blocks != [] {
      var rest := blocks[..|blocks| - 1];
      BlocksForNone(rest, c);
      if i :| 0 <= i < |rest| && rest[i].cid == c { assert blocks[i].cid == c; }
      if i :| 0 <= i < |blocks| && blocks[i].cid == c { assert i < |rest| ==> rest[i].cid == c; }
    }
  }

  /** The message names a pending CID twice. */
  predicate Repeats(t: Table, blocks: seq<Block>)
    requires Sensible(t)
  {
    exists i, j :: 0 <= j < i < |blocks| && blocks[j].cid == blocks[i].cid && Awaits(t, blocks[i].cid)
  }

  /** While nothing was sent to the pending requests, a message blocks the handler exactly when it
      names a pending CID twice. */
  lemma JamsExactly(t: Table, blocks: seq<Block>)
    requires Sensible(t) && Unsent(t)
    ensures Jams(t, blocks) <==> Repeats(t, blocks)
  {
    if Jams(t, blocks) {
      var i: nat :| i < |blocks| && JamsAt(t, blocks, i);
      JamsAtExactly(t, blocks, i);
      var j :| 0 <= j < |blocks[..i]| && blocks[..i][j].cid == blocks[i].cid;
      assert blocks[j].cid == blocks[i].cid && Awaits(t, blocks[i].cid);
    }
    if Repeats(t, blocks) {
      var i, j :| 0 <= j < i < |blocks| && blocks[j].cid == blocks[i].cid && Awaits(t, blocks[i].cid);
      assert blocks[..i][j].cid == blocks[i].cid;
      JamsAtExactly(t, blocks, i);
    }
  }

  lemma JamsAtExactly(t: Table, blocks: seq<Block>, i: nat)
    requires Sensible(t) && Unsent(t) && i < |blocks|
    ensures JamsAt(t, blocks, i) <==> Awaits(t, blocks[i].cid) && Mentions(blocks[..i], blocks[i].cid)
  {
    var c, front := blocks[i].cid, blocks[..i];
    BlocksForNone(front, c);
    forall n | n in t.pend && t.asked[n] == c ensures Occupied(PostAll(t, front), n) <==> Mentions(front, c) {
      PostedAt(t, front, n);
      assert n !in t.read;
      assert |BlocksFor(front, c)| > 0 <==> Mentions(front, c);
    }
    if Awaits(t, c) {
      var n :| n in t.pend && t.asked[n] == c;
      assert Occupied(PostAll(t, front), n) <==> Mentions(front, c);
    }
  }

  /** With at most one pending request per CID, a message without repetition is sent without
      blocking, gives one block of the right CID to each pending request it mentions, and removes
      exactly their entries. */
  lemma SettleKeeps(t: Table, blocks: seq<Block>, gone: set<nat>)
    requires Sensible(t) && Unsent(t) && Single(t) && DistinctCids(blocks) && MayDelete(t, blocks, gone)
    ensures var t' := Settle(t, blocks, gone);
            && !Jams(t, blocks)
            && Unsent(t') && Single(t')
            && (forall n :: n in t'.pend <==> n in t.pend && !Mentions(blocks, t.asked[n]))
            && (Tidy(t) ==> Tidy(t')) && (Served(t) ==> Served(t'))
  {
    JamsExactly(t, blocks);
    var t' := Settle(t, blocks, gone);
    forall n | n in t.pend
      ensures n in gone <==> Mentions(blocks, t.asked[n])
      ensures if Mentions(blocks, t.asked[n]) then |t'.chans[n]| == 1 && t'.chans[n][0].cid == t.asked[n]
              else t'.chans[n] == []
    {
      OneBlock(blocks, t.asked[n]);
      PostedAt(t, blocks, n);
    }
    forall n | 0 <= n < |t.chans| && n !in t.pend ensures t'.chans[n] == t.chans[n] { PostedAt(t, blocks, n); }
    if Tidy(t) {
      forall n: nat | n < |t'.chans| ensures TidyAt(t', n) { assert TidyAt(t, n); }
    }
  }

  // ---- messages, readers and when the handler blocks for ever

  /** A message with the entries that are deleted after it, or a step of a requester. */
  datatype Step = Message(blocks: seq<Block>, gone: set<nat>) | Takes(n: nat) | Quits(n: nat)

  /** The handler takes messages without repetition and needs room for their blocks; a requester
      reads once, or, if contexts `may` be done, leaves. */
  predicate CanStep(t: Table, st: Step, may: bool)
    requires Sensible(t)
  {
    match st
    case Message(blocks, gone) => DistinctCids(blocks) && MayDelete(t, blocks, gone) && !Jams(t, blocks)
    case Takes(n) => n < |t.chans| && Occupied(t, n) && !Deserted(t, n)
    case Quits(n) => may && n < |t.chans| && !Deserted(t, n)
  }

  function After(t: Table, st: Step): (r: Table)
    requires Sensible(t)
    ensures Sensible(r)
  {
    match st
    case Message(blocks, gone) => Settle(t, blocks, gone)
    case Takes(n) => if n < |t.chans| then t.(read := t.read + {n}) else t
    case Quits(n) => t.(left := t.left + {n})
  }

  predicate Possible(t: Table, sts: seq<Step>, may: bool)
    requires Sensible(t)
    decreases |sts|
  {
    sts != [] ==> CanStep(t, sts[0], may) && Possible(After(t, sts[0]), sts[1..], may)
  }

  function AfterAll(t: Table, sts: seq<Step>): (r: Table)
    requires Sensible(t)
    ensures Sensible(r)
    decreases |sts|
  {
    if sts == [] then t else AfterAll(After(t, sts[0]), sts[1..])
  }

  lemma StepFirst(t: Table, st: Step, rest: seq<Step>, may: bool)
    requires Sensible(t) && CanStep(t, st, may) && Possible(After(t, st), rest, may)
    ensures Possible(t, [st] + rest, may) && AfterAll(t, [st] + rest) == AfterAll(After(t, st), rest)
  {
    assert ([st] + rest)[1..] == rest;
  }

  /** A reply of one block, after which the entry of one of the pending requests is deleted. */
  lemma OneReply(t: Table, blk: Block, m: nat)
    requires Sensible(t) && m in t.pend && t.asked[m] == blk.cid
    ensures MayDelete(t, [blk], {m}) && (Jams(t, [blk]) <==> Full(t, blk))
    ensures Settle(t, [blk], {m}) == Post(t, blk).(pend := t.pend - {m})
  {
    assert [blk][0].cid == blk.cid;
    assert forall c :: Mentions([blk], c) <==> c == blk.cid;
    assert [blk][..0] == [] && PostAll(t, [blk][..0]) == t;
    assert JamsAt(t, [blk], 0) <==> Full(t, blk);
  }

  // ---- whether a send ever has to wait

  lemma {:induction false} SingleAlways(t: Table, sts: seq<Step>, may: bool)
    requires Sensible(t) && Unsent(t) && Single(t) && Possible(t, sts, may)
    ensures Unsent(AfterAll(t, sts)) && Single(AfterAll(t, sts))
    decreases |sts|
  {
    if sts != [] {
      if sts[0].Message? { SettleKeeps(t, sts[0].blocks, sts[0].gone); }
      SingleAlways(After(t, sts[0]), sts[1..], may);
    }
  }

  /** Two pending requests for one CID: the first reply goes to both and removes the entry of one,
      so that the second finds the channel of the other full. */
  lemma SecondReplyBlocks(t: Table, m: nat, n: nat, blk: Block)
    requires Sensible(t) && Unsent(t) && m != n && m in t.pend && n in t.pend
    requires t.asked[m] == t.asked[n] == blk.cid
    ensures var t' := Settle(t, [blk], {m});
            && MayDelete(t, [blk], {m}) && !Jams(t, [blk])
            && t'.chans[m] == t'.chans[n] == [blk] && m !in t'.pend && n in t'.pend
            && MayDelete(t', [blk], {n}) && Full(t', blk) && Jams(t', [blk])
  {
    var t' := Settle(t, [blk], {m});
    OneReply(t, blk, m);
    OneReply(t', blk, n);
    assert t.chans[m] + [blk] == t.chans[n] + [blk] == [blk];
    assert !Full(t, blk);
    assert Occupied(t', n);
  }

  /** From a table with empty pending channels, whatever messages without repetition come and
      whatever the requesters do, no such message ever finds a channel full exactly when no two
      pending requests name the same CID. */
  lemma RoomExactly(t: Table)
    requires Sensible(t) && Unsent(t)
    ensures (forall sts, blocks :: !FullAfter(t, sts, blocks)) <==> Single(t)
  {
    if Single(t) {
      forall sts, blocks ensures !FullAfter(t, sts, blocks) {
        if Possible(t, sts, true) && DistinctCids(blocks) { SingleHasRoom(t, sts, blocks); }
      }
    } else {
      var m, n :| m in t.pend && n in t.pend && t.asked[m] == t.asked[n] && m != n;
      var sts, blocks := TwoJam(t, m, n);
      assert FullAfter(t, sts, blocks);
    }
  }

  /** After the steps `sts` a message without repetition finds a channel full. */
  predicate FullAfter(t: Table, sts: seq<Step>, blocks: seq<Block>)
    requires Sensible(t)
  {
    Possible(t, sts, true) && DistinctCids(blocks) && Jams(AfterAll(t, sts), blocks)
  }

  lemma SingleHasRoom(t: Table, sts: seq<Step>, blocks: seq<Block>)
    requires Sensible(t) && Unsent(t) && Single(t) && Possible(t, sts, true) && DistinctCids(blocks)
    ensures !Jams(AfterAll(t, sts), blocks)
  {
    SingleAlways(t, sts, true);
    JamsExactly(AfterAll(t, sts), blocks);
  }

  lemma TwoJam(t: Table, m: nat, n: nat) returns (sts: seq<Step>, blocks: seq<Block>)
    requires Sensible(t) && Unsent(t) && m in t.pend && n in t.pend && m != n && t.asked[m] == t.asked[n]
    ensures Possible(t, sts, true) && DistinctCids(blocks) && Jams(AfterAll(t, sts), blocks)
  {
    var blk := Block(t.asked[m], "");
    SecondReplyBlocks(t, m, n, blk);
    StepFirst(t, Message([blk], {m}), [], true);
    sts, blocks := [Message([blk], {m})] + [], [blk];
  }

  // ---- whether it ever waits in vain

  /** A block of the message finds a channel full that nobody will read from. */
  predicate Lasts(t: Table, blocks: seq<Block>)
    requires Sensible(t)
  {
    exists b :: b in blocks && Lasting(t, b)
  }

  /** The pending requesters are all still there. */
  predicate Attended(t: Table)
    requires Sensible(t)
  {
    Unsent(t) && forall n | n in t.pend :: n !in t.left
  }

  /** No three pending requests name the same CID. */
  predicate AtMostTwo(t: Table)
    requires Sensible(t)
  {
    forall k, m, n | k in t.pend && m in t.pend && n in t.pend && t.asked[k] == t.asked[m] == t.asked[n] ::
      k == m || m == n || n == k
  }

  /** The request is the only pending one for its CID. */
  predicate Alone(t: Table, n: nat)
    requires Sensible(t) && n in t.pend
  {
    forall m | m in t.pend && t.asked[m] == t.asked[n] :: m == n
  }

  /** A pending request has had at most one block, and only once it was alone; its requester has
      not left, and not read unless there was a block. */
  predicate PairedAt(t: Table, n: nat)
    requires Sensible(t) && n in t.pend
  {
    && n !in t.left
    && (t.chans[n] == [] ==> n !in t.read)
    && (t.chans[n] != [] ==> |t.chans[n]| == 1 && Alone(t, n))
  }

  predicate Paired(t: Table)
    requires Sensible(t)
  {
    AtMostTwo(t) && forall n {:trigger PairedAt(t, n)} | n in t.pend :: PairedAt(t, n)
  }

  lemma PairedMessage(t: Table, blocks: seq<Block>, gone: set<nat>)
    requires Sensible(t) && Paired(t) && DistinctCids(blocks) && MayDelete(t, blocks, gone)
    ensures Paired(Settle(t, blocks, gone))
  {
    var t' := Settle(t, blocks, gone);
    forall n | n in t'.pend ensures PairedAt(t', n) { PairedThen(t, blocks, gone, n); }
  }

  lemma PairedThen(t: Table, blocks: seq<Block>, gone: set<nat>, n: nat)
    requires Sensible(t) && Paired(t) && DistinctCids(blocks) && MayDelete(t, blocks, gone) && n in t.pend - gone
    ensures PairedAt(Settle(t, blocks, gone), n)
  {
    var t' := Settle(t, blocks, gone);
    OneBlock(blocks, t.asked[n]);
    PostedAt(t, blocks, n);
    assert PairedAt(t, n);
    if Mentions(blocks, t.asked[n]) {
      var m :| m in gone && t.asked[m] == t.asked[n];
      assert m != n && !Alone(t, n) && t.chans[n] == [];
      assert Alone(t', n);
    } else {
      assert t'.chans[n] == t.chans[n];
      if Alone(t, n) { assert Alone(t', n); }
    }
  }

  lemma PairedTakes(t: Table, n: nat)
    requires Sensible(t) && Paired(t) && n < |t.chans| && Occupied(t, n)
    ensures Paired(After(t, Takes(n)))
  {
    var t' := After(t, Takes(n));
    forall m | m in t'.pend ensures PairedAt(t', m) {
      assert PairedAt(t, m);
      if t.chans[m] != [] { assert Alone(t, m) && Alone(t', m); }
    }
  }

  lemma {:induction false} PairedAlways(t: Table, sts: seq<Step>)
    requires Sensible(t) && Paired(t) && Possible(t, sts, false)
    ensures Paired(AfterAll(t, sts))
    decreases |sts|
  {
    if sts != [] {
      if sts[0].Message? { PairedMessage(t, sts[0].blocks, sts[0].gone); } else { PairedTakes(t, sts[0].n); }
      PairedAlways(After(t, sts[0]), sts[1..]);
    }
  }

  /** All of `ns` read. */
  lemma {:induction false} AllTake(t: Table, ns: set<nat>, rest: seq<Step>) returns (sts: seq<Step>)
    requires Sensible(t) && forall n | n in ns :: n < |t.chans| && Occupied(t, n) && !Deserted(t, n)
    requires Possible(t.(read := t.read + ns), rest, false)
    ensures Possible(t, sts, false) && AfterAll(t, sts) == AfterAll(t.(read := t.read + ns), rest)
    decreases |ns|
  {
    if ns == {} {
      assert t.(read := t.read + ns) == t by { assert t.read + ns == t.read; }
      sts := rest;
    } else {
      var n :| n in ns;
      var t' := t.(read := t.read + {n});
      assert CanStep(t, Takes(n), false) && After(t, Takes(n)) == t';
      assert t.(read := t.read + ns) == t'.(read := t'.read + (ns - {n})) by {
        assert t'.read + (ns - {n}) == t.read + ns;
      }
      var more := AllTake(t', ns - {n}, rest);
      StepFirst(t, Takes(n), more, false);
      sts := [Takes(n)] + more;
    }
  }

  /** Three pending requests for one CID: after the first reply all read, the second reply goes to
      those left, and the third finds a channel full that nobody reads from. */
  lemma ThirdReplyLasts(t: Table, k: nat, m: nat, n: nat) returns (sts: seq<Step>, blk: Block)
    requires Sensible(t) && Attended(t) && k in t.pend && m in t.pend && n in t.pend
    requires k != m && m != n && n != k && t.asked[k] == t.asked[m] == t.asked[n]
    ensures Possible(t, sts, false) && Lasting(AfterAll(t, sts), blk)
  {
    blk := Block(t.asked[k], "");
    var first := Message([blk], {k});
    assert !Full(t, blk);
    ReplyStep(t, blk, k, false);
    var t1 := After(t, first);
    var rest := LaterReplyLasts(t1, m, n, blk);
    StepFirst(t, first, rest, false);
    sts := [first] + rest;
  }

  /** A reply of one block that there is room for. */
  lemma ReplyStep(t: Table, blk: Block, m: nat, may: bool)
    requires Sensible(t) && m in t.pend && t.asked[m] == blk.cid && !Full(t, blk)
    ensures CanStep(t, Message([blk], {m}), may)
    ensures After(t, Message([blk], {m})) == Post(t, blk).(pend := t.pend - {m})
  {
    OneReply(t, blk, m);
  }

  /** All pending requests for a CID have had one block: they read it, and the next reply goes to
      channels that nobody reads from any more. */
  lemma LaterReplyLasts(t: Table, m: nat, n: nat, blk: Block) returns (sts: seq<Step>)
    requires Sensible(t) && m in t.pend && n in t.pend && m != n && t.asked[m] == t.asked[n] == blk.cid
    requires forall i | i in t.pend && t.asked[i] == blk.cid :: |t.chans[i]| == 1 && !Deserted(t, i)
    ensures Possible(t, sts, false) && Lasting(AfterAll(t, sts), blk)
  {
    var ns := set i | i in t.pend && t.asked[i] == blk.cid;
    var t1, second := t.(read := t.read + ns), Message([blk], {m});
    assert !Full(t1, blk);
    ReplyStep(t1, blk, m, false);
    var t2 := After(t1, second);
    assert |t2.chans[n]| == 2 && Occupied(t2, n) && Deserted(t2, n);
    StepFirst(t1, second, [], false);
    sts := AllTake(t, ns, [second] + []);
  }

  /** Two pending requests for one CID, one of whose requesters leaves: the second reply waits in
      vain. */
  lemma LeaverLasts(t: Table, m: nat, n: nat) returns (sts: seq<Step>, blk: Block)
    requires Sensible(t) && Attended(t) && m in t.pend && n in t.pend && m != n && t.asked[m] == t.asked[n]
    ensures Possible(t, sts, true) && Lasting(AfterAll(t, sts), blk)
  {
    blk := Block(t.asked[m], "");
    var t1 := After(t, Quits(n));
    assert !Full(t1, blk);
    ReplyStep(t1, blk, m, true);
    var t2 := After(t1, Message([blk], {m}));
    assert |t2.chans[n]| == 1 && Occupied(t2, n) && Deserted(t2, n);
    StepFirst(t1, Message([blk], {m}), [], true);
    StepFirst(t, Quits(n), [Message([blk], {m})] + [], true);
    sts := [Quits(n)] + ([Message([blk], {m})] + []);
  }

  /** From a table with empty pending channels and their requesters there: the handler never blocks
      for ever, whatever messages without repetition come, exactly when no three pending requests
      name the same CID, or, if requesters may leave without reading, no two. */
  lemma LastsExactly(t: Table, may: bool)
    requires Sensible(t) && Attended(t)
    ensures (forall sts, blocks :: !LastsAfter(t, sts, blocks, may)) <==> if may then Single(t) else AtMostTwo(t)
  {
    if if may then Single(t) else AtMostTwo(t) {
      forall sts, blocks ensures !LastsAfter(t, sts, blocks, may) {
        if Possible(t, sts, may) { FewNeverLast(t, sts, blocks, may); }
      }
    } else {
      var sts, blk := ManyLast(t, may);
      assert blk in [blk];
      assert LastsAfter(t, sts, [blk], may);
    }
  }

  /** After the steps `sts` a message without repetition blocks the handler for ever. */
  predicate LastsAfter(t: Table, sts: seq<Step>, blocks: seq<Block>, may: bool)
    requires Sensible(t)
  {
    Possible(t, sts, may) && DistinctCids(blocks) && Lasts(AfterAll(t, sts), blocks)
  }

  lemma FewNeverLast(t: Table, sts: seq<Step>, blocks: seq<Block>, may: bool)
    requires Sensible(t) && Attended(t) && (if may then Single(t) else AtMostTwo(t)) && Possible(t, sts, may)
    ensures !Lasts(AfterAll(t, sts), blocks)
  {
    var t' := AfterAll(t, sts);
    if may {
      SingleAlways(t, sts, may);
    } else {
      PairedAlways(t, sts);
      forall n | n in t'.pend ensures !(Occupied(t', n) && Deserted(t', n)) { assert PairedAt(t', n); }
    }
  }

  lemma ManyLast(t: Table, may: bool) returns (sts: seq<Step>, blk: Block)
    requires Sensible(t) && Attended(t) && !(if may then Single(t) else AtMostTwo(t))
    ensures Possible(t, sts, may) && Lasting(AfterAll(t, sts), blk)
  {
    if may {
      var m, n :| m in t.pend && n in t.pend && t.asked[m] == t.asked[n] && m != n;
      sts, blk := LeaverLasts(t, m, n);
    } else {
      var k, m, n :| k in t.pend && m in t.pend && n in t.pend && t.asked[k] == t.asked[m] == t.asked[n] &&
        k != m && m != n && n != k;
      sts, blk := ThirdReplyLasts(t, k, m, n);
    }
  }
}
