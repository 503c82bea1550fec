/** The client's table of pending wants in place: requests register a channel of capacity one under
    the key of CID and peer, replies send on it and remove the entry. */
module Wants {
  import opened Dag
  import opened BlockService
  import opened WantsTable

  // ---- the key

  /** wantsKey: the text forms of CID and peer with a comma between. */
  function WantsKey(cidText: string, peerText: string): string {
    cidText + "," + peerText
  }

  /** The text form of a CID has no comma, so the key determines both. */
  lemma KeyInjective(c: string, p: string, c': string, p': string)
    requires ',' !in c && ',' !in c' && WantsKey(c, p) == WantsKey(c', p')
    ensures c == c' && p == p'
  {
    var k := WantsKey(c, p);
    assert k[|c|] == ',' && k[|c'|] == ',';
    assert forall i | 0 <= i < |c| :: k[i] == c[i] != ',';
    assert forall i | 0 <= i < |c'| :: k[i] == c'[i] != ',';
    assert c == k[..|c|] && c' == k[..|c'|];
    assert p == k[|c| + 1..] && p' == k[|c'| + 1..];
  }

  /** How CIDs and the one peer are written. */
  datatype Text = Text(cid: Cid -> string, peer: string)

  ghost predicate Legible(t: Text) {
    && (forall c :: ',' !in t.cid(c))
    && (forall c, d :: t.cid(c) == t.cid(d) ==> c == d)
  }

  function Key(t: Text, c: Cid): string {
    WantsKey(t.cid(c), t.peer)
  }

  lemma KeyOfCid(t: Text, c: Cid, d: Cid)
    requires Legible(t) && Key(t, c) == Key(t, d)
    ensures c == d
  {
    KeyInjective(t.cid(c), t.peer, t.cid(d), t.peer);
  }

  // ---- the table in place

  /** Request ids and channels are numbered alike: the n-th request has id n and channel n. */
  class Client {
    const text: Text
    var wants: map<string, map<nat, nat>>
    var chans: seq<seq<Block>>
    var asked: seq<Cid>
    var read: set<nat>
    var left: set<nat>

    /** The entry of request `n` stands. */
    predicate Pending(n: nat)
      reads this`wants, this`asked
    {
      n < |asked| && Key(text, asked[n]) in wants && n in wants[Key(text, asked[n])]
    }

    function View(): Table
      reads this
    {
      Table(asked, chans, (set n: nat | n < |asked| && Pending(n)), read, left)
    }

    /** Entries are filed under the right key. */
    ghost predicate Filed()
      reads this
    {
      && Legible(text)
      && |asked| == |chans|
      && (forall n | n in read :: n < |asked|)
      && (forall k, n {:trigger n in wants[k]} | k in wants && n in wants[k] ::
            n < |asked| && wants[k][n] == n && k == Key(text, asked[n]))
    }

    constructor (text: Text)
      requires Legible(text)
      ensures Filed() && this.text == text && View() == Table([], [], {}, {}, {})
    {
      this.text, wants, chans, asked, read, left := text, map[], [], [], {}, {};
    }

    /** A single-CID request, as GetBlock makes it. */
    method MakeRequest(c: Cid)
      requires Filed()
      modifies this
      ensures Filed() && View() == Ask(old(View()), c)
    {
      var ch := |chans|;
      var key := Key(text, c);
      var m: map<nat, nat> := map[];
      if key in wants {
        m := wants[key];
      }
      m := m[ch := ch];
      wants := wants[key := m];
      chans := chans + [[]];
      asked := asked + [c];
      forall n: nat ensures Pending(n) <==> old(Pending(n)) || n == ch {
        assert n < ch ==> asked[n] == old(asked)[n];
      }
      assert View().pend == old(View()).pend + {ch};
    }

    /** The select of GetBlock: the requester takes the block in its channel, or leaves because its
        context is done. It does so once. */
    method Receive(n: nat, done: bool)
      requires Filed()
      modifies this`read, this`left
      ensures Filed()
      ensures View() == if n >= |old(chans)| || Deserted(old(View()), n) then old(View())
                        else if done then After(old(View()), Quits(n))
                        else if Occupied(old(View()), n) then After(old(View()), Takes(n)) else old(View())
    {
      if n < |chans| && n !in read && n !in left {
        if done {
          left := left + {n};
        } else if chans[n] != [] {
          read := read + {n};
        }
      }
    }

    /** The entries under a key are the pending requests for its CID. */
    lemma FiledUnder(c: Cid)
      requires Filed() && Key(text, c) in wants
      ensures forall n: nat :: n in wants[Key(text, c)] <==> n in View().pend && asked[n] == c
      ensures forall n | n in wants[Key(text, c)] :: n < |chans| && wants[Key(text, c)][n] == n
    {
      forall n: nat ensures n in wants[Key(text, c)] <==> n in View().pend && asked[n] == c {
        if n in wants[Key(text, c)] { KeyOfCid(text, c, asked[n]); }
      }
    }

    /** One block of a message: it is sent on every channel filed under its key, unless one of them
        is full. */
    method Deliver(blk: Block) returns (blocked: bool, last: Option<nat>)
      requires Filed()
      modifies this`chans
      ensures Filed() && blocked == Full(old(View()), blk)
      ensures !blocked ==> View() == Post(old(View()), blk)
      ensures Tidy(old(View())) ==> Tidy(View())
      ensures Only(old(View()), View(), [blk])
      ensures !blocked && last.Some? ==> last.value in View().pend && asked[last.value] == blk.cid
      ensures !blocked && last.None? ==> !Awaits(View(), blk.cid)
    {
      var k := Key(text, blk.cid);
      ghost var t := View();
      if k !in wants {
        assert chans == Post(t, blk).chans;
        return false, None;
      }
      FiledUnder(blk.cid);
      ghost var entries := wants[k];
      chans, blocked, last := FanOut(chans, wants[k], read, blk);
      Fanned(t, View(), entries, blk, blocked);
    }

    /** The sends of a message, and the entries to delete for them. */
    method SendAll(blocks: seq<Block>) returns (blocked: bool, toDelete: map<string, nat>)
      requires Filed()
      modifies this`chans
      ensures Filed() && blocked == Jams(old(View()), blocks)
      ensures !blocked ==> View() == PostAll(old(View()), blocks) && Marked(text, View(), blocks, toDelete)
      ensures Tidy(old(View())) ==> Tidy(View())
      ensures Only(old(View()), View(), blocks)
    {
      blocked, toDelete := false, map[];
      ghost var t := View();
      for i := 0 to |blocks|
        invariant Filed() && SentSoFar(text, t, View(), blocks, i, toDelete)
        invariant Clear(t, blocks, i)
        invariant Tidy(t) ==> Tidy(View())
        invariant Only(t, View(), blocks)
      {
        ghost var t1 := View();
        blocked, toDelete := SendOne(t, blocks, i, toDelete);
        OnlyOn(t, t1, View(), blocks);
        if blocked {
          return;
        }
      }
      assert blocks[..|blocks|] == blocks;
    }

    /** One turn of that loop. */
    method SendOne(ghost t: Table, blocks: seq<Block>, i: nat, toDelete: map<string, nat>)
      returns (blocked: bool, toDelete': map<string, nat>)
      requires Filed() && i < |blocks| && SentSoFar(text, t, View(), blocks, i, toDelete) && Clear(t, blocks, i)
      modifies this`chans
      ensures Filed() && (blocked ==> Jams(t, blocks))
      ensures !blocked ==> SentSoFar(text, t, View(), blocks, i + 1, toDelete') && Clear(t, blocks, i + 1)
      ensures Tidy(old(View())) ==> Tidy(View())
      ensures Only(old(View()), View(), blocks)
    {
      toDelete' := toDelete;
      ghost var t1 := View();
      var last;
      blocked, last := Deliver(blocks[i]);
      OnlyAmong(t1, View(), blocks, i);
      ClearMore(t, blocks, i);
      if !blocked {
        SentMore(text, t, t1, blocks, i, toDelete, last);
        if last.Some? {
          toDelete' := toDelete[Key(text, blocks[i].cid) := last.value];
        }
      }
    }

    /** The deletions after the sends. */
    method Remove(toDelete: map<string, nat>)
      requires Filed() && (forall k | k in toDelete :: k in wants)
      modifies this`wants
      ensures Filed()
      ensures forall n: nat :: Pending(n) <==> old(Pending(n)) && !Named(text, asked, toDelete, n)
    {
      var ks := toDelete.Keys;
      while ks != {}
        invariant ks <= toDelete.Keys && Filed() && wants.Keys == old(wants).Keys
        invariant forall n: nat :: Pending(n) <==>
                    old(Pending(n)) && !(Named(text, asked, toDelete, n) && Key(text, asked[n]) !in ks)
        decreases ks
      {
        var k :| k in ks;
        wants := wants[k := wants[k] - {toDelete[k]}];
        ks := ks - {k};
      }
    }

    /** A reply message, for any table. The handler blocks, with the lock on the table, exactly when
        a send finds its channel full; otherwise the message is sent as specified and one entry per
        CID mentioned is deleted. */
    method HandleStream(blocks: seq<Block>) returns (blocked: bool, ghost gone: set<nat>)
      requires Filed()
      modifies this`chans, this`wants
      ensures Filed() && blocked == Jams(old(View()), blocks)
      ensures blocked ==> wants == old(wants)
      ensures !blocked ==> MayDelete(old(View()), blocks, gone) && View() == Settle(old(View()), blocks, gone)
      ensures Tidy(old(View())) ==> Tidy(View())
      ensures Only(old(View()), View(), blocks)
    {
      ghost var t := View();
      gone := {};
      var toDelete;
      blocked, toDelete := SendAll(blocks);
      if blocked {
        return;
      }
      ghost var t1 := View();
      gone := MarkedMayDelete(text, t1, blocks, toDelete);
      Remove(toDelete);
      assert View().pend == t1.pend - gone;
      if Tidy(t1) { TidySame(t1, View()); }
    }
  }

  lemma TidySame(t: Table, t': Table)
    requires Sensible(t) && Sensible(t') && Tidy(t) && t' == t.(pend := t'.pend)
    ensures Tidy(t')
  {
    forall n: nat | n < |t'.chans| ensures TidyAt(t', n) { assert TidyAt(t, n); }
  }

  /** Request `n` is the one to delete under its key. */
  predicate Named(t: Text, asked: seq<Cid>, del: map<string, nat>, n: nat)
    requires n < |asked|
  {
    Key(t, asked[n]) in del && del[Key(t, asked[n])] == n
  }

  /** The sends of one block on the channels of `entries`, which stop at a full one. */
  method FanOut(chans: seq<seq<Block>>, entries: map<nat, nat>, read: set<nat>, blk: Block)
    returns (r: seq<seq<Block>>, blocked: bool, last: Option<nat>)
    requires forall n | n in entries :: n < |chans| && entries[n] == n
    ensures |r| == |chans|
    ensures blocked <==> exists n :: n in entries && |chans[n]| > if n in read then 1 else 0
    ensures forall n | 0 <= n < |chans| ::
              || r[n] == chans[n]
              || (n in entries && |chans[n]| <= (if n in read then 1 else 0) && r[n] == chans[n] + [blk])
    ensures !blocked ==> forall n | n in entries :: r[n] == chans[n] + [blk]
    ensures !blocked ==> if last.Some? then last.value in entries else entries == map[]
  {
    r, blocked, last := chans, false, None;
    var todo := entries.Keys;
    while todo != {}
      invariant todo <= entries.Keys && |r| == |chans|
      invariant forall n | n in entries && n !in todo ::
                  |chans[n]| <= (if n in read then 1 else 0) && r[n] == chans[n] + [blk]
      invariant forall n | 0 <= n < |chans| && (n !in entries || n in todo) :: r[n] == chans[n]
      invariant if last.Some? then last.value in entries else todo == entries.Keys
      decreases todo
    {
      var id :| id in todo;
      var ch := entries[id];
      if |r[ch]| > if ch in read then 1 else 0 {
        return r, true, last;
      }
      r := r[ch := r[ch] + [blk]];
      last := Some(id);
      todo := todo - {id};
    }
  }

  /** What it does to the table when the entries are the pending requests for the block. */
  lemma Fanned(t: Table, t': Table, entries: map<nat, nat>, blk: Block, blocked: bool)
    requires Sensible(t) && forall n: nat :: n in entries <==> n in t.pend && t.asked[n] == blk.cid
    requires t' == t.(chans := t'.chans) && |t'.chans| == |t.chans|
    requires blocked <==> exists n :: n in entries && |t.chans[n]| > if n in t.read then 1 else 0
    requires forall n | 0 <= n < |t.chans| ::
               || t'.chans[n] == t.chans[n]
               || (n in entries && |t.chans[n]| <= (if n in t.read then 1 else 0) && t'.chans[n] == t.chans[n] + [blk])
    requires !blocked ==> forall n | n in entries :: t'.chans[n] == t.chans[n] + [blk]
    ensures blocked == Full(t, blk) && (!blocked ==> t' == Post(t, blk)) && (Tidy(t) ==> Tidy(t'))
    ensures Only(t, t', [blk])
  {
    if blocked {
      var n :| n in entries && |t.chans[n]| > if n in t.read then 1 else 0;
      assert Occupied(t, n);
    }
    if Full(t, blk) {
      var n :| n in t.pend && t.asked[n] == blk.cid && Occupied(t, n);
      assert n in entries;
    }
    if !blocked { FannedAll(t, t', entries, blk); }
    if Tidy(t) {
      forall n: nat | n < |t'.chans| ensures TidyAt(t', n) { assert TidyAt(t, n); }
    }
  }

  lemma FannedAll(t: Table, t': Table, entries: map<nat, nat>, blk: Block)
    requires Sensible(t) && forall n: nat :: n in entries <==> n in t.pend && t.asked[n] == blk.cid
    requires t' == t.(chans := t'.chans) && |t'.chans| == |t.chans|
    requires forall n | 0 <= n < |t.chans| :: t'.chans[n] == if n in entries then t.chans[n] + [blk] else t.chans[n]
    ensures t' == Post(t, blk)
  {
    assert forall n | 0 <= n < |t.chans| :: t'.chans[n] == Post(t, blk).chans[n];
  }

  /** The deletions name, under its key, one pending request for each CID mentioned. */
  predicate Marked(text: Text, t: Table, bs: seq<Block>, del: map<string, nat>)
    requires Sensible(t)
  {
    && (forall k | k in del :: del[k] in t.pend && k == Key(text, t.asked[del[k]]) && Mentions(bs, t.asked[del[k]]))
    && (forall n | n in t.pend && Mentions(bs, t.asked[n]) :: Key(text, t.asked[n]) in del)
  }

  /** The first `i` blocks of a message have been sent. */
  predicate SentSoFar(text: Text, t: Table, t1: Table, blocks: seq<Block>, i: nat, del: map<string, nat>)
    requires i <= |blocks|
  {
    Sensible(t) && t1 == PostAll(t, blocks[..i]) && Marked(text, t1, blocks[..i], del)
  }

  lemma SentMore(text: Text, t: Table, t1: Table, blocks: seq<Block>, i: nat, del: map<string, nat>, last: Option<nat>)
    requires Legible(text) && i < |blocks| && SentSoFar(text, t, t1, blocks, i, del)
    requires last.Some? ==> last.value in t1.pend && t1.asked[last.value] == blocks[i].cid
    requires last.None? ==> !Awaits(t1, blocks[i].cid)
    ensures var del' := if last.Some? then del[Key(text, blocks[i].cid) := last.value] else del;
            SentSoFar(text, t, Post(t1, blocks[i]), blocks, i + 1, del')
  {
    assert blocks[..i + 1][..i] == blocks[..i];
    MarkedMore(text, t1, blocks, i, del, last);
  }

  lemma MarkedMore(text: Text, t: Table, blocks: seq<Block>, i: nat, del: map<string, nat>, last: Option<nat>)
    requires Legible(text) && Sensible(t) && i < |blocks| && Marked(text, t, blocks[..i], del)
    requires last.Some? ==> last.value in t.pend && t.asked[last.value] == blocks[i].cid
    requires last.None? ==> !Awaits(t, blocks[i].cid)
    ensures var del' := if last.Some? then del[Key(text, blocks[i].cid) := last.value] else del;
            Marked(text, Post(t, blocks[i]), blocks[..i + 1], del')
  {
    MentionsMore(blocks, i);
  }

  lemma MentionsMore(blocks: seq<Block>, i: nat)
    requires i < |blocks|
    ensures forall c :: Mentions(blocks[..i + 1], c) <==> Mentions(blocks[..i], c) || c == blocks[i].cid
  {
    forall c ensures Mentions(blocks[..i + 1], c) <==> Mentions(blocks[..i], c) || c == blocks[i].cid {
      var less, more := blocks[..i], blocks[..i + 1];
      if Mentions(less, c) {
        var j :| 0 <= j < |less| && less[j].cid == c;
        assert more[j].cid == c;
      }
      if c == blocks[i].cid { assert more[i].cid == c; }
      if Mentions(more, c) {
        var j :| 0 <= j < |more| && more[j].cid == c;
        assert j < i ==> less[j].cid == c;
      }
    }
  }

  /** Such deletions are what the handler may delete. */
  lemma MarkedMayDelete(text: Text, t: Table, blocks: seq<Block>, del: map<string, nat>) returns (gone: set<nat>)
    requires Legible(text) && Sensible(t) && Marked(text, t, blocks, del)
    ensures MayDelete(t, blocks, gone)
    ensures forall n: nat | n in t.pend :: n in gone <==> Named(text, t.asked, del, n)
  {
    gone := set k | k in del :: del[k];
    forall n | n in t.pend && Mentions(blocks, t.asked[n]) ensures exists m :: m in gone && t.asked[m] == t.asked[n] {
      var k := Key(text, t.asked[n]);
      KeyOfCid(text, t.asked[del[k]], t.asked[n]);
      assert del[k] in gone;
    }
  }

  // ---- whole runs

  /** Somebody asks, a message comes, the n-th requester reads its block, or leaves without one. */
  datatype Event = Request(c: Cid) | Reply(blocks: seq<Block>) | Read(n: nat) | Leave(n: nat)

  /** The CIDs asked for and not answered since. */
  ghost function Unanswered(events: seq<Event>): iset<Cid> {
    if events == [] then iset{}
    else
      var before := Unanswered(events[..|events| - 1]);
      match events[|events| - 1]
      case Request(c) => before + iset{c}
      case Reply(blocks) => iset c | c in before && !Mentions(blocks, c)
      case _ => before
  }

  /** Nobody asks for a CID that is still unanswered, and no message repeats a block. */
  ghost predicate Disciplined(events: seq<Event>) {
    events != [] ==>
      && Disciplined(events[..|events| - 1])
      && match events[|events| - 1]
         case Request(c) => c !in Unanswered(events[..|events| - 1])
         case Reply(blocks) => DistinctCids(blocks)
         case _ => true
  }

  /** The requests of a run, in order. */
  function Asked(events: seq<Event>): seq<Cid> {
    if events == [] then []
    else Asked(events[..|events| - 1]) + match events[|events| - 1] case Request(c) => [c] case _ => []
  }

  /** The pending entries are those of the unanswered CIDs. */
  ghost predicate Follows(t: Table, events: seq<Event>) {
    && Sensible(t) && Unsent(t) && Single(t) && Served(t)
    && forall c {:trigger Awaits(t, c)} :: Awaits(t, c) <==> c in Unanswered(events)
  }

  lemma AskFollows(t: Table, events: seq<Event>, c: Cid)
    requires Follows(t, events) && c !in Unanswered(events)
    ensures Follows(Ask(t, c), events + [Request(c)])
  {
    var t', events' := Ask(t, c), events + [Request(c)];
    assert events'[..|events|] == events;
    assert !Awaits(t, c);
    forall d ensures Awaits(t', d) <==> d in Unanswered(events') {
      assert Awaits(t, d) <==> d in Unanswered(events);
      if n :| n in t.pend && t.asked[n] == d { assert n in t'.pend && t'.asked[n] == d; }
      if d == c { assert |t.asked| in t'.pend; }
    }
  }

  lemma AskTidy(t: Table, c: Cid)
    requires Sensible(t) && Tidy(t)
    ensures Tidy(Ask(t, c))
  {
    var t' := Ask(t, c);
    forall n: nat | n < |t'.chans| ensures TidyAt(t', n) {
      if n < |t.chans| { assert TidyAt(t, n); }
    }
  }

  lemma SettleFollows(t: Table, events: seq<Event>, blocks: seq<Block>, gone: set<nat>)
    requires Follows(t, events) && DistinctCids(blocks) && MayDelete(t, blocks, gone)
    ensures Follows(Settle(t, blocks, gone), events + [Reply(blocks)])
  {
    var t', events' := Settle(t, blocks, gone), events + [Reply(blocks)];
    assert events'[..|events|] == events;
    SettleKeeps(t, blocks, gone);
    forall d ensures Awaits(t', d) <==> d in Unanswered(events') {
      assert Awaits(t, d) <==> d in Unanswered(events);
      if n :| n in t.pend && t.asked[n] == d && !Mentions(blocks, d) { assert n in t'.pend; }
    }
  }

  /** A block that some message of the run had. */
  ghost predicate Came(events: seq<Event>, b: Block) {
    exists i :: 0 <= i < |events| && events[i].Reply? && b in events[i].blocks
  }

  ghost predicate AllCame(chans: seq<seq<Block>>, events: seq<Event>) {
    forall n, b | 0 <= n < |chans| && b in chans[n] :: Came(events, b)
  }

  lemma CameMore(chans: seq<seq<Block>>, chans': seq<seq<Block>>, events: seq<Event>, e: Event)
    requires AllCame(chans, events)
    requires forall n {:trigger chans'[n]} | 0 <= n < |chans'| ::
               forall b | b in chans'[n] :: (n < |chans| && b in chans[n]) || (e.Reply? && b in e.blocks)
    ensures AllCame(chans', events + [e])
  {
    var events' := events + [e];
    forall n, b | 0 <= n < |chans'| && b in chans'[n] ensures Came(events', b) {
      if n < |chans| && b in chans[n] {
        assert Came(events, b);
        var i :| 0 <= i < |events| && events[i].Reply? && b in events[i].blocks;
        assert events'[i].Reply? && b in events'[i].blocks;
      } else {
        assert events'[|events|].Reply? && b in events'[|events|].blocks;
      }
    }
  }

  /** The client takes one event. */
  method Take(client: Client, ghost before: seq<Event>, e: Event) returns (blocked: bool)
    requires client.Filed() && Tidy(client.View()) && AllCame(client.chans, before)
    modifies client
    ensures client.Filed() && Tidy(client.View()) && AllCame(client.chans, before + [e])
    ensures client.asked == old(client.asked) + match e case Request(c) => [c] case _ => []
    ensures Disciplined(before + [e]) && Follows(old(client.View()), before) ==>
              !blocked && Follows(client.View(), before + [e])
  {
    assert (before + [e])[..|before|] == before;
    match e
    case Request(c) =>
      client.MakeRequest(c);
      blocked := false;
      AskTidy(old(client.View()), c);
      CameMore(old(client.chans), client.chans, before, e);
      if Disciplined(before + [e]) && Follows(old(client.View()), before) { AskFollows(old(client.View()), before, c); }
    case Reply(blocks) =>
      ghost var gone;
      blocked, gone := client.HandleStream(blocks);
      CameMore(old(client.chans), client.chans, before, e);
      if Disciplined(before + [e]) && Follows(old(client.View()), before) {
        JamsExactly(old(client.View()), blocks);
        SettleFollows(old(client.View()), before, blocks, gone);
      }
    case Read(n) =>
      client.Receive(n, false);
      blocked := false;
      CameMore(old(client.chans), client.chans, before, e);
      ReceiveFollows(old(client.View()), client.View(), before, e);
    case Leave(n) =>
      client.Receive(n, true);
      blocked := false;
      CameMore(old(client.chans), client.chans, before, e);
      ReceiveFollows(old(client.View()), client.View(), before, e);
  }

  /** What a requester does changes nothing about the entries. */
  lemma ReceiveFollows(t: Table, t': Table, events: seq<Event>, e: Event)
    requires Sensible(t) && t' == t.(read := t'.read, left := t'.left) && (e.Read? || e.Leave?)
    requires t.read <= t'.read && forall n: nat | n in t'.read && n !in t.read :: n < |t.chans| && t.chans[n] != []
    ensures Tidy(t) ==> Tidy(t')
    ensures Follows(t, events) ==> Follows(t', events + [e])
  {
    assert (events + [e])[..|events|] == events;
    if Tidy(t) {
      forall n: nat | n < |t'.chans| ensures TidyAt(t', n) { assert TidyAt(t, n); }
    }
    if Follows(t, events) {
      forall c ensures Awaits(t', c) <==> c in Unanswered(events + [e]) { assert Awaits(t, c) <==> Awaits(t', c); }
    }
  }

  /** Every run of requests, replies and readers, which ends early if the handler blocks. A channel
      only ever gets blocks of the CID asked for that came in a message, and two at most. A
      disciplined run never blocks: the requests whose CID is unanswered have had nothing, every
      other exactly one block. */
  method Serve(text: Text, events: seq<Event>) returns (chans: seq<seq<Block>>, blocked: bool)
    requires Legible(text)
    ensures |chans| <= |Asked(events)| && (!blocked ==> |chans| == |Asked(events)|)
    ensures forall n | 0 <= n < |chans| :: |chans[n]| <= 2 && forall b | b in chans[n] :: b.cid == Asked(events)[n]
    ensures AllCame(chans, events)
    ensures Disciplined(events) ==>
              && !blocked
              && (forall n | 0 <= n < |chans| && chans[n] == [] :: Asked(events)[n] in Unanswered(events))
              && (forall n | 0 <= n < |chans| :: |chans[n]| <= 1)
              && (forall c | c in Unanswered(events) ::
                    exists n :: 0 <= n < |chans| && Asked(events)[n] == c && chans[n] == [])
  {
    var client := new Client(text);
    for i := 0 to |events|
      invariant client.Filed() && Tidy(client.View()) && client.asked == Asked(events[..i])
      invariant AllCame(client.chans, events[..i])
      invariant Disciplined(events) ==> Follows(client.View(), events[..i])
    {
      assert events[..i + 1] == events[..i] + [events[i]] && events[..i + 1][..i] == events[..i];
      if Disciplined(events) { DisciplinedPrefix(events, i + 1); }
      blocked := Take(client, events[..i], events[i]);
      AskedPrefix(events, i + 1);
      if blocked {
        TidyRun(client.View(), Asked(events));
        CamePrefix(client.chans, events, i + 1);
        return client.chans, true;
      }
    }
    assert events[..|events|] == events;
    chans, blocked := client.chans, false;
    TidyRun(client.View(), Asked(events));
    if Disciplined(events) { FollowsServed(client.View(), events); }
  }

  lemma CamePrefix(chans: seq<seq<Block>>, events: seq<Event>, i: nat)
    requires i <= |events| && AllCame(chans, events[..i])
    ensures AllCame(chans, events)
  {
    forall n, b | 0 <= n < |chans| && b in chans[n] ensures Came(events, b) {
      assert Came(events[..i], b);
      var j :| 0 <= j < |events[..i]| && events[..i][j].Reply? && b in events[..i][j].blocks;
      assert events[j] == events[..i][j];
    }
  }

  lemma TidyRun(t: Table, asked: seq<Cid>)
    requires Sensible(t) && Tidy(t) && t.asked <= asked
    ensures forall n | 0 <= n < |t.chans| :: |t.chans[n]| <= 2 && forall b | b in t.chans[n] :: b.cid == asked[n]
  {
    forall n: nat | n < |t.chans| ensures |t.chans[n]| <= 2 && forall b | b in t.chans[n] :: b.cid == asked[n] {
      assert TidyAt(t, n);
    }
  }

  lemma FollowsServed(t: Table, events: seq<Event>)
    requires Follows(t, events)
    ensures forall n | 0 <= n < |t.chans| && t.chans[n] == [] :: t.asked[n] in Unanswered(events)
    ensures forall n | 0 <= n < |t.chans| :: |t.chans[n]| <= 1
    ensures forall c | c in Unanswered(events) :: exists n :: 0 <= n < |t.chans| && t.asked[n] == c && t.chans[n] == []
  {
    forall n | 0 <= n < |t.chans| && t.chans[n] == [] ensures t.asked[n] in Unanswered(events) {
      assert Awaits(t, t.asked[n]);
    }
    forall c | c in Unanswered(events) ensures exists n :: 0 <= n < |t.chans| && t.asked[n] == c && t.chans[n] == [] {
      assert Awaits(t, c);
    }
  }

  lemma {:induction false} AskedPrefix(events: seq<Event>, i: nat)
    requires i <= |events|
    ensures Asked(events[..i]) <= Asked(events)
    decreases |events|
  {
    if i < |events| {
      AskedPrefix(events[..|events| - 1], i);
      assert events[..|events| - 1][..i] == events[..i];
    } else {
      assert events[..i] == events;
    }
  }

  lemma {:induction false} DisciplinedPrefix(events: seq<Event>, i: nat)
    requires Disciplined(events) && i <= |events|
    ensures Disciplined(events[..i])
    decreases |events|
  {
    if i < |events| {
      DisciplinedPrefix(events[..|events| - 1], i);
      assert events[..|events| - 1][..i] == events[..i];
    } else {
      assert events[..i] == events;
    }
  }
}
