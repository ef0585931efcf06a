/**
 The chain object and the three methods that move its head: WriteHeadBlock, Reorg and AdoptHead
 (core/blockchain.go).
 */
module BlockChain {
  import opened Options
  import opened Chain
  import opened HeadChain

  class BlockChain {
    const config: Config
    /** What the voting contract of a state holds; a fact about the root, readable or not. */
    const content: Candidates

    var headers: Headers
    var bodies: Bodies
    var canon: Index
    var head: Header
    var lookup: Lookup
    var snaps: map<Hash, Snapshot>
    /** The states that can be opened. */
    var readable: set<Root>
    /** The gap blocks whose snapshot presence check the database refuses. */
    var unprobed: set<Hash>
    /** The latest block committed by the v2 engine, if it runs. */
    var committed: Option<Committed>

    /** The index up to a block is its ancestor path, complete with snapshots. */
    ghost predicate ValidTo(tip: Header)
      reads this
    {
      CompletePath(config, content, headers, canon, snaps, tip)
    }

    ghost predicate Valid()
      reads this
    {
      ValidTo(head)
    }

    constructor (config: Config, content: Candidates, genesis: Header, txs: seq<Tx>)
      requires genesis.number == 0 && !NeedsSnapshot(config, 0)
      ensures Valid() && head == genesis && headers == map[genesis.hash := genesis]
      ensures Exact(headers, bodies, canon, head, lookup)
    {
      this.config, this.content := config, content;
      headers, bodies := map[genesis.hash := genesis], map[genesis.hash := txs];
      canon, head := map[0 := genesis.hash], genesis;
      lookup, snaps := map tx | tx in txs :: 0, map[];
      readable, unprobed, committed := {genesis.root}, {}, None;
    }

    /** All markers of a new head and, for a gap block, its snapshot are written in one batch. */
    method WriteHeadBlock(block: Header, txs: seq<Tx>, snap: Option<Snapshot>)
      modifies this`canon, this`lookup, this`snaps, this`head
      ensures canon == old(canon)[block.number := block.hash]
      ensures lookup == WriteLookups(old(lookup), txs, block.number)
      ensures snaps == Store(old(snaps), snap)
      ensures head == block
    {
      canon := canon[block.number := block.hash];
      lookup := lookup + map tx | tx in txs :: block.number;
      if snap.Some? {
        snaps := snaps[snap.value.hash := snap.value];
      }
      head := block;
    }

    /** The part of writeBlockWithState that stores a block: its header and its body. */
    method StoreBlock(block: Header, txs: seq<Tx>)
      requires Valid() && Storable(headers, bodies, block, txs) && Rooted(headers) && NoRepeats(headers, bodies)
      modifies this`headers, this`bodies
      ensures headers == old(headers)[block.hash := block] && bodies == old(bodies)[block.hash := txs]
      ensures Valid() && Rooted(headers) && NoRepeats(headers, bodies)
      ensures LookupComplete(old(bodies), canon, head, lookup) ==> LookupComplete(bodies, canon, head, lookup)
      ensures LookupSound(old(bodies), canon, head, lookup) ==> LookupSound(bodies, canon, head, lookup)
    {
      StoreKeepsPath(config, content, headers, canon, snaps, head, block);
      StoreNoRepeats(headers, bodies, block, txs);
      StoreKeepsLookup(headers, bodies, canon, head, lookup, block, txs);
      hide CompletePath, NoRepeats, LookupComplete, LookupSound, Rooted, Storable;
      headers := headers[block.hash := block];
      bodies := bodies[block.hash := txs];
    }

    /** The chain that is dropped, the chain that is added, and the block they fork from. */
    method CollectChains(oldTop: Header, newTop: Header)
      returns (err: Option<Error>, oldChain: seq<Header>, newChain: seq<Header>, common: Header)
      requires WellStored(headers)
      requires oldTop.hash in headers && headers[oldTop.hash] == oldTop
      requires newTop.hash in headers && headers[newTop.hash] == newTop
      ensures err.None? ==> Segment(headers, oldTop, oldChain, common) && Segment(headers, newTop, newChain, common)
      ensures err.None? ==> Forked(oldChain, newChain)
      ensures err.None? <==> exists n: nat :: MeetAt(headers, oldTop, newTop, n)
      ensures err.Some? ==> err.value == InvalidOldChain || err.value == InvalidNewChain
    {
      hide MeetAt, Segment;
      oldChain, newChain, common := [], [], oldTop;
      SegmentStart(headers, oldTop);
      SegmentStart(headers, newTop);
      var oldHead, newHead := Some(oldTop), Some(newTop);
      if oldTop.number > newTop.number {
        while oldHead.Some? && oldHead.value.number != newTop.number
          invariant oldHead.Some? ==>
            Segment(headers, oldTop, oldChain, oldHead.value) && oldHead.value.number >= newTop.number
          invariant oldHead.None? ==> forall k: nat :: !MeetAt(headers, oldTop, newTop, k)
          decreases if oldHead.Some? then oldHead.value.number + 1 else 0
        {
          var next := GetHeader(headers, oldHead.value.parent, oldHead.value.number - 1);
          if next.Some? {
            SegmentExtend(headers, oldTop, oldChain, oldHead.value, next.value);
          } else {
            forall k: nat ensures !MeetAt(headers, oldTop, newTop, k) {
              BrokenAbove(headers, oldTop, oldChain, oldHead.value, newTop, k);
            }
          }
          oldChain := oldChain + [oldHead.value];
          oldHead := next;
        }
      } else {
        while newHead.Some? && newHead.value.number != oldTop.number
          invariant newHead.Some? ==>
            Segment(headers, newTop, newChain, newHead.value) && newHead.value.number >= oldTop.number
          invariant newHead.None? ==> forall k: nat :: !MeetAt(headers, oldTop, newTop, k)
          decreases if newHead.Some? then newHead.value.number + 1 else 0
        {
          var next := GetHeader(headers, newHead.value.parent, newHead.value.number - 1);
          if next.Some? {
            SegmentExtend(headers, newTop, newChain, newHead.value, next.value);
          } else {
            forall k: nat ensures !MeetAt(headers, oldTop, newTop, k) {
              BrokenAbove(headers, newTop, newChain, newHead.value, oldTop, k);
            }
          }
          newChain := newChain + [newHead.value];
          newHead := next;
        }
      }
      if oldHead.None? {
        return Some(InvalidOldChain), oldChain, newChain, common;
      }
      if newHead.None? {
        return Some(InvalidNewChain), oldChain, newChain, common;
      }
      var o, n := oldHead.value, newHead.value;
      while o.hash != n.hash
        invariant Segment(headers, oldTop, oldChain, o) && Segment(headers, newTop, newChain, n)
        invariant o.number == n.number
        invariant Forked(oldChain, newChain)
        decreases o.number
      {
        var o', n' := GetHeader(headers, o.parent, o.number - 1), GetHeader(headers, n.parent, n.number - 1);
        if o'.Some? {
          SegmentExtend(headers, oldTop, oldChain, o, o'.value);
        }
        if n'.Some? {
          SegmentExtend(headers, newTop, newChain, n, n'.value);
        }
        if o'.None? || n'.None? {
          forall k: nat ensures !MeetAt(headers, oldTop, newTop, k) {
            BrokenFork(headers, oldTop, oldChain, o, newTop, newChain, n, k);
          }
        }
        oldChain, newChain := oldChain + [o], newChain + [n];
        if o'.None? {
          return Some(InvalidOldChain), oldChain, newChain, common;
        }
        if n'.None? {
          return Some(InvalidNewChain), oldChain, newChain, common;
        }
        o, n := o'.value, n'.value;
      }
      SegmentBottom(headers, oldTop, oldChain, o);
      SegmentBottom(headers, newTop, newChain, n);
      SegmentsMeet(headers, oldTop, oldChain, newTop, newChain, o);
      common := o;
      err := None;
    }

    /** A reorganisation must not drop the latest committed block. */
    method CheckCommitted(oldChain: seq<Header>, common: Header) returns (err: Option<Error>)
      ensures err.Some? <==> DropsCommitted(committed, oldChain, common)
    {
      if committed.Some? && common.number < committed.value.number {
        for i := 0 to |oldChain|
          invariant forall j | 0 <= j < i :: Committed(oldChain[j].number, oldChain[j].hash) != committed.value
        {
          if oldChain[i].number == committed.value.number && oldChain[i].hash == committed.value.hash {
            return Some(ForkingAttack);
          }
        }
      }
      return None;
    }

    /** Derives the snapshots that the new chain, except its head, still misses; nothing is written. */
    method DeriveSnapshots(newChain: seq<Header>) returns (err: Option<Error>, derived: map<Hash, Snapshot>)
      requires forall i | 0 <= i < |newChain| :: newChain[i].hash in headers && headers[newChain[i].hash] == newChain[i]
      ensures err.None? ==> Derived(config, content, headers, snaps, newChain, derived)
      ensures err.None? <==>
        forall i | 1 <= i < |newChain| :: !Underivable(config, content, snaps, readable, unprobed, newChain[i])
      ensures err.Some? ==> err.value == SnapshotProbe || err.value == SnapshotState
    {
      derived := map[];
      var i := |newChain| - 1;
      while i >= 1
        invariant forall h | h in derived :: h in headers && TrueSnapshot(content, headers[h], derived[h])
        invariant forall j | 1 <= j < |newChain| && i < j && NeedsSnapshot(config, newChain[j].number) ::
          newChain[j].hash in snaps || newChain[j].hash in derived
        invariant forall k | k in derived ::
          k in headers && !Underivable(config, content, snaps, readable, unprobed, headers[k])
        invariant forall j | 1 <= j < |newChain| && i < j ::
          !Underivable(config, content, snaps, readable, unprobed, newChain[j])
      {
        var h := newChain[i];
        if NeedsSnapshot(config, h.number) && h.hash !in derived {
          if h.hash in unprobed {
            return Some(SnapshotProbe), derived;
          }
          if h.hash !in snaps {
            var s := Derive(readable, content, h);
            if s.None? {
              return Some(SnapshotState), derived;
            }
            derived := derived[h.hash := s.value];
          }
        }
        i := i - 1;
      }
      err := None;
    }

    /** The transactions of a chain; a missing body is a corrupt database. */
    method CollectTransactions(chain: seq<Header>) returns (ok: bool, txs: set<Tx>)
      ensures ok <==> forall i | 0 <= i < |chain| :: chain[i].hash in bodies
      ensures ok ==> txs == Transactions(bodies, chain)
    {
      txs := {};
      for i := 0 to |chain|
        invariant forall j | 0 <= j < i :: chain[j].hash in bodies
        invariant txs == Transactions(bodies, chain[..i])
      {
        if chain[i].hash !in bodies {
          return false, txs;
        }
        txs := txs + set tx | tx in bodies[chain[i].hash];
        TransactionsStep(bodies, chain, i);
      }
      assert chain[..|chain|] == chain;
      ok := true;
    }

    /**
     Makes the new chain, except its head, canonical block by block. A missing body stops it on the block
     before, which then is the head.
     */
    method ApplyChain(newChain: seq<Header>, top: Header, common: Header, derived: map<Hash, Snapshot>)
      returns (err: Option<Error>, ghost reached: nat)
      requires Valid() && ValidTo(common)
      requires Segment(headers, top, newChain, common)
      requires Derived(config, content, headers, snaps, newChain, derived)
      modifies this`canon, this`lookup, this`snaps, this`head
      ensures err.Some? ==> err == Some(InvalidNewChain) && Valid()
      ensures reached <= |newChain| && (|newChain| > 0 ==> reached > 0)
      ensures err.Some? ==> reached >= 2 && newChain[reached - 1].hash !in bodies
      ensures err.None? ==> reached <= 1 && forall i | 1 <= i < |newChain| :: newChain[i].hash in bodies
      ensures head == if reached < |newChain| then newChain[reached] else old(head)
      ensures ValidTo(Tip(newChain, common, reached))
      ensures reached == |newChain| ==> snaps == old(snaps)
      ensures canon == Splice(old(canon), newChain, reached)
      ensures lookup == Promote(old(lookup), bodies, newChain, reached)
    {
      hide CompletePath, Segment, Derived;
      reached := |newChain|;
      var i := |newChain| - 1;
      while i >= 1
        invariant reached == i + 1 <= |newChain| && (|newChain| > 0 ==> i >= 0)
        invariant head == if reached < |newChain| then newChain[reached] else old(head)
        invariant forall j | reached <= j < |newChain| :: newChain[j].hash in bodies
        invariant reached == |newChain| ==> Valid() && snaps == old(snaps)
        invariant ValidTo(Tip(newChain, common, reached))
        invariant canon == Splice(old(canon), newChain, reached)
        invariant lookup == Promote(old(lookup), bodies, newChain, reached)
        invariant Derived(config, content, headers, snaps, newChain, derived)
      {
        var block := newChain[i];
        if block.hash !in bodies {
          return Some(InvalidNewChain), reached;
        }
        var snap := if block.hash in derived then Some(derived[block.hash]) else None;
        ExtendPath(config, content, headers, canon, snaps, newChain, top, common, derived, i);
        WriteHeadBlock(block, bodies[block.hash], snap);
        reached := i;
        i := i - 1;
      }
      err := None;
    }

    /** Removes the stale lookups and the run of index entries right above a number. */
    method DeleteIndexes(number: nat, stale: set<Tx>)
      modifies this`canon, this`lookup
      ensures lookup == old(lookup) - stale
      ensures Trimmed(old(canon), number, canon)
    {
      lookup := lookup - stale;
      var i := number + 1;
      var run: set<nat> := {};
      while i in canon
        invariant i > number && forall k: nat :: k in run <==> number < k < i
        invariant run <= canon.Keys
        decreases canon.Keys - run
      {
        run := run + {i};
        i := i + 1;
      }
      ghost var before := canon;
      canon := canon - run;
      assert TrimmedAt(before, number, canon, i);
    }

    /**
     Moves the index from the current head to just below the new one. On an error the head is complete and
     either nothing was written or the head is the last block promoted. On success the index ends below the
     new head, which the caller writes.
     */
    method Reorg(newTop: Header) returns (err: Option<Error>, ghost r: Reorganisation)
      requires Valid()
      requires newTop.hash in headers && headers[newTop.hash] == newTop
      modifies this`canon, this`lookup, this`snaps, this`head
      ensures err.Some? ==> Valid() && (r.Unstarted? ==> unchanged(this))
      ensures err.None? ==> r.Reorganisation?
      ensures r.Reorganisation? ==>
        && Segment(headers, old(head), r.oldChain, r.common) && Segment(headers, newTop, r.newChain, r.common)
        && Forked(r.oldChain, r.newChain) && !DropsCommitted(committed, r.oldChain, r.common)
        && r.reached <= |r.newChain|
      ensures r.Reorganisation? && err.Some? ==>
        && r.reached >= 2 && r.newChain[r.reached - 1].hash !in bodies
        && head == (if r.reached < |r.newChain| then r.newChain[r.reached] else old(head))
        && (r.reached == |r.newChain| ==> snaps == old(snaps))
        && canon == Splice(old(canon), r.newChain, r.reached)
        && lookup == Promote(old(lookup), bodies, r.newChain, r.reached)
      ensures err.None? ==>
        && r.reached == (if r.newChain == [] then 0 else 1)
        && ValidTo(Tip(r.newChain, r.common, r.reached))
        && Trimmed(Splice(old(canon), r.newChain, r.reached), Tip(r.newChain, r.common, r.reached).number, canon)
        && lookup == Promote(old(lookup), bodies, r.newChain, r.reached)
             - (Transactions(bodies, r.oldChain) - Transactions(bodies, r.newChain))
    {
      hide CompletePath, Segment, Derived, Forked, DropsCommitted, Transactions, Trimmed, Splice, Promote;
      r := Unstarted;
      var oldChain, newChain, common;
      CompleteStored(config, content, headers, canon, snaps, head);
      err, oldChain, newChain, common := CollectChains(head, newTop);
      if err.Some? {
        return;
      }
      err := CheckCommitted(oldChain, common);
      if err.Some? {
        return;
      }
      SegmentStored(headers, newTop, newChain, common);
      var derived;
      err, derived := DeriveSnapshots(newChain);
      if err.Some? {
        return;
      }
      var found, deleted := CollectTransactions(oldChain);
      if !found {
        err := Some(InvalidOldChain);
        return;
      }
      if |newChain| > 0 && newChain[0].hash !in bodies {
        err := Some(InvalidNewChain);
        return;
      }
      CompleteBelow(config, content, headers, canon, snaps, head, oldChain, common);
      ghost var reached;
      err, reached := ApplyChain(newChain, newTop, common, derived);
      r := Reorganisation(oldChain, newChain, common, reached);
      if err.Some? {
        return;
      }
      var _, reborn := CollectTransactions(newChain);
      ghost var tip := Tip(newChain, common, reached);
      var number := if |newChain| > 1 then newChain[1].number else common.number;
      ghost var before := canon;
      DeleteIndexes(number, deleted - reborn);
      TrimComplete(config, content, headers, before, canon, snaps, tip);
    }

    /**
     Writes a block as the canonical head, after a reorganisation when it does not extend the current one.
     Whatever it returns, the index is the ancestor path of the head with all snapshots, a committed block
     stays canonical, and every canonical transaction is looked up. On success the head is the block, and
     after a reorganisation no index entry is left above it. An error that moved the head is a reorganisation
     that stopped half-way; any other error changes nothing.
     */
    method AdoptHead(block: Header, snap: Option<Snapshot>) returns (err: Option<Error>)
      requires Valid()
      requires block.hash in headers && headers[block.hash] == block && block.hash in bodies
      requires block.parent == head.hash ==> block.number == head.number + 1
      requires snap.Some? ==> TrueSnapshot(content, block, snap.value)
      modifies this`canon, this`lookup, this`snaps, this`head
      ensures Valid()
      ensures err.None? ==> head == block
      ensures err.Some? && head == old(head) ==> unchanged(this)
      ensures err.Some? && (forall h | h in headers :: h in bodies) ==> unchanged(this)
      ensures Contiguous(old(canon)) ==> Contiguous(canon)
      ensures err.None? && block.parent != old(head).hash && Contiguous(old(canon)) ==> EndsAt(canon, head)
      ensures err.None? && EndsAt(old(canon), old(head)) ==> EndsAt(canon, head)
      ensures OnChain(committed, old(canon), old(head)) ==> OnChain(committed, canon, head)
      ensures NoRepeats(headers, bodies) && LookupComplete(bodies, old(canon), old(head), old(lookup)) ==>
        LookupComplete(bodies, canon, head, lookup)
      ensures (err.None? && NoRepeats(headers, bodies) && LookupSound(bodies, old(canon), old(head), old(lookup))) ==>
        LookupSound(bodies, canon, head, lookup)
    {
      hide CompletePath, Segment, Forked, DropsCommitted, Transactions, Trimmed, Splice, Promote, NoRepeats,
           LookupComplete, LookupSound, Contiguous, OnChain, WriteLookups, EndsAt;
      var owed := snap;
      if snap.None? && NeedsSnapshot(config, block.number) {
        owed := Derive(readable, content, block);
        if owed.None? {
          return Some(SnapshotState);
        }
      }
      ghost var c0, h0, l0 := canon, head, lookup;
      CompleteStored(config, content, headers, canon, snaps, head);
      EndsContiguous(headers, canon, head);
      if block.parent != head.hash {
        ghost var r;
        err, r := Reorg(block);
        if err.Some? {
          if r.Reorganisation? {
            StoppedHalfWay(headers, bodies, committed, c0, h0, l0, block, r);
            SegmentStored(headers, block, r.newChain, r.common);
          }
          return;
        }
        ghost var c1 := canon;
        WriteTop(config, content, headers, canon, snaps, r, block, owed);
        WriteHeadBlock(block, bodies[block.hash], owed);
        MovedHead(headers, bodies, committed, c0, h0, l0, block, r, c1, canon, lookup);
      } else {
        ExtendComplete(config, content, headers, canon, snaps, head, block, owed);
        WriteHeadBlock(block, bodies[block.hash], owed);
        ExtendedHead(headers, bodies, committed, c0, h0, l0, block);
      }
      err := None;
    }
  }

  // ----- storing blocks between adoptions

  /** Every stored block but a genesis block is stored on top of its parent. */
  ghost predicate Rooted(hs: Headers) {
    forall h | h in hs && hs[h].number > 0 :: GetHeader(hs, hs[h].parent, hs[h].number - 1).Some?
  }

  /** A new block on top of a stored one, with no transaction that its ancestors hold. */
  ghost predicate Storable(hs: Headers, bodies: Bodies, block: Header, txs: seq<Tx>) {
    && block.hash !in hs && block.number > 0 && GetHeader(hs, block.parent, block.number - 1).Some?
    && forall n: nat, tx | AncestorAt(hs, block.parent, n).Some? && tx in txs ::
      tx !in Body(bodies, AncestorAt(hs, block.parent, n).value)
  }

  lemma StoreKeepsPath(
      config: Config, content: Candidates, hs: Headers, canon: Index, snaps: map<Hash, Snapshot>, tip: Header,
      block: Header)
    requires CompletePath(config, content, hs, canon, snaps, tip) && block.hash !in hs
    ensures CompletePath(config, content, hs[block.hash := block], canon, snaps, tip)
  {
  }

  /** Old blocks keep their ancestors, because their paths never pass the new one. */
  lemma {:induction false} StoreKeepsAncestors(hs: Headers, block: Header, h: Hash, n: nat)
    requires Rooted(hs) && block.hash !in hs && h in hs
    ensures AncestorAt(hs[block.hash := block], h, n) == AncestorAt(hs, h, n)
    decreases hs[h].number
  {
    if hs[h].number > n {
      StoreKeepsAncestors(hs, block, hs[h].parent, n);
    }
  }

  lemma NewAncestors(hs: Headers, bodies: Bodies, block: Header, txs: seq<Tx>, n: nat)
    requires Rooted(hs) && Storable(hs, bodies, block, txs)
    ensures var more := hs[block.hash := block];
      AncestorAt(more, block.hash, n) ==
        if n > block.number then None else if n == block.number then Some(block.hash)
                                           else AncestorAt(hs, block.parent, n)
  {
    if n < block.number {
      StoreKeepsAncestors(hs, block, block.parent, n);
    }
  }

  lemma StoreNoRepeats(hs: Headers, bodies: Bodies, block: Header, txs: seq<Tx>)
    requires Rooted(hs) && NoRepeats(hs, bodies) && Storable(hs, bodies, block, txs)
    ensures Rooted(hs[block.hash := block]) && NoRepeats(hs[block.hash := block], bodies[block.hash := txs])
  {
    var more, held := hs[block.hash := block], bodies[block.hash := txs];
    forall h: Hash, m: nat, n: nat | m != n && AncestorAt(more, h, m).Some? && AncestorAt(more, h, n).Some?
      ensures DisjointBodies(held, AncestorAt(more, h, m).value, AncestorAt(more, h, n).value)
    {
      PathDisjoint(hs, bodies, block, txs, h, m, n);
    }
  }

  lemma PathDisjoint(hs: Headers, bodies: Bodies, block: Header, txs: seq<Tx>, h: Hash, m: nat, n: nat)
    requires Rooted(hs) && NoRepeats(hs, bodies) && Storable(hs, bodies, block, txs) && m != n
    requires var more := hs[block.hash := block]; AncestorAt(more, h, m).Some? && AncestorAt(more, h, n).Some?
    ensures var more := hs[block.hash := block];
      DisjointBodies(bodies[block.hash := txs], AncestorAt(more, h, m).value, AncestorAt(more, h, n).value)
  {
    var more, held := hs[block.hash := block], bodies[block.hash := txs];
    if h == block.hash {
      NewAncestors(hs, bodies, block, txs, m);
      NewAncestors(hs, bodies, block, txs, n);
      AncestorIn(hs, block.parent, m);
      AncestorIn(hs, block.parent, n);
      if m < block.number && n < block.number {
        var a, b := AncestorAt(hs, block.parent, m).value, AncestorAt(hs, block.parent, n).value;
        assert DisjointBodies(bodies, a, b);
        assert Body(held, a) == Body(bodies, a) && Body(held, b) == Body(bodies, b);
      }
    } else {
      StoreKeepsAncestors(hs, block, h, m);
      StoreKeepsAncestors(hs, block, h, n);
      AncestorIn(hs, h, m);
      AncestorIn(hs, h, n);
      var a, b := AncestorAt(hs, h, m).value, AncestorAt(hs, h, n).value;
      assert DisjointBodies(bodies, a, b);
      assert Body(held, a) == Body(bodies, a) && Body(held, b) == Body(bodies, b);
    }
  }

  lemma AncestorIn(hs: Headers, h: Hash, n: nat)
    ensures AncestorAt(hs, h, n).Some? ==> AncestorAt(hs, h, n).value in hs
  {
    if AncestorAt(hs, h, n).Some? {
      AncestorNumber(hs, h, n);
    }
  }

  lemma StoreKeepsLookup(
      hs: Headers, bodies: Bodies, canon: Index, head: Header, lookup: Lookup, block: Header, txs: seq<Tx>)
    requires CanonicalTo(hs, canon, head) && block.hash !in hs
    ensures var held := bodies[block.hash := txs];
      && (LookupComplete(bodies, canon, head, lookup) ==> LookupComplete(held, canon, head, lookup))
      && (LookupSound(bodies, canon, head, lookup) ==> LookupSound(held, canon, head, lookup))
  {
    var held := bodies[block.hash := txs];
    assert forall n: nat | n <= head.number :: Body(held, canon[n]) == Body(bodies, canon[n]);
  }

  /**
   The index up to a block is its ancestor path, every v2 gap block on it has its snapshot, and no stored snapshot is
   wrong.
   */
  ghost predicate CompletePath(
      config: Config, content: Candidates, hs: Headers, canon: Index, snaps: map<Hash, Snapshot>, tip: Header) {
    && WellStored(hs)
    && CanonicalTo(hs, canon, tip)
    && (forall h | h in snaps :: h in hs && TrueSnapshot(content, hs[h], snaps[h]))
    && (forall n: nat | n <= tip.number && NeedsSnapshot(config, n) :: canon[n] in snaps)
  }

  lemma CompleteStored(
      config: Config, content: Candidates, hs: Headers, canon: Index, snaps: map<Hash, Snapshot>, tip: Header)
    requires CompletePath(config, content, hs, canon, snaps, tip)
    ensures WellStored(hs) && CanonicalTo(hs, canon, tip) && tip.hash in hs && hs[tip.hash] == tip
  {
  }

  lemma CompleteBelow(config: Config, content: Candidates, hs: Headers, canon: Index, snaps: map<Hash, Snapshot>,
                      head: Header, chain: seq<Header>, bottom: Header)
    requires CompletePath(config, content, hs, canon, snaps, head) && Segment(hs, head, chain, bottom)
    ensures bottom.number <= head.number && CompletePath(config, content, hs, canon, snaps, bottom)
  {
    CanonicalBelow(hs, canon, head, chain, bottom);
  }

  /** The snapshots the new chain misses, except for its head, were derived, and rightly. */
  ghost predicate Derived(config: Config, content: Candidates, hs: Headers, snaps: map<Hash, Snapshot>,
                          newChain: seq<Header>, derived: map<Hash, Snapshot>)
  {
    && (forall h | h in derived :: h in hs && TrueSnapshot(content, hs[h], derived[h]))
    && (forall i | 1 <= i < |newChain| && NeedsSnapshot(config, newChain[i].number) ::
          newChain[i].hash in snaps || newChain[i].hash in derived)
  }

  /** A gap block whose stored snapshot cannot be asked for, or that has none and whose own state does not give one. */
  predicate Underivable(
      config: Config, content: Candidates, snaps: map<Hash, Snapshot>, readable: set<Root>, unprobed: set<Hash>,
      h: Header) {
    && NeedsSnapshot(config, h.number)
    && (h.hash in unprobed || (h.hash !in snaps
                               && (h.root !in readable || h.root !in content || content[h.root] == [])))
  }

  /** The snapshot store after one that may be absent is added. */
  function Store(snaps: map<Hash, Snapshot>, snap: Option<Snapshot>): map<Hash, Snapshot> {
    if snap.Some? then snaps[snap.value.hash := snap.value] else snaps
  }

  /** Writing a child of the tip with its snapshot, if it owes one, keeps the path complete. */
  lemma ExtendComplete(config: Config, content: Candidates, hs: Headers, canon: Index, snaps: map<Hash, Snapshot>,
                       below: Header, block: Header, snap: Option<Snapshot>)
    requires CompletePath(config, content, hs, canon, snaps, below)
    requires block.hash in hs && hs[block.hash] == block
    requires block.number == below.number + 1 && block.parent == below.hash
    requires snap.Some? ==> TrueSnapshot(content, block, snap.value)
    requires NeedsSnapshot(config, block.number) ==> snap.Some? || block.hash in snaps
    ensures CompletePath(config, content, hs, canon[block.number := block.hash], Store(snaps, snap), block)
  {
    CanonicalExtend(hs, canon, below, block);
  }

  lemma ExtendPath(config: Config, content: Candidates, hs: Headers, canon: Index, snaps: map<Hash, Snapshot>,
                   newChain: seq<Header>, top: Header, common: Header, derived: map<Hash, Snapshot>, i: nat)
    requires Segment(hs, top, newChain, common) && 1 <= i < |newChain|
    requires CompletePath(config, content, hs, canon, snaps, Tip(newChain, common, i + 1))
    requires Derived(config, content, hs, snaps, newChain, derived)
    ensures var block := newChain[i];
      var snap := if block.hash in derived then Some(derived[block.hash]) else None;
      && CompletePath(config, content, hs, canon[block.number := block.hash], Store(snaps, snap), block)
      && Derived(config, content, hs, Store(snaps, snap), newChain, derived)
  {
    var block := newChain[i];
    var snap := if block.hash in derived then Some(derived[block.hash]) else None;
    ExtendComplete(config, content, hs, canon, snaps, Tip(newChain, common, i + 1), block, snap);
  }

  /** The two branches have no block in common. */
  ghost predicate Forked(oldChain: seq<Header>, newChain: seq<Header>) {
    forall i, j | 0 <= i < |oldChain| && 0 <= j < |newChain| && oldChain[i].number == newChain[j].number ::
      oldChain[i].hash != newChain[j].hash
  }

  ghost predicate DropsCommitted(committed: Option<Committed>, oldChain: seq<Header>, common: Header) {
    && committed.Some? && common.number < committed.value.number
    && exists i :: 0 <= i < |oldChain| && Committed(oldChain[i].number, oldChain[i].hash) == committed.value
  }

  lemma TransactionsStep(bodies: Bodies, chain: seq<Header>, i: nat)
    requires i < |chain|
    ensures Transactions(bodies, chain[..i + 1]) == Transactions(bodies, chain[..i])
      + set tx | tx in Body(bodies, chain[i].hash)
  {
    var a, b := chain[..i], chain[..i + 1];
    assert b == a + [chain[i]];
    forall tx | tx in Transactions(bodies, b)
      ensures tx in Transactions(bodies, a) + set tx | tx in Body(bodies, chain[i].hash)
    {
      var j :| 0 <= j < |b| && tx in Body(bodies, b[j].hash);
      if j < i {
        assert a[j] == b[j];
      }
    }
    forall tx | tx in Transactions(bodies, a) ensures tx in Transactions(bodies, b) {
      var j :| 0 <= j < |a| && tx in Body(bodies, a[j].hash);
      assert b[j] == a[j];
    }
    forall tx | tx in Body(bodies, chain[i].hash) ensures tx in Transactions(bodies, b) {
      assert b[i] == chain[i];
    }
  }

  /** The highest block of the new chain that is canonical once the blocks from index reached on are written. */
  ghost function Tip(newChain: seq<Header>, common: Header, reached: nat): Header {
    if reached < |newChain| then newChain[reached] else common
  }

  /** The index after the blocks chain[|chain| - 1], ..., chain[i] became heads one after another. */
  ghost function Splice(canon: Index, chain: seq<Header>, i: nat): Index
    decreases |chain| - i
  {
    if i >= |chain| then canon else Splice(canon, chain, i + 1)[chain[i].number := chain[i].hash]
  }

  /** How far a reorganisation came: the two branches, their fork and the index of the last promoted block. */
  datatype Reorganisation =
    | Unstarted
    | Reorganisation(oldChain: seq<Header>, newChain: seq<Header>, common: Header, reached: nat)

  ghost predicate TrimmedAt(before: Index, number: nat, after: Index, stop: nat) {
    && number < stop && stop !in before
    && (forall n: nat | number < n < stop :: n in before)
    && (forall n: nat :: n in after <==> n in before && !(number < n < stop))
    && (forall n: nat | n in after :: after[n] == before[n])
  }

  /** The run of entries right above a number is gone, and nothing else. */
  ghost predicate Trimmed(before: Index, number: nat, after: Index) {
    exists stop: nat :: TrimmedAt(before, number, after, stop)
  }

  lemma TrimComplete(
      config: Config, content: Candidates, hs: Headers, before: Index, after: Index, snaps: map<Hash, Snapshot>,
      tip: Header)
    requires CompletePath(config, content, hs, before, snaps, tip) && Trimmed(before, tip.number, after)
    ensures CompletePath(config, content, hs, after, snaps, tip)
  {
    CanonicalAgree(hs, before, after, tip);
  }

  lemma SegmentStart(hs: Headers, top: Header)
    requires top.hash in hs && hs[top.hash] == top
    ensures Segment(hs, top, [], top)
  {
  }

  lemma SegmentBottom(hs: Headers, top: Header, chain: seq<Header>, bottom: Header)
    requires Segment(hs, top, chain, bottom)
    ensures bottom.hash in hs && hs[bottom.hash] == bottom
  {
  }

  lemma SegmentStored(hs: Headers, top: Header, chain: seq<Header>, bottom: Header)
    requires Segment(hs, top, chain, bottom)
    ensures forall i | 0 <= i < |chain| :: chain[i].hash in hs && hs[chain[i].hash] == chain[i]
  {
  }

  /** The latest committed block is on the index at or below the head. */
  ghost predicate OnChain(committed: Option<Committed>, canon: Index, head: Header) {
    && committed.Some? && committed.value.number <= head.number
    && committed.value.number in canon && canon[committed.value.number] == committed.value.hash
  }

  // ----- what a move of the head does to the index

  /** Splicing leaves the common part alone and writes the new blocks. */
  lemma {:induction false} SpliceOverlays(
      hs: Headers, canon: Index, top: Header, chain: seq<Header>, bottom: Header, i: nat)
    requires Segment(hs, top, chain, bottom) && CanonicalTo(hs, canon, bottom) && i <= |chain|
    ensures Overlaid(canon, chain, bottom, i, Splice(canon, chain, i))
    ensures forall n: nat | n in Splice(canon, chain, i) :: n in canon || bottom.number < n <= top.number - i
    decreases |chain| - i
  {
    if i < |chain| {
      SpliceOverlays(hs, canon, top, chain, bottom, i + 1);
    }
  }

  lemma {:induction false} SpliceContiguous(
      hs: Headers, canon: Index, top: Header, chain: seq<Header>, bottom: Header, i: nat)
    requires Segment(hs, top, chain, bottom) && CanonicalTo(hs, canon, bottom) && i <= |chain| && Contiguous(canon)
    ensures Contiguous(Splice(canon, chain, i))
    decreases |chain| - i
  {
    if i < |chain| {
      SpliceContiguous(hs, canon, top, chain, bottom, i + 1);
      SpliceOverlays(hs, canon, top, chain, bottom, i + 1);
      var below := Splice(canon, chain, i + 1);
      assert chain[i].number > 0 && chain[i].number - 1 in below by {
        if i + 1 < |chain| {
          assert chain[i + 1].number == chain[i].number - 1;
        }
      }
    }
  }

  /** A committed block above the fork is on the dropped branch, so a move that keeps it forks at or above it. */
  lemma CommittedBelowFork(
      hs: Headers, committed: Option<Committed>, canon: Index, head: Header, oldChain: seq<Header>, common: Header)
    requires CanonicalTo(hs, canon, head) && Segment(hs, head, oldChain, common)
    requires OnChain(committed, canon, head) && !DropsCommitted(committed, oldChain, common)
    ensures committed.value.number <= common.number
  {
    var n := committed.value.number;
    if n > common.number {
      var i := head.number - n;
      SegmentIsCanonical(hs, canon, head, oldChain, common, i);
    }
  }

  lemma CompleteCommon(bodies: Bodies, canon: Index, head: Header, common: Header, lookup: Lookup)
    requires common.number <= head.number && LookupComplete(bodies, canon, head, lookup)
    ensures LookupComplete(bodies, canon, common, lookup)
  {
  }

  ghost predicate ForkOf(hs: Headers, committed: Option<Committed>, head: Header, top: Header, r: Reorganisation) {
    && r.Reorganisation? && r.reached <= |r.newChain|
    && Segment(hs, head, r.oldChain, r.common) && Segment(hs, top, r.newChain, r.common)
    && Forked(r.oldChain, r.newChain) && !DropsCommitted(committed, r.oldChain, r.common)
  }

  /** A reorganisation that stopped on a promoted block. */
  lemma StoppedHalfWay(
      hs: Headers, bodies: Bodies, committed: Option<Committed>, canon: Index, head: Header, lookup: Lookup,
                       top: Header, r: Reorganisation)
    requires WellStored(hs) && CanonicalTo(hs, canon, head) && ForkOf(hs, committed, head, top, r)
    requires top.hash in hs && hs[top.hash] == top
    ensures var moved := Splice(canon, r.newChain, r.reached);
      var tip := if r.reached < |r.newChain| then r.newChain[r.reached] else head;
      var after := Promote(lookup, bodies, r.newChain, r.reached);
      && (tip == head ==> r.reached == |r.newChain| && moved == canon && after == lookup)
      && (Contiguous(canon) ==> Contiguous(moved))
      && (OnChain(committed, canon, head) ==> OnChain(committed, moved, tip))
      && (NoRepeats(hs, bodies) && LookupComplete(bodies, canon, head, lookup) ==>
          LookupComplete(bodies, moved, tip, after))
  {
    CanonicalBelow(hs, canon, head, r.oldChain, r.common);
    SpliceOverlays(hs, canon, top, r.newChain, r.common, r.reached);
    if Contiguous(canon) {
      SpliceContiguous(hs, canon, top, r.newChain, r.common, r.reached);
    }
    if r.reached < |r.newChain| {
      NewBlockIsNew(hs, head, top, r);
      if OnChain(committed, canon, head) {
        CommittedBelowFork(hs, committed, canon, head, r.oldChain, r.common);
      }
      if NoRepeats(hs, bodies) && LookupComplete(bodies, canon, head, lookup) {
        CompleteCommon(bodies, canon, head, r.common, lookup);
        PromotedComplete(hs, bodies, canon, top, r.newChain, r.common, r.reached, Splice(canon, r.newChain, r.reached),
                         lookup, {});
        assert Promote(lookup, bodies, r.newChain, r.reached) - {} == Promote(lookup, bodies, r.newChain, r.reached);
      }
    }
  }

  lemma NewBlockIsNew(hs: Headers, head: Header, top: Header, r: Reorganisation)
    requires r.Reorganisation? && r.reached < |r.newChain|
    requires Segment(hs, head, r.oldChain, r.common) && Segment(hs, top, r.newChain, r.common)
      && Forked(r.oldChain, r.newChain)
    ensures r.newChain[r.reached] != head
  {
    if r.oldChain != [] {
      assert r.oldChain[0] == head;
    }
  }

  /** A block that wins fork choice is on a branch of its own: the reorganisation to it adds at least that block. */
  lemma WinnerAddsBlocks(
      hs: Headers, tds: map<Hash, nat>, head: Header, block: Header, oldChain: seq<Header>, newChain: seq<Header>,
      common: Header)
    requires TotalsAddUp(hs, tds) && head.hash in hs && hs[head.hash] == head && block.hash in hs
      && hs[block.hash] == block
    requires block.hash in tds && head.hash in tds
    requires BeatsHead(Some(tds[block.hash]), Some(tds[head.hash]), block.number, head.number)
    requires Segment(hs, head, oldChain, common) && Segment(hs, block, newChain, common)
    ensures newChain != [] && newChain[0] == block
  {
    WinnerIsNoAncestor(hs, tds, block.hash, head.hash);
    SegmentAncestor(hs, head, oldChain, common, |oldChain|, common.number);
  }

  /** Writing the new head on top of the spliced index completes its path. */
  lemma WriteTop(
      config: Config, content: Candidates, hs: Headers, canon: Index, snaps: map<Hash, Snapshot>, r: Reorganisation,
                 top: Header, snap: Option<Snapshot>)
    requires r.Reorganisation? && r.reached == (if r.newChain == [] then 0 else 1)
    requires Segment(hs, top, r.newChain, r.common) && top.hash in hs && hs[top.hash] == top
    requires CompletePath(config, content, hs, canon, snaps, Tip(r.newChain, r.common, r.reached))
    requires snap.Some? ==> TrueSnapshot(content, top, snap.value)
    requires NeedsSnapshot(config, top.number) ==> snap.Some?
    ensures CompletePath(config, content, hs, canon[top.number := top.hash], Store(snaps, snap), top)
  {
    if r.newChain == [] {
      assert canon[top.number := top.hash] == canon;
    } else {
      ExtendComplete(config, content, hs, canon, snaps, Tip(r.newChain, r.common, r.reached), top, snap);
    }
  }

  /** Trimming a gap-free index right above a number removes everything above it. */
  lemma TrimmedContiguous(before: Index, number: nat, after: Index)
    requires Contiguous(before) && Trimmed(before, number, after)
    ensures forall n: nat | n in after :: n <= number
    ensures Contiguous(after)
  {
  }

  /** The index and the lookup after a successful reorganisation and the write of the new head. */
  lemma MovedHead(hs: Headers, bodies: Bodies, committed: Option<Committed>, canon: Index, head: Header, lookup: Lookup,
                  top: Header, r: Reorganisation, trimmed: Index, moved: Index, after: Lookup)
    requires WellStored(hs) && CanonicalTo(hs, canon, head) && ForkOf(hs, committed, head, top, r)
    requires top.hash in hs && hs[top.hash] == top && top.hash in bodies
    requires r.reached == if r.newChain == [] then 0 else 1
    requires Trimmed(Splice(canon, r.newChain, r.reached), Tip(r.newChain, r.common, r.reached).number, trimmed)
    requires moved == trimmed[top.number := top.hash]
    requires after == WriteLookups(
      Promote(lookup, bodies, r.newChain, r.reached)
        - (Transactions(bodies, r.oldChain) - Transactions(bodies, r.newChain)),
      bodies[top.hash], top.number)
    ensures Contiguous(canon) ==> Contiguous(moved) && EndsAt(moved, top)
    ensures OnChain(committed, canon, head) ==> OnChain(committed, moved, top)
    ensures NoRepeats(hs, bodies) && LookupComplete(bodies, canon, head, lookup) ==>
      LookupComplete(bodies, moved, top, after)
    ensures NoRepeats(hs, bodies) && LookupSound(bodies, canon, head, lookup) ==> LookupSound(bodies, moved, top, after)
  {
    hide NoRepeats, LookupComplete, LookupSound, Transactions, Promote, Splice, Forked;
    CanonicalBelow(hs, canon, head, r.oldChain, r.common);
    var spliced := Splice(canon, r.newChain, r.reached);
    SpliceOverlays(hs, canon, top, r.newChain, r.common, r.reached);
    if Contiguous(canon) {
      SpliceContiguous(hs, canon, top, r.newChain, r.common, r.reached);
      TrimmedContiguous(spliced, Tip(r.newChain, r.common, r.reached).number, trimmed);
      ContiguousTop(hs, canon, top, r, trimmed, moved);
    }
    if OnChain(committed, canon, head) {
      CommittedBelowFork(hs, committed, canon, head, r.oldChain, r.common);
    }
    if NoRepeats(hs, bodies) {
      LookupMoves(hs, bodies, canon, head, lookup, top, r, trimmed, moved, after);
    }
  }

  lemma ContiguousTop(hs: Headers, canon: Index, top: Header, r: Reorganisation, trimmed: Index, moved: Index)
    requires r.Reorganisation? && Segment(hs, top, r.newChain, r.common) && CanonicalTo(hs, canon, r.common)
    requires r.reached == if r.newChain == [] then 0 else 1
    requires Trimmed(Splice(canon, r.newChain, r.reached), Tip(r.newChain, r.common, r.reached).number, trimmed)
    requires Contiguous(trimmed) && forall n: nat | n in trimmed :: n <= Tip(r.newChain, r.common, r.reached).number
    requires moved == trimmed[top.number := top.hash]
    ensures Contiguous(moved) && forall n: nat | n in moved :: n <= top.number
  {
    SpliceOverlays(hs, canon, top, r.newChain, r.common, r.reached);
    assert Tip(r.newChain, r.common, r.reached).number in trimmed;
  }

  lemma LookupMoves(hs: Headers, bodies: Bodies, canon: Index, head: Header, lookup: Lookup,
                    top: Header, r: Reorganisation, trimmed: Index, moved: Index, after: Lookup)
    requires r.Reorganisation? && Segment(hs, head, r.oldChain, r.common) && Segment(hs, top, r.newChain, r.common)
    requires CanonicalTo(hs, canon, head) && top.hash in hs && hs[top.hash] == top && top.hash in bodies
    requires r.reached == if r.newChain == [] then 0 else 1
    requires Trimmed(Splice(canon, r.newChain, r.reached), Tip(r.newChain, r.common, r.reached).number, trimmed)
    requires moved == trimmed[top.number := top.hash]
    requires after == WriteLookups(
      Promote(lookup, bodies, r.newChain, r.reached)
        - (Transactions(bodies, r.oldChain) - Transactions(bodies, r.newChain)),
      bodies[top.hash], top.number)
    requires NoRepeats(hs, bodies)
    ensures LookupComplete(bodies, canon, head, lookup) ==> LookupComplete(bodies, moved, top, after)
    ensures LookupSound(bodies, canon, head, lookup) ==> LookupSound(bodies, moved, top, after)
  {
    hide NoRepeats, LookupComplete, LookupSound, Transactions, Promote, Splice, WriteLookups;
    StaleOutside(hs, bodies, canon, head, r.oldChain, r.common, r.newChain);
    CanonicalBelow(hs, canon, head, r.oldChain, r.common);
    SpliceOverlays(hs, canon, top, r.newChain, r.common, r.reached);
    if r.newChain == [] {
      RewoundLookup(hs, bodies, canon, head, lookup, r.oldChain, top, trimmed, moved, after);
    } else {
      OverlaidTop(hs, canon, top, r.newChain, r.common, trimmed, moved);
      var stale := Transactions(bodies, r.oldChain) - Transactions(bodies, r.newChain);
      HeadLookupLast(lookup, bodies, r.newChain, stale);
      if LookupComplete(bodies, canon, head, lookup) {
        CompleteCommon(bodies, canon, head, r.common, lookup);
        PromotedComplete(hs, bodies, canon, top, r.newChain, r.common, 0, moved, lookup, stale);
      }
      if LookupSound(bodies, canon, head, lookup) {
        MovedSound(hs, bodies, canon, head, r.oldChain, r.common, top, r.newChain, moved, lookup);
      }
    }
  }

  lemma OverlaidTop(
      hs: Headers, canon: Index, top: Header, chain: seq<Header>, bottom: Header, trimmed: Index, moved: Index)
    requires Segment(hs, top, chain, bottom) && chain != []
    requires Overlaid(canon, chain, bottom, 1, Splice(canon, chain, 1))
    requires Trimmed(Splice(canon, chain, 1), Tip(chain, bottom, 1).number, trimmed)
    requires moved == trimmed[top.number := top.hash]
    ensures Overlaid(canon, chain, bottom, 0, moved)
  {
  }

  /** Deleting stale lookups before or after the head's own are written is the same. */
  lemma HeadLookupLast(lookup: Lookup, bodies: Bodies, chain: seq<Header>, stale: set<Tx>)
    requires chain != [] && chain[0].hash in bodies
    requires forall tx | tx in Body(bodies, chain[0].hash) :: tx !in stale
    ensures WriteLookups(Promote(lookup, bodies, chain, 1) - stale, bodies[chain[0].hash], chain[0].number)
         == Promote(lookup, bodies, chain, 0) - stale
  {
  }

  /** Adopting an ancestor only drops blocks. */
  lemma RewoundLookup(
      hs: Headers, bodies: Bodies, canon: Index, head: Header, lookup: Lookup, oldChain: seq<Header>, top: Header,
                      trimmed: Index, moved: Index, after: Lookup)
    requires CanonicalTo(hs, canon, head) && Segment(hs, head, oldChain, top) && CanonicalTo(hs, canon, top)
    requires Trimmed(Splice(canon, [], 0), top.number, trimmed) && moved == trimmed[top.number := top.hash]
    requires top.hash in bodies
    requires after == WriteLookups(
      Promote(lookup, bodies, [], 0) - (Transactions(bodies, oldChain) - Transactions(bodies, [])), bodies[top.hash],
          top.number)
    requires forall n: nat, tx | n <= top.number && tx in Body(bodies, canon[n]) ::
      tx !in Transactions(bodies, oldChain) - Transactions(bodies, [])
    ensures LookupComplete(bodies, canon, head, lookup) ==> LookupComplete(bodies, moved, top, after)
    ensures LookupSound(bodies, canon, head, lookup) ==> LookupSound(bodies, moved, top, after)
  {
    NoTransactions(bodies);
    var dropped := Transactions(bodies, oldChain);
    assert Transactions(bodies, oldChain) - Transactions(bodies, []) == dropped;
    assert after == WriteLookups(lookup - dropped, Body(bodies, top.hash), top.number);
    RewoundIndex(hs, canon, top, trimmed, moved);
    RewoundComplete(bodies, canon, head, lookup, dropped, top, moved);
    if LookupSound(bodies, canon, head, lookup) {
      RewoundSound(hs, bodies, canon, head, lookup, oldChain, top, moved);
    }
  }

  lemma RewoundIndex(hs: Headers, canon: Index, top: Header, trimmed: Index, moved: Index)
    requires CanonicalTo(hs, canon, top) && Trimmed(Splice(canon, [], 0), top.number, trimmed)
      && moved == trimmed[top.number := top.hash]
    ensures forall n: nat | n <= top.number :: n in canon && n in moved && moved[n] == canon[n]
  {
  }

  lemma RewoundComplete(
      bodies: Bodies, canon: Index, head: Header, lookup: Lookup, dropped: set<Tx>, top: Header, moved: Index)
    requires top.number <= head.number
    requires forall n: nat | n <= top.number :: n in canon && n in moved && moved[n] == canon[n]
    requires canon[top.number] == top.hash
    requires forall n: nat, tx | n <= top.number && tx in Body(bodies, canon[n]) :: tx !in dropped
    ensures LookupComplete(bodies, canon, head, lookup) ==>
      LookupComplete(bodies, moved, top, WriteLookups(lookup - dropped, Body(bodies, top.hash), top.number))
  {
    if LookupComplete(bodies, canon, head, lookup) {
      var after := WriteLookups(lookup - dropped, Body(bodies, top.hash), top.number);
      forall n: nat, tx | n <= top.number && n in moved && tx in Body(bodies, moved[n])
        ensures tx in after && after[tx] == n
      {
        assert tx in lookup && lookup[tx] == n;
        if tx in Body(bodies, top.hash) {
          assert tx in Body(bodies, canon[top.number]);
        }
      }
    }
  }

  lemma RewoundSound(
      hs: Headers, bodies: Bodies, canon: Index, head: Header, lookup: Lookup, oldChain: seq<Header>,
      top: Header, moved: Index)
    requires CanonicalTo(hs, canon, head) && Segment(hs, head, oldChain, top)
    requires forall n: nat | n <= top.number :: n in canon && n in moved && moved[n] == canon[n]
    requires canon[top.number] == top.hash
    requires LookupSound(bodies, canon, head, lookup)
    ensures LookupSound(bodies, moved, top, WriteLookups(lookup - Transactions(bodies, oldChain),
                                                         Body(bodies, top.hash), top.number))
  {
    var after := WriteLookups(lookup - Transactions(bodies, oldChain), Body(bodies, top.hash), top.number);
    forall tx | tx in after
      ensures after[tx] <= top.number && after[tx] in moved && tx in Body(bodies, moved[after[tx]])
    {
      hide CanonicalTo, Segment, Transactions;
      if tx !in Body(bodies, top.hash) {
        DroppedTransaction(hs, bodies, canon, head, oldChain, top, lookup[tx], tx);
      }
    }
  }

  /** No index entry is left above the head. */
  ghost predicate EndsAt(canon: Index, head: Header) {
    forall n: nat | n in canon :: n <= head.number
  }

  lemma EndsContiguous(hs: Headers, canon: Index, head: Header)
    requires CanonicalTo(hs, canon, head)
    ensures EndsAt(canon, head) ==> Contiguous(canon)
  {
  }

  /** A child of the head is adopted without a reorganisation. */
  lemma ExtendedHead(
      hs: Headers, bodies: Bodies, committed: Option<Committed>, canon: Index, head: Header, lookup: Lookup,
      top: Header)
    requires WellStored(hs) && CanonicalTo(hs, canon, head)
    requires top.hash in hs && hs[top.hash] == top && top.hash in bodies
    requires top.number == head.number + 1 && top.parent == head.hash
    ensures var moved, after := canon[top.number := top.hash], WriteLookups(lookup, bodies[top.hash], top.number);
      && (Contiguous(canon) ==> Contiguous(moved)) && (EndsAt(canon, head) ==> EndsAt(moved, top))
      && (OnChain(committed, canon, head) ==> OnChain(committed, moved, top))
      && (NoRepeats(hs, bodies) && LookupComplete(bodies, canon, head, lookup) ==>
          LookupComplete(bodies, moved, top, after))
      && (NoRepeats(hs, bodies) && LookupSound(bodies, canon, head, lookup) ==> LookupSound(bodies, moved, top, after))
  {
    hide NoRepeats, LookupComplete, LookupSound, Transactions, WriteLookups;
    var moved, after := canon[top.number := top.hash], WriteLookups(lookup, bodies[top.hash], top.number);
    assert Segment(hs, head, [], head) && Segment(hs, top, [top], head);
    assert Overlaid(canon, [top], head, 0, moved);
    var stale := Transactions(bodies, []) - Transactions(bodies, [top]);
    assert stale == {} by { assert Transactions(bodies, []) == {} by { NoTransactions(bodies); } }
    assert after == Promote(lookup, bodies, [top], 0) - stale by {
      PromoteOne(lookup, bodies, top);
      assert Promote(lookup, bodies, [top], 0) - {} == Promote(lookup, bodies, [top], 0);
    }
    if NoRepeats(hs, bodies) && LookupComplete(bodies, canon, head, lookup) {
      PromotedComplete(hs, bodies, canon, top, [top], head, 0, moved, lookup, stale);
    }
    if NoRepeats(hs, bodies) && LookupSound(bodies, canon, head, lookup) {
      MovedSound(hs, bodies, canon, head, [], head, top, [top], moved, lookup);
    }
  }

  lemma NoTransactions(bodies: Bodies)
    ensures Transactions(bodies, []) == {}
  {
  }

  lemma PromoteOne(lookup: Lookup, bodies: Bodies, top: Header)
    requires top.hash in bodies
    ensures Promote(lookup, bodies, [top], 0) == WriteLookups(lookup, bodies[top.hash], top.number)
  {
    assert Promote(lookup, bodies, [top], 1) == lookup;
  }

  // ----- runs

  /** What a node does to its chain: it stores a block, or tries to adopt one that it has stored. */
  datatype Import = Stores(block: Header, txs: seq<Tx>) | Adopts(hash: Hash)

  /** Only blocks that extend the tree without repeating a transaction are stored. */
  ghost predicate AllStorable(hs: Headers, bodies: Bodies, imports: seq<Import>)
    decreases |imports|
  {
    imports == [] ||
    match imports[0]
    case Adopts(_) => AllStorable(hs, bodies, imports[1..])
    case Stores(block, txs) =>
      Storable(hs, bodies, block, txs) && AllStorable(hs[block.hash := block], bodies[block.hash := txs], imports[1..])
  }

  /** What every run keeps: the index is exactly the path of the head, and the lookup exactly its transactions. */
  ghost predicate Exact(hs: Headers, bodies: Bodies, canon: Index, head: Header, lookup: Lookup) {
    && Rooted(hs) && NoRepeats(hs, bodies) && (forall h | h in hs :: h in bodies)
    && EndsAt(canon, head) && LookupComplete(bodies, canon, head, lookup) && LookupSound(bodies, canon, head, lookup)
  }

  /**
   Over any run of stored blocks and adoptions, each adoption completed or refused: the index is exactly the ancestor
   path of the head with every gap snapshot, every lookup names the canonical block that holds the transaction, and
   every canonical transaction is looked up.
   */
  method ImportAll(chain: BlockChain, imports: seq<Import>)
    requires chain.Valid() && Exact(chain.headers, chain.bodies, chain.canon, chain.head, chain.lookup)
    requires AllStorable(chain.headers, chain.bodies, imports)
    modifies chain
    ensures chain.Valid() && Exact(chain.headers, chain.bodies, chain.canon, chain.head, chain.lookup)
  {
    hide CompletePath, Rooted, NoRepeats, LookupComplete, LookupSound, EndsAt, Storable;
    for k := 0 to |imports|
      invariant chain.Valid() && Exact(chain.headers, chain.bodies, chain.canon, chain.head, chain.lookup)
      invariant AllStorable(chain.headers, chain.bodies, imports[k..])
    {
      assert imports[k..][1..] == imports[k + 1..];
      match imports[k]
      case Stores(block, txs) =>
        chain.StoreBlock(block, txs);
      case Adopts(hash) =>
        if hash in chain.headers && chain.headers[hash].number > 0 {
          CompleteStored(chain.config, chain.content, chain.headers, chain.canon, chain.snaps, chain.head);
          ChildNumber(chain.headers, chain.headers[hash], chain.head);
          var err := chain.AdoptHead(chain.headers[hash], None);
        }
    }
  }

  /** A child is one above its parent. */
  lemma ChildNumber(hs: Headers, block: Header, head: Header)
    requires Rooted(hs) && WellStored(hs) && block.hash in hs && hs[block.hash] == block && head.hash in hs
      && hs[head.hash] == head
    ensures block.parent == head.hash && block.number > 0 ==> block.number == head.number + 1
  {
  }
}
