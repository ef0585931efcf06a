/**
 Adoption of a new canonical head: writeHeadBlock, reorg and adoptHead (core/blockchain.go).

 Headers, bodies, the canonical index, the transaction lookup and the masternode snapshots are the
 stores of the chain database; a batch is written at once. A block whose body is missing, a state that
 cannot be opened and a presence check the database refuses are the error paths of the source.
 */
module HeadChain {
  import opened Options
  import opened Chain
  import Division

  type Tx = nat
  type Address = nat

  /** The XDPoS schedule; the v2 era starts after its switch block. */
  datatype Config = Config(xdpos: bool, epoch: nat, gap: nat, v2Switch: Option<nat>)

  /** The masternode snapshot of the next epoch, kept under the hash of its gap block. */
  datatype Snapshot = Snapshot(number: nat, hash: Hash, candidates: seq<Address>)

  datatype Committed = Committed(number: nat, hash: Hash)

  datatype Error = InvalidOldChain | InvalidNewChain | ForkingAttack | SnapshotProbe | SnapshotState

  predicate IsNextEpochGapBlock(c: Config, number: nat) {
    c.xdpos && c.gap < c.epoch && number % c.epoch == c.epoch - c.gap
  }

  /** Every epoch has exactly one gap block, the given gap before its end, and none without a gap. */
  lemma OneGapBlockPerEpoch(c: Config, epoch: nat, k: nat)
    requires c.xdpos && c.gap < c.epoch && k < c.epoch
    ensures IsNextEpochGapBlock(c, epoch * c.epoch + k) <==> c.gap > 0 && k == c.epoch - c.gap
  {
    var n := epoch * c.epoch + k;
    Division.AtLeast(n, c.epoch, epoch);
    Division.Below(n, c.epoch, epoch + 1);
    assert (epoch + 1) * c.epoch == epoch * c.epoch + c.epoch;
    assert n == (n / c.epoch) * c.epoch + n % c.epoch;
  }

  predicate NeedsSnapshot(c: Config, number: nat) {
    IsNextEpochGapBlock(c, number) && c.v2Switch.Some? && number > c.v2Switch.value
  }

  /** The candidates a state holds are fixed by its root; an empty set or a failing read derives nothing. */
  type Candidates = map<Root, seq<Address>>

  function Derive(readable: set<Root>, content: Candidates, h: Header): (r: Option<Snapshot>)
    ensures r.Some? ==> h.root in readable && TrueSnapshot(content, h, r.value)
  {
    if h.root in readable && h.root in content && content[h.root] != []
    then Some(Snapshot(h.number, h.hash, content[h.root]))
    else None
  }

  ghost predicate TrueSnapshot(content: Candidates, h: Header, s: Snapshot) {
    h.root in content && content[h.root] != [] && s == Snapshot(h.number, h.hash, content[h.root])
  }

  // ----- chain segments

  /** The blocks from top down to, but not including, its ancestor bottom. */
  ghost predicate Segment(hs: Headers, top: Header, chain: seq<Header>, bottom: Header) {
    && bottom.hash in hs && hs[bottom.hash] == bottom
    && |chain| == top.number - bottom.number
    && (forall i | 0 <= i < |chain| ::
        chain[i].hash in hs && hs[chain[i].hash] == chain[i] && chain[i].number == top.number - i)
    && (forall i | 0 <= i < |chain| - 1 :: chain[i].parent == chain[i + 1].hash)
    && (if chain == [] then top == bottom else chain[0] == top && chain[|chain| - 1].parent == bottom.hash)
  }

  lemma SegmentExtend(hs: Headers, top: Header, chain: seq<Header>, bottom: Header, next: Header)
    requires WellStored(hs)
    requires Segment(hs, top, chain, bottom) && bottom.number > 0
    requires GetHeader(hs, bottom.parent, bottom.number - 1) == Some(next)
    ensures Segment(hs, top, chain + [bottom], next)
  {
  }

  /** A segment below the canonical head is the part of the index between its ends. */
  lemma {:induction false} SegmentIsCanonical(
      hs: Headers, canon: Index, head: Header, chain: seq<Header>, bottom: Header, i: nat)
    requires CanonicalTo(hs, canon, head) && Segment(hs, head, chain, bottom)
    requires i <= |chain|
    ensures i < |chain| ==> canon[chain[i].number] == chain[i].hash
    ensures i == |chain| ==> canon[bottom.number] == bottom.hash
  {
    if i > 0 {
      SegmentIsCanonical(hs, canon, head, chain, bottom, i - 1);
    }
  }

  lemma CanonicalBelow(hs: Headers, canon: Index, head: Header, chain: seq<Header>, bottom: Header)
    requires CanonicalTo(hs, canon, head) && Segment(hs, head, chain, bottom)
    ensures bottom.number <= head.number && CanonicalTo(hs, canon, bottom)
  {
    SegmentIsCanonical(hs, canon, head, chain, bottom, |chain|);
  }

  /** Writing a child of the canonical tip extends the canonical path. */
  lemma CanonicalExtend(hs: Headers, canon: Index, below: Header, block: Header)
    requires WellStored(hs) && CanonicalTo(hs, canon, below)
    requires block.hash in hs && hs[block.hash] == block
    requires block.number == below.number + 1 && block.parent == below.hash
    ensures CanonicalTo(hs, canon[block.number := block.hash], block)
  {
  }

  /** An index that agrees up to a number is canonical up to it. */
  lemma CanonicalAgree(hs: Headers, canon: Index, other: Index, head: Header)
    requires CanonicalTo(hs, canon, head)
    requires forall n: nat | n <= head.number :: n in other && other[n] == canon[n]
    ensures CanonicalTo(hs, other, head)
  {
  }

  // ----- transaction lookup

  type Bodies = map<Hash, seq<Tx>>
  type Lookup = map<Tx, nat>

  function Body(bodies: Bodies, h: Hash): seq<Tx> {
    if h in bodies then bodies[h] else []
  }

  function WriteLookups(lookup: Lookup, txs: seq<Tx>, number: nat): Lookup {
    lookup + map tx | tx in txs :: number
  }

  /** The lookup after the blocks chain[|chain| - 1], ..., chain[i] became heads one after another. */
  ghost function Promote(lookup: Lookup, bodies: Bodies, chain: seq<Header>, i: nat): Lookup
    decreases |chain| - i
  {
    if i >= |chain| then lookup
    else WriteLookups(Promote(lookup, bodies, chain, i + 1), Body(bodies, chain[i].hash), chain[i].number)
  }

  ghost function Transactions(bodies: Bodies, chain: seq<Header>): set<Tx> {
    set i, tx | 0 <= i < |chain| && tx in Body(bodies, chain[i].hash) :: tx
  }

  /** No path of the block tree contains a transaction twice. */
  ghost predicate NoRepeats(hs: Headers, bodies: Bodies) {
    forall h: Hash, m: nat, n: nat | m != n && AncestorAt(hs, h, m).Some? && AncestorAt(hs, h, n).Some? ::
      DisjointBodies(bodies, AncestorAt(hs, h, m).value, AncestorAt(hs, h, n).value)
  }

  ghost predicate DisjointBodies(bodies: Bodies, a: Hash, b: Hash) {
    forall tx | tx in Body(bodies, a) :: tx !in Body(bodies, b)
  }

  /** Every transaction of a canonical block is looked up at its number. */
  ghost predicate LookupComplete(bodies: Bodies, canon: Index, tip: Header, lookup: Lookup) {
    forall n: nat, tx | n <= tip.number && n in canon && tx in Body(bodies, canon[n]) :: tx in lookup && lookup[tx] == n
  }

  /** Every lookup names a canonical block that contains the transaction. */
  ghost predicate LookupSound(bodies: Bodies, canon: Index, tip: Header, lookup: Lookup) {
    forall tx | tx in lookup :: lookup[tx] <= tip.number && lookup[tx] in canon && tx in Body(bodies, canon[lookup[tx]])
  }

  /** The ancestors of the top of a segment are the blocks of the segment and the ancestors of its bottom. */
  lemma {:induction false} SegmentAncestor(hs: Headers, top: Header, chain: seq<Header>, bottom: Header, i: nat, n: nat)
    requires Segment(hs, top, chain, bottom) && top.hash in hs && hs[top.hash] == top
    requires i <= |chain|
    requires n <= if i < |chain| then chain[i].number else bottom.number
    ensures AncestorAt(hs, top.hash, n) == AncestorAt(hs, if i < |chain| then chain[i].hash else bottom.hash, n)
  {
    if i > 0 {
      SegmentAncestor(hs, top, chain, bottom, i - 1, n);
    }
  }

  /** Two blocks have an ancestor in common at a number. */
  ghost predicate MeetAt(hs: Headers, a: Header, b: Header, n: nat) {
    AncestorAt(hs, a.hash, n).Some? && AncestorAt(hs, a.hash, n) == AncestorAt(hs, b.hash, n)
  }

  /** Two segments down to one block meet there. */
  lemma SegmentsMeet(hs: Headers, a: Header, aChain: seq<Header>, b: Header, bChain: seq<Header>, bottom: Header)
    requires Segment(hs, a, aChain, bottom) && Segment(hs, b, bChain, bottom)
    requires a.hash in hs && hs[a.hash] == a && b.hash in hs && hs[b.hash] == b
    ensures MeetAt(hs, a, b, bottom.number)
  {
    SegmentAncestor(hs, a, aChain, bottom, |aChain|, bottom.number);
    SegmentAncestor(hs, b, bChain, bottom, |bChain|, bottom.number);
  }

  lemma NoneAbove(hs: Headers, h: Header, n: nat)
    requires h.hash in hs && hs[h.hash] == h
    ensures n > h.number ==> AncestorAt(hs, h.hash, n).None?
  {
  }

  /** A path that ends above the other block before it reaches its number meets it nowhere. */
  lemma BrokenAbove(hs: Headers, a: Header, chain: seq<Header>, last: Header, b: Header, n: nat)
    requires Segment(hs, a, chain, last) && a.hash in hs && hs[a.hash] == a && b.hash in hs && hs[b.hash] == b
    requires last.number > b.number && GetHeader(hs, last.parent, last.number - 1).None?
    ensures !MeetAt(hs, a, b, n) && !MeetAt(hs, b, a, n)
  {
    NoneAbove(hs, b, n);
    if n <= b.number {
      SegmentAncestor(hs, a, chain, last, |chain|, n);
    }
  }

  /** Where a block of a segment stands among the ancestors of its top. */
  lemma OnSegment(hs: Headers, top: Header, chain: seq<Header>, bottom: Header, n: nat)
    requires Segment(hs, top, chain, bottom) && top.hash in hs && hs[top.hash] == top && bottom.number < n <= top.number
    ensures AncestorAt(hs, top.hash, n) == Some(chain[top.number - n].hash) && chain[top.number - n].number == n
  {
    SegmentAncestor(hs, top, chain, bottom, top.number - n, n);
  }

  /** Two paths that differ at every number down to a block without a parent meet nowhere. */
  lemma BrokenFork(
      hs: Headers, a: Header, aChain: seq<Header>, x: Header, b: Header, bChain: seq<Header>, y: Header, n: nat)
    requires Segment(hs, a, aChain, x) && Segment(hs, b, bChain, y) && x.number == y.number && x.hash != y.hash
    requires a.hash in hs && hs[a.hash] == a && b.hash in hs && hs[b.hash] == b
    requires x.number > 0 ==> GetHeader(hs, x.parent, x.number - 1).None? || GetHeader(hs, y.parent, y.number - 1).None?
    requires forall i, j | 0 <= i < |aChain| && 0 <= j < |bChain| && aChain[i].number == bChain[j].number ::
      aChain[i].hash != bChain[j].hash
    ensures !MeetAt(hs, a, b, n)
  {
    NoneAbove(hs, a, n);
    NoneAbove(hs, b, n);
    if n <= x.number {
      SegmentAncestor(hs, a, aChain, x, |aChain|, n);
      SegmentAncestor(hs, b, bChain, y, |bChain|, n);
    } else if n <= a.number && n <= b.number {
      OnSegment(hs, a, aChain, x, n);
      OnSegment(hs, b, bChain, y, n);
    }
  }

  /**
   Two different blocks of one path share no transaction: within the segment, and against the canonical part below.
   */
  lemma SegmentDisjoint(hs: Headers, bodies: Bodies, canon: Index, top: Header, chain: seq<Header>, bottom: Header)
    requires Segment(hs, top, chain, bottom) && top.hash in hs && hs[top.hash] == top
    requires CanonicalTo(hs, canon, bottom) && NoRepeats(hs, bodies)
    ensures forall i, j | 0 <= i < |chain| && 0 <= j < |chain| && i != j ::
      DisjointBodies(bodies, chain[i].hash, chain[j].hash)
    ensures forall i, n: nat | 0 <= i < |chain| && n <= bottom.number :: DisjointBodies(bodies, chain[i].hash, canon[n])
  {
    forall i | 0 <= i < |chain| ensures AncestorAt(hs, top.hash, chain[i].number) == Some(chain[i].hash) {
      SegmentAncestor(hs, top, chain, bottom, i, chain[i].number);
    }
    forall n: nat | n <= bottom.number ensures AncestorAt(hs, top.hash, n) == Some(canon[n]) {
      SegmentAncestor(hs, top, chain, bottom, |chain|, n);
      CanonicalIsAncestry(hs, canon, bottom, bottom.number, n);
    }
  }

  /** What promoting a chain without repeated transactions does to the lookup. */
  lemma {:induction false} PromoteEffect(lookup: Lookup, bodies: Bodies, chain: seq<Header>, i: nat)
    requires i <= |chain|
    requires forall j, k | 0 <= j < |chain| && 0 <= k < |chain| && j != k ::
      DisjointBodies(bodies, chain[j].hash, chain[k].hash)
    ensures forall j, tx | i <= j < |chain| && tx in Body(bodies, chain[j].hash) ::
      tx in Promote(lookup, bodies, chain, i) && Promote(lookup, bodies, chain, i)[tx] == chain[j].number
    ensures forall tx | (forall j | i <= j < |chain| :: tx !in Body(bodies, chain[j].hash)) ::
      (tx in Promote(lookup, bodies, chain, i) <==> tx in lookup)
        && (tx in lookup ==> Promote(lookup, bodies, chain, i)[tx] == lookup[tx])
    decreases |chain| - i
  {
    if i < |chain| {
      PromoteEffect(lookup, bodies, chain, i + 1);
      var below := Promote(lookup, bodies, chain, i + 1);
      forall j, tx | i < j < |chain| && tx in Body(bodies, chain[j].hash)
        ensures tx in Promote(lookup, bodies, chain, i) && Promote(lookup, bodies, chain, i)[tx] == chain[j].number
      {
        assert DisjointBodies(bodies, chain[j].hash, chain[i].hash);
        assert tx !in Body(bodies, chain[i].hash);
      }
    }
  }

  /** The index after the blocks of a chain from i on were written over an older one. */
  ghost predicate Overlaid(canon: Index, chain: seq<Header>, bottom: Header, i: nat, moved: Index) {
    && (forall n: nat | n <= bottom.number :: n in canon && n in moved && moved[n] == canon[n])
    && (forall j | i <= j < |chain| :: chain[j].number in moved && moved[chain[j].number] == chain[j].hash)
  }

  /** Where an entry of the moved index below its tip comes from. */
  lemma OverlaidCases(
      hs: Headers, canon: Index, top: Header, chain: seq<Header>, bottom: Header, i: nat, moved: Index, n: nat)
    requires Segment(hs, top, chain, bottom) && Overlaid(canon, chain, bottom, i, moved)
    requires i < |chain| && bottom.number < n <= chain[i].number
    ensures n in moved && i <= top.number - n < |chain|
    ensures chain[top.number - n].number == n && moved[n] == chain[top.number - n].hash
  {
    var j := top.number - n;
    assert chain[j].number == n;
  }

  /** Promoting part of a new chain keeps every canonical transaction looked up. */
  lemma PromotedComplete(hs: Headers, bodies: Bodies, canon: Index, top: Header, chain: seq<Header>, bottom: Header,
                         i: nat, moved: Index, lookup: Lookup, stale: set<Tx>)
    requires Segment(hs, top, chain, bottom) && top.hash in hs && hs[top.hash] == top
    requires CanonicalTo(hs, canon, bottom) && NoRepeats(hs, bodies)
    requires i < |chain| && Overlaid(canon, chain, bottom, i, moved)
    requires LookupComplete(bodies, canon, bottom, lookup)
    requires forall j, tx | 0 <= j < |chain| && tx in Body(bodies, chain[j].hash) :: tx !in stale
    requires forall n: nat, tx | n <= bottom.number && tx in Body(bodies, canon[n]) :: tx !in stale
    ensures LookupComplete(bodies, moved, chain[i], Promote(lookup, bodies, chain, i) - stale)
  {
    SegmentDisjoint(hs, bodies, canon, top, chain, bottom);
    PromoteEffect(lookup, bodies, chain, i);
    var after := Promote(lookup, bodies, chain, i) - stale;
    forall n: nat, tx | n <= chain[i].number && n in moved && tx in Body(bodies, moved[n])
      ensures tx in after && after[tx] == n
    {
      if n <= bottom.number {
        assert tx in Body(bodies, canon[n]);
        forall j | i <= j < |chain| ensures tx !in Body(bodies, chain[j].hash) {
          assert DisjointBodies(bodies, chain[j].hash, canon[n]);
        }
      } else {
        OverlaidCases(hs, canon, top, chain, bottom, i, moved, n);
      }
    }
  }

  /** A complete move of the head: the lookup stays exact. */
  lemma MovedSound(hs: Headers, bodies: Bodies, canon: Index, head: Header, oldChain: seq<Header>, common: Header,
                   top: Header, newChain: seq<Header>, moved: Index, lookup: Lookup)
    requires CanonicalTo(hs, canon, head) && Segment(hs, head, oldChain, common)
    requires Segment(hs, top, newChain, common) && newChain != [] && top.hash in hs && hs[top.hash] == top
    requires NoRepeats(hs, bodies) && Overlaid(canon, newChain, common, 0, moved)
    requires LookupSound(bodies, canon, head, lookup)
    ensures LookupSound(bodies, moved, top,
      Promote(lookup, bodies, newChain, 0) - (Transactions(bodies, oldChain) - Transactions(bodies, newChain)))
  {
    CanonicalBelow(hs, canon, head, oldChain, common);
    SegmentDisjoint(hs, bodies, canon, top, newChain, common);
    PromoteEffect(lookup, bodies, newChain, 0);
    var stale := Transactions(bodies, oldChain) - Transactions(bodies, newChain);
    var after := Promote(lookup, bodies, newChain, 0) - stale;
    forall tx | tx in after
      ensures after[tx] <= top.number && after[tx] in moved && tx in Body(bodies, moved[after[tx]])
    {
      hide Promote, CanonicalTo, NoRepeats;
      if j :| 0 <= j < |newChain| && tx in Body(bodies, newChain[j].hash) {
        assert after[tx] == newChain[j].number;
      } else {
        assert tx !in Transactions(bodies, newChain);
        assert tx in lookup && after[tx] == lookup[tx];
        DroppedTransaction(hs, bodies, canon, head, oldChain, common, lookup[tx], tx);
      }
    }
  }

  lemma DroppedTransaction(
      hs: Headers, bodies: Bodies, canon: Index, head: Header, oldChain: seq<Header>, common: Header, n: nat, tx: Tx)
    requires CanonicalTo(hs, canon, head) && Segment(hs, head, oldChain, common)
    requires n <= head.number && tx in Body(bodies, canon[n])
    ensures n > common.number ==> tx in Transactions(bodies, oldChain)
  {
    if n > common.number {
      SegmentIsCanonical(hs, canon, head, oldChain, common, head.number - n);
      assert tx in Body(bodies, oldChain[head.number - n].hash);
    }
  }

  /** What a complete move removes from the lookup is on neither the new chain nor the common part. */
  lemma StaleOutside(
      hs: Headers, bodies: Bodies, canon: Index, head: Header, oldChain: seq<Header>, common: Header,
      newChain: seq<Header>)
    requires CanonicalTo(hs, canon, head) && Segment(hs, head, oldChain, common) && NoRepeats(hs, bodies)
    ensures CanonicalTo(hs, canon, common)
    ensures var stale := Transactions(bodies, oldChain) - Transactions(bodies, newChain);
      && (forall j, tx | 0 <= j < |newChain| && tx in Body(bodies, newChain[j].hash) :: tx !in stale)
      && (forall n: nat, tx | n <= common.number && tx in Body(bodies, canon[n]) :: tx !in stale)
  {
    CanonicalBelow(hs, canon, head, oldChain, common);
    SegmentDisjoint(hs, bodies, canon, head, oldChain, common);
    forall n: nat, tx | n <= common.number && tx in Body(bodies, canon[n])
      ensures tx !in Transactions(bodies, oldChain)
    {
      forall i | 0 <= i < |oldChain| ensures tx !in Body(bodies, oldChain[i].hash) {
        assert DisjointBodies(bodies, oldChain[i].hash, canon[n]);
      }
    }
  }
}
