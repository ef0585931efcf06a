/**
 Where a reorganisation stops (core/blockchain.go: reorg), in the terms of the executed-block markers: the head it
 leaves behind is one of the blocks that Execution allows a stopped adoption to leave.
 */
module HeadStops {
  import opened Chain
  import opened HeadChain
  import opened BlockChain
  import E = Execution

  /** The stored blocks as the markers see them. */
  function Stored(hs: Headers): map<Hash, E.Block> {
    map h | h in hs :: E.Block(hs[h].number, hs[h].root, hs[h].parent)
  }

  lemma {:induction false} AncestorBelow(hs: Headers, p: Hash, h: Hash)
    requires E.Ancestor(Stored(hs), p, h)
    ensures p in hs && h in hs && hs[p].number < hs[h].number
    decreases if h in hs then hs[h].number else 0
  {
    if hs[h].parent != p {
      AncestorBelow(hs, p, hs[h].parent);
    }
  }

  /** A block of a segment is an ancestor of those above it. */
  lemma {:induction false} SegmentDescends(hs: Headers, top: Header, chain: seq<Header>, bottom: Header, i: nat, j: nat)
    requires Segment(hs, top, chain, bottom) && i < j < |chain|
    ensures E.Ancestor(Stored(hs), chain[j].hash, chain[i].hash)
    decreases j - i
  {
    if i + 1 < j {
      SegmentDescends(hs, top, chain, bottom, i + 1, j);
    }
  }

  /** The ancestors of a block of a segment above its bottom are blocks of the segment. */
  lemma {:induction false} AncestorOnSegment(
      hs: Headers, top: Header, chain: seq<Header>, bottom: Header, i: nat, p: Hash) returns (j: nat)
    requires Segment(hs, top, chain, bottom) && i <= |chain|
    requires E.Ancestor(Stored(hs), p, if i < |chain| then chain[i].hash else bottom.hash)
    requires p in hs && hs[p].number > bottom.number
    ensures i < j < |chain| && chain[j].hash == p
    decreases |chain| - i
  {
    AncestorBelow(hs, p, if i < |chain| then chain[i].hash else bottom.hash);
    j := i + 1;
    if chain[i].parent != p {
      j := AncestorOnSegment(hs, top, chain, bottom, i + 1, p);
    }
  }

  /** A reorganisation that stops on a promoted block leaves the head where a stopped adoption may. */
  lemma StopIsPromotable(hs: Headers, head: Header, top: Header, r: Reorganisation, s: E.Store)
    requires s.blocks == Stored(hs) && s.head == head.hash && head.hash in hs && hs[head.hash] == head
    requires r.Reorganisation? && 0 < r.reached < |r.newChain| && Forked(r.oldChain, r.newChain)
    requires Segment(hs, head, r.oldChain, r.common) && Segment(hs, top, r.newChain, r.common)
    ensures E.Promotable(s, r.newChain[r.reached].hash, top.hash)
    ensures E.AdoptHead(s, top.hash, E.StoppedAt(r.newChain[r.reached].hash)).head == r.newChain[r.reached].hash
  {
    var p := r.newChain[r.reached];
    SegmentDescends(hs, top, r.newChain, r.common, 0, r.reached);
    NewBlockIsNew(hs, head, top, r);
    if E.Ancestor(s.blocks, p.hash, head.hash) {
      var j := AncestorOnSegment(hs, head, r.oldChain, r.common, 0, p.hash);
      assert false;
    }
  }
}
