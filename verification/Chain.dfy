/**
 Stored headers, the ancestry they span, the canonical index over them and the fork-choice rule
 (core/blockchain.go).
 */
module Chain {
  import opened Options

  type Hash = nat
  type Root = nat

  datatype Header = Header(hash: Hash, number: nat, parent: Hash, difficulty: nat, root: Root)

  type Headers = map<Hash, Header>

  /** The canonical index: block number to hash. */
  type Index = map<nat, Hash>

  /** A header is stored under its own hash. */
  ghost predicate WellStored(hs: Headers) {
    forall h | h in hs :: hs[h].hash == h
  }

  /** GetHeader: the header with this hash, if it is stored with this number. */
  function GetHeader(hs: Headers, hash: Hash, number: int): Option<Header> {
    if hash in hs && hs[hash].number == number then Some(hs[hash]) else None
  }

  /** The ancestor of a block at a given number, following stored parents; the block is its own ancestor. */
  ghost function AncestorAt(hs: Headers, h: Hash, n: nat): Option<Hash>
    decreases if h in hs then hs[h].number else 0
  {
    if h !in hs || hs[h].number < n then None
    else if hs[h].number == n then Some(h)
    else
      match GetHeader(hs, hs[h].parent, hs[h].number - 1)
      case None => None
      case Some(p) => AncestorAt(hs, hs[h].parent, n)
  }

  /** The index holds the complete ancestor path of a header, from the header down to number zero. */
  ghost predicate CanonicalTo(hs: Headers, canon: Index, head: Header) {
    && head.hash in hs && hs[head.hash] == head
    && (forall n: nat | n <= head.number :: n in canon && canon[n] in hs && hs[canon[n]].number == n)
    && canon[head.number] == head.hash
    && (forall n: nat | 0 < n <= head.number :: hs[canon[n]].parent == canon[n - 1])
  }

  /** The numbers of the index have no gap. */
  ghost predicate Contiguous(canon: Index) {
    forall n: nat, m: nat | n in canon && m < n :: m in canon
  }

  /** Local parent links are enough: the index is exactly the ancestor path of the head. */
  lemma {:induction false} CanonicalIsAncestry(hs: Headers, canon: Index, head: Header, k: nat, n: nat)
    requires CanonicalTo(hs, canon, head) && n <= k <= head.number
    ensures AncestorAt(hs, canon[k], n) == Some(canon[n])
    decreases k
  {
    if n < k {
      CanonicalIsAncestry(hs, canon, head, k - 1, n);
    }
  }

  /** Conversely, an index that maps every number to the ancestor of the head is linked. */
  lemma AncestryIsCanonical(hs: Headers, canon: Index, head: Header)
    requires WellStored(hs)
    requires head.hash in hs && hs[head.hash] == head
    requires forall n: nat | n <= head.number :: n in canon && AncestorAt(hs, head.hash, n) == Some(canon[n])
    ensures CanonicalTo(hs, canon, head)
  {
    forall n: nat | n <= head.number ensures canon[n] in hs && hs[canon[n]].number == n {
      AncestorNumber(hs, head.hash, n);
    }
    forall n: nat | 0 < n <= head.number ensures hs[canon[n]].parent == canon[n - 1] {
      AncestorStep(hs, head.hash, n);
    }
  }

  lemma {:induction false} AncestorNumber(hs: Headers, h: Hash, n: nat)
    requires AncestorAt(hs, h, n).Some?
    ensures AncestorAt(hs, h, n).value in hs && hs[AncestorAt(hs, h, n).value].number == n
    decreases if h in hs then hs[h].number else 0
  {
    if hs[h].number > n {
      AncestorNumber(hs, hs[h].parent, n);
    }
  }

  lemma {:induction false} AncestorStep(hs: Headers, h: Hash, n: nat)
    requires n > 0 && AncestorAt(hs, h, n).Some? && AncestorAt(hs, h, n - 1).Some?
    ensures AncestorAt(hs, h, n).value in hs
    ensures hs[AncestorAt(hs, h, n).value].parent == AncestorAt(hs, h, n - 1).value
    decreases if h in hs then hs[h].number else 0
  {
    if hs[h].number > n {
      AncestorStep(hs, hs[h].parent, n);
    } else {
      assert AncestorAt(hs, hs[h].parent, n - 1) == Some(hs[h].parent);
    }
  }

  // ----- fork choice

  /** Higher total difficulty, or the same at a higher number; an unknown total never wins. */
  predicate BeatsHead(td: Option<nat>, headTd: Option<nat>, number: nat, headNumber: nat) {
    && td.Some? && headTd.Some? && number != 0
    && (td.value > headTd.value || (td.value == headTd.value && number > headNumber))
  }

  /** Every recorded total is the recorded total of the parent plus the own difficulty. */
  ghost predicate TotalsAddUp(hs: Headers, tds: map<Hash, nat>) {
    forall h | h in hs && h in tds && hs[h].number > 0 && GetHeader(hs, hs[h].parent, hs[h].number - 1).Some? ::
      hs[h].parent in tds && tds[h] == tds[hs[h].parent] + hs[h].difficulty
  }

  /** Totals never decrease along a chain. */
  lemma {:induction false} TotalsGrow(hs: Headers, tds: map<Hash, nat>, h: Hash, n: nat)
    requires TotalsAddUp(hs, tds) && h in tds
    requires AncestorAt(hs, h, n).Some?
    ensures AncestorAt(hs, h, n).value in tds && tds[AncestorAt(hs, h, n).value] <= tds[h]
    decreases if h in hs then hs[h].number else 0
  {
    if hs[h].number > n {
      TotalsGrow(hs, tds, hs[h].parent, n);
    }
  }

  /** A block that wins fork choice is never the head or an ancestor of it, so adopting it never only rewinds. */
  lemma WinnerIsNoAncestor(hs: Headers, tds: map<Hash, nat>, block: Hash, head: Hash)
    requires TotalsAddUp(hs, tds)
    requires block in hs && head in hs && block in tds && head in tds
    requires BeatsHead(Some(tds[block]), Some(tds[head]), hs[block].number, hs[head].number)
    ensures AncestorAt(hs, head, hs[block].number) != Some(block)
  {
    AncestorNotAbove(hs, head, hs[block].number);
    if AncestorAt(hs, head, hs[block].number).Some? {
      TotalsGrow(hs, tds, head, hs[block].number);
    }
  }

  lemma AncestorNotAbove(hs: Headers, h: Hash, n: nat)
    ensures AncestorAt(hs, h, n).Some? ==> h in hs && n <= hs[h].number
  {
  }
}
