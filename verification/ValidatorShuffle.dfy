/** The assignment of second validators by a shuffle (contracts/utils.go: GenM2FromRandomize). */
module ValidatorShuffle {

  function Identity(n: nat): (s: seq<nat>)
    ensures |s| == n && forall i | 0 <= i < n :: s[i] == i
  {
    seq(n, i requires 0 <= i => i)
  }

  /** Where a random index for position i lies: below i, except for the last position left. */
  function Bound(i: nat): nat { if i <= 1 then 1 else i }

  /** A random index for every position. */
  ghost predicate Stream(choices: seq<nat>) {
    forall i | 0 <= i < |choices| :: choices[i] < Bound(i)
  }

  /** What stays when the last entry and the entry at r have changed places and the last one leaves. */
  function Dropped(list: seq<nat>, r: nat): (s: seq<nat>)
    requires r < |list|
    ensures |s| == |list| - 1
  {
    list[r := list[|list| - 1]][..|list| - 1]
  }

  /** The last entry changes places with a chosen one and leaves the list, until the list is empty. */
  function Shuffle(list: seq<nat>, choices: seq<nat>): (s: seq<nat>)
    requires |list| <= |choices| && Stream(choices)
    ensures |s| == |list|
    decreases |list|
  {
    if list == [] then []
    else
      var i := |list| - 1;
      var r := choices[i];
      Shuffle(Dropped(list, r), choices) + [list[r]]
  }

  /** A list with its entries looked up in another. */
  function Through(list: seq<nat>, s: seq<nat>): seq<nat>
    requires forall k | 0 <= k < |s| :: s[k] < |list|
  {
    seq(|s|, k requires 0 <= k < |s| => list[s[k]])
  }

  ghost predicate Indexes(s: seq<nat>) {
    forall k | 0 <= k < |s| :: s[k] < |s|
  }

  /** The shuffle moves entries by position only, whatever they are. */
  lemma {:induction false} ShuffleMovesPositions(list: seq<nat>, choices: seq<nat>)
    requires |list| <= |choices| && Stream(choices)
    ensures Indexes(Shuffle(Identity(|list|), choices))
    ensures Shuffle(list, choices) == Through(list, Shuffle(Identity(|list|), choices))
    decreases |list|
  {
    if list != [] {
      var i := |list| - 1;
      var r := choices[i];
      ShuffleMovesPositions(Dropped(list, r), choices);
      ShuffleMovesPositions(Dropped(Identity(i + 1), r), choices);
      ShuffleOnce(list, choices);
      ShuffleOnce(Identity(i + 1), choices);
      hide Shuffle;
      ThroughExtends(list, Shuffle(Identity(i), choices), r);
    }
  }

  lemma ShuffleOnce(list: seq<nat>, choices: seq<nat>)
    requires 0 < |list| <= |choices| && Stream(choices)
    ensures var i := |list| - 1;
      Shuffle(list, choices) == Shuffle(Dropped(list, choices[i]), choices) + [list[choices[i]]]
  {
  }

  lemma ThroughExtends(list: seq<nat>, s: seq<nat>, r: nat)
    requires |list| == |s| + 1 && Indexes(s) && r < |list|
    ensures var t := Through(Dropped(Identity(|list|), r), s) + [r];
      Indexes(t) && Through(list, t) == Through(Dropped(list, r), s) + [list[r]]
  {
  }

  /** The shuffle of one more entry: whatever went to the chosen index now goes to the new one, which goes there. */
  lemma ShuffleExtends(i: nat, choices: seq<nat>)
    requires 0 < i < |choices| && Stream(choices)
    ensures var s, t := Shuffle(Identity(i), choices), Shuffle(Identity(i + 1), choices);
      && Indexes(s) && t[i] == choices[i]
      && forall k | 0 <= k < i :: t[k] == if s[k] == choices[i] then i else s[k]
  {
    ShuffleMovesPositions(Dropped(Identity(i + 1), choices[i]), choices);
    ShuffleOnce(Identity(i + 1), choices);
    hide Shuffle;
  }

  // ----- a single cycle

  ghost predicate Closed(s: seq<nat>, c: set<nat>) {
    forall p | p in c :: p < |s| && s[p] in c
  }

  ghost predicate Permutation(s: seq<nat>) {
    && Indexes(s)
    && (forall i, j | 0 <= i < j < |s| :: s[i] != s[j])
    && (forall v: nat | v < |s| :: v in s)
  }

  /** The only sets of positions that following the assignment never leaves are none and all. */
  ghost predicate SingleCycle(s: seq<nat>) {
    forall c: set<nat>, p: nat | Closed(s, c) && c != {} && p < |s| :: p in c
  }

  lemma ExtendedPermutation(s: seq<nat>, t: seq<nat>, r: nat)
    requires Permutation(s) && |t| == |s| + 1 && r < |s| && t[|s|] == r
    requires forall k | 0 <= k < |s| :: t[k] == if s[k] == r then |s| else s[k]
    ensures Permutation(t)
  {
    var n := |s|;
    forall v: nat | v < |t| ensures v in t {
      if v == r {
        assert t[n] == v;
      } else {
        var w := if v == n then r else v;
        assert w in s;
        var k :| 0 <= k < n && s[k] == w;
        assert t[k] == v;
      }
    }
  }

  lemma ExtendedCycle(s: seq<nat>, t: seq<nat>, r: nat)
    requires Permutation(s) && SingleCycle(s) && |t| == |s| + 1 && r < |s| && t[|s|] == r
    requires forall k | 0 <= k < |s| :: t[k] == if s[k] == r then |s| else s[k]
    ensures SingleCycle(t)
  {
    var n := |s|;
    assert r in s;
    var k :| 0 <= k < n && s[k] == r;
    forall c: set<nat>, p: nat | Closed(t, c) && c != {} && p <= n ensures p in c {
      InnerClosed(s, t, r, c);
      CycleHolds(s, c - {n}, k);
      assert t[k] in c;
      if p < n {
        CycleHolds(s, c - {n}, p);
      }
    }
  }

  lemma InnerClosed(s: seq<nat>, t: seq<nat>, r: nat, c: set<nat>)
    requires Indexes(s) && |t| == |s| + 1 && r < |s| && t[|s|] == r && Closed(t, c) && c != {}
    requires forall k | 0 <= k < |s| :: t[k] == if s[k] == r then |s| else s[k]
    ensures Closed(s, c - {|s|}) && c - {|s|} != {}
  {
    var n := |s|;
    forall p | p in c - {n} ensures p < n && s[p] in c - {n} {
      assert t[p] in c;
      if s[p] == r {
        assert t[n] in c;
      }
    }
    var p :| p in c;
    assert p == n ==> t[n] in c - {n};
  }

  /** For every random stream the shuffle of 0 to n-1 is a permutation with a single cycle. */
  lemma {:induction false} ShuffleIsSingleCycle(n: nat, choices: seq<nat>)
    requires 0 < n <= |choices| && Stream(choices)
    ensures Permutation(Shuffle(Identity(n), choices)) && SingleCycle(Shuffle(Identity(n), choices))
    decreases n
  {
    if n == 1 {
      var s := Shuffle(Identity(1), choices);
      assert choices[0] == 0 && Identity(1)[0 := Identity(1)[0]][..0] == [];
      assert s == [0];
      forall c: set<nat>, p: nat | Closed(s, c) && c != {} && p < 1 ensures p in c {
        var q :| q in c;
      }
    } else {
      ShuffleIsSingleCycle(n - 1, choices);
      ShuffleExtends(n - 1, choices);
      ExtendedPermutation(Shuffle(Identity(n - 1), choices), Shuffle(Identity(n), choices), choices[n - 1]);
      ExtendedCycle(Shuffle(Identity(n - 1), choices), Shuffle(Identity(n), choices), choices[n - 1]);
    }
  }

  lemma CycleHolds(s: seq<nat>, c: set<nat>, p: nat)
    requires SingleCycle(s) && p < |s|
    ensures Closed(s, c) && c != {} ==> p in c
  {
  }

  /** So with two or more entries none is assigned to itself. */
  lemma NoFixedPoint(s: seq<nat>, i: nat)
    requires SingleCycle(s) && |s| >= 2 && i < |s|
    ensures s[i] != i
  {
    var other := if i == 0 then 1 else 0;
    CycleHolds(s, {i}, other);
    assert other !in {i};
  }

  function Follow(s: seq<nat>, i: nat, k: nat): (p: nat)
    requires i < |s| && forall j | 0 <= j < |s| :: s[j] < |s|
    ensures p < |s|
    decreases k
  {
    if k == 0 then i else s[Follow(s, i, k - 1)]
  }

  /** And following the assignment from any position reaches every other. */
  lemma ReachesAll(s: seq<nat>, i: nat, j: nat) returns (k: nat)
    requires Permutation(s) && SingleCycle(s) && i < |s| && j < |s|
    ensures Follow(s, i, k) == j
  {
    var orbit := set p | p in s && exists k: nat :: Follow(s, i, k) == p;
    assert Follow(s, i, 0) == i;
    forall p | p in orbit ensures p < |s| && s[p] in orbit {
      var k: nat :| Follow(s, i, k) == p;
      assert Follow(s, i, k + 1) == s[p];
    }
    assert Closed(s, orbit);
    assert i in s && i in orbit;
    CycleHolds(s, orbit, j);
    k :| Follow(s, i, k) == j;
  }

  /** What the protocol relies on: everyone is assigned once, and with two or more nobody to themselves. */
  ghost predicate Fair(s: seq<nat>) {
    Permutation(s) && (|s| >= 2 ==> SingleCycle(s) && forall i | 0 <= i < |s| :: s[i] != i)
  }

  lemma ShuffleIsFair(n: nat, choices: seq<nat>)
    requires n <= |choices| && Stream(choices)
    ensures Fair(Shuffle(Identity(n), choices))
  {
    var s := Shuffle(Identity(n), choices);
    if n > 0 {
      ShuffleIsSingleCycle(n, choices);
      hide Shuffle, Permutation, SingleCycle;
      forall i | 0 <= i < n && n >= 2 ensures s[i] != i {
        NoFixedPoint(s, i);
      }
    }
  }

  // ----- the shuffle in place

  method GenM2FromRandomize(choices: seq<nat>, signers: nat) returns (m2: array<nat>)
    requires |choices| == signers && Stream(choices)
    ensures fresh(m2) && m2[..] == Shuffle(Identity(signers), choices) && Fair(m2[..])
  {
    hide Shuffle, Fair;
    ghost var whole := Shuffle(Identity(signers), choices);
    ShuffleIsFair(signers, choices);
    var block := Identity(signers);
    m2 := new nat[signers];
    var i := signers;
    assert whole[..signers] == whole;
    while i > 0
      invariant 0 <= i <= signers == m2.Length && |block| == i
      invariant Shuffle(block, choices) == whole[..i]
      invariant forall k | i <= k < signers :: m2[k] == whole[k]
    {
      ShuffledBefore(block, choices, whole);
      i := i - 1;
      var randomIndex := choices[i];
      var temp := block[randomIndex];
      ghost var kept := Dropped(block, randomIndex);
      block := block[randomIndex := block[i]];
      block := block[i := temp];
      block := block[..i];
      assert block == kept;
      m2[i] := temp;
    }
    assert m2[..] == whole;
  }

  /** One round of the loop settles the last entry and leaves the shuffle of the rest. */
  lemma ShuffledBefore(block: seq<nat>, choices: seq<nat>, whole: seq<nat>)
    requires 0 < |block| <= |choices| && Stream(choices) && |block| <= |whole|
      && Shuffle(block, choices) == whole[..|block|]
    ensures var i := |block| - 1;
      Shuffle(Dropped(block, choices[i]), choices) == whole[..i] && whole[i] == block[choices[i]]
  {
    hide Shuffle, Dropped;
    var i := |block| - 1;
    ShuffleOnce(block, choices);
    LastOf(Shuffle(Dropped(block, choices[i]), choices), block[choices[i]], whole);
  }

  lemma LastOf(rest: seq<nat>, last: nat, whole: seq<nat>)
    requires |rest| < |whole| && rest + [last] == whole[..|rest| + 1]
    ensures rest == whole[..|rest|] && last == whole[|rest|]
  {
    assert whole[|rest|] == whole[..|rest| + 1][|rest|] == (rest + [last])[|rest|];
    forall k | 0 <= k < |rest| ensures rest[k] == whole[k] {
      assert whole[k] == whole[..|rest| + 1][k] == (rest + [last])[k];
    }
  }
}
