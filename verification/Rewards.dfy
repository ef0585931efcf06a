/**
 The rewards of a checkpoint (contracts/utils.go: the counting in GetRewardForCheckpoint,
 CalculateRewardForSigner and GetRewardBalancesRate).
 */
module Rewards {
  import opened Sums
  import opened Division

  type Address = nat

  /** common/constants.go. */
  const MERGE_SIGN_RANGE := 15
  const MASTER_PERCENT := 90
  const VOTER_PERCENT := 0
  const FOUNDATION_PERCENT := 10

  // ----- counting signatures

  /** Who signed each block, who was a masternode, and from which block on only every 15th block counts. */
  datatype Epoch = Epoch(signed: map<nat, seq<Address>>, masternodes: seq<Address>, tip2019: nat)
  {
    predicate Counts(block: nat) { block % MERGE_SIGN_RANGE == 0 || block < tip2019 }

    function SignersOf(block: nat): seq<Address> { if block in signed then signed[block] else [] }

    /** Whether a signature of an account on a block counts. */
    predicate Valid(block: nat, a: Address) { Counts(block) && a in masternodes && a in SignersOf(block) }
  }

  /** The number of blocks from lo up to but without hi on which the signature of an account counts. */
  function Signatures(e: Epoch, a: Address, lo: nat, hi: nat): nat
    requires lo <= hi
    decreases hi - lo
  {
    if lo == hi then 0 else Signatures(e, a, lo, hi - 1) + if e.Valid(hi - 1, a) then 1 else 0
  }

  /** The masternodes that signed a block, each once however often it is listed. */
  method BlockSigners(e: Epoch, block: nat) returns (found: set<Address>)
    ensures forall a :: a in found <==> a in e.masternodes && a in e.SignersOf(block)
  {
    found := {};
    var addrs := e.SignersOf(block);
    for i := 0 to |e.masternodes|
      invariant forall a :: a in found <==> a in e.masternodes[..i] && a in addrs
    {
      var masternode, j := e.masternodes[i], 0;
      while j < |addrs|
        invariant 0 <= j <= |addrs| && masternode !in addrs[..j]
        invariant forall a :: a in found <==> a in e.masternodes[..i] && a in addrs
      {
        if addrs[j] == masternode {
          break;
        }
        j := j + 1;
      }
      if j < |addrs| {
        found := found + {masternode};
      }
      assert e.masternodes[..i + 1] == e.masternodes[..i] + [masternode];
      assert addrs[..|addrs|] == addrs;
    }
    assert e.masternodes[..|e.masternodes|] == e.masternodes;
  }

  /** One more signature for every one of some accounts. */
  method Credit(signs: map<Address, nat>, total: nat, who: set<Address>) returns (after: map<Address, nat>, more: nat)
    requires TotalOf(signs) == total
    ensures TotalOf(after) == more
    ensures forall a: Address :: ValueOf(after, a) == ValueOf(signs, a) + if a in who then 1 else 0
  {
    after, more := signs, total;
    var todo := who;
    while todo != {}
      invariant todo <= who && TotalOf(after) == more
      invariant forall a: Address :: ValueOf(after, a) == ValueOf(signs, a) + if a in who && a !in todo then 1 else 0
    {
      var a :| a in todo;
      todo := todo - {a};
      TotalWrite(after, a, ValueOf(after, a) + 1);
      after := after[a := ValueOf(after, a) + 1];
      more := more + 1;
    }
  }

  /**
   The counting loop over the blocks of an epoch: every masternode is credited with its counting signatures, and
   the total is the sum of the counts.
   */
  method CountSignatures(e: Epoch, first: nat, last: nat) returns (signs: map<Address, nat>, total: nat)
    requires first <= last + 1
    ensures forall a: Address :: ValueOf(signs, a) == Signatures(e, a, first, last + 1)
    ensures TotalOf(signs) == total
  {
    signs, total := map[], 0;
    assert TotalOf(signs) == 0;
    for block := first to last + 1
      invariant forall a: Address :: ValueOf(signs, a) == Signatures(e, a, first, block)
      invariant TotalOf(signs) == total
    {
      if block % MERGE_SIGN_RANGE == 0 || block < e.tip2019 {
        var found := BlockSigners(e, block);
        signs, total := Credit(signs, total, found);
      }
    }
  }

  // ----- sharing the reward

  function RewardOf(chainReward: nat, signs: map<Address, nat>, total: nat, a: Address): nat
    requires total > 0
  {
    NonNegative(chainReward, total);
    chainReward / total * ValueOf(signs, a)
  }

  method CalculateRewardForSigner(
      chainReward: nat, signs: map<Address, nat>, total: nat) returns (rewards: map<Address, nat>)
    ensures total == 0 ==> rewards == map[]
    ensures total > 0 ==> rewards.Keys == signs.Keys && forall a | a in signs ::
      rewards[a] == RewardOf(chainReward, signs, total, a)
  {
    rewards := map[];
    if total == 0 {
      return;
    }
    var todo := signs.Keys;
    while todo != {}
      invariant todo <= signs.Keys && rewards.Keys == signs.Keys - todo
      invariant forall a | a in rewards :: rewards[a] == RewardOf(chainReward, signs, total, a)
    {
      var a :| a in todo;
      todo := todo - {a};
      NonNegative(chainReward, total);
      rewards := rewards[a := chainReward / total * signs[a]];
    }
  }

  lemma {:induction false} ScaledSum(s: set<Address>, k: nat, f: Address -> int, g: Address -> int)
    requires forall a | a in s :: g(a) == k * f(a)
    ensures Sum(s, g) == k * Sum(s, f)
    decreases s
  {
    if s != {} {
      var a :| a in s;
      SumRemove(s, f, a);
      SumRemove(s, g, a);
      ScaledSum(s - {a}, k, f, g);
      Distribute(k, f(a), Sum(s - {a}, f));
    }
  }

  /**
   The rewards of all signers sum to at most the chain reward, and what is left is less than the number of signatures.
   */
  lemma RewardsSum(chainReward: nat, signs: map<Address, nat>, total: nat, rewards: map<Address, nat>)
    requires total > 0 && TotalOf(signs) == total && rewards.Keys == signs.Keys
    requires forall a | a in signs :: rewards[a] == RewardOf(chainReward, signs, total, a)
    ensures TotalOf(rewards) <= chainReward < TotalOf(rewards) + total
  {
    ScaledSum(signs.Keys, chainReward / total, (a: Address) => ValueOf(signs, a), (a: Address) => ValueOf(rewards, a));
    Floor(chainReward, total);
  }

  // ----- splitting the reward of a signer

  /** The accounts a signer's reward goes to; the capacity of a voter is what it voted with. */
  datatype Split = Split(owner: Address, foundation: Address, voters: seq<Address>, caps: map<Address, nat>,
                         tip2019: bool, tiered: bool)

  function Percent(reward: nat, percent: nat): nat { MulDiv(reward, percent, 100) }

  /** The capacities of the voters, and their sum; before TIP2019 a voter listed twice is summed twice. */
  method VoterCaps(s: Split) returns (caps: map<Address, nat>, total: nat)
    ensures TotalOf(caps) <= total && (s.tip2019 ==> TotalOf(caps) == total)
    ensures forall a :: a in caps <==> a in s.voters
    ensures forall a | a in caps :: caps[a] == ValueOf(s.caps, a)
  {
    caps, total := map[], 0;
    assert TotalOf(caps) == 0;
    for i := 0 to |s.voters|
      invariant TotalOf(caps) <= total && (s.tip2019 ==> TotalOf(caps) == total)
      invariant forall a :: a in caps <==> a in s.voters[..i]
      invariant forall a | a in caps :: caps[a] == ValueOf(s.caps, a)
    {
      var voter := s.voters[i];
      assert s.voters[..i + 1] == s.voters[..i] + [voter];
      if voter in caps && s.tip2019 {
        continue;
      }
      var cap := ValueOf(s.caps, voter);
      TotalWrite(caps, voter, cap);
      total := total + cap;
      caps := caps[voter := cap];
    }
    assert s.voters[..|s.voters|] == s.voters;
  }

  /** Paying the voters by capacity gives away at most their part of the reward. */
  method PayVoters(
      balances: map<Address, nat>, caps: map<Address, nat>, total: nat, reward: nat) returns (after: map<Address, nat>)
    requires total > 0 && TotalOf(caps) <= total
    ensures TotalOf(balances) <= TotalOf(after) <= TotalOf(balances) + reward
    ensures forall a: Address :: ValueOf(balances, a) <= ValueOf(after, a)
    ensures reward == 0 ==> forall a: Address :: ValueOf(after, a) == ValueOf(balances, a)
    ensures balances.Keys <= after.Keys
  {
    after := balances;
    var todo := caps.Keys;
    ghost var paid: nat, weight: nat := 0, 0;
    ghost var left := caps;
    while todo != {}
      invariant todo == left.Keys && (forall a | a in left :: a in caps && left[a] == caps[a])
      invariant TotalOf(after) == TotalOf(balances) + paid && paid * total <= reward * weight
        && weight + TotalOf(left) == TotalOf(caps)
      invariant forall a: Address :: ValueOf(balances, a) <= ValueOf(after, a)
      invariant reward == 0 ==> paid == 0 && forall a: Address :: ValueOf(after, a) == ValueOf(balances, a)
      invariant balances.Keys <= after.Keys
    {
      var a :| a in todo;
      todo := todo - {a};
      TotalRemove(left, a);
      left := left - {a};
      weight := weight + caps[a];
      if caps[a] > 0 {
        var share := MulDiv(reward, caps[a], total);
        ShareFits(reward, weight - caps[a], paid, caps[a], total, share);
        TotalWrite(after, a, ValueOf(after, a) + share);
        after := after[a := ValueOf(after, a) + share];
        paid := paid + share;
      }
    }
    TotalNonNegative(left);
    PaidAtMost(paid, reward, weight, total);
  }

  lemma TotalRemove(m: map<Address, nat>, a: Address)
    requires a in m
    ensures TotalOf(m - {a}) == TotalOf(m) - m[a]
  {
    var rest := m - {a};
    assert rest.Keys == m.Keys - {a};
    SumRemove(m.Keys, (k: Address) => ValueOf(m, k), a);
    SumCongruence(rest.Keys, (k: Address) => ValueOf(m, k), (k: Address) => ValueOf(rest, k));
  }

  lemma ShareFits(reward: nat, weight: nat, paid: nat, cap: nat, total: nat, share: nat)
    requires total > 0 && paid * total <= reward * weight && share == MulDiv(reward, cap, total)
    ensures (paid + share) * total <= reward * (weight + cap)
    ensures reward == 0 ==> share == 0
  {
    Distribute(total, paid, share);
    Distribute(reward, weight, cap);
    if reward == 0 {
      Below(reward * cap, total, 1);
    }
  }

  lemma PaidAtMost(paid: nat, reward: nat, weight: nat, total: nat)
    requires total > 0 && paid * total <= reward * weight && weight <= total
    ensures paid <= reward
  {
    if reward > 0 {
      MulOrder(weight, total, reward);
    }
    MulOrder(paid, reward, total);
  }

  /** How the parts add up: 90% and 10%, each rounded down, lose at most one unit. */
  lemma PartsLoseOne(reward: nat)
    ensures reward - 1 <= Percent(reward, MASTER_PERCENT) + Percent(reward, FOUNDATION_PERCENT) <= reward
    ensures Percent(reward, VOTER_PERCENT) == 0
  {
    Below(reward * VOTER_PERCENT, 100, 1);
  }

  /**
   The split pays at most the reward. It loses at most one unit exactly when the foundation's part is added to what
   it already has, or the foundation does not own the signer, or there is no more than one unit to lose: before the
   tiered reward the foundation's part replaced what it had earned as an owner.
   */
  method GetRewardBalancesRate(s: Split, reward: nat) returns (balances: map<Address, nat>)
    ensures TotalOf(balances) <= reward
    ensures reward <= TotalOf(balances) + 1 <==> s.tiered || s.owner != s.foundation || reward <= 1
    ensures TotalOf(balances) ==
      Percent(reward, FOUNDATION_PERCENT)
        + if s.tiered || s.owner != s.foundation then Percent(reward, MASTER_PERCENT) else 0
    ensures ValueOf(balances, s.foundation) >= Percent(reward, FOUNDATION_PERCENT)
  {
    PartsLoseOne(reward);
    hide MulDiv;
    balances := map[];
    assert TotalOf(balances) == 0;
    var master := Percent(reward, MASTER_PERCENT);
    TotalWrite(balances, s.owner, master);
    balances := balances[s.owner := master];
    if |s.voters| > 0 {
      var caps, total := VoterCaps(s);
      if total > 0 {
        balances := PayVoters(balances, caps, total, Percent(reward, VOTER_PERCENT));
      }
    }
    var part := Percent(reward, FOUNDATION_PERCENT);
    TotalWrite(balances, s.foundation, ValueOf(balances, s.foundation) + part);
    TotalWrite(balances, s.foundation, part);
    LessThanAll(reward);
    if s.tiered && s.foundation in balances {
      balances := balances[s.foundation := balances[s.foundation] + part];
    } else {
      balances := balances[s.foundation := part];
    }
  }

  /** A foundation that owns the signer got 10 of a reward of 100 and lost the other 90. */
  method FoundationLosesPart() returns (balances: map<Address, nat>)
    ensures TotalOf(balances) == 10
  {
    balances := GetRewardBalancesRate(Split(1, 1, [], map[], false, false), 100);
  }

  lemma LessThanAll(reward: nat)
    ensures reward > 1 ==> Percent(reward, FOUNDATION_PERCENT) + 1 < reward
  {
  }
}
