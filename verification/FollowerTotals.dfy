/** The follow registry and the sharded follower counters, as their users see them. */
module FollowerTotals {
  import opened Keys
  import opened Records
  import opened Ledger
  import opened Instructions
  import opened Invariant
  import opened Frame
  import opened Runs

  /** Every registry that holds the channel. */
  function AllFollowers(info: Accounts, t: Key): set<Key> {
    set k | k in info && Follows(info, k, t)
  }

  /** Followers whose wallets map to the first `n` shards. */
  function FollowersBelow(info: Accounts, t: Key, n: nat): set<Key> {
    set k | k in info && Follows(info, k, t) && FollowerShardIndex(k.owner) < n
  }

  /** Sum of the first `n` shard counters. */
  function ShardSum(info: Accounts, t: Key, n: nat): nat {
    if n == 0 then 0 else ShardSum(info, t, n - 1) + FollowerCount(info, t, n - 1)
  }

  /** One more shard adds its own followers. */
  lemma BelowSplits(info: Accounts, t: Key, n: nat)
    requires n > 0
    ensures |FollowersBelow(info, t, n)| == |FollowersBelow(info, t, n - 1)| + |FollowerSet(info, t, n - 1)|
  {
    hide Follows, FollowerShardIndex;
    var low, top, all := FollowersBelow(info, t, n - 1), FollowerSet(info, t, n - 1), FollowersBelow(info, t, n);
    assert forall k :: k in all <==> k in low || k in top;
    assert all == low + top && low !! top;
  }

  lemma {:induction false} ShardSumCounts(info: Accounts, t: Key, n: nat)
    requires Followers(info)
    ensures ShardSum(info, t, n) == |FollowersBelow(info, t, n)|
  {
    hide FollowerSet, FollowerCount, Follows, FollowerShardIndex;
    if n == 0 {
      assert FollowersBelow(info, t, 0) == {};
    } else {
      ShardSumCounts(info, t, n - 1);
      BelowSplits(info, t, n);
      assert FollowerCount(info, t, n - 1) == |FollowerSet(info, t, n - 1)|;
    }
  }

  /** In every reachable state the eight shard counters of a channel add up to the number of
      wallets whose registries hold it. */
  lemma FollowerTotal(h: History, t: Key)
    requires Valid(h)
    ensures ShardSum(h.state.info, t, N_FOLLOWER_SHARDS) == |AllFollowers(h.state.info, t)|
  {
    ReachableInv(h);
    ShardSumCounts(h.state.info, t, N_FOLLOWER_SHARDS);
    assert FollowersBelow(h.state.info, t, N_FOLLOWER_SHARDS) == AllFollowers(h.state.info, t);
  }

  // ---- nobody is locked in ----

  lemma FollowedShard(s: State, wallet: Key, t: Key)
    requires Inv(s) && t in Channels(s.info, RegistryKey(wallet))
    ensures var f := FollowerKey(t, FollowerShardIndex(wallet));
            f in s.info && s.info[f].data.Follower? && s.info[f].data.count >= 1 && IsThread(s.info, t)
  {
    var r, j := RegistryKey(wallet), FollowerShardIndex(wallet);
    assert r in FollowerSet(s.info, t, j);
    assert FollowerCount(s.info, t, j) == |FollowerSet(s.info, t, j)|;
    assert Anchored(s.info, FollowerKey(t, j));
  }

  /** Unfollowing succeeds exactly for channels in the caller's registry: the counter shard is
      always there, bound to the channel, and positive, so it is never clamped. */
  lemma UnfollowIff(s: State, i: Instruction)
    requires Inv(s) && i.Unsubscribe?
    ensures UnsubscribeCheck(s, i).Done? <==> i.thread in Channels(s.info, RegistryKey(i.payer))
    ensures UnsubscribeCheck(s, i).Done? ==>
              s.info[FollowerKey(i.thread, FollowerShardIndex(i.payer))].data.count >= 1
  {
    var r, f := RegistryKey(i.payer), FollowerKey(i.thread, FollowerShardIndex(i.payer));
    if i.thread in Channels(s.info, r) {
      FollowedShard(s, i.payer, i.thread);
      assert TypedAt(r, s.info[r]);
      assert TypedAt(f, s.info[f]);
      assert TypedAt(i.thread, s.info[i.thread]);
    }
  }

  /** Keys that each hold a lamport are no more than the supply. */
  lemma {:induction false} HoldersWithinSupply(lam: Lamports, ks: set<Key>)
    requires forall k | k in ks :: lam[k] >= 1
    ensures |ks| <= |lam|
    decreases |ks|
  {
    if ks != {} {
      var k :| k in ks;
      HoldersWithinSupply(lam[k := 0], ks - {k});
    }
  }

  lemma OneMoreHolder(lam: Lamports, ks: set<Key>, k: Key)
    requires k !in ks && lam[k] >= 1 && forall x | x in ks :: lam[x] >= 1
    ensures |ks| + 1 <= |lam|
  {
    HoldersWithinSupply(lam, ks + {k});
  }

  /** The counter's overflow check never fires: every follower's registry and the shard itself
      lock up at least one lamport, and lamports fit 64 bits. */
  lemma FollowerCountHasRoom(s: State, t: Key, j: nat)
    requires Inv(s) && FollowerKey(t, j) in s.info
    ensures FollowerCount(s.info, t, j) + 1 <= U64_MAX
  {
    var f := FollowerKey(t, j);
    assert FollowerCount(s.info, t, j) == |FollowerSet(s.info, t, j)|;
    FollowersHold(s, t, j);
    hide FollowerSet, FollowerCount, Followers, Funded, Structure, Rent;
    OneMoreHolder(s.lam, FollowerSet(s.info, t, j), f);
  }

  /** Every follower's registry, and the shard, lock up at least one lamport. */
  lemma FollowersHold(s: State, t: Key, j: nat)
    requires Typed(s.info) && Funded(s.lam, s.info) && FollowerKey(t, j) in s.info
    ensures s.lam[FollowerKey(t, j)] >= 1 && FollowerKey(t, j) !in FollowerSet(s.info, t, j)
    ensures forall k | k in FollowerSet(s.info, t, j) :: s.lam[k] >= 1
  {
    hide Rent;
    assert TypedAt(FollowerKey(t, j), s.info[FollowerKey(t, j)]);
  }

  /** Following depends on the channel, the caller's list and the caller's money only. */
  lemma FollowIff(s: State, i: Instruction)
    requires Inv(s) && i.Subscribe? && WellFormed(i)
    ensures var r := RegistryKey(i.payer);
            var channels := Channels(s.info, r);
            var cost := TopUp(s.lam[r], RegistrySize(|channels| + 1))
                        + FollowerCost(s, FollowerKey(i.thread, FollowerShardIndex(i.payer)));
            SubscribeCheck(s, i).Done? <==>
              && IsThread(s.info, i.thread) && i.thread !in channels && |channels| < MAX_FOLLOWS
              && CanPay(s, i.payer, cost)
  {
    RentMonotone(RegistrySize(0), RegistrySize(|Channels(s.info, RegistryKey(i.payer))| + 1));
    FollowAccountsLoad(s, i.payer, i.thread);
    hide Inv, Rent;
  }

  /** Whatever a follow meets in a state of the invariant loads and has room. */
  lemma FollowAccountsLoad(s: State, p: Key, x: Key)
    requires Inv(s)
    ensures var r, j := RegistryKey(p), FollowerShardIndex(p);
            && (Fresh(s.info, r) || CheckRegistry(s.info, r, p).Done?)
            && (CheckThread(s.info, x).Done? <==> IsThread(s.info, x))
            && var f := FollowerKey(x, j);
            (Fresh(s.info, f) ||
             (CheckBoundFollower(s.info, f, x, j).Done? && s.info[f].data.count + 1 <= U64_MAX))
  {
    var r, f := RegistryKey(p), FollowerKey(x, FollowerShardIndex(p));
    assert r in s.info ==> TypedAt(r, s.info[r]);
    assert x in s.info ==> TypedAt(x, s.info[x]);
    if f in s.info {
      assert TypedAt(f, s.info[f]);
      FollowerCountHasRoom(s, x, FollowerShardIndex(p));
    }
  }

  // ---- follow, then unfollow ----

  /** A pushed element is found at the end, and swap-removing it there undoes the push. */
  lemma PushUndone(was: seq<Key>, x: Key)
    requires x !in was
    ensures IndexOf(was + [x], x) == |was| && SwapRemove(was + [x], |was|) == was
  {
    var now := was + [x];
    assert now[|was|] == x;
    assert forall m | 0 <= m < |was| :: now[m] == was[m] && was[m] in was;
  }

  lemma FollowListed(s: State, i: Instruction)
    requires i.Subscribe? && WellFormed(i) && SubscribeCheck(s, i).Done?
    ensures i.thread in Channels(SubscribePost(s, i).info, RegistryKey(i.payer))
  {
  }

  lemma FollowThenAllowed(s: State, i: Instruction)
    requires Inv(s) && i.Subscribe? && WellFormed(i) && SubscribeCheck(s, i).Done?
    ensures Inv(SubscribePost(s, i)) && UnsubscribeCheck(SubscribePost(s, i), Unsubscribe(i.payer, i.thread)).Done?
  {
    FollowListed(s, i);
    InvIsSane(s, i);
    hide Inv, SubscribePost, SubscribeCheck, UnsubscribeCheck, Channels, Sane;
    StepKeepsInv(s, Run(i), SubscribePost(s, i));
    UnfollowIff(SubscribePost(s, i), Unsubscribe(i.payer, i.thread));
  }

  lemma FollowedAccounts(s: State, i: Instruction)
    requires i.Subscribe? && WellFormed(i) && SubscribeCheck(s, i).Done?
    ensures var r := RegistryKey(i.payer); var j := FollowerShardIndex(i.payer); var f := FollowerKey(i.thread, j);
            && SubscribePost(s, i).info
               == s.info[r := Created(Registry(i.payer, Channels(s.info, r) + [i.thread]))]
                        [f := Created(Follower(i.thread, j, if Fresh(s.info, f) then 1 else s.info[f].data.count + 1))]
            && i.thread !in Channels(s.info, r)
  {
  }

  lemma UnfollowedAccounts(t: State, p: Key, x: Key, was: seq<Key>, count: nat)
    requires UnsubscribeCheck(t, Unsubscribe(p, x)).Done? && x !in was
    requires t.info[RegistryKey(p)].data.channels == was + [x]
    requires t.info[FollowerKey(x, FollowerShardIndex(p))] == Created(Follower(x, FollowerShardIndex(p), count + 1))
    ensures UnsubscribePost(t, Unsubscribe(p, x)).info
              == t.info[RegistryKey(p) := Created(Registry(p, was))]
                       [FollowerKey(x, FollowerShardIndex(p)) := Created(Follower(x, FollowerShardIndex(p), count))]
  {
    PushUndone(was, x);
  }

  lemma TableRestored(a: Accounts, t: State, p: Key, x: Key, was: seq<Key>, count: nat)
    requires UnsubscribeCheck(t, Unsubscribe(p, x)).Done? && x !in was
    requires var r := RegistryKey(p); var f := FollowerKey(x, FollowerShardIndex(p));
             && r in a && a[r] == Created(Registry(p, was))
             && f in a && a[f] == Created(Follower(x, FollowerShardIndex(p), count))
             && t.info == a[r := Created(Registry(p, was + [x]))]
                           [f := Created(Follower(x, FollowerShardIndex(p), count + 1))]
    ensures UnsubscribePost(t, Unsubscribe(p, x)).info == a
  {
    UnfollowedAccounts(t, p, x, was, count);
  }

  lemma TypedFollow(info: Accounts, p: Key, x: Key)
    requires Typed(info) && RegistryKey(p) in info && FollowerKey(x, FollowerShardIndex(p)) in info
    ensures var r := RegistryKey(p); var f := FollowerKey(x, FollowerShardIndex(p));
            && info[r].data.Registry? && info[r] == Created(Registry(p, Channels(info, r)))
            && info[f].data.Follower? && info[f] == Created(Follower(x, FollowerShardIndex(p), info[f].data.count))
            && !Fresh(info, r) && !Fresh(info, f)
  {
    assert TypedAt(RegistryKey(p), info[RegistryKey(p)]);
    assert TypedAt(FollowerKey(x, FollowerShardIndex(p)), info[FollowerKey(x, FollowerShardIndex(p))]);
  }

  /** Unfollowing right after following restores the account table exactly, for a wallet that
      had a registry and a channel whose shard existed. */
  lemma FollowUndone(s: State, i: Instruction)
    requires Inv(s) && i.Subscribe? && WellFormed(i) && SubscribeCheck(s, i).Done?
    requires RegistryKey(i.payer) in s.info && FollowerKey(i.thread, FollowerShardIndex(i.payer)) in s.info
    ensures var back := Unsubscribe(i.payer, i.thread); var t := SubscribePost(s, i);
            UnsubscribeCheck(t, back).Done? && UnsubscribePost(t, back).info == s.info
  {
    hide SubscribeCheck, SubscribePost, UnsubscribeCheck, UnsubscribePost, Followers, Funded, Pages, Children;
    var r, f := RegistryKey(i.payer), FollowerKey(i.thread, FollowerShardIndex(i.payer));
    FollowThenAllowed(s, i);
    FollowedAccounts(s, i);
    TypedFollow(s.info, i.payer, i.thread);
    TableRestored(s.info, SubscribePost(s, i), i.payer, i.thread, Channels(s.info, r), s.info[f].data.count);
  }

  function CountAt(info: Accounts, f: Key): nat {
    if !Fresh(info, f) && info[f].data.Follower? then info[f].data.count else 0
  }

  /** Both accounts after a follow and its reversal, whatever stood there before. */
  lemma FollowedAndBack(s: State, i: Instruction)
    requires i.Subscribe? && WellFormed(i) && SubscribeCheck(s, i).Done?
    requires UnsubscribeCheck(SubscribePost(s, i), Unsubscribe(i.payer, i.thread)).Done?
    ensures var r := RegistryKey(i.payer); var j := FollowerShardIndex(i.payer); var f := FollowerKey(i.thread, j);
            var u := UnsubscribePost(SubscribePost(s, i), Unsubscribe(i.payer, i.thread));
            u.info == s.info[r := Created(Registry(i.payer, Channels(s.info, r)))]
                            [f := Created(Follower(i.thread, j, CountAt(s.info, f)))]
  {
    hide SubscribePost, UnsubscribePost, SwapRemove, IndexOf, Rent, CanPay;
    var r, j := RegistryKey(i.payer), FollowerShardIndex(i.payer);
    var f := FollowerKey(i.thread, j);
    FollowedAccounts(s, i);
    UnfollowedAccounts(SubscribePost(s, i), i.payer, i.thread, Channels(s.info, r), CountAt(s.info, f));
  }

  lemma SubscribedMoney(s: State, i: Instruction, k: Key)
    requires i.Subscribe? && WellFormed(i) && SubscribeCheck(s, i).Done?
    ensures var r, f := RegistryKey(i.payer), FollowerKey(i.thread, FollowerShardIndex(i.payer));
            var topUp, cost := TopUp(s.lam[r], RegistrySize(|Channels(s.info, r)| + 1)), FollowerCost(s, f);
            SubscribePost(s, i).lam[k] == s.lam[k] + (if k == r then topUp else 0) + (if k == f then cost else 0)
                                          - (if k == i.payer then topUp + cost else 0)
  {
    hide Rent, FollowerCost;
  }

  lemma UnsubscribedMoney(s: State, i: Instruction, k: Key)
    requires i.Unsubscribe? && WellFormed(i) && UnsubscribeCheck(s, i).Done?
    ensures var r := RegistryKey(i.payer);
            |s.info[r].data.channels| > 0
            && var keep := Rent(RegistrySize(|s.info[r].data.channels| - 1));
            var refund := if s.lam[r] > keep then s.lam[r] - keep else 0;
            UnsubscribePost(s, i).lam[k] == s.lam[k] + (if k == i.payer then refund else 0)
                                            - (if k == r then refund else 0)
  {
    hide IndexOf, Rent;
    var followed := s.info[RegistryKey(i.payer)].data.channels;
    assert |SwapRemove(followed, IndexOf(followed, i.thread))| == |followed| - 1;
  }

  /** What the wallet gets back beyond its registry's rent, counted in its old balance; negative
      when the follow had to create the registry. */
  function RegistrySurplus(s: State, r: Key): int {
    var balance: int := s.lam[r];
    balance - Rent(RegistrySize(|Channels(s.info, r)|))
  }

  /** The money of a follow and its reversal. */
  lemma FollowedMoney(s: State, i: Instruction, k: Key)
    requires i.Subscribe? && WellFormed(i) && SubscribeCheck(s, i).Done?
    requires UnsubscribeCheck(SubscribePost(s, i), Unsubscribe(i.payer, i.thread)).Done?
    ensures var r, f := RegistryKey(i.payer), FollowerKey(i.thread, FollowerShardIndex(i.payer));
            UnsubscribePost(SubscribePost(s, i), Unsubscribe(i.payer, i.thread)).lam[k]
              == s.lam[k] + (if k == i.payer then RegistrySurplus(s, r) - FollowerCost(s, f) else 0)
                 - (if k == r then RegistrySurplus(s, r) else 0) + (if k == f then FollowerCost(s, f) else 0)
  {
    hide SubscribePost, UnsubscribePost, SubscribeCheck, UnsubscribeCheck, FollowerCost, Rent;
    var r, back := RegistryKey(i.payer), Unsubscribe(i.payer, i.thread);
    var n := |Channels(s.info, r)|;
    SubscribedMoney(s, i, k);
    SubscribedMoney(s, i, r);
    UnsubscribedMoney(SubscribePost(s, i), back, k);
    FollowedAccounts(s, i);
    RentMonotone(RegistrySize(n), RegistrySize(n + 1));
  }

  lemma CountsReturn(a: Accounts, b: Accounts, r: Key, x: Key, j: nat, channels: seq<Key>)
    requires Typed(a) && r.RegistryKey?
    requires b == a[r := Created(Registry(r.owner, channels))]
                   [FollowerKey(x, j) := Created(Follower(x, j, CountAt(a, FollowerKey(x, j))))]
    ensures forall c, m :: FollowerCount(b, c, m) == FollowerCount(a, c, m)
  {
    var f := FollowerKey(x, j);
    assert f in a ==> TypedAt(f, a[f]);
  }

  /** Unfollowing right after any accepted follow is accepted, and gives back the wallet's list,
      every counter and every other account. The wallet then holds what it held plus the
      surplus of its old registry, less the rent of a counter shard it was first to open: it is
      short by no more than the opening rents of the accounts the follow created. */
  lemma FollowReversed(s: State, i: Instruction)
    requires Inv(s) && i.Subscribe? && WellFormed(i) && SubscribeCheck(s, i).Done?
    ensures UnsubscribeCheck(SubscribePost(s, i), Unsubscribe(i.payer, i.thread)).Done?
    ensures var r, f := RegistryKey(i.payer), FollowerKey(i.thread, FollowerShardIndex(i.payer));
            var u := UnsubscribePost(SubscribePost(s, i), Unsubscribe(i.payer, i.thread));
            && Channels(u.info, r) == Channels(s.info, r)
            && (forall c, m :: FollowerCount(u.info, c, m) == FollowerCount(s.info, c, m))
            && (forall k | k != r && k != f :: SameAt(s.info, u.info, k))
            && u.lam[i.payer] == s.lam[i.payer] + RegistrySurplus(s, r) - FollowerCost(s, f)
            && u.lam[i.payer] + FollowerCost(s, f) + (if Fresh(s.info, r) then TopUp(s.lam[r], RegistrySize(0)) else 0)
               >= s.lam[i.payer]
  {
    hide SubscribePost, UnsubscribePost, SubscribeCheck, UnsubscribeCheck, FollowerCost, Rent, FollowerCount, Pages,
         Children, Followers;
    var r, j := RegistryKey(i.payer), FollowerShardIndex(i.payer);
    FollowThenAllowed(s, i);
    FollowedAndBack(s, i);
    FollowedMoney(s, i, i.payer);
    var u := UnsubscribePost(SubscribePost(s, i), Unsubscribe(i.payer, i.thread));
    CountsReturn(s.info, u.info, r, i.thread, j, Channels(s.info, r));
    SurplusIsOwn(s, r);
  }

  /** An existing registry is funded, so only a new one costs its owner. */
  lemma SurplusIsOwn(s: State, r: Key)
    requires Typed(s.info) && Funded(s.lam, s.info) && r.RegistryKey?
    ensures RegistrySurplus(s, r) + (if Fresh(s.info, r) then TopUp(s.lam[r], RegistrySize(0)) else 0) >= 0
  {
    assert r in s.info ==> TypedAt(r, s.info[r]);
  }
}
