/** The handlers of the follow registry and the sharded counters, step by step. */
module Following {
  import opened Keys
  import opened Records
  import opened Ledger
  import opened Instructions
  import opened Chain

  lemma {:induction false} FirstIndex(xs: seq<Key>, x: Key, n: nat)
    requires n <= |xs| && x !in xs[..n] && (n < |xs| ==> xs[n] == x)
    ensures n == IndexOf(xs, x)
  {
    assert 0 < n ==> xs[..n][0] == xs[0];
    if 0 < n {
      assert xs[..n] == [xs[0]] + xs[1..][..n - 1];
      FirstIndex(xs[1..], x, n - 1);
    }
  }

  /** Position of a channel in a registry, or its length. */
  method Position(channels: seq<Key>, thread: Key) returns (n: nat)
    ensures n == IndexOf(channels, thread)
  {
    n := 0;
    while n < |channels| && channels[n] != thread
      invariant n <= |channels| && thread !in channels[..n]
    {
      n := n + 1;
    }
    FirstIndex(channels, thread, n);
  }

  // ---- subscribe ----

  /** The registry as it stands after the first step: made empty, or there already. */
  ghost predicate Loaded(s: State, t: State, owner: Key) {
    var registry := RegistryKey(owner);
    && owner.External? && t.now == s.now
    && (Fresh(s.info, registry) ==>
          && CanPay(s, owner, TopUp(s.lam[registry], RegistrySize(0)))
          && TopUp(s.lam[registry], RegistrySize(0)) <= s.lam[owner]
          && t.lam == Pay(s.lam, owner, registry, TopUp(s.lam[registry], RegistrySize(0)))
          && t.info == s.info[registry := Created(Registry(owner, []))])
    && (!Fresh(s.info, registry) ==> CheckRegistry(s.info, registry, owner).Done? && t == s)
  }

  method LoadRegistry(bank: Bank, owner: Key) returns (r: Outcome, channels: seq<Key>)
    requires owner.External?
    modifies bank`lam, bank`info
    ensures r == RegistryCheck(old(bank.Now()), owner)
    ensures r.Done? ==> Loaded(old(bank.Now()), bank.Now(), owner)
    ensures r.Done? ==> channels == Channels(old(bank.info), RegistryKey(owner))
  {
    var registry := RegistryKey(owner);
    channels := [];
    if Fresh(bank.info, registry) {
      r := bank.CreateWith(owner, registry, Registry(owner, []));
    } else {
      r := CheckRegistry(bank.info, registry, owner);
      if r.Done? {
        channels := bank.info[registry].data.channels;
      }
    }
  }

  lemma PayInTwo(lam: Lamports, from: Key, to: Key, x: nat, y: nat)
    requires x + y <= lam[from]
    ensures Pay(Pay(lam, from, to, x), from, to, y) == Pay(lam, from, to, x + y)
  {
    assert forall k :: Pay(Pay(lam, from, to, x), from, to, y)[k] == Pay(lam, from, to, x + y)[k];
  }

  /** Rent for an empty registry and then for the grown one is rent for the grown one. */
  lemma LoadedCost(s: State, t: State, owner: Key, size: nat)
    requires Loaded(s, t, owner) && size >= RegistrySize(0)
    ensures var registry := RegistryKey(owner); var topUp := TopUp(s.lam[registry], size);
            && (CanPay(t, owner, TopUp(t.lam[registry], size)) <==> CanPay(s, owner, topUp))
            && (CanPay(s, owner, topUp) ==>
                  TopUp(t.lam[registry], size) <= t.lam[owner] && topUp <= s.lam[owner]
                  && Pay(t.lam, owner, registry, TopUp(t.lam[registry], size)) == Pay(s.lam, owner, registry, topUp))
  {
    hide Rent;
    var registry := RegistryKey(owner);
    RentMonotone(RegistrySize(0), size);
    if Fresh(s.info, registry) && CanPay(s, owner, TopUp(s.lam[registry], size)) {
      PayInTwo(s.lam, owner, registry, TopUp(s.lam[registry], RegistrySize(0)), TopUp(t.lam[registry], size));
    }
  }

  lemma LoadedRegistry(s: State, t: State, owner: Key, a: Account)
    requires Loaded(s, t, owner)
    ensures var registry := RegistryKey(owner); registry in t.info && t.info[registry].owner.Program?
    ensures owner.External? && t.now == s.now
    ensures t.info[RegistryKey(owner) := a] == s.info[RegistryKey(owner) := a]
  {
  }

  /** The registry is stored and funded; the counter is next. */
  ghost predicate Registered(s: State, t: State, owner: Key, channels: seq<Key>) {
    var registry := RegistryKey(owner);
    var topUp := TopUp(s.lam[registry], RegistrySize(|channels|));
    && owner.External? && CanPay(s, owner, topUp) && topUp <= s.lam[owner] && t.now == s.now
    && t.lam == Pay(s.lam, owner, registry, topUp)
    && t.info == s.info[registry := Created(Registry(owner, channels))]
  }

  /** The channel is pushed, the account grown, funded and rewritten. */
  method StoreRegistry(bank: Bank, owner: Key, channels: seq<Key>, ghost s: State) returns (r: Outcome)
    requires Loaded(s, bank.Now(), owner)
    modifies bank`lam, bank`info
    ensures r == CheckPay(s, owner, TopUp(s.lam[RegistryKey(owner)], RegistrySize(|channels|)))
    ensures r.Done? ==> Registered(s, bank.Now(), owner, channels)
  {
    hide Loaded, Rent, RegistrySize, TopUp;
    var registry, newSize := RegistryKey(owner), RegistrySize(|channels|);
    RegistryGrows(channels);
    ghost var t := bank.Now();
    LoadedCost(s, t, owner, newSize);
    LoadedRegistry(s, t, owner, Created(Registry(owner, channels)));
    bank.Resize(registry, newSize);
    CanPayResized(t, bank.Now(), owner, registry, TopUp(t.lam[registry], newSize));
    r := bank.EnsureRentExempt(owner, registry, newSize);
    if r.Done? {
      bank.Write(registry, Registry(owner, channels));
    }
  }

  lemma RegistryGrows(channels: seq<Key>)
    ensures RegistrySize(|channels|) >= RegistrySize(0)
    ensures RegistrySize(|channels|) == Size(Registry(SettingsKey, channels))
  {
  }

  lemma CanPayResized(t: State, u: State, payer: Key, k: Key, amount: nat)
    requires u.lam == t.lam && payer != k && (Fresh(u.info, payer) <==> Fresh(t.info, payer))
    ensures CanPay(u, payer, amount) <==> CanPay(t, payer, amount)
  {
  }

  function FollowerOutcome(t: State, thread: Key, j: nat, payer: Key): Outcome {
    var follower := FollowerKey(thread, j);
    if Fresh(t.info, follower) then CheckPay(t, payer, TopUp(t.lam[follower], FOLLOWER_SIZE))
    else
      :- CheckBoundFollower(t.info, follower, thread, j);
      Need(t.info[follower].data.count + 1 <= U64_MAX, InvalidAccountData)
  }

  /** The counter shard has one more follower. */
  ghost predicate Followed(t: State, u: State, thread: Key, j: nat, payer: Key) {
    var follower := FollowerKey(thread, j);
    && FollowerCost(t, follower) <= t.lam[payer] && u.now == t.now
    && u.lam == Pay(t.lam, payer, follower, FollowerCost(t, follower))
    && (Fresh(t.info, follower) || t.info[follower].data.Follower?)
    && u.info == t.info[follower := Created(
         Follower(thread, j, if Fresh(t.info, follower) then 1 else t.info[follower].data.count + 1))]
  }

  /** The counter shard gains one follower, on its first one together with its account. */
  method CountFollower(bank: Bank, payer: Key, thread: Key, j: nat) returns (r: Outcome)
    requires payer.External?
    modifies bank`lam, bank`info
    ensures var t, follower := old(bank.Now()), FollowerKey(thread, j);
            && r == FollowerOutcome(t, thread, j, payer)
            && (r.Done? ==> Followed(t, bank.Now(), thread, j, payer))
  {
    var follower := FollowerKey(thread, j);
    if Fresh(bank.info, follower) {
      r := bank.CreateWith(payer, follower, Follower(thread, j, 1));
      return;
    }
    r := CheckBoundFollower(bank.info, follower, thread, j);
    if r.Fail? {
      return;
    }
    var shard := bank.info[follower].data;
    if shard.count + 1 > U64_MAX {
      return Fail(InvalidAccountData);
    }
    bank.Write(follower, shard.(count := shard.count + 1));
    PayNothing(bank.lam, payer, follower);
  }

  lemma SubscribeMeans(s: State, i: Instruction)
    requires i.Subscribe?
    ensures CheckThread(s.info, i.thread).Fail? ==> SubscribeCheck(s, i) == CheckThread(s.info, i.thread)
    ensures CheckThread(s.info, i.thread).Done? ==>
              var registry := RegistryKey(i.payer); var channels := Channels(s.info, registry);
              && (RegistryCheck(s, i.payer).Fail? ==> SubscribeCheck(s, i) == RegistryCheck(s, i.payer))
              && (RegistryCheck(s, i.payer).Done? ==>
                    && (i.thread in channels ==> SubscribeCheck(s, i) == Fail(AlreadyFollowing))
                    && (i.thread !in channels && |channels| >= MAX_FOLLOWS ==>
                          SubscribeCheck(s, i) == Fail(FollowListFull))
                    && (i.thread !in channels && |channels| < MAX_FOLLOWS
                        && !CanPay(s, i.payer, TopUp(s.lam[registry], RegistrySize(|channels| + 1))) ==>
                          SubscribeCheck(s, i) == Fail(InsufficientFunds)))
  {
  }

  lemma SubscribeRest(s: State, t: State, i: Instruction)
    requires i.Subscribe? && CheckThread(s.info, i.thread).Done? && RegistryCheck(s, i.payer).Done?
    requires Registered(s, t, i.payer, Channels(s.info, RegistryKey(i.payer)) + [i.thread])
    requires var channels := Channels(s.info, RegistryKey(i.payer)); i.thread !in channels && |channels| < MAX_FOLLOWS
    ensures SubscribeCheck(s, i) == FollowerOutcome(t, i.thread, FollowerShardIndex(i.payer), i.payer)
  {
  }

  lemma SubscribedState(s: State, t: State, u: State, i: Instruction)
    requires i.Subscribe? && WellFormed(i) && SubscribeCheck(s, i).Done?
    requires Registered(s, t, i.payer, Channels(s.info, RegistryKey(i.payer)) + [i.thread])
    requires Followed(t, u, i.thread, FollowerShardIndex(i.payer), i.payer)
    ensures u == SubscribePost(s, i)
  {
    hide Rent, CanPay, TopUp, RegistrySize;
  }

  /** `process_subscribe`. */
  method Subscribe(bank: Bank, i: Instruction) returns (r: Outcome)
    requires i.Subscribe? && WellFormed(i)
    modifies bank`lam, bank`info
    ensures r == SubscribeCheck(old(bank.Now()), i)
    ensures r.Done? ==> bank.Now() == SubscribePost(old(bank.Now()), i)
  {
    hide SubscribeCheck, SubscribePost, CheckThread, RegistryCheck, Loaded, Registered, Followed, TopUp,
         FollowerOutcome, RegistrySize, CanPay, Channels;
    ghost var s := bank.Now();
    SubscribeMeans(s, i);
    r := CheckThread(bank.info, i.thread);
    if r.Fail? {
      return;
    }
    var channels;
    r, channels := LoadRegistry(bank, i.payer);
    if r.Fail? {
      return;
    }
    var position := Position(channels, i.thread);
    if position < |channels| {
      return Fail(AlreadyFollowing);
    }
    if |channels| >= MAX_FOLLOWS {
      return Fail(FollowListFull);
    }
    channels := channels + [i.thread];
    r := StoreRegistry(bank, i.payer, channels, s);
    if r.Fail? {
      return;
    }
    ghost var t := bank.Now();
    SubscribeRest(s, t, i);
    r := CountFollower(bank, i.payer, i.thread, FollowerShardIndex(i.payer));
    if r.Done? {
      SubscribedState(s, t, bank.Now(), i);
    }
  }

  // ---- unsubscribe ----

  /** Everything above the rent of the shortened registry goes back to its owner. */
  method Refund(bank: Bank, registry: Key, owner: Key, size: nat) returns (r: Outcome)
    requires registry != owner && |bank.lam| <= U64_MAX
    modifies bank`lam
    ensures r == Done
    ensures bank.lam == if old(bank.lam)[registry] > Rent(size)
                        then Pay(old(bank.lam), registry, owner, old(bank.lam)[registry] - Rent(size))
                        else old(bank.lam)
  {
    var required, current := Rent(size), bank.lam[registry];
    if current > required {
      var refund := current - required;
      BalanceWithinSupply(bank.lam, registry, owner);
      bank.lam := bank.lam[registry := required];
      if bank.lam[owner] + refund > U64_MAX {
        return Fail(InvalidAccountData);
      }
      bank.lam := bank.lam[owner := bank.lam[owner] + refund];
    }
    r := Done;
  }

  method ShrinkRegistry(bank: Bank, owner: Key, channels: seq<Key>) returns (r: Outcome)
    requires owner.External? && |bank.lam| <= U64_MAX && CheckRegistry(bank.info, RegistryKey(owner), owner).Done?
    modifies bank`lam, bank`info
    ensures var registry, keep := RegistryKey(owner), Rent(RegistrySize(|channels|));
            && r == Done && bank.info == old(bank.info)[registry := Created(Registry(owner, channels))]
            && bank.lam == if old(bank.lam)[registry] > keep
                           then Pay(old(bank.lam), registry, owner, old(bank.lam)[registry] - keep) else old(bank.lam)
  {
    var registry, newSize := RegistryKey(owner), RegistrySize(|channels|);
    bank.Resize(registry, newSize);
    bank.Write(registry, Registry(owner, channels));
    r := Refund(bank, registry, owner, newSize);
  }

  function UncountOutcome(info: Accounts, thread: Key, j: nat): Outcome {
    var follower := FollowerKey(thread, j);
    if Fresh(info, follower) then Fail(NotFollowing) else CheckBoundFollower(info, follower, thread, j)
  }

  method UncountFollower(bank: Bank, thread: Key, j: nat) returns (r: Outcome)
    modifies bank`info
    ensures r == UncountOutcome(old(bank.info), thread, j)
    ensures r.Done? ==>
              var follower := FollowerKey(thread, j);
              && follower in old(bank.info) && old(bank.info)[follower].data.Follower?
              && bank.info == Rewritten(old(bank.info), follower,
                                        Follower(thread, j, SatSub(old(bank.info)[follower].data.count, 1)))
  {
    var follower := FollowerKey(thread, j);
    if Fresh(bank.info, follower) {
      return Fail(NotFollowing);
    }
    r := CheckBoundFollower(bank.info, follower, thread, j);
    if r.Done? {
      var shard := bank.info[follower].data;
      bank.Write(follower, shard.(count := SatSub(shard.count, 1)));
    }
  }

  lemma UnfollowMeans(s: State, i: Instruction)
    requires i.Unsubscribe?
    ensures UnfollowPrologue(s, i).Fail? ==> UnsubscribeCheck(s, i) == UnfollowPrologue(s, i)
    ensures UnfollowPrologue(s, i).Done? ==>
              var registry := RegistryKey(i.payer);
              && registry in s.info && s.info[registry].data.Registry? && CheckRegistry(s.info, registry, i.payer).Done?
              && UnsubscribeCheck(s, i) == if i.thread !in s.info[registry].data.channels then Fail(NotFollowing)
                                           else UncountOutcome(s.info, i.thread, FollowerShardIndex(i.payer))
  {
  }

  lemma UnfollowedState(s: State, t: State, u: State, i: Instruction)
    requires i.Unsubscribe? && UnsubscribeCheck(s, i).Done?
    requires RegistryKey(i.payer) in s.info && s.info[RegistryKey(i.payer)].data.Registry? && t.now == s.now == u.now
    requires var registry := RegistryKey(i.payer);
             var followed := s.info[registry].data.channels;
             var position := IndexOf(followed, i.thread);
             && position < |followed|
             && var channels := SwapRemove(followed, position);
             var keep := Rent(RegistrySize(|channels|));
             && t.info == s.info[registry := Created(Registry(i.payer, channels))]
             && t.lam == if s.lam[registry] > keep then Pay(s.lam, registry, i.payer, s.lam[registry] - keep) else s.lam
    requires var j := FollowerShardIndex(i.payer); var follower := FollowerKey(i.thread, j);
             && follower in t.info && t.info[follower].data.Follower? && u.lam == t.lam
             && u.info == Rewritten(t.info, follower, Follower(i.thread, j, SatSub(t.info[follower].data.count, 1)))
    ensures u == UnsubscribePost(s, i)
  {
  }

  /** The counter's account is another than the registry. */
  lemma UncountLater(s: State, t: State, owner: Key, thread: Key, j: nat, a: Account)
    requires t.info == s.info[RegistryKey(owner) := a]
    ensures UncountOutcome(t.info, thread, j) == UncountOutcome(s.info, thread, j)
  {
  }

  method CheckUnfollow(bank: Bank, i: Instruction) returns (r: Outcome)
    requires i.Unsubscribe?
    ensures r == UnfollowPrologue(bank.Now(), i)
  {
    r := CheckOwned(bank.info, RegistryKey(i.payer));
    if r.Fail? {
      return;
    }
    r := CheckThread(bank.info, i.thread);
    if r.Fail? {
      return;
    }
    r := CheckRegistry(bank.info, RegistryKey(i.payer), i.payer);
  }

  /** `process_unsubscribe`: swap-remove, shrink, refund, count down. */
  method Unsubscribe(bank: Bank, i: Instruction) returns (r: Outcome)
    requires i.Unsubscribe? && WellFormed(i) && |bank.lam| <= U64_MAX
    modifies bank`lam, bank`info
    ensures r == UnsubscribeCheck(old(bank.Now()), i)
    ensures r.Done? ==> bank.Now() == UnsubscribePost(old(bank.Now()), i)
  {
    hide UnsubscribeCheck, UnsubscribePost, UnfollowPrologue, UncountOutcome, CheckRegistry, RegistrySize, Rent,
         SwapRemove, IndexOf, Size;
    ghost var s := bank.Now();
    UnfollowMeans(s, i);
    r := CheckUnfollow(bank, i);
    if r.Fail? {
      return;
    }
    var channels := bank.info[RegistryKey(i.payer)].data.channels;
    var position := Position(channels, i.thread);
    if position == |channels| {
      return Fail(NotFollowing);
    }
    channels := SwapRemove(channels, position);
    r := ShrinkRegistry(bank, i.payer, channels);
    ghost var t := bank.Now();
    UncountLater(s, t, i.payer, i.thread, FollowerShardIndex(i.payer), Created(Registry(i.payer, channels)));
    r := UncountFollower(bank, i.thread, FollowerShardIndex(i.payer));
    if r.Done? {
      UnfollowedState(s, t, bank.Now(), i);
    }
  }
}
