/** The follower counters agree with the registries in every step. */
module FollowIndex {
  import opened Keys
  import opened Ledger
  import opened Instructions
  import opened Invariant
  import opened Preservation
  import opened Frame

  lemma SameSet(a: Accounts, b: Accounts, t: Key, j: nat)
    requires forall k: Key | k.RegistryKey? :: Follows(a, k, t) <==> Follows(b, k, t)
    ensures FollowerSet(a, t, j) == FollowerSet(b, t, j)
  {
    forall k
      ensures k in FollowerSet(a, t, j) <==> k in FollowerSet(b, t, j)
    {
      if k.RegistryKey? {
        assert Follows(a, k, t) <==> Follows(b, k, t);
      }
    }
  }

  lemma FollowersFrame(a: Accounts, b: Accounts)
    requires Followers(a)
    requires forall k: Key | k.RegistryKey? || k.FollowerKey? :: SameAt(a, b, k)
    ensures Followers(b)
  {
    forall t, j
      ensures FollowerCount(b, t, j) == |FollowerSet(b, t, j)|
    {
      assert forall k: Key | k.RegistryKey? :: SameAt(a, b, k);
      SameSet(a, b, t, j);
      assert SameAt(a, b, FollowerKey(t, j));
      assert FollowerCount(a, t, j) == |FollowerSet(a, t, j)|;
    }
  }

  /** One registry gains or loses one channel, and one counter moves with it. */
  ghost predicate OneFollow(a: Accounts, b: Accounts, r: Key, t0: Key) {
    var j0 := if r.RegistryKey? then FollowerShardIndex(r.owner) else 0;
    && r.RegistryKey? && r in b
    && SameOutside(a, b, {r, FollowerKey(t0, j0)})
    && (forall t | t != t0 :: Follows(a, r, t) <==> Follows(b, r, t))
    && Follows(a, r, t0) != Follows(b, r, t0)
    && FollowerCount(b, t0, j0) == FollowerCount(a, t0, j0) + (if Follows(b, r, t0) then 1 else -1)
  }

  lemma OneFollowSet(a: Accounts, b: Accounts, r: Key, t0: Key)
    requires OneFollow(a, b, r, t0)
    ensures var j0 := FollowerShardIndex(r.owner);
            if Follows(b, r, t0)
            then FollowerSet(b, t0, j0) == FollowerSet(a, t0, j0) + {r} && r !in FollowerSet(a, t0, j0)
            else FollowerSet(b, t0, j0) == FollowerSet(a, t0, j0) - {r} && r in FollowerSet(a, t0, j0)
  {
    var j0 := FollowerShardIndex(r.owner);
    forall k | k != r
      ensures k in FollowerSet(b, t0, j0) <==> k in FollowerSet(a, t0, j0)
    {
      if k.RegistryKey? {
        assert SameAt(a, b, k);
      }
    }
  }

  lemma OneFollowOthers(a: Accounts, b: Accounts, r: Key, t0: Key, t: Key, j: nat)
    requires OneFollow(a, b, r, t0) && (t != t0 || j != FollowerShardIndex(r.owner))
    ensures FollowerSet(b, t, j) == FollowerSet(a, t, j) && FollowerCount(b, t, j) == FollowerCount(a, t, j)
  {
    assert SameAt(a, b, FollowerKey(t, j));
    forall k
      ensures k in FollowerSet(b, t, j) <==> k in FollowerSet(a, t, j)
    {
      if k != r && k.RegistryKey? {
        assert SameAt(a, b, k);
      }
    }
  }

  lemma OneFollowKeeps(a: Accounts, b: Accounts, r: Key, t0: Key)
    requires OneFollow(a, b, r, t0) && Followers(a)
    ensures Followers(b)
  {
    forall t, j
      ensures FollowerCount(b, t, j) == |FollowerSet(b, t, j)|
    {
      assert FollowerCount(a, t, j) == |FollowerSet(a, t, j)|;
      if t == t0 && j == FollowerShardIndex(r.owner) {
        OneFollowSet(a, b, r, t0);
      } else {
        OneFollowOthers(a, b, r, t0, t, j);
      }
    }
  }

  lemma SubscribeIsOneFollow(s: State, i: Instruction)
    requires i.Subscribe? && WellFormed(i) && SubscribeCheck(s, i).Done? && Typed(s.info)
    ensures OneFollow(s.info, SubscribePost(s, i).info, RegistryKey(i.payer), i.thread)
    ensures Follows(SubscribePost(s, i).info, RegistryKey(i.payer), i.thread)
  {
    var r, post := RegistryKey(i.payer), SubscribePost(s, i).info;
    assert i.thread in post[r].data.channels;
    assert forall t :: t in post[r].data.channels <==> t in Channels(s.info, r) || t == i.thread;
  }

  lemma UnsubscribeIsOneFollow(s: State, i: Instruction)
    requires i.Unsubscribe? && WellFormed(i) && UnsubscribeCheck(s, i).Done? && Typed(s.info) && Followers(s.info)
    ensures OneFollow(s.info, UnsubscribePost(s, i).info, RegistryKey(i.payer), i.thread)
    ensures !Follows(UnsubscribePost(s, i).info, RegistryKey(i.payer), i.thread)
  {
    hide Rent, Pay, IndexOf, SwapRemove;
    var r, j0 := RegistryKey(i.payer), FollowerShardIndex(i.payer);
    var channels := s.info[r].data.channels;
    SwapRemoveKeeps(channels, IndexOf(channels, i.thread));
    assert r in FollowerSet(s.info, i.thread, j0);
    assert FollowerCount(s.info, i.thread, j0) == |FollowerSet(s.info, i.thread, j0)|;
  }

  lemma OthersKeepIndex(s: State, i: Instruction)
    requires WellFormed(i) && Check(s, i).Done? && Typed(s.info) && Followers(s.info) && Sane(s, i)
    requires !i.Subscribe? && !i.Unsubscribe?
    ensures Followers(Post(s, i).info)
  {
    TouchesOnly(s, i);
    TouchedKinds(s, i);
    FollowersFrame(s.info, Post(s, i).info);
  }

  lemma TouchedKinds(s: State, i: Instruction)
    requires WellFormed(i) && Check(s, i).Done? && Typed(s.info) && !i.Subscribe? && !i.Unsubscribe?
    ensures forall k | k in Touched(s, i) :: !k.RegistryKey? && !k.FollowerKey?
  {
    hide Check, Touched, Typed;
    forall k | k in Touched(s, i)
      ensures !k.RegistryKey? && !k.FollowerKey?
    {
      TouchedFits(s, i, k);
    }
  }
}
