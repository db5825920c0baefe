/** The structural invariant, instruction by instruction. */
module Preservation {
  import opened Keys
  import opened Records
  import opened Ledger
  import opened Instructions
  import opened Invariant

  // ---- edits of the account table that keep its structure ----

  /** Threads keep their author and lose no page; access records stay. */
  ghost predicate KeepsParents(a: Accounts, b: Accounts) {
    && (forall t | IsThread(a, t) ::
          IsThread(b, t) && b[t].data.author == a[t].data.author && a[t].data.lastPage <= b[t].data.lastPage)
    && (forall t | AccessKey(t) in a :: AccessKey(t) in b)
  }

  lemma AnchorKept(a: Accounts, b: Accounts, k: Key)
    requires KeepsParents(a, b) && Anchored(a, k) && k in a && k in b && b[k] == a[k]
    ensures Anchored(b, k)
  {
  }

  /** What stands on the same parents stays anchored. */
  lemma ChildrenKept(a: Accounts, b: Accounts, put: set<Key>)
    requires Children(a) && KeepsParents(a, b)
    requires forall k | k in b && k !in put :: k in a && b[k] == a[k]
    requires forall k | k in put && k in b :: Anchored(b, k)
    ensures Children(b)
  {
    hide Anchored, KeepsParents;
    forall k | k in b
      ensures Anchored(b, k)
    {
      if k !in put {
        AnchorKept(a, b, k);
      }
    }
  }

  /** Only an outside address is a thread. */
  lemma OnlyOutsideThreads(info: Accounts, k: Key)
    requires Typed(info) && !k.External?
    ensures !IsThread(info, k)
  {
    assert k in info ==> TypedAt(k, info[k]);
  }

  lemma PutChild(info: Accounts, k: Key, a: Account)
    requires Structure(info) && !k.External? && !k.AllocKey?
    requires TypedAt(k, a) && Anchored(info[k := a], k)
    ensures Structure(info[k := a])
  {
    OnlyOutsideThreads(info, k);
    hide Anchored, TypedAt;
    ChildrenKept(info, info[k := a], {k});
  }

  lemma RemoveChild(info: Accounts, k: Key)
    requires Structure(info) && (k.ContentKey? || k.EntryKey?)
    ensures Structure(info - {k})
  {
    OnlyOutsideThreads(info, k);
    hide Anchored, TypedAt;
    ChildrenKept(info, info - {k}, {});
  }

  lemma OpenVault(info: Accounts, k: Key)
    requires Structure(info) && IsVault(k)
    requires k.TreasuryKey? ==> k.shard < N_TREASURY_SHARDS
    requires k.AuthorKey? ==> k.shard < N_AUTHOR_FEE_SHARDS && IsThread(info, k.thread)
    ensures Structure(WithVault(info, k))
  {
    PutChild(info, k, Created(Vault));
  }

  /** A thread record changes, keeping its author and never losing a page. */
  lemma PutThread(info: Accounts, t: Key, a: Account)
    requires Structure(info) && t.External? && IsThread(info, t)
    requires TypedAt(t, a) && a.data.Thread? && a.data.author == info[t].data.author
    requires a.data.lastPage == info[t].data.lastPage
    ensures Structure(info[t := a])
  {
    hide TypedAt;
    var post := info[t := a];
    ChildrenKept(info, post, {t});
    forall x, q: nat
      ensures AllocKey(x, q) in post <==> HasPage(post, x, q)
    {
      assert AllocKey(x, q) in info <==> HasPage(info, x, q);
    }
  }

  /** A thread record and the page just past its tail appear together. */
  lemma PutTail(info: Accounts, t: Key, a: Account)
    requires Structure(info) && t.External?
    requires TypedAt(t, a) && a.data.Thread?
    requires if IsThread(info, t)
             then a.data.author == info[t].data.author && a.data.lastPage == info[t].data.lastPage + 1
             else a.data.lastPage == 0
    ensures var p := a.data.lastPage; Structure(info[t := a][AllocKey(t, p) := Created(Alloc(t, p))])
  {
    var p := a.data.lastPage;
    var post := info[t := a][AllocKey(t, p) := Created(Alloc(t, p))];
    assert TypedAt(AllocKey(t, p), post[AllocKey(t, p)]);
    hide TypedAt;
    ChildrenKept(info, post, {t, AllocKey(t, p)});
    forall x, q: nat
      ensures AllocKey(x, q) in post <==> HasPage(post, x, q)
    {
      assert AllocKey(x, q) in info <==> HasPage(info, x, q);
    }
  }

  lemma InitSettingsStructure(s: State, i: Instruction)
    requires i.InitSettings? && WellFormed(i) && InitSettingsCheck(s, i).Done? && Structure(s.info)
    ensures Structure(InitSettingsPost(s, i).info)
  {
    PutChild(s.info, SettingsKey, InitSettingsPost(s, i).info[SettingsKey]);
  }

  lemma UpdateSettingsStructure(s: State, i: Instruction)
    requires i.UpdateSettings? && WellFormed(i) && UpdateSettingsCheck(s, i).Done? && Structure(s.info)
    ensures Structure(UpdateSettingsPost(s, i).info)
  {
    PutChild(s.info, SettingsKey, UpdateSettingsPost(s, i).info[SettingsKey]);
  }

  lemma CreateRootStructure(s: State, i: Instruction)
    requires i.CreateRootAlloc? && WellFormed(i) && CreateRootCheck(s, i).Done? && Structure(s.info)
    ensures Structure(CreateRootPost(s, i).info)
  {
    OpenVault(s.info, TreasuryKey(i.treasuryIdx));
    PutTail(WithVault(s.info, TreasuryKey(i.treasuryIdx)), i.thread, CreateRootPost(s, i).info[i.thread]);
  }

  lemma PrepareStructure(s: State, i: Instruction)
    requires i.PrepareAlloc? && WellFormed(i) && PrepareCheck(s, i).Done? && Structure(s.info)
    ensures Structure(PreparePost(s, i).info)
  {
    PutTail(s.info, i.thread, PreparePost(s, i).info[i.thread]);
  }

  lemma UpdateThreadStructure(s: State, i: Instruction)
    requires i.UpdateThread? && WellFormed(i) && UpdateThreadCheck(s, i).Done? && Structure(s.info)
    ensures Structure(UpdateThreadPost(s, i).info)
  {
    PutThread(s.info, i.thread, UpdateThreadPost(s, i).info[i.thread]);
  }

  lemma OpenBothVaults(info: Accounts, thread: Key, treasuryIdx: nat, authorIdx: nat)
    requires Structure(info) && IsThread(info, thread)
    requires treasuryIdx < N_TREASURY_SHARDS && authorIdx < N_AUTHOR_FEE_SHARDS
    ensures var post := WithVault(WithVault(info, TreasuryKey(treasuryIdx)), AuthorKey(thread, authorIdx));
            Structure(post) && forall p :: HasPage(info, thread, p) ==> HasPage(post, thread, p)
  {
    OpenVault(info, TreasuryKey(treasuryIdx));
    OpenVault(WithVault(info, TreasuryKey(treasuryIdx)), AuthorKey(thread, authorIdx));
    OnlyOutsideThreads(info, TreasuryKey(treasuryIdx));
    OnlyOutsideThreads(info, AuthorKey(thread, authorIdx));
  }

  /** A message or a like record on an existing page. */
  lemma PutOnPage(info: Accounts, k: Key, a: Account)
    requires Structure(info) && (k.ContentKey? || k.LikesKey?)
    requires TypedAt(k, a) && HasPage(info, k.thread, k.page)
    ensures Structure(info[k := a])
  {
    OnlyOutsideThreads(info, k);
    hide Structure, TypedAt;
    PutChild(info, k, a);
  }

  lemma FilledIsTyped(s: State, i: Instruction)
    requires i.FillSlot? && WellFormed(i) && FillCheck(s, i).Done? && IsTime(s.now)
    ensures var k := i.remaining[FilledSlot(s, i)];
            && k.ContentKey? && k.thread == i.thread && TypedAt(k, Created(FilledContent(s, i)))
            && HasPage(s.info, i.thread, k.page) && IsThread(s.info, i.thread)
    ensures i.treasuryIdx < N_TREASURY_SHARDS && i.authorIdx < N_AUTHOR_FEE_SHARDS
  {
    hide CanPay, Rent, ChargeOutcome;
    FilledInRange(s, i);
  }

  lemma FillStructure(s: State, i: Instruction)
    requires i.FillSlot? && WellFormed(i) && FillCheck(s, i).Done? && Structure(s.info) && Sane(s, i) && IsTime(s.now)
    ensures Structure(FillPost(s, i).info)
  {
    FilledIsTyped(s, i);
    hide Settle, FillCheck, Structure, TypedAt, HasPage, WithVault, Sane, WellFormed, FilledContent;
    OpenBothVaults(s.info, i.thread, i.treasuryIdx, i.authorIdx);
    PutOnPage(WithVault(WithVault(s.info, TreasuryKey(i.treasuryIdx)), AuthorKey(i.thread, i.authorIdx)),
              i.remaining[FilledSlot(s, i)], Created(FilledContent(s, i)));
  }

  lemma GrownIsTyped(s: State, i: Instruction)
    requires i.AppendContent? && WellFormed(i) && AppendCheck(s, i).Done? && Structure(s.info)
    ensures i.target.ContentKey? && TypedAt(i.target, Created(GrownContent(s, i)))
    ensures HasPage(s.info, i.target.thread, i.target.page) && i.treasuryIdx < N_TREASURY_SHARDS
  {
    hide CanPay, Rent, TopUp, AppendToVault;
    assert TypedAt(i.target, s.info[i.target]);
    assert Anchored(s.info, i.target);
  }

  lemma AppendStructure(s: State, i: Instruction)
    requires i.AppendContent? && WellFormed(i) && AppendCheck(s, i).Done? && Structure(s.info)
    ensures Structure(AppendPost(s, i).info)
  {
    GrownIsTyped(s, i);
    OnlyOutsideThreads(s.info, TreasuryKey(i.treasuryIdx));
    hide Settle, AppendCheck, Structure, TypedAt, GrownContent, WellFormed;
    OpenVault(s.info, TreasuryKey(i.treasuryIdx));
    PutOnPage(if AppendOpens(s, i) then WithVault(s.info, TreasuryKey(i.treasuryIdx)) else s.info, i.target,
              Created(GrownContent(s, i)));
  }

  lemma LikedIsTyped(s: State, i: Instruction)
    requires i.LikeContent? && WellFormed(i) && LikeCheck(s, i).Done? && Structure(s.info)
    ensures TypedAt(LikesKey(i.thread, i.page), Created(LikedRecord(s, i)))
    ensures HasPage(s.info, i.thread, i.page) && IsThread(s.info, i.thread)
    ensures i.treasuryIdx < N_TREASURY_SHARDS && i.authorIdx < N_AUTHOR_FEE_SHARDS
  {
    hide CanPay, Rent, TopUp, OpenBoth, LikeFee;
    var k := LikesKey(i.thread, i.page);
    assert k in s.info ==> TypedAt(k, s.info[k]);
    assert Anchored(s.info, ContentKey(i.thread, i.page, i.slot));
  }

  lemma LikeStructure(s: State, i: Instruction)
    requires i.LikeContent? && WellFormed(i) && LikeCheck(s, i).Done? && Structure(s.info) && Sane(s, i)
    ensures Structure(LikePost(s, i).info)
  {
    LikedIsTyped(s, i);
    hide Settle, LikeCheck, Structure, TypedAt, HasPage, WithVault, Sane, WellFormed, LikedRecord;
    OpenBothVaults(s.info, i.thread, i.treasuryIdx, i.authorIdx);
    PutOnPage(WithVault(WithVault(s.info, TreasuryKey(i.treasuryIdx)), AuthorKey(i.thread, i.authorIdx)),
              LikesKey(i.thread, i.page), Created(LikedRecord(s, i)));
  }

  lemma ResetIsTyped(s: State, i: Instruction)
    requires i.CloseAccount? && CloseCheck(s, i).Done? && Structure(s.info) && Sane(s, i) && CloseResets(s, i)
    ensures var k := i.likes.value;
            && k.LikesKey? && HasPage(s.info, k.thread, k.page)
            && k in ClosePost(s, i).info && TypedAt(k, ClosePost(s, i).info[k])
  {
    hide Pay, Rent;
    assert TypedAt(i.likes.value, s.info[i.likes.value]);
    assert Anchored(s.info, i.target);
  }

  lemma CloseStructure(s: State, i: Instruction)
    requires i.CloseAccount? && WellFormed(i) && CloseCheck(s, i).Done? && Structure(s.info) && Sane(s, i)
    ensures Structure(ClosePost(s, i).info)
  {
    if CloseResets(s, i) {
      ResetIsTyped(s, i);
    }
    hide Structure, TypedAt, HasPage, Pay, Sane, WellFormed;
    if CloseResets(s, i) {
      var k := i.likes.value;
      var a := ClosePost(s, i).info[k];
      PutOnPage(s.info, k, a);
      RemoveChild(s.info[k := a], i.target);
    } else {
      RemoveChild(s.info, i.target);
    }
  }

  lemma InitAccessStructure(s: State, i: Instruction)
    requires i.InitThreadAccess? && WellFormed(i) && InitAccessCheck(s, i).Done? && Structure(s.info)
    ensures Structure(InitAccessPost(s, i).info)
  {
    OpenVault(s.info, TreasuryKey(i.treasuryIdx));
    PutChild(WithVault(s.info, TreasuryKey(i.treasuryIdx)), AccessKey(i.thread),
             InitAccessPost(s, i).info[AccessKey(i.thread)]);
  }

  lemma UpdateAccessStructure(s: State, i: Instruction)
    requires i.UpdateAccess? && WellFormed(i) && UpdateAccessCheck(s, i).Done? && Structure(s.info)
    ensures Structure(UpdateAccessPost(s, i).info)
  {
    PutChild(s.info, i.access, UpdateAccessPost(s, i).info[i.access]);
  }

  lemma CountStructure(info: Accounts, access: Key, delta: int)
    requires Structure(info) && access.AccessKey? && access in info
    ensures Structure(WithCount(info, access, delta))
  {
    PutChild(info, access, WithCount(info, access, delta)[access]);
  }

  /** A member entry of a thread that has an access record. */
  lemma PutEntry(info: Accounts, t: Key, wallet: Key, status: nat)
    requires Structure(info) && AccessKey(t) in info && status <= ACCESS_FEE_EXEMPT
    ensures Structure(info[EntryKey(t, wallet) := Created(Entry(t, wallet, status))])
  {
    PutChild(info, EntryKey(t, wallet), Created(Entry(t, wallet, status)));
  }

  lemma SetStatusStructure(s: State, i: Instruction)
    requires i.SetStatus? && WellFormed(i) && SetStatusCheck(s, i).Done? && Structure(s.info)
    ensures Structure(SetStatusPost(s, i).info)
  {
    var delta := SetStatusDelta(s, i);
    CountStructure(s.info, i.access, delta);
    var counted := if delta == 0 then s.info else WithCount(s.info, i.access, delta);
    var k := EntryKey(s.info[i.access].data.thread, i.wallet);
    PutChild(counted, k, SetStatusPost(s, i).info[k]);
  }

  lemma RemoveStatusStructure(s: State, i: Instruction)
    requires i.RemoveStatus? && WellFormed(i) && RemoveStatusCheck(s, i).Done? && Structure(s.info)
    ensures Structure(RemoveStatusPost(s, i).info)
  {
    CountStructure(s.info, i.access, -1);
    var counted := if i.status == ACCESS_ALLOWED then WithCount(s.info, i.access, -1) else s.info;
    RemoveChild(counted, EntryKey(s.info[i.access].data.thread, i.wallet));
  }

  lemma RequestLoads(s: State, i: Instruction)
    requires i.RequestAccess? && RequestCheck(s, i).Done?
    ensures AccessKey(i.thread) in s.info && s.info[AccessKey(i.thread)].data.Access? && IsThread(s.info, i.thread)
    ensures i.treasuryIdx < N_TREASURY_SHARDS && i.authorIdx < N_AUTHOR_FEE_SHARDS
  {
    hide CanPay, OpenBoth, TopUp;
  }

  lemma RequestStructure(s: State, i: Instruction)
    requires i.RequestAccess? && WellFormed(i) && RequestCheck(s, i).Done? && Structure(s.info) && Sane(s, i)
    ensures Structure(RequestPost(s, i).info)
  {
    RequestLoads(s, i);
    hide Structure, RequestCheck, Sane, WellFormed, Settle, Adjusted;
    OpenBothVaults(s.info, i.thread, i.treasuryIdx, i.authorIdx);
    var vaulted := WithVault(WithVault(s.info, TreasuryKey(i.treasuryIdx)), AuthorKey(i.thread, i.authorIdx));
    assert vaulted[AccessKey(i.thread)] == s.info[AccessKey(i.thread)];
    CountStructure(vaulted, AccessKey(i.thread), 1);
    PutEntry(WithCount(vaulted, AccessKey(i.thread), 1), i.thread, i.payer, ACCESS_ALLOWED);
  }

  /** A registry and a counter shard of an existing thread. */
  lemma PutFollow(info: Accounts, r: Key, a: Account, f: Key, b: Account)
    requires Structure(info) && r.RegistryKey? && f.FollowerKey? && IsThread(info, f.thread)
    requires TypedAt(r, a) && TypedAt(f, b)
    ensures Structure(info[r := a][f := b])
  {
    OnlyOutsideThreads(info, r);
    OnlyOutsideThreads(info, f);
    hide Structure, TypedAt;
    PutChild(info, r, a);
    PutChild(info[r := a], f, b);
  }

  lemma FollowIsTyped(s: State, i: Instruction)
    requires i.Subscribe? && WellFormed(i) && SubscribeCheck(s, i).Done? && Typed(s.info)
    ensures IsThread(s.info, i.thread) && TypedAt(RegistryKey(i.payer), Created(GrownRegistry(s, i)))
    ensures TypedAt(FollowerKey(i.thread, FollowerShardIndex(i.payer)), Created(RaisedFollower(s, i)))
  {
    hide Rent, CanPay, TopUp;
    var r := RegistryKey(i.payer);
    assert r in s.info ==> TypedAt(r, s.info[r]);
  }

  lemma SubscribeStructure(s: State, i: Instruction)
    requires i.Subscribe? && WellFormed(i) && SubscribeCheck(s, i).Done? && Structure(s.info)
    ensures Structure(SubscribePost(s, i).info)
  {
    FollowIsTyped(s, i);
    hide Structure, TypedAt, SubscribeCheck, GrownRegistry, RaisedFollower, WellFormed;
    PutFollow(s.info, RegistryKey(i.payer), Created(GrownRegistry(s, i)),
              FollowerKey(i.thread, FollowerShardIndex(i.payer)), Created(RaisedFollower(s, i)));
  }

  lemma SwapRemoveKeeps(xs: seq<Key>, n: nat)
    requires n < |xs| && NoDuplicates(xs)
    ensures NoDuplicates(SwapRemove(xs, n)) && |SwapRemove(xs, n)| == |xs| - 1
    ensures forall x :: x in SwapRemove(xs, n) <==> x in xs && x != xs[n]
  {
    var ys := SwapRemove(xs, n);
    forall x
      ensures x in ys <==> x in xs && x != xs[n]
    {
      if x in xs && x != xs[n] {
        var m :| 0 <= m < |xs| && xs[m] == x;
        assert if m == |xs| - 1 then ys[n] == x else ys[m] == x;
      }
    }
  }

  lemma UnfollowIsTyped(s: State, i: Instruction)
    requires i.Unsubscribe? && WellFormed(i) && UnsubscribeCheck(s, i).Done? && Typed(s.info)
    ensures var r, f := RegistryKey(i.payer), FollowerKey(i.thread, FollowerShardIndex(i.payer));
            var post := UnsubscribePost(s, i).info;
            && IsThread(s.info, i.thread) && r in post && f in post && TypedAt(r, post[r]) && TypedAt(f, post[f])
            && post == s.info[r := post[r]][f := post[f]]
  {
    hide Rent, Pay, SwapRemove, IndexOf;
    var r, f := RegistryKey(i.payer), FollowerKey(i.thread, FollowerShardIndex(i.payer));
    var channels := s.info[r].data.channels;
    assert TypedAt(r, s.info[r]) && TypedAt(f, s.info[f]);
    SwapRemoveKeeps(channels, IndexOf(channels, i.thread));
  }

  lemma UnsubscribeStructure(s: State, i: Instruction)
    requires i.Unsubscribe? && WellFormed(i) && UnsubscribeCheck(s, i).Done? && Structure(s.info)
    ensures Structure(UnsubscribePost(s, i).info)
  {
    UnfollowIsTyped(s, i);
    hide Structure, TypedAt, UnsubscribeCheck, UnsubscribePost, WellFormed;
    var r, f := RegistryKey(i.payer), FollowerKey(i.thread, FollowerShardIndex(i.payer));
    var post := UnsubscribePost(s, i).info;
    PutFollow(s.info, r, post[r], f, post[f]);
  }
}
