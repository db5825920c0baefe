/** When the program accepts an instruction, in terms of the stored records alone. */
module Acceptance {
  import opened Keys
  import opened Records
  import opened Ledger
  import opened Instructions
  import opened Invariant
  import opened Prices
  import opened Messages
  import opened FollowerTotals

  // ---- the conditions ----

  predicate ValidShards(treasuryIdx: nat, authorIdx: nat) {
    treasuryIdx < N_TREASURY_SHARDS && authorIdx < N_AUTHOR_FEE_SHARDS
  }

  /** The author of the channel. */
  predicate IsAuthor(info: Accounts, thread: Key, wallet: Key) {
    IsThread(info, thread) && wallet == info[thread].data.author
  }

  /** `access` is a gate of the caller's own channel. */
  predicate OwnsGate(info: Accounts, access: Key, wallet: Key) {
    access.AccessKey? && access in info && IsAuthor(info, access.thread, wallet)
  }

  /** The gate lets the wallet post: it is not banned, and a closed gate knows it. */
  predicate Admits(info: Accounts, thread: Key, wallet: Key) {
    var gate, entry := Data(info, AccessKey(thread)), Data(info, EntryKey(thread, wallet));
    var closed := gate.Access? && gate.enabled && (gate.whitelistCount > 0 || gate.entryFee > 0);
    var member := entry.Entry? && (entry.status == ACCESS_ALLOWED || entry.status == ACCESS_FEE_EXEMPT);
    var banned := entry.Entry? && entry.status == ACCESS_DENIED;
    !banned && (closed ==> member || IsAuthor(info, thread, wallet))
  }

  /** Candidate `j` is a genuine empty slot, and every earlier one is a genuine taken slot. */
  ghost predicate FirstFree(s: State, i: Instruction, j: nat)
    requires i.FillSlot? && IsThread(s.info, i.thread)
  {
    var last := s.info[i.thread].data.lastPage;
    && j < |i.candidates| <= |i.remaining| && i.remaining[j] !in s.info
    && GoodCandidate(i.thread, last, i.candidates, i.remaining, j)
    && AllTaken(s.info, i.thread, last, i.candidates, i.remaining, 0, j)
  }

  /** The accounts a posting passes: the candidates, then the gate and the poster's entry. */
  predicate WellAddressed(i: Instruction)
    requires i.FillSlot?
  {
    var n := |i.candidates|;
    n > 0 && n + 2 <= |i.remaining| && i.remaining[n] == AccessKey(i.thread)
    && i.remaining[n + 1] == EntryKey(i.thread, i.payer)
  }

  ghost predicate CanPost(s: State, i: Instruction)
    requires i.FillSlot?
  {
    && |i.body| <= MAX_BODY_LEN && WellAddressed(i)
    && IsThread(s.info, i.thread) && SettingsKey in s.info && ValidShards(i.treasuryIdx, i.authorIdx)
    && Admits(s.info, i.thread, i.payer) && BaseFee(s, i) + AuthorFee(s, i) <= i.maxFee
    && exists j: nat :: FirstFree(s, i, j) && Affords(s, i.payer, PostingCost(s, i, i.remaining[j]))
  }

  predicate CanAppend(s: State, i: Instruction)
    requires i.AppendContent?
  {
    var message := Data(s.info, i.target);
    && message.Content? && message.thread == i.thread && message.author == i.payer
    && s.now - message.createdAt <= APPEND_WINDOW_SECS && |message.body| + |i.chunk| <= MAX_BODY_LEN
    && SettingsKey in s.info && ValidShards(i.treasuryIdx, i.authorIdx) && Affords(s, i.payer, AppendCost(s, i))
  }

  predicate CanLike(s: State, i: Instruction)
    requires i.LikeContent?
  {
    && ContentKey(i.thread, i.page, i.slot) in s.info
    && SettingsKey in s.info && ValidShards(i.treasuryIdx, i.authorIdx)
    && AuthorFee(s, i) <= i.maxFee && Affords(s, i.payer, LikingCost(s, i))
  }

  predicate CanClose(s: State, i: Instruction)
    requires i.CloseAccount?
  {
    var message := Data(s.info, i.target);
    && message.Content? && message.author == i.payer
    && (i.likes.Some? ==> i.likes.value == LikesKey(message.thread, message.page))
  }

  /** Listed accounts that exist are the vaults at their indices. */
  predicate ListsVaults(info: Accounts, v: VaultSet, ks: seq<Key>, js: seq<nat>) {
    && ks != [] && |ks| == |js|
    && forall m :: 0 <= m < |ks| ==> ks[m] !in info || (js[m] < VaultLimit(v) && ks[m] == VaultKey(v, js[m]))
  }

  /** The treasury the settings name, or the author of the channel, collects. */
  predicate CanSweep(s: State, i: Instruction)
    requires i.SweepTreasury? || i.SweepAuthorFees?
  {
    if i.SweepTreasury? then
      && Data(s.info, SettingsKey).Settings? && i.recipient == Data(s.info, SettingsKey).treasury
      && ListsVaults(s.info, TreasuryVaults, i.accounts, i.indices)
    else
      IsAuthor(s.info, i.thread, i.recipient) && ListsVaults(s.info, AuthorVaults(i.thread), i.accounts, i.indices)
  }

  /** A wallet joins a gate that has a price and does not know it yet. */
  predicate CanJoin(s: State, i: Instruction)
    requires i.RequestAccess?
  {
    var gate := Data(s.info, AccessKey(i.thread));
    && gate.Access? && gate.entryFee > 0 && EntryKey(i.thread, i.payer) !in s.info
    && SettingsKey in s.info && ValidShards(i.treasuryIdx, i.authorIdx) && Affords(s, i.payer, JoinCost(s, i))
  }

  predicate CanSetStatus(s: State, i: Instruction)
    requires i.SetStatus?
  {
    && OwnsGate(s.info, i.access, i.payer)
    && var entry := EntryKey(i.access.thread, i.wallet);
    entry in s.info || Affords(s, i.payer, TopUp(s.lam[entry], ENTRY_SIZE))
  }

  predicate CanRemoveStatus(s: State, i: Instruction)
    requires i.RemoveStatus?
  {
    && OwnsGate(s.info, i.access, i.payer)
    && Data(s.info, EntryKey(i.access.thread, i.wallet)) == Entry(i.access.thread, i.wallet, i.status)
  }

  predicate CanGate(s: State, i: Instruction)
    requires i.InitThreadAccess?
  {
    && IsAuthor(s.info, i.thread, i.payer) && AccessKey(i.thread) !in s.info
    && i.treasuryIdx < N_TREASURY_SHARDS && Affords(s, i.payer, GateCost(s, i))
  }

  /** A thread is founded on an address that is unused and holds nothing. */
  predicate CanFound(s: State, i: Instruction)
    requires i.CreateRootAlloc?
  {
    && |i.title| <= MAX_TITLE_LEN && SettingsKey in s.info && i.treasuryIdx < N_TREASURY_SHARDS
    && i.thread !in s.info && s.lam[i.thread] == 0 && Affords(s, i.payer, RootCost(s, i))
  }

  predicate CanGrow(s: State, i: Instruction)
    requires i.PrepareAlloc?
  {
    && IsThread(s.info, i.thread) && i.page == s.info[i.thread].data.lastPage
    && i.current == AllocKey(i.thread, i.page) && i.page <= U32_MAX - 2
    && Affords(s, i.payer, TopUp(s.lam[AllocKey(i.thread, i.page + 1)], ALLOC_SIZE))
  }

  predicate CanConfigure(s: State, i: Instruction)
    requires i.InitSettings? || i.UpdateSettings?
  {
    if i.InitSettings? then
      && i.payer == i.upgradeAuthority && SettingsKey !in s.info
      && Affords(s, i.payer, TopUp(s.lam[SettingsKey], SETTINGS_SIZE))
    else
      && Data(s.info, SettingsKey).Settings? && i.payer == Data(s.info, SettingsKey).admin
      && (IsBps(i.setting) ==> i.setting.bps <= MAX_FEE_CUT_BPS)
  }

  predicate CanFollow(s: State, i: Instruction)
    requires i.Subscribe?
  {
    var channels := Channels(s.info, RegistryKey(i.payer));
    && IsThread(s.info, i.thread) && i.thread !in channels && |channels| < MAX_FOLLOWS
    && Affords(s, i.payer, FollowCost(s, i))
  }

  ghost predicate Permitted(s: State, i: Instruction) {
    match i
    case InitSettings(_, _, _) => CanConfigure(s, i)
    case UpdateSettings(_, _) => CanConfigure(s, i)
    case CreateRootAlloc(_, _, _, _, _) => CanFound(s, i)
    case PrepareAlloc(_, _, _, _) => CanGrow(s, i)
    case FillSlot(_, _, _, _, _, _, _, _, _, _, _) => CanPost(s, i)
    case AppendContent(_, _, _, _, _, _) => CanAppend(s, i)
    case LikeContent(_, _, _, _, _, _, _) => CanLike(s, i)
    case CloseAccount(_, _, _) => CanClose(s, i)
    case SweepTreasury(_, _, _) => CanSweep(s, i)
    case SweepAuthorFees(_, _, _, _) => CanSweep(s, i)
    case InitThreadAccess(_, _, _, _) => CanGate(s, i)
    case UpdateAccess(p, a, _) => OwnsGate(s.info, a, p)
    case SetStatus(_, _, _, _) => CanSetStatus(s, i)
    case RemoveStatus(_, _, _, _) => CanRemoveStatus(s, i)
    case RequestAccess(_, _, _, _) => CanJoin(s, i)
    case UpdateThread(p, t, _) => IsAuthor(s.info, t, p)
    case Subscribe(_, _) => CanFollow(s, i)
    case Unsubscribe(p, t) => t in Channels(s.info, RegistryKey(p))
  }

  // ---- the loaders accept exactly the records of their kind ----

  lemma ThreadLoads(info: Accounts, t: Key)
    requires Typed(info)
    ensures CheckThread(info, t).Done? <==> IsThread(info, t)
  {
    assert t in info ==> TypedAt(t, info[t]);
  }

  lemma SettingsLoad(info: Accounts)
    requires Typed(info)
    ensures CheckSettings(info).Done? <==> SettingsKey in info
    ensures Data(info, SettingsKey).Settings? <==> SettingsKey in info
  {
    assert SettingsKey in info ==> TypedAt(SettingsKey, info[SettingsKey]);
  }

  lemma PageLoads(info: Accounts, k: Key)
    requires Typed(info)
    ensures CheckAlloc(info, k).Done? <==> k.AllocKey? && k in info
    ensures k.AllocKey? && k in info ==> info[k].data == Alloc(k.thread, k.page)
    ensures CheckAlloc(info, k).Fail? ==> CheckAlloc(info, k).error in {AccountOwnerMismatch, InvalidAccountData}
  {
    assert k in info ==> TypedAt(k, info[k]);
  }

  lemma ContentLoads(info: Accounts, k: Key)
    requires Typed(info)
    ensures CheckContent(info, k).Done? <==> Data(info, k).Content?
    ensures Data(info, k).Content? <==> k in info && k.ContentKey?
    ensures k in info && k.ContentKey? ==> k.slot < CONTENT_SLOTS && Data(info, k).thread == k.thread
                                           && Data(info, k).page == k.page
  {
    assert k in info ==> TypedAt(k, info[k]);
  }

  lemma LikesLoad(info: Accounts, k: Key)
    requires Typed(info) && k.LikesKey?
    ensures Fresh(info, k) || CheckLikes(info, k).Done?
  {
    assert k in info ==> TypedAt(k, info[k]);
  }

  lemma GateLoads(info: Accounts, t: Key)
    requires Typed(info)
    ensures Fresh(info, AccessKey(t)) <==> AccessKey(t) !in info
    ensures AccessKey(t) in info ==> CheckAccess(info, AccessKey(t)).Done? && Data(info, AccessKey(t)).Access?
                                     && Data(info, AccessKey(t)).thread == t
    ensures AccessKey(t) !in info ==> CheckAccess(info, AccessKey(t)).Fail? && Data(info, AccessKey(t)) == Blank
  {
    assert AccessKey(t) in info ==> TypedAt(AccessKey(t), info[AccessKey(t)]);
  }

  lemma EntryLoads(info: Accounts, t: Key, w: Key)
    requires Typed(info)
    ensures var e := EntryKey(t, w);
            && (Fresh(info, e) <==> e !in info)
            && (e in info ==> CheckBoundEntry(info, e, t, w).Done? && Data(info, e).Entry?
                              && Data(info, e).thread == t && Data(info, e).wallet == w
                              && Data(info, e).status <= ACCESS_FEE_EXEMPT)
            && (e !in info ==> Data(info, e) == Blank)
  {
    assert EntryKey(t, w) in info ==> TypedAt(EntryKey(t, w), info[EntryKey(t, w)]);
  }

  lemma ParentExists(info: Accounts, k: Key)
    requires Children(info) && k in info && (k.ContentKey? || k.AccessKey?)
    ensures IsThread(info, k.thread)
    ensures k.AccessKey? ==> Data(info, k).Access? && Data(info, k).admin == info[k.thread].data.author
  {
    assert Anchored(info, k);
  }

  // ---- posting ----

  /** The gate the program applies is the one the records describe. */
  lemma GateAdmits(info: Accounts, thread: Key, wallet: Key)
    requires Typed(info) && CheckThread(info, thread).Done?
    ensures GateCheck(info, thread, wallet).Done? <==> Admits(info, thread, wallet)
    ensures GateCheck(info, thread, wallet).Fail? ==> GateCheck(info, thread, wallet) == Fail(AccessDenied)
  {
    GateLoads(info, thread);
    EntryLoads(info, thread, wallet);
    hide Typed, Rent;
  }

  lemma PrologueIff(s: State, i: Instruction)
    requires i.FillSlot? && Typed(s.info)
    ensures FillPrologue(s, i).Done? <==>
              && |i.body| <= MAX_BODY_LEN && WellAddressed(i)
              && IsThread(s.info, i.thread) && SettingsKey in s.info && ValidShards(i.treasuryIdx, i.authorIdx)
              && Admits(s.info, i.thread, i.payer)
  {
    ThreadLoads(s.info, i.thread);
    SettingsLoad(s.info);
    if CheckThread(s.info, i.thread).Done? {
      GateAdmits(s.info, i.thread, i.payer);
    }
    hide Typed, CheckThread, CheckSettings, GateCheck, Admits;
  }

  lemma PickIff(s: State, i: Instruction, j: nat)
    requires i.FillSlot? && Typed(s.info) && CheckThread(s.info, i.thread).Done? && |i.candidates| <= |i.remaining|
    ensures PickSlot(s, i) == Pick.Found(j) <==> FirstFree(s, i, j)
  {
    ScanIsFirstFree(s.info, i.thread, s.info[i.thread].data.lastPage, i.candidates, i.remaining);
    if j < |i.remaining| {
      FreshIsAbsent(s.info, i.remaining[j]);
    }
    hide AllTaken, GoodCandidate, PickFrom, Typed, Fresh;
  }

  /** The order of the payments does not matter: their sum has to be there. */
  lemma ChargeIff(s: State, payer: Key, spent: nat, topUp: nat, base: nat, fee: nat, maxFee: nat)
    requires maxFee <= U64_MAX
    ensures ChargeOutcome(s, payer, spent, topUp, base, fee, maxFee).Done?
            <==> base + fee <= maxFee && CanPay(s, payer, spent + topUp + base + fee)
  {
  }

  /** The charge for the chosen slot. */
  lemma SlotCharge(s: State, i: Instruction, j: nat)
    requires i.FillSlot? && WellFormed(i) && Typed(s.info) && FillPrologue(s, i).Done? && j < |i.remaining|
    ensures CheckSettings(s.info).Done? && CheckThread(s.info, i.thread).Done?
    ensures ChargeOutcome(s, i.payer, OpenBoth(s, i), TopUp(s.lam[i.remaining[j]], ContentSize(|i.body|)),
                          PostFee(s, i), MessageFee(s.info, i.thread, i.payer), i.maxFee).Done?
            <==> BaseFee(s, i) + AuthorFee(s, i) <= i.maxFee
                 && Affords(s, i.payer, PostingCost(s, i, i.remaining[j]))
    ensures Affords(s, i.payer, PostingCost(s, i, i.remaining[j])) ==> CanPay(s, i.payer, OpenBoth(s, i))
  {
    PostingPrices(s, i);
    BothOpenings(s, i);
    ChargeIff(s, i.payer, OpenBoth(s, i), TopUp(s.lam[i.remaining[j]], ContentSize(|i.body|)),
              PostFee(s, i), MessageFee(s.info, i.thread, i.payer), i.maxFee);
    AffordsIff(s, i.payer, PostingCost(s, i, i.remaining[j]));
    hide FillPrologue, ChargeOutcome, BaseFee, AuthorFee, PostFee, MessageFee, OpenBoth, BothRents, Typed, TopUp,
         Affords;
  }

  lemma PostIff(s: State, i: Instruction)
    requires Inv(s) && i.FillSlot? && WellFormed(i)
    ensures FillCheck(s, i).Done? <==> CanPost(s, i)
  {
    PrologueIff(s, i);
    if FillPrologue(s, i).Done? {
      PostingPrices(s, i);
      hide Inv, FillPrologue, ChargeOutcome, Admits, FirstFree, PickSlot, TopUp, Rent, BaseFee, AuthorFee, PostFee,
           MessageFee, OpenBoth, PostingCost, Affords, CanPay, WellAddressed, ValidShards, CheckThread, CheckSettings;
      InvTyped(s);
      OnlyPick(s, i);
      if PickSlot(s, i).Found? {
        SlotCharge(s, i, PickSlot(s, i).at);
      }
    } else {
      hide Inv, FillPrologue, Admits, WellAddressed, BaseFee, AuthorFee, Affords, PostingCost, FirstFree;
    }
  }

  lemma OnlyPick(s: State, i: Instruction)
    requires i.FillSlot? && Typed(s.info) && CheckThread(s.info, i.thread).Done? && |i.candidates| <= |i.remaining|
    ensures forall j: nat :: FirstFree(s, i, j) ==> PickSlot(s, i) == Pick.Found(j)
    ensures PickSlot(s, i).Found? ==> FirstFree(s, i, PickSlot(s, i).at)
  {
    hide PickSlot, FirstFree, Typed;
    forall j: nat
      ensures PickSlot(s, i) == Pick.Found(j) <==> FirstFree(s, i, j)
    {
      PickIff(s, i, j);
    }
  }

  // ---- messages ----

  lemma AppendIff(s: State, i: Instruction)
    requires Inv(s) && i.AppendContent? && WellFormed(i)
    ensures AppendCheck(s, i).Done? <==> CanAppend(s, i)
  {
    ContentLoads(s.info, i.target);
    ThreadLoads(s.info, i.thread);
    SettingsLoad(s.info);
    if i.target in s.info && i.target.ContentKey? {
      ParentExists(s.info, i.target);
    }
    if AppendPrologue(s, i).Done? {
      AppendPrices(s, i);
      AffordsIff(s, i.payer, AppendCost(s, i));
    }
    hide Inv, Rent, TopUp, AppendToVault, AppendCost, Affords, CanPay, CheckThread, CheckSettings;
  }

  lemma LikeIff(s: State, i: Instruction)
    requires Inv(s) && i.LikeContent? && WellFormed(i)
    ensures LikeCheck(s, i).Done? <==> CanLike(s, i)
  {
    var k := ContentKey(i.thread, i.page, i.slot);
    var likes := LikesKey(i.thread, i.page);
    ContentLoads(s.info, k);
    ThreadLoads(s.info, i.thread);
    SettingsLoad(s.info);
    LikesLoad(s.info, likes);
    if k in s.info {
      ParentExists(s.info, k);
    }
    if LikePrologue(s, i).Done? {
      LikePrices(s, i);
      AffordsIff(s, i.payer, LikingCost(s, i));
    }
    hide Inv, Rent, TopUp, LikesCost, OpenBoth, LikingCost, CheckThread, CheckSettings, CheckContent, LikeFee,
         AuthorFee, Affords;
  }

  lemma CloseIff(s: State, i: Instruction)
    requires Inv(s) && i.CloseAccount?
    ensures CloseCheck(s, i).Done? <==> CanClose(s, i)
  {
    ContentLoads(s.info, i.target);
    if i.likes.Some? {
      var k := i.likes.value;
      assert k in s.info ==> TypedAt(k, s.info[k]);
    }
    hide Inv;
  }

  // ---- sweeping ----

  lemma {:induction false} SweptAllIff(info: Accounts, v: VaultSet, ks: seq<Key>, js: seq<nat>, n: nat)
    requires Typed(info) && n <= |ks| == |js|
    ensures CheckSweptAll(info, v, ks, js, n).Done? <==>
              forall m :: 0 <= m < n ==> ks[m] !in info || (js[m] < VaultLimit(v) && ks[m] == VaultKey(v, js[m]))
  {
    if n > 0 {
      SweptAllIff(info, v, ks, js, n - 1);
      VaultListed(info, v, ks[n - 1], js[n - 1]);
      hide CheckSwept, Typed;
    }
  }

  lemma VaultListed(info: Accounts, v: VaultSet, k: Key, idx: nat)
    requires Typed(info)
    ensures CheckSwept(info, v, k, idx).Done? <==> k !in info || (idx < VaultLimit(v) && k == VaultKey(v, idx))
  {
    assert k in info ==> TypedAt(k, info[k]);
  }

  lemma SweepIff(s: State, i: Instruction)
    requires Inv(s) && (i.SweepTreasury? || i.SweepAuthorFees?)
    ensures SweepCheck(s, i).Done? <==> CanSweep(s, i)
  {
    SettingsLoad(s.info);
    if |i.accounts| == |i.indices| {
      var v := if i.SweepTreasury? then TreasuryVaults else AuthorVaults(i.thread);
      SweptAllIff(s.info, v, i.accounts, i.indices, |i.accounts|);
    }
    if i.SweepAuthorFees? {
      ThreadLoads(s.info, i.thread);
    }
    hide Inv, CheckSweptAll;
  }

  // ---- gates and lists ----

  lemma OwnerIff(s: State, admin: Key, access: Key)
    requires Inv(s)
    ensures CheckAdminAccess(s.info, admin, access).Done? <==> OwnsGate(s.info, access, admin)
    ensures OwnsGate(s.info, access, admin) ==> s.info[access].data.Access?
                                                && s.info[access].data.thread == access.thread
  {
    assert access in s.info ==> TypedAt(access, s.info[access]);
    if access.AccessKey? && access in s.info {
      ParentExists(s.info, access);
    }
    hide Inv;
  }

  lemma SetStatusIff(s: State, i: Instruction)
    requires Inv(s) && i.SetStatus? && WellFormed(i)
    ensures SetStatusCheck(s, i).Done? <==> CanSetStatus(s, i)
  {
    OwnerIff(s, i.payer, i.access);
    if i.access.AccessKey? {
      var entry := EntryKey(i.access.thread, i.wallet);
      EntryLoads(s.info, i.access.thread, i.wallet);
      AffordsIff(s, i.payer, TopUp(s.lam[entry], ENTRY_SIZE));
    }
    hide Inv, CheckAdminAccess, OwnsGate, Rent, TopUp, Affords;
  }

  lemma RemoveStatusIff(s: State, i: Instruction)
    requires Inv(s) && i.RemoveStatus?
    ensures RemoveStatusCheck(s, i).Done? <==> CanRemoveStatus(s, i)
  {
    OwnerIff(s, i.payer, i.access);
    if i.access.AccessKey? {
      EntryLoads(s.info, i.access.thread, i.wallet);
    }
    hide Inv, CheckAdminAccess, OwnsGate;
  }

  /** A paid join is accepted exactly when the gate sells entry, does not know the wallet yet, and
      the wallet can pay for everything: an invitation-only gate admits nobody this way. */
  lemma JoinIff(s: State, i: Instruction)
    requires Inv(s) && i.RequestAccess? && WellFormed(i)
    ensures RequestCheck(s, i).Done? <==> CanJoin(s, i)
  {
    GateLoads(s.info, i.thread);
    EntryLoads(s.info, i.thread, i.payer);
    SettingsLoad(s.info);
    ThreadLoads(s.info, i.thread);
    if AccessKey(i.thread) in s.info {
      ParentExists(s.info, AccessKey(i.thread));
    }
    if RequestPrologue(s, i).Done? {
      JoinPrices(s, i);
      AffordsIff(s, i.payer, JoinCost(s, i));
    }
    hide Inv, Rent, TopUp, OpenBoth, JoinCost, CheckThread, CheckSettings, CheckAccess, Affords, CheckBoundEntry;
  }

  lemma GateIff(s: State, i: Instruction)
    requires Inv(s) && i.InitThreadAccess? && WellFormed(i)
    ensures InitAccessCheck(s, i).Done? <==> CanGate(s, i)
  {
    ThreadLoads(s.info, i.thread);
    GateLoads(s.info, i.thread);
    RentsOpen(s, TreasuryKey(i.treasuryIdx));
    AffordsIff(s, i.payer, GateCost(s, i));
    hide Inv, Rent, TopUp, OpeningCost, VaultRent, Affords, CanPay, CheckThread;
  }

  // ---- threads and settings ----

  /** The total a founder spends bounds every payment on the way, and no rent overflows. */
  lemma FounderPays(s: State, i: Instruction)
    requires Inv(s) && i.CreateRootAlloc? && WellFormed(i) && RootPrologue(s, i).Done?
    ensures CreateRootCheck(s, i).Done? <==> s.lam[i.thread] == 0 && CanPay(s, i.payer, RootCost(s, i))
  {
    RootPrices(s, i);
    var root := AllocKey(i.thread, 0);
    BalanceWithinSupply(s.lam, i.payer, root);
    hide Inv, Rent, RootFee, OpeningCost, BaseFee, RootPrologue, RootCost;
  }

  lemma FoundIff(s: State, i: Instruction)
    requires Inv(s) && i.CreateRootAlloc? && WellFormed(i)
    ensures CreateRootCheck(s, i).Done? <==> CanFound(s, i)
  {
    SettingsLoad(s.info);
    FreshIsAbsent(s.info, i.thread);
    FreshIsAbsent(s.info, AllocKey(i.thread, 0));
    assert AllocKey(i.thread, 0) in s.info ==> HasPage(s.info, i.thread, 0);
    AffordsIff(s, i.payer, RootCost(s, i));
    if RootPrologue(s, i).Done? {
      FounderPays(s, i);
    }
    hide Inv, Rent, RootFee, OpeningCost, BaseFee, RootCost, Affords, CanPay, CheckSettings;
  }

  lemma GrowIff(s: State, i: Instruction)
    requires Inv(s) && i.PrepareAlloc? && WellFormed(i)
    ensures PrepareCheck(s, i).Done? <==> CanGrow(s, i)
  {
    ThreadLoads(s.info, i.thread);
    PageLoads(s.info, i.current);
    AffordsIff(s, i.payer, TopUp(s.lam[AllocKey(i.thread, i.page + 1)], ALLOC_SIZE));
    if IsThread(s.info, i.thread) && i.page == s.info[i.thread].data.lastPage
       && i.current == AllocKey(i.thread, i.page) {
      TailGrowsIff(s, i);
    }
    hide Inv, TopUp, Affords, CanPay, CheckThread, CheckAlloc;
  }

  lemma ConfigureIff(s: State, i: Instruction)
    requires Inv(s) && (i.InitSettings? || i.UpdateSettings?)
    ensures Check(s, i).Done? <==> CanConfigure(s, i)
  {
    SettingsLoad(s.info);
    FreshIsAbsent(s.info, SettingsKey);
    if i.InitSettings? {
      AffordsIff(s, i.payer, TopUp(s.lam[SettingsKey], SETTINGS_SIZE));
    }
    hide Inv, TopUp, Affords, CanPay, CheckSettings;
  }

  lemma CallerFollowsIff(s: State, i: Instruction)
    requires Inv(s) && i.Subscribe? && WellFormed(i)
    ensures SubscribeCheck(s, i).Done? <==> CanFollow(s, i)
  {
    FollowIff(s, i);
    FollowPrices(s, i);
    AffordsIff(s, i.payer, FollowCost(s, i));
    hide Inv, TopUp, Affords, CanPay, SubscribeCheck, FollowCost, FollowerCost;
  }

  // ---- every instruction ----

  /** In every state of the invariant the program accepts exactly the permitted instructions:
      nothing else stands in anyone's way, and nothing else gets through. */
  lemma AcceptedIff(s: State, i: Instruction)
    requires Inv(s) && WellFormed(i)
    ensures Check(s, i).Done? <==> Permitted(s, i)
  {
    hide CanPost, CanAppend, CanLike, CanClose, CanSweep, CanJoin, CanSetStatus, CanRemoveStatus, CanGate, CanFound,
         CanGrow, CanConfigure, CanFollow, Inv, WellFormed;
    hide InitSettingsCheck, UpdateSettingsCheck, CreateRootCheck, PrepareCheck, FillCheck, AppendCheck, LikeCheck,
         CloseCheck, SweepCheck, InitAccessCheck, SetStatusCheck, RemoveStatusCheck, RequestCheck, SubscribeCheck,
         UnsubscribeCheck;
    match i
    case InitSettings(_, _, _) => ConfigureIff(s, i);
    case UpdateSettings(_, _) => ConfigureIff(s, i);
    case CreateRootAlloc(_, _, _, _, _) => FoundIff(s, i);
    case PrepareAlloc(_, _, _, _) => GrowIff(s, i);
    case FillSlot(_, _, _, _, _, _, _, _, _, _, _) => PostIff(s, i);
    case AppendContent(_, _, _, _, _, _) => AppendIff(s, i);
    case LikeContent(_, _, _, _, _, _, _) => LikeIff(s, i);
    case CloseAccount(_, _, _) => CloseIff(s, i);
    case SweepTreasury(_, _, _) => SweepIff(s, i);
    case SweepAuthorFees(_, _, _, _) => SweepIff(s, i);
    case InitThreadAccess(_, _, _, _) => GateIff(s, i);
    case UpdateAccess(p, a, _) => OwnerIff(s, p, a);
    case SetStatus(_, _, _, _) => SetStatusIff(s, i);
    case RemoveStatus(_, _, _, _) => RemoveStatusIff(s, i);
    case RequestAccess(_, _, _, _) => JoinIff(s, i);
    case UpdateThread(p, t, _) => InvTyped(s); ThreadLoads(s.info, t);
    case Subscribe(_, _) => CallerFollowsIff(s, i);
    case Unsubscribe(_, _) => UnfollowIff(s, i);
  }
}
