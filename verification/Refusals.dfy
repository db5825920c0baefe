/** Every error names a fault that is really there. */
module Refusals {
  import opened Keys
  import opened Records
  import opened Ledger
  import opened Instructions
  import opened Invariant
  import opened Prices
  import opened Messages
  import opened Revenue
  import opened FollowerTotals
  import opened Acceptance

  // ---- what each error says ----

  predicate NeedsSettings(i: Instruction) {
    i.UpdateSettings? || i.CreateRootAlloc? || i.FillSlot? || i.AppendContent? || i.LikeContent? || i.SweepTreasury?
    || i.RequestAccess?
  }

  predicate NeedsThread(i: Instruction) {
    i.PrepareAlloc? || i.FillSlot? || i.AppendContent? || i.LikeContent? || i.SweepAuthorFees? || i.InitThreadAccess?
    || i.RequestAccess? || i.UpdateThread? || i.Subscribe? || i.Unsubscribe?
  }

  /** A message, gate, page or registry the instruction works on. */
  predicate Subject(s: State, i: Instruction) {
    match i
    case PrepareAlloc(_, current, _, _) => current.AllocKey? && current in s.info
    case AppendContent(_, k, _, _, _, _) => Data(s.info, k).Content?
    case LikeContent(_, t, page, slot, _, _, _) => ContentKey(t, page, slot) in s.info
    case CloseAccount(_, k, _) => Data(s.info, k).Content?
    case UpdateAccess(_, a, _) => Data(s.info, a).Access?
    case SetStatus(_, a, _, _) => Data(s.info, a).Access?
    case RemoveStatus(_, a, _, _) => Data(s.info, a).Access?
    case RequestAccess(_, t, _, _) => AccessKey(t) in s.info
    case Unsubscribe(p, _) => RegistryKey(p) in s.info
    case _ => true
  }

  /** A record the instruction needs is not there, or a listed account is another program's. */
  predicate Lacks(s: State, i: Instruction) {
    || (NeedsSettings(i) && SettingsKey !in s.info)
    || (NeedsThread(i) && !IsThread(s.info, i.thread))
    || !Subject(s, i)
    || (IsSweep(i) && exists m :: 0 <= m < |i.accounts| && i.accounts[m] in s.info && !IsVault(i.accounts[m]))
  }

  /** The signer has no say over what the instruction changes. */
  predicate Intruder(s: State, i: Instruction) {
    match i
    case InitSettings(p, upgrader, _) => p != upgrader
    case UpdateSettings(p, _) => Data(s.info, SettingsKey).Settings? && p != Data(s.info, SettingsKey).admin
    case AppendContent(p, k, _, _, _, _) => Data(s.info, k).Content? && p != Data(s.info, k).author
    case CloseAccount(p, k, _) => Data(s.info, k).Content? && p != Data(s.info, k).author
    case InitThreadAccess(p, t, _, _) => IsThread(s.info, t) && p != s.info[t].data.author
    case UpdateThread(p, t, _) => IsThread(s.info, t) && p != s.info[t].data.author
    case UpdateAccess(p, a, _) => !OwnsGate(s.info, a, p)
    case SetStatus(p, a, _, _) => !OwnsGate(s.info, a, p)
    case RemoveStatus(p, a, _, _) => !OwnsGate(s.info, a, p)
    case _ => false
  }

  predicate Exists(s: State, i: Instruction) {
    match i
    case InitSettings(_, _, _) => SettingsKey in s.info
    case CreateRootAlloc(_, t, _, _, _) => t in s.info
    case InitThreadAccess(_, t, _, _) => AccessKey(t) in s.info
    case _ => false
  }

  predicate Overlong(s: State, i: Instruction) {
    match i
    case CreateRootAlloc(_, _, _, _, title) => |title| > MAX_TITLE_LEN
    case FillSlot(_, _, _, body, _, _, _, _, _, _, _) => |body| > MAX_BODY_LEN
    case AppendContent(_, k, _, chunk, _, _) =>
      Data(s.info, k).Content? && |Data(s.info, k).body| + |chunk| > MAX_BODY_LEN
    case _ => false
  }

  predicate BadIndex(i: Instruction) {
    match i
    case CreateRootAlloc(_, _, _, j, _) => j >= N_TREASURY_SHARDS
    case InitThreadAccess(_, _, _, j) => j >= N_TREASURY_SHARDS
    case FillSlot(_, _, _, _, _, _, j, m, _, _, _) => !ValidShards(j, m)
    case AppendContent(_, _, _, _, j, m) => !ValidShards(j, m)
    case LikeContent(_, _, _, _, j, m, _) => !ValidShards(j, m)
    case RequestAccess(_, _, j, m) => !ValidShards(j, m)
    case SweepTreasury(_, ks, js) => |ks| != |js| || exists m :: 0 <= m < |js| && js[m] >= N_TREASURY_SHARDS
    case SweepAuthorFees(_, _, ks, js) => |ks| != |js| || exists m :: 0 <= m < |js| && js[m] >= N_AUTHOR_FEE_SHARDS
    case _ => false
  }

  /** A candidate that is off the end of the chain, off the page, or at another slot's address. */
  predicate BadCandidate(s: State, i: Instruction, e: Error) {
    i.FillSlot? && |i.candidates| <= |i.remaining| && IsThread(s.info, i.thread)
    && exists m :: 0 <= m < |i.candidates| &&
         var c := i.candidates[m];
         match e
         case InvalidAllocSeq => c.page > s.info[i.thread].data.lastPage
         case InvalidSlot => c.slot >= CONTENT_SLOTS
         case _ => i.remaining[m] != ContentKey(i.thread, c.page, c.slot)
  }

  /** An account passed by the caller is not the one its seeds name. */
  predicate Misaddressed(s: State, i: Instruction) {
    match i
    case FillSlot(_, _, _, _, _, _, _, _, _, _, _) => !WellAddressed(i) || BadCandidate(s, i, InvalidPda)
    case CloseAccount(_, k, likes) =>
      Data(s.info, k).Content? && likes.Some? && likes.value != LikesKey(Data(s.info, k).thread, Data(s.info, k).page)
    case SweepTreasury(_, ks, js) => |ks| == |js| && exists m :: 0 <= m < |ks| && ks[m] != TreasuryKey(js[m])
    case SweepAuthorFees(_, t, ks, js) => |ks| == |js| && exists m :: 0 <= m < |ks| && ks[m] != AuthorKey(t, js[m])
    case _ => false
  }

  /** The payer cannot pay for all of it. */
  ghost predicate Short(s: State, i: Instruction) {
    match i
    case InitSettings(p, _, _) => !Affords(s, p, TopUp(s.lam[SettingsKey], SETTINGS_SIZE))
    case CreateRootAlloc(p, _, _, _, _) => !Affords(s, p, RootCost(s, i))
    case PrepareAlloc(p, _, t, page) => !Affords(s, p, TopUp(s.lam[AllocKey(t, page + 1)], ALLOC_SIZE))
    case FillSlot(p, t, _, _, _, ks, _, _, _, _, _) =>
      || !Affords(s, p, BothRents(s, i))
      || (IsThread(s.info, t) && exists j: nat :: FirstFree(s, i, j) && !Affords(s, p, PostingCost(s, i, ks[j])))
    case AppendContent(p, _, _, _, _, _) => !Affords(s, p, AppendCost(s, i))
    case LikeContent(p, _, _, _, _, _, _) => !Affords(s, p, LikingCost(s, i))
    case InitThreadAccess(p, _, _, _) => !Affords(s, p, GateCost(s, i))
    case SetStatus(p, a, w, _) =>
      Data(s.info, a).Access? && var e := EntryKey(Data(s.info, a).thread, w);
      e !in s.info && !Affords(s, p, TopUp(s.lam[e], ENTRY_SIZE))
    case RequestAccess(p, _, _, _) => !Affords(s, p, JoinCost(s, i))
    case Subscribe(p, _) => !Affords(s, p, FollowCost(s, i))
    case _ => false
  }

  /** The fault an error names. */
  ghost predicate Justified(s: State, i: Instruction, e: Error) {
    match e
    case TextTooLong => Overlong(s, i)
    case InvalidCandidateCount => i.FillSlot? && (i.candidates == [] || |i.remaining| < |i.candidates| + 2)
    case AccountOwnerMismatch => Lacks(s, i)
    case InvalidAccountData =>
      Lacks(s, i) || (i.PrepareAlloc? && i.page > U32_MAX - 2)
      || (i.FillSlot? && BaseFee(s, i) + AuthorFee(s, i) > U64_MAX)
      || (i.CreateRootAlloc? && Rent(ThreadSize(|i.title|)) + Rent(ALLOC_SIZE) > U64_MAX)
    case AccountAlreadyInitialized => Exists(s, i)
    case NoFreeSlot =>
      && i.FillSlot? && |i.candidates| <= |i.remaining| && IsThread(s.info, i.thread)
      && AllTaken(s.info, i.thread, s.info[i.thread].data.lastPage, i.candidates, i.remaining, 0, |i.candidates|)
    case InvalidShard => BadIndex(i)
    case ThreadMismatch =>
      || (i.PrepareAlloc? && i.current.AllocKey? && i.current.thread != i.thread)
      || (i.AppendContent? && Data(s.info, i.target).Content? && Data(s.info, i.target).thread != i.thread)
    case InvalidPda => Misaddressed(s, i)
    case Unauthorized => Intruder(s, i)
    case InvalidTreasury =>
      i.SweepTreasury? && Data(s.info, SettingsKey).Settings? && i.recipient != Data(s.info, SettingsKey).treasury
    case InvalidAuthor => i.SweepAuthorFees? && !IsAuthor(s.info, i.thread, i.recipient)
    case AccessDenied =>
      || (i.FillSlot? && !Admits(s.info, i.thread, i.payer))
      || (i.RequestAccess?
          && Data(s.info, EntryKey(i.thread, i.payer)) == Entry(i.thread, i.payer, ACCESS_DENIED))
    case AccessListDuplicate => i.RequestAccess? && EntryKey(i.thread, i.payer) in s.info
    case AccessListMissing =>
      && i.RemoveStatus? && i.access.AccessKey?
      && Data(s.info, EntryKey(i.access.thread, i.wallet)) != Entry(i.access.thread, i.wallet, i.status)
    case InvalidFeeBps => i.UpdateSettings? && IsBps(i.setting) && i.setting.bps > MAX_FEE_CUT_BPS
    case ZeroEntryFee =>
      i.RequestAccess? && Data(s.info, AccessKey(i.thread)).Access? && Data(s.info, AccessKey(i.thread)).entryFee == 0
    case InvalidSlot => (i.LikeContent? && i.slot >= CONTENT_SLOTS) || BadCandidate(s, i, InvalidSlot)
    case InvalidAllocSeq =>
      || (i.PrepareAlloc? && (i.current != AllocKey(i.thread, i.page) || !IsThread(s.info, i.thread)
                              || i.page != s.info[i.thread].data.lastPage))
      || BadCandidate(s, i, InvalidAllocSeq)
    case NothingToSweep => IsSweep(i) && i.accounts == []
    case AppendWindowExpired =>
      i.AppendContent? && Data(s.info, i.target).Content?
      && s.now - Data(s.info, i.target).createdAt > APPEND_WINDOW_SECS
    case FeeExceedsMax =>
      (i.FillSlot? || i.LikeContent?) && BaseFee(s, i) + AuthorFee(s, i) > i.maxFee
    case AlreadyFollowing => i.Subscribe? && i.thread in Channels(s.info, RegistryKey(i.payer))
    case NotFollowing => i.Unsubscribe? && i.thread !in Channels(s.info, RegistryKey(i.payer))
    case FollowListFull => i.Subscribe? && |Channels(s.info, RegistryKey(i.payer))| >= MAX_FOLLOWS
    case InsufficientFunds => Short(s, i)
    case AccountInUse => i.CreateRootAlloc? && s.lam[i.thread] > 0
  }

  ghost predicate Honest(s: State, i: Instruction, r: Outcome) { r.Fail? ==> Justified(s, i, r.error) }

  // ---- settings and threads ----

  lemma SettingsHonest(s: State, i: Instruction)
    requires Inv(s) && (i.InitSettings? || i.UpdateSettings?)
    ensures Honest(s, i, Check(s, i))
  {
    SettingsLoad(s.info);
    FreshIsAbsent(s.info, SettingsKey);
    if i.InitSettings? {
      AffordsIff(s, i.payer, TopUp(s.lam[SettingsKey], SETTINGS_SIZE));
    }
    hide Inv, TopUp, Affords, CanPay;
  }

  lemma RootPrologueHonest(s: State, i: Instruction)
    requires Inv(s) && i.CreateRootAlloc?
    ensures Honest(s, i, RootPrologue(s, i))
  {
    SettingsLoad(s.info);
    FreshIsAbsent(s.info, i.thread);
    FreshIsAbsent(s.info, AllocKey(i.thread, 0));
    assert AllocKey(i.thread, 0) in s.info ==> HasPage(s.info, i.thread, 0);
    hide Inv;
  }

  lemma CanPayLess(s: State, payer: Key, some: nat, all: nat)
    requires some <= all && CanPay(s, payer, all)
    ensures CanPay(s, payer, some)
  {
  }

  lemma FoundingHonest(s: State, i: Instruction)
    requires Inv(s) && i.CreateRootAlloc? && WellFormed(i)
    ensures Honest(s, i, CreateRootCheck(s, i))
  {
    hide Inv, Typed, RootPrologue, Rent, RootFee, OpeningCost, RootCost, Affords, TopUp, Lacks, Exists, Intruder,
         Overlong, BadIndex, BadCandidate, Misaddressed, Admits, Channels, AllTaken, BaseFee, AuthorFee;
    RootPrologueHonest(s, i);
    InvTyped(s);
    if RootPrologue(s, i).Done? {
      RootPrices(s, i);
      AffordsIff(s, i.payer, RootCost(s, i));
      var open := OpeningCost(s, TreasuryKey(i.treasuryIdx));
      if CanPay(s, i.payer, RootCost(s, i)) {
        CanPayLess(s, i.payer, open, RootCost(s, i));
        CanPayLess(s, i.payer, open + Rent(ThreadSize(|i.title|)), RootCost(s, i));
      }
    }
  }

  /** Past the tail the next page is always free. */
  lemma NextIsFree(s: State, i: Instruction)
    requires Inv(s) && i.PrepareAlloc? && IsThread(s.info, i.thread) && i.page == s.info[i.thread].data.lastPage
    ensures Fresh(s.info, AllocKey(i.thread, i.page + 1))
    ensures s.info[i.thread].data.allocCount == i.page + 1
  {
    FreshIsAbsent(s.info, AllocKey(i.thread, i.page + 1));
    assert TypedAt(i.thread, s.info[i.thread]);
    assert !HasPage(s.info, i.thread, i.page + 1);
  }

  lemma GrowthHonest(s: State, i: Instruction)
    requires Inv(s) && i.PrepareAlloc? && WellFormed(i)
    ensures Honest(s, i, PrepareCheck(s, i))
  {
    hide Inv, Typed, TopUp, Affords, CanPay, CheckAlloc, Fresh, Overlong, BadIndex, BadCandidate, Misaddressed,
         Intruder, Exists, Admits, Channels, AllTaken, BaseFee, AuthorFee;
    InvTyped(s);
    ThreadLoads(s.info, i.thread);
    PageLoads(s.info, i.current);
    AffordsIff(s, i.payer, TopUp(s.lam[AllocKey(i.thread, i.page + 1)], ALLOC_SIZE));
    if IsThread(s.info, i.thread) && i.page == s.info[i.thread].data.lastPage {
      NextIsFree(s, i);
    }
  }

  lemma ThreadFeeHonest(s: State, i: Instruction)
    requires Inv(s) && i.UpdateThread?
    ensures Honest(s, i, UpdateThreadCheck(s, i))
  {
    ThreadLoads(s.info, i.thread);
    hide Inv;
  }

  // ---- posting ----

  lemma PrologueHonest(s: State, i: Instruction)
    requires Inv(s) && i.FillSlot?
    ensures Honest(s, i, FillPrologue(s, i))
  {
    ThreadLoads(s.info, i.thread);
    SettingsLoad(s.info);
    if CheckThread(s.info, i.thread).Done? {
      GateAdmits(s.info, i.thread, i.payer);
    }
    hide Inv, GateCheck, Admits, BadCandidate, Short;
  }

  lemma {:induction false} ScanHonest(s: State, i: Instruction, n: nat)
    requires i.FillSlot? && IsThread(s.info, i.thread) && n <= |i.candidates| <= |i.remaining|
    ensures var p := PickFrom(s.info, i.thread, s.info[i.thread].data.lastPage, i.candidates, i.remaining, n);
            p.Rejected? ==> p.error in {InvalidAllocSeq, InvalidSlot, InvalidPda} && BadCandidate(s, i, p.error)
    decreases |i.candidates| - n
  {
    if n < |i.candidates| {
      ScanHonest(s, i, n + 1);
    }
  }

  lemma SlotHonest(s: State, i: Instruction, j: nat)
    requires Inv(s) && i.FillSlot? && WellFormed(i) && FillPrologue(s, i).Done?
    requires |i.candidates| <= |i.remaining| && IsThread(s.info, i.thread) && FirstFree(s, i, j)
    ensures CheckSettings(s.info).Done? && CheckThread(s.info, i.thread).Done?
    ensures Honest(s, i, ChargeOutcome(s, i.payer, OpenBoth(s, i), TopUp(s.lam[i.remaining[j]], ContentSize(|i.body|)),
                                       PostFee(s, i), MessageFee(s.info, i.thread, i.payer), i.maxFee))
  {
    hide Inv, Typed, FillPrologue, BaseFee, AuthorFee, PostFee, MessageFee, OpenBoth, BothRents, TopUp, Affords,
         AllTaken, BadCandidate, Admits, WellAddressed, Lacks, Misaddressed, BadIndex, Intruder, Exists, Overlong,
         Channels;
    InvTyped(s);
    PostingPrices(s, i);
    BothOpenings(s, i);
    AffordsIff(s, i.payer, PostingCost(s, i, i.remaining[j]));
  }

  /** What the scan reports, when it does not find a slot. */
  lemma PickHonest(s: State, i: Instruction)
    requires i.FillSlot? && CheckThread(s.info, i.thread).Done? && |i.candidates| <= |i.remaining|
    ensures PickSlot(s, i).Rejected? ==> Justified(s, i, PickSlot(s, i).error)
    ensures PickSlot(s, i) == Full ==> Justified(s, i, NoFreeSlot)
  {
    ScanHonest(s, i, 0);
    ScanIsFirstFree(s.info, i.thread, s.info[i.thread].data.lastPage, i.candidates, i.remaining);
    hide PickFrom, AllTaken, BadCandidate;
  }

  lemma OpeningHonest(s: State, i: Instruction)
    requires i.FillSlot? && Typed(s.info) && !CanPay(s, i.payer, OpenBoth(s, i))
    ensures Justified(s, i, InsufficientFunds)
  {
    BothOpenings(s, i);
    AffordsIff(s, i.payer, BothRents(s, i));
    hide Typed, CanPay, OpenBoth, BothRents, Affords;
  }

  lemma PostingHonest(s: State, i: Instruction)
    requires Inv(s) && i.FillSlot? && WellFormed(i)
    ensures Honest(s, i, FillCheck(s, i))
  {
    PrologueHonest(s, i);
    if FillPrologue(s, i).Done? {
      PostingPrices(s, i);
      InvTyped(s);
      hide Inv, FillPrologue, ChargeOutcome, PostFee, MessageFee, OpenBoth, TopUp, CanPay, Justified, PickSlot,
           FirstFree;
      if !CanPay(s, i.payer, OpenBoth(s, i)) {
        OpeningHonest(s, i);
      } else {
        PickHonest(s, i);
        OnlyPick(s, i);
        if PickSlot(s, i).Found? {
          ThreadLoads(s.info, i.thread);
          SlotHonest(s, i, PickSlot(s, i).at);
        }
      }
    } else {
      hide Inv, FillPrologue, Justified;
    }
  }

  // ---- messages ----

  lemma AppendPrologueHonest(s: State, i: Instruction)
    requires Inv(s) && i.AppendContent?
    ensures Honest(s, i, AppendPrologue(s, i))
  {
    hide Inv, Typed, Exists, BadCandidate, Misaddressed, Short, Admits, Channels, AllTaken, BaseFee,
         AuthorFee, ContentSize;
    InvTyped(s);
    ContentLoads(s.info, i.target);
    ThreadLoads(s.info, i.thread);
    SettingsLoad(s.info);
    if CheckContent(s.info, i.target).Fail? {
      ContentFailure(s.info, i.target);
    }
  }

  lemma AppendHonest(s: State, i: Instruction)
    requires Inv(s) && i.AppendContent? && WellFormed(i)
    ensures Honest(s, i, AppendCheck(s, i))
  {
    hide Inv, Typed, AppendPrologue, AppendToVault, AppendCost, Affords, CanPay, TopUp, Lacks, Intruder, Exists,
         Overlong, BadIndex, BadCandidate, Misaddressed, Admits, Channels, AllTaken, BaseFee, AuthorFee;
    AppendPrologueHonest(s, i);
    InvTyped(s);
    if AppendPrologue(s, i).Done? {
      AppendPrices(s, i);
      AffordsIff(s, i.payer, AppendCost(s, i));
    }
  }

  /** A message fails to load only by not being there. */
  lemma ContentFailure(info: Accounts, k: Key)
    requires Typed(info) && CheckContent(info, k).Fail?
    ensures CheckContent(info, k).error in {AccountOwnerMismatch, InvalidAccountData} && !Data(info, k).Content?
  {
    assert k in info ==> TypedAt(k, info[k]);
  }

  lemma LikePrologueHonest(s: State, i: Instruction)
    requires Inv(s) && i.LikeContent?
    ensures Honest(s, i, LikePrologue(s, i))
  {
    var k := ContentKey(i.thread, i.page, i.slot);
    ContentLoads(s.info, k);
    ThreadLoads(s.info, i.thread);
    SettingsLoad(s.info);
    if CheckContent(s.info, k).Fail? {
      ContentFailure(s.info, k);
    }
    hide Inv, CheckContent;
  }

  /** Past its first checks a like fails only for money or for the cap. */
  lemma LikeFailure(s: State, i: Instruction)
    requires Inv(s) && i.LikeContent? && LikePrologue(s, i).Done? && LikeCheck(s, i).Fail?
    ensures || (LikeCheck(s, i) == Fail(InsufficientFunds) && !Affords(s, i.payer, LikingCost(s, i)))
            || (LikeCheck(s, i) == Fail(FeeExceedsMax) && AuthorFee(s, i) > i.maxFee)
  {
    hide Inv, Typed, LikePrologue, TopUp, LikesCost, OpenBoth, LikingCost, LikeFee, AuthorFee, Affords, CheckLikes;
    InvTyped(s);
    LikesLoad(s.info, LikesKey(i.thread, i.page));
    LikePrices(s, i);
    AffordsIff(s, i.payer, LikingCost(s, i));
  }

  lemma LikeHonest(s: State, i: Instruction)
    requires Inv(s) && i.LikeContent? && WellFormed(i)
    ensures Honest(s, i, LikeCheck(s, i))
  {
    hide Inv, LikePrologue, LikingCost, AuthorFee, Affords, Lacks, Intruder, Exists, Overlong, BadIndex, BadCandidate,
         Misaddressed, Admits, Channels, AllTaken, CheckLikes, CanPay, LikeFee, LikesCost, OpenBoth;
    LikePrologueHonest(s, i);
    if LikePrologue(s, i).Done? && LikeCheck(s, i).Fail? {
      LikeFailure(s, i);
    }
  }

  lemma CloseHonest(s: State, i: Instruction)
    requires Inv(s) && i.CloseAccount?
    ensures Honest(s, i, CloseCheck(s, i))
  {
    ContentLoads(s.info, i.target);
    assert i.target in s.info ==> TypedAt(i.target, s.info[i.target]);
    if i.likes.Some? {
      assert i.likes.value in s.info ==> TypedAt(i.likes.value, s.info[i.likes.value]);
    }
    hide Inv;
  }

  // ---- sweeping ----

  lemma {:induction false} SweptHonest(s: State, i: Instruction, v: VaultSet, n: nat)
    requires Typed(s.info) && IsSweep(i) && n <= |i.accounts| == |i.indices|
    requires v == if i.SweepTreasury? then TreasuryVaults else AuthorVaults(i.thread)
    ensures Honest(s, i, CheckSweptAll(s.info, v, i.accounts, i.indices, n))
  {
    hide Intruder, Exists, Overlong, BadCandidate, Short, Admits, Channels, AllTaken, BaseFee, AuthorFee;
    if n > 0 {
      SweptHonest(s, i, v, n - 1);
      var k := i.accounts[n - 1];
      assert k in s.info ==> TypedAt(k, s.info[k]);
    }
  }

  lemma SweepHonest(s: State, i: Instruction)
    requires Inv(s) && IsSweep(i)
    ensures Honest(s, i, SweepCheck(s, i))
  {
    SettingsLoad(s.info);
    if |i.accounts| == |i.indices| {
      SweptHonest(s, i, if i.SweepTreasury? then TreasuryVaults else AuthorVaults(i.thread), |i.accounts|);
    }
    if i.SweepAuthorFees? {
      ThreadLoads(s.info, i.thread);
    }
    hide Inv, CheckSweptAll;
  }

  // ---- gates and lists ----

  lemma OwnerHonest(s: State, admin: Key, access: Key)
    requires Inv(s) && CheckAdminAccess(s.info, admin, access).Fail?
    ensures var e := CheckAdminAccess(s.info, admin, access).error;
            || ((e == AccountOwnerMismatch || e == InvalidAccountData) && !Data(s.info, access).Access?)
            || (e == Unauthorized && !OwnsGate(s.info, access, admin))
  {
    OwnerIff(s, admin, access);
    assert access in s.info ==> TypedAt(access, s.info[access]);
    hide Inv, OwnsGate;
  }

  lemma StrangerHonest(s: State, i: Instruction)
    requires Inv(s) && (i.UpdateAccess? || i.SetStatus? || i.RemoveStatus?)
    ensures Honest(s, i, CheckAdminAccess(s.info, i.payer, i.access))
  {
    hide Inv, CheckAdminAccess, OwnsGate, Exists, Overlong, BadIndex, BadCandidate, Misaddressed, Short, Admits,
         Channels, AllTaken, BaseFee, AuthorFee;
    if CheckAdminAccess(s.info, i.payer, i.access).Fail? {
      OwnerHonest(s, i.payer, i.access);
    }
  }

  lemma SetStatusHonest(s: State, i: Instruction)
    requires Inv(s) && i.SetStatus? && WellFormed(i)
    ensures Honest(s, i, SetStatusCheck(s, i))
  {
    StrangerHonest(s, i);
    OwnerIff(s, i.payer, i.access);
    if i.access.AccessKey? {
      EntryLoads(s.info, i.access.thread, i.wallet);
      AffordsIff(s, i.payer, TopUp(s.lam[EntryKey(i.access.thread, i.wallet)], ENTRY_SIZE));
    }
    hide Inv, CheckAdminAccess, TopUp, Affords, CanPay, CheckBoundEntry;
  }

  lemma RemoveStatusHonest(s: State, i: Instruction)
    requires Inv(s) && i.RemoveStatus?
    ensures Honest(s, i, RemoveStatusCheck(s, i))
  {
    StrangerHonest(s, i);
    OwnerIff(s, i.payer, i.access);
    if i.access.AccessKey? {
      EntryLoads(s.info, i.access.thread, i.wallet);
    }
    hide Inv, CheckAdminAccess, CheckBoundEntry;
  }

  lemma JoinPrologueHonest(s: State, i: Instruction)
    requires Inv(s) && i.RequestAccess?
    ensures Honest(s, i, RequestPrologue(s, i))
  {
    hide Inv, Typed, Exists, Overlong, BadCandidate, Misaddressed, Short, Admits, Channels, AllTaken, BaseFee,
         AuthorFee, CheckBoundEntry;
    InvTyped(s);
    GateLoads(s.info, i.thread);
    EntryLoads(s.info, i.thread, i.payer);
    SettingsLoad(s.info);
    ThreadLoads(s.info, i.thread);
  }

  lemma JoinHonest(s: State, i: Instruction)
    requires Inv(s) && i.RequestAccess? && WellFormed(i)
    ensures Honest(s, i, RequestCheck(s, i))
  {
    hide Inv, Typed, RequestPrologue, TopUp, OpenBoth, JoinCost, Affords, CanPay, Lacks, Intruder, Exists, Overlong,
         BadIndex, BadCandidate, Misaddressed, Admits, Channels, AllTaken, BaseFee, AuthorFee;
    JoinPrologueHonest(s, i);
    InvTyped(s);
    if RequestPrologue(s, i).Done? {
      JoinPrices(s, i);
      AffordsIff(s, i.payer, JoinCost(s, i));
    }
  }

  lemma GateHonest(s: State, i: Instruction)
    requires Inv(s) && i.InitThreadAccess? && WellFormed(i)
    ensures Honest(s, i, InitAccessCheck(s, i))
  {
    ThreadLoads(s.info, i.thread);
    GateLoads(s.info, i.thread);
    RentsOpen(s, TreasuryKey(i.treasuryIdx));
    AffordsIff(s, i.payer, GateCost(s, i));
    hide Inv, Rent, TopUp, OpeningCost, VaultRent, Affords, CanPay;
  }

  // ---- following ----

  /** The registry loads, or its creation is part of a price the wallet cannot pay. */
  lemma RegistryFailure(s: State, i: Instruction)
    requires Inv(s) && i.Subscribe? && RegistryCheck(s, i.payer).Fail?
    ensures RegistryCheck(s, i.payer) == Fail(InsufficientFunds) && !CanPay(s, i.payer, FollowCost(s, i))
  {
    var r := RegistryKey(i.payer);
    RentMonotone(RegistrySize(0), RegistrySize(|Channels(s.info, r)| + 1));
    FollowAccountsLoad(s, i.payer, i.thread);
    hide Inv, Rent, CheckRegistry, RegistrySize, Channels;
  }

  lemma FollowHonest(s: State, i: Instruction)
    requires Inv(s) && i.Subscribe? && WellFormed(i)
    ensures Honest(s, i, SubscribeCheck(s, i))
  {
    hide Inv, Typed, Affords, FollowCost, FollowerCost, TopUp, RegistryCheck, CheckBoundFollower, Channels, CanPay,
         Intruder, Exists, Overlong, BadIndex, BadCandidate, Misaddressed, Admits, AllTaken, BaseFee, AuthorFee;
    InvTyped(s);
    FollowAccountsLoad(s, i.payer, i.thread);
    FollowPrices(s, i);
    AffordsIff(s, i.payer, FollowCost(s, i));
    ThreadLoads(s.info, i.thread);
    if RegistryCheck(s, i.payer).Fail? {
      RegistryFailure(s, i);
    }
  }

  lemma UnfollowHonest(s: State, i: Instruction)
    requires Inv(s) && i.Unsubscribe?
    ensures Honest(s, i, UnsubscribeCheck(s, i))
  {
    var r := RegistryKey(i.payer);
    UnfollowIff(s, i);
    ThreadLoads(s.info, i.thread);
    assert r in s.info ==> TypedAt(r, s.info[r]);
    hide Inv, CheckThread;
  }

  // ---- every instruction ----

  /** A refusal in a state of the invariant tells the truth. */
  lemma ErrorsAreTrue(s: State, i: Instruction)
    requires Inv(s) && WellFormed(i) && Check(s, i).Fail?
    ensures Justified(s, i, Check(s, i).error)
  {
    hide Inv, WellFormed, Justified;
    hide InitSettingsCheck, UpdateSettingsCheck, CreateRootCheck, PrepareCheck, FillCheck, AppendCheck, LikeCheck,
         CloseCheck, SweepCheck, InitAccessCheck, SetStatusCheck, RemoveStatusCheck, RequestCheck,
         CheckAdminAccess, UpdateThreadCheck, SubscribeCheck, UnsubscribeCheck;
    match i
    case InitSettings(_, _, _) => SettingsHonest(s, i);
    case UpdateSettings(_, _) => SettingsHonest(s, i);
    case CreateRootAlloc(_, _, _, _, _) => FoundingHonest(s, i);
    case PrepareAlloc(_, _, _, _) => GrowthHonest(s, i);
    case FillSlot(_, _, _, _, _, _, _, _, _, _, _) => PostingHonest(s, i);
    case AppendContent(_, _, _, _, _, _) => AppendHonest(s, i);
    case LikeContent(_, _, _, _, _, _, _) => LikeHonest(s, i);
    case CloseAccount(_, _, _) => CloseHonest(s, i);
    case SweepTreasury(_, _, _) => SweepHonest(s, i);
    case SweepAuthorFees(_, _, _, _) => SweepHonest(s, i);
    case InitThreadAccess(_, _, _, _) => GateHonest(s, i);
    case UpdateAccess(_, _, _) => StrangerHonest(s, i);
    case SetStatus(_, _, _, _) => SetStatusHonest(s, i);
    case RemoveStatus(_, _, _, _) => RemoveStatusHonest(s, i);
    case RequestAccess(_, _, _, _) => JoinHonest(s, i);
    case UpdateThread(_, _, _) => ThreadFeeHonest(s, i);
    case Subscribe(_, _) => FollowHonest(s, i);
    case Unsubscribe(_, _) => UnfollowHonest(s, i);
  }
}
