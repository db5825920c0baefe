/** The balance sheet of every instruction: who gains and who loses, address by address. */
module Balances {
  import opened Keys
  import opened Records
  import opened Ledger
  import opened Instructions
  import opened Invariant
  import opened Prices
  import opened Frame
  import opened Sweep
  import opened Runs
  import opened Revenue
  import opened Debits
  import opened Authority
  import opened FollowerTotals

  // ---- the sheet ----

  /** The account at `k` appears, or its data grows. */
  predicate Grows(s: State, t: State, k: Key) {
    k in t.info && (k !in s.info || s.info[k].len < t.info[k].len)
  }

  /** What growth adds to a balance: whatever is missing to the rent of the new size. */
  function RentAdded(s: State, t: State, k: Key): nat {
    if Grows(s, t, k) then TopUp(s.lam[k], t.info[k].len) else 0
  }

  /** What a registry holds above the rent of its size after an unfollow. */
  function Released(s: State, t: State, registry: Key): nat {
    if registry in t.info && s.lam[registry] > Rent(t.info[registry].len)
    then s.lam[registry] - Rent(t.info[registry].len) else 0
  }

  /** Everything the payer of an accepted instruction spends. */
  function Spent(s: State, i: Instruction): nat
    requires Check(s, i).Done?
  {
    match i
    case InitSettings(_, _, _) => TopUp(s.lam[SettingsKey], SETTINGS_SIZE)
    case CreateRootAlloc(_, _, _, _, _) => RootCost(s, i)
    case PrepareAlloc(_, _, t, page) => TopUp(s.lam[AllocKey(t, page + 1)], ALLOC_SIZE)
    case FillSlot(_, _, _, _, _, ks, _, _, _, _, _) => PostingCost(s, i, ks[FilledSlot(s, i)])
    case AppendContent(_, _, _, _, _, _) => AppendCost(s, i)
    case LikeContent(_, _, _, _, _, _, _) => LikingCost(s, i)
    case InitThreadAccess(_, _, _, _) => GateCost(s, i)
    case SetStatus(_, a, w, _) =>
      if a.AccessKey? && EntryKey(a.thread, w) !in s.info then TopUp(s.lam[EntryKey(a.thread, w)], ENTRY_SIZE) else 0
    case RequestAccess(_, _, _, _) => JoinCost(s, i)
    case Subscribe(_, _) => FollowCost(s, i)
    case _ => 0
  }

  /** What an instruction adds to the balance at `k`. A closing pays its author the balance of the
      message, a removal pays the channel's author the balance of the entry, an unfollow pays the
      wallet what its registry no longer needs, a sweep pays its recipient the excess of what it
      empties; everything else credits fees to the two vaults and rent to what it creates or grows. */
  ghost function Gain(s: State, i: Instruction, t: State, k: Key): nat
    requires Sane(s, i)
  {
    match i
    case CloseAccount(p, target, _) => if k == p then s.lam[target] else 0
    case RemoveStatus(p, a, w, _) => if k == p && a.AccessKey? then s.lam[EntryKey(a.thread, w)] else 0
    case Unsubscribe(p, _) => if k == p then Released(s, t, RegistryKey(p)) else 0
    case SweepTreasury(to, ks, _) => if k == to then ExcessSum(s.lam, Swept(s.info, ks, to)) else 0
    case SweepAuthorFees(to, _, ks, _) => if k == to then ExcessSum(s.lam, Swept(s.info, ks, to)) else 0
    case _ => Due(s, i, k) + RentAdded(s, t, k)
  }

  /** What an instruction takes from the balance at `k`. */
  function Loss(s: State, i: Instruction, t: State, k: Key): nat
    requires Check(s, i).Done?
  {
    match i
    case CloseAccount(_, target, _) => if k == target then s.lam[k] else 0
    case RemoveStatus(_, a, w, _) => if a.AccessKey? && k == EntryKey(a.thread, w) then s.lam[k] else 0
    case Unsubscribe(p, _) => if k == RegistryKey(p) then Released(s, t, k) else 0
    case SweepTreasury(to, ks, _) => if k in Swept(s.info, ks, to) then Excess(s.lam[k]) else 0
    case SweepAuthorFees(to, _, ks, _) => if k in Swept(s.info, ks, to) then Excess(s.lam[k]) else 0
    case _ => if k == i.payer then Spent(s, i) else 0
  }

  ghost predicate Balanced(s: State, i: Instruction, t: State, k: Key)
    requires Check(s, i).Done? && Sane(s, i)
  {
    t.lam[k] + Loss(s, i, t, k) == s.lam[k] + Gain(s, i, t, k)
  }

  /** Instructions that only charge fees and fund rent. */
  predicate Funds(i: Instruction) {
    !i.CloseAccount? && !i.RemoveStatus? && !i.Unsubscribe? && !IsSweep(i)
  }

  // ---- the payer ----

  lemma SettingsDebit(s: State, i: Instruction)
    requires (i.InitSettings? || i.PrepareAlloc?) && WellFormed(i) && Check(s, i).Done? && Sane(s, i)
    ensures s.lam[i.payer] == Post(s, i).lam[i.payer] + Spent(s, i)
  {
    hide TopUp, Rent;
  }

  lemma StatusDebit(s: State, i: Instruction)
    requires i.SetStatus? && WellFormed(i) && SetStatusCheck(s, i).Done? && Inv(s)
    ensures s.lam[i.payer] == SetStatusPost(s, i).lam[i.payer] + Spent(s, i)
  {
    GateSigner(s, i);
    FreshIsAbsent(s.info, EntryKey(i.access.thread, i.wallet));
    hide Inv, TopUp, Rent, CanPay, SetStatusDelta;
  }

  lemma FollowDebit(s: State, i: Instruction)
    requires i.Subscribe? && WellFormed(i) && SubscribeCheck(s, i).Done? && Typed(s.info)
    ensures s.lam[i.payer] == SubscribePost(s, i).lam[i.payer] + FollowCost(s, i)
  {
    SubscribedMoney(s, i, i.payer);
    FollowPrices(s, i);
    hide FollowCost, SubscribePost, SubscribeCheck, FollowerCost, TopUp, Typed, Rent;
  }

  /** The payer of an instruction without refunds spends exactly its price. */
  lemma PayerSpends(s: State, i: Instruction)
    requires Inv(s) && WellFormed(i) && Check(s, i).Done? && Sane(s, i) && Funds(i)
    ensures s.lam[i.payer] == Post(s, i).lam[i.payer] + Spent(s, i)
  {
    if i.InitSettings? || i.PrepareAlloc? {
      SettingsDebit(s, i);
    } else if i.SetStatus? {
      StatusDebit(s, i);
    } else if i.Subscribe? {
      FollowDebit(s, i);
    } else if i.UpdateSettings? || i.UpdateAccess? || i.UpdateThread? {
    } else {
      FeePayerSpends(s, i);
    }
    hide Inv, Check, Sane, WellFormed, RootCost, PostingCost, AppendCost, LikingCost, GateCost, JoinCost, FollowCost;
  }

  lemma FeePayerSpends(s: State, i: Instruction)
    requires Typed(s.info) && WellFormed(i) && Check(s, i).Done? && Sane(s, i) && PaysTreasury(i)
    ensures s.lam[i.payer] == Post(s, i).lam[i.payer] + Spent(s, i)
  {
    hide Typed, CreateRootCheck, FillCheck, AppendCheck, LikeCheck, InitAccessCheck, RequestCheck, Sane, WellFormed;
    hide CreateRootPost, FillPost, AppendPost, LikePost, InitAccessPost, RequestPost, RootCost, PostingCost, AppendCost,
         LikingCost, GateCost, JoinCost;
    match i
    case CreateRootAlloc(_, _, _, _, _) => RootDebit(s, i);
    case FillSlot(_, _, _, _, _, _, _, _, _, _, _) => PostingDebit(s, i);
    case AppendContent(_, _, _, _, _, _) => AppendDebit(s, i);
    case LikeContent(_, _, _, _, _, _, _) => LikeDebit(s, i);
    case InitThreadAccess(_, _, _, _) => GateDebit(s, i);
    case RequestAccess(_, _, _, _) => RequestDebit(s, i);
  }

  // ---- everyone else ----

  /** Away from the payer and the vaults, only what the instruction creates or grows gains. */
  ghost predicate FundsGrowth(s: State, t: State, k: Key) {
    t.lam[k] == s.lam[k] + RentAdded(s, t, k)
  }

  /** A bill seen from an address that is neither its payer nor a vault. */
  lemma BillElsewhere(lam: Lamports, b: Bill, k: Key)
    requires b.payer.External? && b.payer != b.target && b.Total() <= lam[b.payer] && !IsVault(k) && k != b.payer
    ensures Settle(lam, b)[k] == lam[k] + if k == b.target then b.deposit else 0
  {
    SettleMoves(lam, b);
    hide Settle;
  }

  /** Of the accounts that are no vaults, only `target` is created. */
  predicate Creates(s: State, t: State, target: Key, len: nat, k: Key) {
    (k == target ==> k !in s.info && k in t.info && t.info[k].len == len) && (k != target ==> !Grows(s, t, k))
  }

  lemma PutCreates(s: State, t: State, base: Accounts, target: Key, a: Account, k: Key)
    requires t.info == base[target := a] && target !in s.info
    requires k in base ==> k in s.info && base[k].len == s.info[k].len
    ensures Creates(s, t, target, a.len, k)
  {
  }

  lemma FillCreates(s: State, i: Instruction, k: Key)
    requires i.FillSlot? && WellFormed(i) && FillCheck(s, i).Done? && Sane(s, i) && Typed(s.info) && !IsVault(k)
    ensures Creates(s, FillPost(s, i), i.remaining[FilledSlot(s, i)], ContentSize(|i.body|), k)
  {
    FilledInRange(s, i);
    FreshIsAbsent(s.info, i.remaining[FilledSlot(s, i)]);
    hide Settle, Typed, FillCheck, FillBill, FilledSlot, Creates;
    PutCreates(s, FillPost(s, i),
               WithVault(WithVault(s.info, TreasuryKey(i.treasuryIdx)), AuthorKey(i.thread, i.authorIdx)),
               i.remaining[FilledSlot(s, i)], Created(FilledContent(s, i)), k);
  }

  lemma FillElsewhere(s: State, i: Instruction, k: Key)
    requires i.FillSlot? && WellFormed(i) && FillCheck(s, i).Done? && Sane(s, i) && Typed(s.info)
    requires !IsVault(k) && k != i.payer
    ensures FundsGrowth(s, FillPost(s, i), k)
  {
    FilledInRange(s, i);
    BillElsewhere(s.lam, FillBill(s, i), k);
    FillCreates(s, i, k);
    hide Settle, Typed, TopUp, FillCheck, PostFee, MessageFee, OpeningCost, FilledSlot;
  }

  lemma AppendGrowsOnly(s: State, i: Instruction, k: Key)
    requires i.AppendContent? && WellFormed(i) && AppendCheck(s, i).Done? && !IsVault(k)
    ensures var t := AppendPost(s, i);
            if k == i.target && i.chunk != []
            then Grows(s, t, k) && t.info[k].len == ContentSize(|s.info[k].data.body| + |i.chunk|)
            else !Grows(s, t, k)
  {
    hide Settle, Rent, AppendBill, CheckPay;
  }

  lemma AppendElsewhere(s: State, i: Instruction, k: Key)
    requires i.AppendContent? && WellFormed(i) && AppendCheck(s, i).Done? && Funded(s.lam, s.info)
    requires !IsVault(k) && k != i.payer
    ensures FundsGrowth(s, AppendPost(s, i), k)
  {
    BillElsewhere(s.lam, AppendBill(s, i), k);
    AppendGrowsOnly(s, i, k);
    assert s.lam[i.target] >= Rent(s.info[i.target].len);
    hide Settle, Rent, AppendToVault, AppendOpens, Grows, WithVault, Funded;
  }

  lemma LikeCreates(s: State, i: Instruction, k: Key)
    requires i.LikeContent? && WellFormed(i) && LikeCheck(s, i).Done? && Sane(s, i) && Typed(s.info) && !IsVault(k)
    ensures var likes, t := LikesKey(i.thread, i.page), LikePost(s, i);
            if likes in s.info then !Grows(s, t, k) else Creates(s, t, likes, LIKES_SIZE, k)
  {
    hide Settle, Typed, TopUp, Rent, LikeBill, CanPay, LikeFee, OpenBoth, LikedCounts;
    FreshIsAbsent(s.info, LikesKey(i.thread, i.page));
  }

  lemma LikeElsewhere(s: State, i: Instruction, k: Key)
    requires i.LikeContent? && WellFormed(i) && LikeCheck(s, i).Done? && Sane(s, i) && Typed(s.info)
    requires !IsVault(k) && k != i.payer
    ensures FundsGrowth(s, LikePost(s, i), k)
  {
    BillElsewhere(s.lam, LikeBill(s, i), k);
    FreshIsAbsent(s.info, LikesKey(i.thread, i.page));
    LikeCreates(s, i, k);
    hide Settle, Typed, TopUp, LikeCheck, OpeningCost, LikeFee, LikedRecord, WithVault;
  }

  lemma RequestCreates(s: State, i: Instruction, k: Key)
    requires i.RequestAccess? && WellFormed(i) && RequestCheck(s, i).Done? && Sane(s, i) && Typed(s.info) && !IsVault(k)
    ensures Creates(s, RequestPost(s, i), EntryKey(i.thread, i.payer), ENTRY_SIZE, k)
  {
    hide Settle, Typed, Rent, RequestBill, CanPay, OpenBoth, TopUp, Adjusted, Creates;
    JoinIsNew(s, i);
    var vaulted := WithVault(WithVault(s.info, TreasuryKey(i.treasuryIdx)), AuthorKey(i.thread, i.authorIdx));
    PutCreates(s, RequestPost(s, i), WithCount(vaulted, AccessKey(i.thread), 1),
               EntryKey(i.thread, i.payer), Created(Entry(i.thread, i.payer, ACCESS_ALLOWED)), k);
  }

  lemma JoinIsNew(s: State, i: Instruction)
    requires i.RequestAccess? && RequestCheck(s, i).Done? && Typed(s.info)
    ensures EntryKey(i.thread, i.payer) !in s.info
  {
    hide CanPay, OpenBoth, TopUp, CheckThread, CheckAccess, CheckSettings, CheckBoundEntry, Typed, Fresh;
    FreshIsAbsent(s.info, EntryKey(i.thread, i.payer));
  }

  lemma RequestElsewhere(s: State, i: Instruction, k: Key)
    requires i.RequestAccess? && WellFormed(i) && RequestCheck(s, i).Done? && Sane(s, i) && Typed(s.info)
    requires !IsVault(k) && k != i.payer
    ensures FundsGrowth(s, RequestPost(s, i), k)
  {
    BillElsewhere(s.lam, RequestBill(s, i), k);
    RequestCreates(s, i, k);
    hide Settle, Typed, TopUp, RequestCheck, OpeningCost, WithVault, WithCount;
  }

  lemma GateCreates(s: State, i: Instruction, k: Key)
    requires i.InitThreadAccess? && WellFormed(i) && InitAccessCheck(s, i).Done? && Typed(s.info) && !IsVault(k)
    ensures Creates(s, InitAccessPost(s, i), AccessKey(i.thread), ACCESS_SIZE, k)
  {
    FreshIsAbsent(s.info, AccessKey(i.thread));
    hide Settle, Typed, TopUp, Rent, CanPay, OpeningCost, InitAccessBill, Creates;
    PutCreates(s, InitAccessPost(s, i), WithVault(s.info, TreasuryKey(i.treasuryIdx)), AccessKey(i.thread),
               Created(Access(i.thread, i.enabled, i.payer, 0, 0)), k);
  }

  lemma GateElsewhere(s: State, i: Instruction, k: Key)
    requires i.InitThreadAccess? && WellFormed(i) && InitAccessCheck(s, i).Done? && Typed(s.info)
    requires !IsVault(k) && k != i.payer
    ensures FundsGrowth(s, InitAccessPost(s, i), k)
  {
    BillElsewhere(s.lam, InitAccessBill(s, i), k);
    GateCreates(s, i, k);
    hide Settle, Typed, TopUp, Rent, OpeningCost, WithVault, InitPrologue;
  }

  lemma RootCreates(s: State, i: Instruction, k: Key)
    requires i.CreateRootAlloc? && WellFormed(i) && CreateRootCheck(s, i).Done? && Typed(s.info) && !IsVault(k)
    ensures var t := CreateRootPost(s, i);
            if k == i.thread then Grows(s, t, k) && t.info[k].len == ThreadSize(|i.title|)
            else if k == AllocKey(i.thread, 0) then Grows(s, t, k) && t.info[k].len == ALLOC_SIZE
            else !Grows(s, t, k)
  {
    hide Settle, Typed, Rent, CanPay, OpeningCost, RootFee, TopUp, Pay;
    FreshIsAbsent(s.info, i.thread);
    FreshIsAbsent(s.info, AllocKey(i.thread, 0));
  }

  lemma RootDeposits(s: State, i: Instruction, k: Key)
    requires i.CreateRootAlloc? && WellFormed(i) && CreateRootCheck(s, i).Done? && !IsVault(k) && k != i.payer
    ensures CreateRootPost(s, i).lam[k] == s.lam[k] + (if k == i.thread then Rent(ThreadSize(|i.title|)) else 0)
              + (if k == AllocKey(i.thread, 0) then TopUp(s.lam[k], ALLOC_SIZE) else 0)
  {
    var b, root := CreateRootBill(s, i), AllocKey(i.thread, 0);
    BillElsewhere(s.lam, b, k);
    SettleMoves(s.lam, b);
    PayMoves(Settle(s.lam, b), i.payer, root, TopUp(s.lam[root], ALLOC_SIZE));
    hide Settle, Pay, Rent, OpeningCost, RootFee, TopUp, RootPrologue;
  }

  /** A thread is founded by another address, on one that holds nothing. */
  lemma FoundedOnNothing(s: State, i: Instruction)
    requires i.CreateRootAlloc? && CreateRootCheck(s, i).Done?
    ensures i.payer != i.thread && s.lam[i.thread] == 0
  {
    hide RootFee, RootPrologue;
  }

  lemma RootElsewhere(s: State, i: Instruction, k: Key)
    requires i.CreateRootAlloc? && WellFormed(i) && CreateRootCheck(s, i).Done? && Typed(s.info)
    requires !IsVault(k) && k != i.payer
    ensures FundsGrowth(s, CreateRootPost(s, i), k)
  {
    FoundedOnNothing(s, i);
    RootDeposits(s, i, k);
    RootCreates(s, i, k);
    hide CreateRootPost, CreateRootCheck, Typed, Rent, Grows;
  }

  lemma FollowSizes(s: State, p: Key, x: Key)
    requires Typed(s.info)
    ensures var r, f := RegistryKey(p), FollowerKey(x, FollowerShardIndex(p));
            && (r in s.info ==> s.info[r].len == RegistrySize(|Channels(s.info, r)|))
            && (f in s.info ==> s.info[f].len == FOLLOWER_SIZE && !Fresh(s.info, f))
            && (f !in s.info ==> Fresh(s.info, f))
  {
    var r, f := RegistryKey(p), FollowerKey(x, FollowerShardIndex(p));
    assert r in s.info ==> TypedAt(r, s.info[r]);
    assert f in s.info ==> TypedAt(f, s.info[f]);
  }

  lemma FollowElsewhere(s: State, i: Instruction, k: Key)
    requires i.Subscribe? && WellFormed(i) && SubscribeCheck(s, i).Done? && Typed(s.info) && k != i.payer
    ensures FundsGrowth(s, SubscribePost(s, i), k)
  {
    hide SubscribePost, SubscribeCheck, Typed, TopUp, Rent, Channels, Fresh, WellFormed;
    SubscribedMoney(s, i, k);
    FollowedAccounts(s, i);
    FollowSizes(s, i.payer, i.thread);
  }

  lemma StatusElsewhere(s: State, i: Instruction, k: Key)
    requires i.SetStatus? && WellFormed(i) && SetStatusCheck(s, i).Done? && Inv(s) && k != i.payer
    ensures FundsGrowth(s, SetStatusPost(s, i), k)
  {
    hide Inv, Typed, TopUp, Rent, SetStatusDelta, Adjusted, CheckBoundEntry;
    InvTyped(s);
    GateSigner(s, i);
    FreshIsAbsent(s.info, EntryKey(i.access.thread, i.wallet));
  }

  lemma SettingsElsewhere(s: State, i: Instruction, k: Key)
    requires i.InitSettings? && WellFormed(i) && InitSettingsCheck(s, i).Done? && Typed(s.info) && k != i.payer
    ensures FundsGrowth(s, InitSettingsPost(s, i), k)
  {
    FreshIsAbsent(s.info, SettingsKey);
    hide Typed, TopUp, Rent;
  }

  lemma PageElsewhere(s: State, i: Instruction, k: Key)
    requires i.PrepareAlloc? && WellFormed(i) && PrepareCheck(s, i).Done? && Typed(s.info) && k != i.payer
    ensures FundsGrowth(s, PreparePost(s, i), k)
  {
    hide Typed, TopUp, Rent, Pay, CheckAlloc;
    var next := AllocKey(i.thread, i.page + 1);
    FreshIsAbsent(s.info, next);
    PayMoves(s.lam, i.payer, next, TopUp(s.lam[next], ALLOC_SIZE));
  }

  lemma UpdateElsewhere(s: State, i: Instruction, k: Key)
    requires (i.UpdateSettings? || i.UpdateAccess? || i.UpdateThread?) && WellFormed(i) && Check(s, i).Done?
    requires Sane(s, i)
    ensures FundsGrowth(s, Post(s, i), k)
  {
    hide TopUp, Rent, ApplySetting, ApplyPolicy, ApplyThreadFee;
  }

  lemma Elsewhere(s: State, i: Instruction, k: Key)
    requires Inv(s) && WellFormed(i) && Check(s, i).Done? && Sane(s, i) && Funds(i) && !IsVault(k) && k != i.payer
    ensures FundsGrowth(s, Post(s, i), k)
  {
    hide InitSettingsCheck, UpdateSettingsCheck, CreateRootCheck, PrepareCheck, FillCheck, AppendCheck, LikeCheck,
         InitAccessCheck, UpdateAccessCheck, SetStatusCheck, RequestCheck, UpdateThreadCheck, SubscribeCheck,
         Sane, WellFormed, FundsGrowth;
    hide InitSettingsPost, UpdateSettingsPost, CreateRootPost, PreparePost, FillPost, AppendPost, LikePost,
         InitAccessPost, UpdateAccessPost, SetStatusPost, RequestPost, UpdateThreadPost, SubscribePost;
    match i
    case CreateRootAlloc(_, _, _, _, _) => RootElsewhere(s, i, k);
    case FillSlot(_, _, _, _, _, _, _, _, _, _, _) => FillElsewhere(s, i, k);
    case AppendContent(_, _, _, _, _, _) => AppendElsewhere(s, i, k);
    case LikeContent(_, _, _, _, _, _, _) => LikeElsewhere(s, i, k);
    case InitThreadAccess(_, _, _, _) => GateElsewhere(s, i, k);
    case SetStatus(_, _, _, _) => StatusElsewhere(s, i, k);
    case RequestAccess(_, _, _, _) => RequestElsewhere(s, i, k);
    case Subscribe(_, _) => FollowElsewhere(s, i, k);
    case InitSettings(_, _, _) => SettingsElsewhere(s, i, k);
    case PrepareAlloc(_, _, _, _) => PageElsewhere(s, i, k);
    case _ => UpdateElsewhere(s, i, k);
  }

  /** A payer's own account never grows. */
  lemma PayerKeepsSize(s: State, i: Instruction)
    requires Inv(s) && WellFormed(i) && Check(s, i).Done? && Sane(s, i) && Funds(i)
    ensures i.payer.External? && !Grows(s, Post(s, i), i.payer)
  {
    assert Typed(s.info);
    hide Inv, Check, Post, Sane, Touched, Typed;
    TouchesOnly(s, i);
    if i.payer in Touched(s, i) {
      TouchedFits(s, i, i.payer);
      ThreadKeepsSize(s, i);
    } else {
      assert SameAt(s.info, Post(s, i).info, i.payer);
    }
  }

  lemma ThreadKeepsSize(s: State, i: Instruction)
    requires (i.CreateRootAlloc? || i.PrepareAlloc? || i.UpdateThread?) && i.thread == i.payer
    requires WellFormed(i) && Check(s, i).Done? && Sane(s, i)
    ensures !Grows(s, Post(s, i), i.payer)
  {
    if i.CreateRootAlloc? {
      FoundedOnNothing(s, i);
    }
    hide TopUp, Rent, RootFee, OpeningCost, CreateRootCheck, CreateRootPost;
  }

  /** The sheet of an instruction that only charges fees and funds rent. */
  lemma FundingSheet(s: State, i: Instruction, t: State, k: Key)
    requires Check(s, i).Done? && Sane(s, i) && Funds(i)
    ensures Gain(s, i, t, k) == Due(s, i, k) + RentAdded(s, t, k)
    ensures Loss(s, i, t, k) == if k == i.payer then Spent(s, i) else 0
    ensures !IsVault(k) ==> Due(s, i, k) == 0
  {
    hide Check, Sane, PlatformDue, AuthorDue, RentAdded, Spent;
  }

  lemma VaultSize(info: Accounts, k: Key)
    requires Typed(info) && IsVault(k)
    ensures Fresh(info, k) <==> k !in info
    ensures k in info ==> info[k].len == 0
  {
    assert k in info ==> TypedAt(k, info[k]);
  }

  /** At a vault the sheet is the revenue account. */
  lemma VaultBalanced(s: State, i: Instruction, k: Key)
    requires Inv(s) && WellFormed(i) && Check(s, i).Done? && Sane(s, i) && Funds(i) && IsVault(k)
    ensures Balanced(s, i, Post(s, i), k)
  {
    hide Inv, Typed, Check, Post, Sane, Due, Spent, TopUp, Fresh, WellFormed, Gain, Loss, IsVault;
    var t := Post(s, i);
    InvTyped(s);
    InstructionAccounted(s, i, k);
    StepKeepsInv(s, Run(i), t);
    InvTyped(t);
    VaultSize(s.info, k);
    VaultSize(t.info, k);
    FundingSheet(s, i, t, k);
    PayerIsNoVault(i, k);
  }

  lemma PayerIsNoVault(i: Instruction, k: Key)
    requires WellFormed(i) && Funds(i) && IsVault(k)
    ensures k != i.payer
  {
  }

  // ---- refunds and sweeps ----

  /** An accepted closing refunds the whole balance of the message to its author and touches no
      other balance. */
  lemma CloseRefunds(s: State, i: Instruction)
    requires Inv(s) && i.CloseAccount? && WellFormed(i) && CloseCheck(s, i).Done? && Sane(s, i)
    ensures var t := ClosePost(s, i);
            && i.payer == Data(s.info, i.target).author && t.lam[i.payer] == s.lam[i.payer] + s.lam[i.target]
            && t.lam[i.target] == 0 && forall k | k != i.payer && k != i.target :: t.lam[k] == s.lam[k]
  {
    assert TypedAt(i.target, s.info[i.target]);
    PayMoves(s.lam, i.target, i.payer, s.lam[i.target]);
    hide Inv, Pay, Rent;
  }

  lemma RemovalRefunds(s: State, i: Instruction, k: Key)
    requires Inv(s) && i.RemoveStatus? && WellFormed(i) && RemoveStatusCheck(s, i).Done? && Sane(s, i)
    ensures Balanced(s, i, RemoveStatusPost(s, i), k)
  {
    GateSigner(s, i);
    var e := EntryKey(i.access.thread, i.wallet);
    PayMoves(s.lam, e, i.payer, s.lam[e]);
    hide Inv, Pay, Rent;
  }

  lemma UnfollowRefunds(s: State, i: Instruction, k: Key)
    requires Inv(s) && i.Unsubscribe? && WellFormed(i) && UnsubscribeCheck(s, i).Done? && Sane(s, i)
    ensures Balanced(s, i, UnsubscribePost(s, i), k)
  {
    hide Inv, UnsubscribePost, UnsubscribeCheck, Rent, Sane, WellFormed;
    UnsubscribedMoney(s, i, k);
    UnfollowShrinks(s, i);
  }

  lemma UnfollowShrinks(s: State, i: Instruction)
    requires i.Unsubscribe? && UnsubscribeCheck(s, i).Done?
    ensures var r := RegistryKey(i.payer); var t := UnsubscribePost(s, i);
            && r in s.info && s.info[r].data.Registry? && |s.info[r].data.channels| > 0
            && r in t.info && t.info[r].len == RegistrySize(|s.info[r].data.channels| - 1)
  {
    hide Rent, Pay;
  }

  lemma SweepBalanced(s: State, i: Instruction, k: Key)
    requires IsSweep(i) && Check(s, i).Done? && Sane(s, i)
    ensures Balanced(s, i, SweepPost(s, i), k)
  {
    hide Drain, ExcessSum, SweepCheck;
    DrainBalances(s.lam, s.info, i.accounts, i.recipient);
  }

  // ---- every instruction, every address ----

  /** No lamport moves but those on the sheet. */
  lemma BalanceSheet(s: State, i: Instruction, k: Key)
    requires Inv(s) && WellFormed(i) && Check(s, i).Done?
    ensures Sane(s, i) && Balanced(s, i, Post(s, i), k)
  {
    hide Inv, Typed, Check, Post, Sane, WellFormed, Balanced;
    InvTyped(s);
    InvIsSane(s, i);
    if Funds(i) {
      FundsBalanced(s, i, k);
    } else {
      RefundsBalanced(s, i, k);
    }
  }

  lemma RefundsBalanced(s: State, i: Instruction, k: Key)
    requires Inv(s) && WellFormed(i) && Check(s, i).Done? && Sane(s, i) && !Funds(i)
    ensures Balanced(s, i, Post(s, i), k)
  {
    hide Inv, Sane, WellFormed, CloseCheck, RemoveStatusCheck, UnsubscribeCheck, SweepCheck;
    hide ClosePost, RemoveStatusPost, UnsubscribePost, SweepPost, Released;
    match i
    case CloseAccount(_, _, _) => CloseRefunds(s, i);
    case RemoveStatus(_, _, _, _) => RemovalRefunds(s, i, k);
    case Unsubscribe(_, _) => UnfollowRefunds(s, i, k);
    case SweepTreasury(_, _, _) => SweepBalanced(s, i, k);
    case SweepAuthorFees(_, _, _, _) => SweepBalanced(s, i, k);
  }

  lemma FundsBalanced(s: State, i: Instruction, k: Key)
    requires Inv(s) && WellFormed(i) && Check(s, i).Done? && Sane(s, i) && Funds(i)
    ensures Balanced(s, i, Post(s, i), k)
  {
    hide Inv, Sane, WellFormed, Check, Post, Spent, Gain, Loss, Due;
    FundingSheet(s, i, Post(s, i), k);
    if IsVault(k) {
      VaultBalanced(s, i, k);
    } else if k == i.payer {
      PayerSpends(s, i);
      PayerKeepsSize(s, i);
    } else {
      Elsewhere(s, i, k);
    }
  }

  /** Whatever an instruction creates or grows, other than a vault, ends at the rent of its new size,
      or keeps what it held if that is more. */
  lemma GrowthIsFunded(s: State, i: Instruction, k: Key)
    requires Inv(s) && WellFormed(i) && Check(s, i).Done? && Sane(s, i)
    requires Funds(i) && Grows(s, Post(s, i), k) && !IsVault(k)
    ensures var rent := Rent(Post(s, i).info[k].len);
            Post(s, i).lam[k] == if s.lam[k] < rent then rent else s.lam[k]
  {
    PayerKeepsSize(s, i);
    hide Inv, Sane, WellFormed, Check, Post, Rent;
    Elsewhere(s, i, k);
  }
}
