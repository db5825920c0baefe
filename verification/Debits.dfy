/** Whose balance an instruction may lower, and by how much. */
module Debits {
  import opened Keys
  import opened Ledger
  import opened Instructions
  import opened Invariant
  import opened Prices
  import opened Sweep
  import opened Runs
  import opened Authority
  import opened FollowerTotals

  // ---- exactly what the payer spends ----

  /** Beyond the fees the poster only funds rent: the opening of the two vaults and the deposit of
      the new message. */
  lemma PostingDebit(s: State, i: Instruction)
    requires i.FillSlot? && WellFormed(i) && FillCheck(s, i).Done? && Sane(s, i) && Typed(s.info)
    ensures s.lam[i.payer] == FillPost(s, i).lam[i.payer] + PostingCost(s, i, i.remaining[FilledSlot(s, i)])
  {
    FilledInRange(s, i);
    PostingPrices(s, i);
    BothOpenings(s, i);
    hide Typed, AuthorFee, BaseFee, TopUp, Rent, OpenBoth, BothRents;
    SettleMoves(s.lam, FillBill(s, i));
  }

  /** A liker pays the fee, and the rent of what the like has to create. */
  lemma LikeDebit(s: State, i: Instruction)
    requires i.LikeContent? && WellFormed(i) && LikeCheck(s, i).Done? && Sane(s, i) && Typed(s.info)
    ensures s.lam[i.payer] == LikePost(s, i).lam[i.payer] + LikingCost(s, i)
  {
    LikePrices(s, i);
    hide Typed, LikingCost, AuthorFee;
    SettleMoves(s.lam, LikeBill(s, i));
  }

  /** An append costs the top-up of the grown message, and, when its rent grows, the base fee on
      the difference and the opening of the vault that collects it. */
  lemma AppendDebit(s: State, i: Instruction)
    requires i.AppendContent? && WellFormed(i) && AppendCheck(s, i).Done? && Typed(s.info)
    ensures s.lam[i.payer] == AppendPost(s, i).lam[i.payer] + AppendCost(s, i)
  {
    AppendPrices(s, i);
    hide Rent, AppendToVault, AppendCost, Typed;
    SettleMoves(s.lam, AppendBill(s, i));
  }

  /** A new thread costs its rent, the base fee, the first page's missing rent, and the opening of
      the vault. */
  lemma RootDebit(s: State, i: Instruction)
    requires i.CreateRootAlloc? && WellFormed(i) && CreateRootCheck(s, i).Done? && Typed(s.info)
    ensures s.lam[i.payer] == CreateRootPost(s, i).lam[i.payer] + RootCost(s, i)
  {
    RootPrices(s, i);
    hide Rent, RootFee, OpeningCost, TopUp, RootCost, BaseFee, Typed;
    SettleMoves(s.lam, CreateRootBill(s, i));
  }

  /** A paid join costs the entry fee and the rent of what it has to create. */
  lemma RequestDebit(s: State, i: Instruction)
    requires i.RequestAccess? && WellFormed(i) && RequestCheck(s, i).Done? && Sane(s, i) && Typed(s.info)
    ensures s.lam[i.payer] == RequestPost(s, i).lam[i.payer] + JoinCost(s, i)
  {
    JoinPrices(s, i);
    hide Rent, OpenBoth, TopUp, JoinCost, AuthorFee, Typed;
    SettleMoves(s.lam, RequestBill(s, i));
  }

  /** A gate costs its own rent twice over: once as the fee, once as the missing deposit. */
  lemma GateDebit(s: State, i: Instruction)
    requires i.InitThreadAccess? && WellFormed(i) && InitAccessCheck(s, i).Done? && Typed(s.info)
    ensures s.lam[i.payer] == InitAccessPost(s, i).lam[i.payer] + GateCost(s, i)
  {
    RentsOpen(s, TreasuryKey(i.treasuryIdx));
    hide Rent, OpeningCost, TopUp, Typed, VaultRent;
    SettleMoves(s.lam, InitAccessBill(s, i));
  }

  // ---- nobody else pays ----

  /** The addresses whose balance an instruction may lower. */
  predicate MayDebit(s: State, i: Instruction, k: Key) {
    match i
    case SweepTreasury(to, ks, _) => k in Swept(s.info, ks, to)
    case SweepAuthorFees(to, _, ks, _) => k in Swept(s.info, ks, to)
    case CloseAccount(_, target, _) => k == target
    case RemoveStatus(_, access, wallet, _) =>
      Data(s.info, access).Access? && k == EntryKey(Data(s.info, access).thread, wallet)
    case Unsubscribe(p, _) => k == RegistryKey(p)
    case UpdateSettings(_, _) => false
    case UpdateAccess(_, _, _) => false
    case UpdateThread(_, _, _) => false
    case _ => k == i.payer
  }

  lemma BillSparesOthers(lam: Lamports, b: Bill, k: Key)
    requires b.payer.External? && b.payer != b.target && b.Total() <= lam[b.payer] && k != b.payer
    ensures Settle(lam, b)[k] >= lam[k]
  {
    SettleMoves(lam, b);
  }

  lemma RootSparesOthers(s: State, i: Instruction, k: Key)
    requires i.CreateRootAlloc? && WellFormed(i) && CreateRootCheck(s, i).Done? && k != i.payer
    ensures CreateRootPost(s, i).lam[k] >= s.lam[k]
  {
    hide Rent, Settle, RootFee, OpeningCost, TopUp;
    SettleMoves(s.lam, CreateRootBill(s, i));
    BillSparesOthers(s.lam, CreateRootBill(s, i), k);
  }

  lemma FillSparesOthers(s: State, i: Instruction, k: Key)
    requires i.FillSlot? && WellFormed(i) && FillCheck(s, i).Done? && Sane(s, i) && k != i.payer
    ensures FillPost(s, i).lam[k] >= s.lam[k]
  {
    FilledInRange(s, i);
    hide Settle, FillPrologue, Rent;
    BillSparesOthers(s.lam, FillBill(s, i), k);
  }

  lemma LikeSparesOthers(s: State, i: Instruction, k: Key)
    requires i.LikeContent? && WellFormed(i) && LikeCheck(s, i).Done? && Sane(s, i) && k != i.payer
    ensures LikePost(s, i).lam[k] >= s.lam[k]
  {
    hide Settle, Rent;
    BillSparesOthers(s.lam, LikeBill(s, i), k);
  }

  lemma AppendSparesOthers(s: State, i: Instruction, k: Key)
    requires i.AppendContent? && WellFormed(i) && AppendCheck(s, i).Done? && k != i.payer
    ensures AppendPost(s, i).lam[k] >= s.lam[k]
  {
    hide Settle, Rent, AppendToVault, TopUp;
    BillSparesOthers(s.lam, AppendBill(s, i), k);
  }

  lemma AccessSparesOthers(s: State, i: Instruction, k: Key)
    requires i.InitThreadAccess? || i.RequestAccess?
    requires WellFormed(i) && Check(s, i).Done? && Sane(s, i) && k != i.payer
    ensures Post(s, i).lam[k] >= s.lam[k]
  {
    hide Settle, Rent, TopUp, OpeningCost;
    if i.RequestAccess? {
      BillSparesOthers(s.lam, RequestBill(s, i), k);
    } else {
      BillSparesOthers(s.lam, InitAccessBill(s, i), k);
    }
  }

  lemma ListsSpareOthers(s: State, i: Instruction, k: Key)
    requires i.SetStatus? || i.RemoveStatus? || i.CloseAccount?
    requires WellFormed(i) && Check(s, i).Done? && Sane(s, i) && !MayDebit(s, i, k)
    ensures Post(s, i).lam[k] >= s.lam[k]
  {
    hide Rent, TopUp;
  }

  lemma FollowsSpareOthers(s: State, i: Instruction, k: Key)
    requires i.Subscribe? || i.Unsubscribe?
    requires WellFormed(i) && Check(s, i).Done? && Sane(s, i) && !MayDebit(s, i, k)
    ensures Post(s, i).lam[k] >= s.lam[k]
  {
    hide Rent, FollowerCost, TopUp, SubscribePost, SubscribeCheck, UnsubscribePost, UnsubscribeCheck, Sane;
    if i.Subscribe? {
      SubscribedMoney(s, i, k);
    } else {
      UnsubscribedMoney(s, i, k);
    }
  }

  lemma SweepsSpareOthers(s: State, i: Instruction, k: Key)
    requires (i.SweepTreasury? || i.SweepAuthorFees?) && SweepCheck(s, i).Done? && !MayDebit(s, i, k)
    ensures SweepPost(s, i).lam[k] >= s.lam[k]
  {
    hide Drain, ExcessSum, SweepCheck;
    DrainBalances(s.lam, s.info, i.accounts, i.recipient);
  }

  /** No instruction lowers a balance other than its payer's, the closed account's, the caller's own
      registry's, or a swept vault's. */
  lemma OnlyTheseAreDebited(s: State, i: Instruction, k: Key)
    requires WellFormed(i) && Check(s, i).Done? && Sane(s, i) && Post(s, i).lam[k] < s.lam[k]
    ensures MayDebit(s, i, k)
  {
    hide MayDebit, CreateRootPost, FillPost, LikePost, AppendPost, InitAccessPost, RequestPost, SetStatusPost,
         RemoveStatusPost, ClosePost, SubscribePost, UnsubscribePost, SweepPost, Sane, WellFormed;
    if !MayDebit(s, i, k) {
      SparesOthers(s, i, k);
    }
  }

  lemma SparesOthers(s: State, i: Instruction, k: Key)
    requires WellFormed(i) && Check(s, i).Done? && Sane(s, i) && !MayDebit(s, i, k)
    ensures Post(s, i).lam[k] >= s.lam[k]
  {
    hide CreateRootPost, FillPost, LikePost, AppendPost, InitAccessPost, RequestPost, SetStatusPost, RemoveStatusPost,
         ClosePost, SubscribePost, UnsubscribePost, SweepPost, Sane;
    match i
    case CreateRootAlloc(_, _, _, _, _) => RootSparesOthers(s, i, k);
    case FillSlot(_, _, _, _, _, _, _, _, _, _, _) => FillSparesOthers(s, i, k);
    case LikeContent(_, _, _, _, _, _, _) => LikeSparesOthers(s, i, k);
    case AppendContent(_, _, _, _, _, _) => AppendSparesOthers(s, i, k);
    case InitThreadAccess(_, _, _, _) => AccessSparesOthers(s, i, k);
    case RequestAccess(_, _, _, _) => AccessSparesOthers(s, i, k);
    case SetStatus(_, _, _, _) => ListsSpareOthers(s, i, k);
    case RemoveStatus(_, _, _, _) => ListsSpareOthers(s, i, k);
    case CloseAccount(_, _, _) => ListsSpareOthers(s, i, k);
    case Subscribe(_, _) => FollowsSpareOthers(s, i, k);
    case Unsubscribe(_, _) => FollowsSpareOthers(s, i, k);
    case SweepTreasury(_, _, _) => SweepsSpareOthers(s, i, k);
    case SweepAuthorFees(_, _, _, _) => SweepsSpareOthers(s, i, k);
    case _ =>
  }

  /** A message or a thread and its author. */
  predicate AuthoredBy(info: Accounts, k: Key, wallet: Key) {
    var r := Data(info, k);
    (r.Content? || r.Thread?) && r.author == wallet
  }

  /** In a reachable state nobody but the signer and the owners of what it empties can lose a
      lamport: a debited derived address is a message closed by its author, an entry removed by the
      author of its thread, the signer's own registry, or a swept vault. */
  lemma DerivedDebits(h: History, i: Instruction, k: Key)
    requires Valid(h) && WellFormed(i) && Check(h.state, i).Done? && Sane(h.state, i)
    requires !k.External? && Post(h.state, i).lam[k] < h.state.lam[k]
    ensures || (i.CloseAccount? && k == i.target && k.ContentKey? && AuthoredBy(h.state.info, k, i.payer))
            || (i.RemoveStatus? && i.access.AccessKey? && k == EntryKey(i.access.thread, i.wallet)
                && AuthoredBy(h.state.info, i.access.thread, i.payer))
            || (i.Unsubscribe? && k == RegistryKey(i.payer))
            || ((i.SweepTreasury? || i.SweepAuthorFees?) && IsVault(k))
  {
    ReachableInv(h);
    OnlyTheseAreDebited(h.state, i, k);
    if i.RemoveStatus? {
      GateSigner(h.state, i);
    } else if i.SweepTreasury? || i.SweepAuthorFees? {
      SweepsVaultsOnly(h.state, i);
    } else if i.CloseAccount? {
      ClosedByAuthor(h.state, i);
    }
    hide Check, Post, Inv, Valid, Sane;
  }

  lemma ClosedByAuthor(s: State, i: Instruction)
    requires i.CloseAccount? && Check(s, i).Done?
    ensures i.target.ContentKey? && i.target in s.info && s.info[i.target].data.Content?
    ensures s.info[i.target].data.author == i.payer
  {
  }
}
