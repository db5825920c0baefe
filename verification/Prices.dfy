/** What every instruction costs, read from the stored records. */
module Prices {
  import opened Keys
  import opened Records
  import opened Ledger
  import opened FeeMath
  import opened Instructions
  import opened Invariant

  // ---- fees ----

  /** The platform's rate for rent at this point. */
  function Rate(s: State): nat {
    var r := Data(s.info, SettingsKey);
    if r.Settings? then r.baseFeeBps else 0
  }

  /** The base fee for posting a message of this size at once. */
  function OneShot(body: Bytes, bps: nat): nat {
    Cut(Rent(ContentSize(|body|)), bps)
  }

  /** Rent added by growing a body from `n` bytes by `m`. */
  function AddedRent(n: nat, m: nat): nat {
    RentMonotone(ContentSize(n), ContentSize(n + m));
    Rent(ContentSize(n + m)) - Rent(ContentSize(n))
  }

  /** Who posts without the thread's message fee: its author, and the members it has exempted. */
  predicate Excused(info: Accounts, thread: Key, wallet: Key) {
    var channel, entry := Data(info, thread), Data(info, EntryKey(thread, wallet));
    || (channel.Thread? && wallet == channel.author)
    || (entry.Entry? && entry.status == ACCESS_FEE_EXEMPT)
  }

  /** What the platform charges for rent locked up, or for a gate. */
  function BaseFee(s: State, i: Instruction): nat {
    match i
    case CreateRootAlloc(_, _, _, _, title) => Cut(Rent(ThreadSize(|title|)) + Rent(ALLOC_SIZE), Rate(s))
    case FillSlot(_, _, _, body, _, _, _, _, _, _, _) => OneShot(body, Rate(s))
    case AppendContent(_, k, _, chunk, _, _) =>
      var r := Data(s.info, k);
      if r.Content? then Cut(AddedRent(|r.body|, |chunk|), Rate(s)) else 0
    case InitThreadAccess(_, _, _, _) => Rent(ACCESS_SIZE)
    case _ => 0
  }

  /** What is owed to the thread's author, before the platform's cut. */
  function AuthorFee(s: State, i: Instruction): nat {
    match i
    case FillSlot(p, t, _, _, _, _, _, _, _, _, _) =>
      var channel := Data(s.info, t);
      if channel.Thread? && !Excused(s.info, t, p) then channel.messageFee else 0
    case LikeContent(p, t, page, slot, _, _, _) =>
      var channel, message := Data(s.info, t), Data(s.info, ContentKey(t, page, slot));
      if channel.Thread? && message.Content? && p != message.author then channel.likeFee else 0
    case RequestAccess(_, t, _, _) =>
      var gate := Data(s.info, AccessKey(t));
      if gate.Access? then gate.entryFee else 0
    case _ => 0
  }

  /** The platform's cut of the author's fee. */
  function AuthorCutBps(s: State, i: Instruction): nat {
    var r := Data(s.info, SettingsKey);
    if !r.Settings? then 0
    else
      match i
      case FillSlot(_, _, _, _, _, _, _, _, _, _, _) => r.authorCutBps
      case LikeContent(_, _, _, _, _, _, _) => r.likeCutBps
      case RequestAccess(_, _, _, _) => r.entryCutBps
      case _ => 0
  }

  // ---- rent ----

  function VaultRent(s: State, k: Key): nat {
    if k in s.info then 0 else TopUp(s.lam[k], 0)
  }

  /** Opening the two vaults of a posting, a like or a join. */
  function BothRents(s: State, i: Instruction): nat
    requires i.FillSlot? || i.LikeContent? || i.RequestAccess?
  {
    VaultRent(s, TreasuryKey(i.treasuryIdx)) + VaultRent(s, AuthorKey(i.thread, i.authorIdx))
  }

  // ---- all a payer spends ----

  /** Posting into the slot at `k`. */
  function PostingCost(s: State, i: Instruction, k: Key): nat
    requires i.FillSlot?
  {
    BaseFee(s, i) + AuthorFee(s, i) + BothRents(s, i) + TopUp(s.lam[k], ContentSize(|i.body|))
  }

  function AppendCost(s: State, i: Instruction): nat
    requires i.AppendContent?
  {
    var r := Data(s.info, i.target);
    if !r.Content? then 0
    else
      BaseFee(s, i) + TopUp(s.lam[i.target], ContentSize(|r.body| + |i.chunk|))
      + (if AddedRent(|r.body|, |i.chunk|) > 0 then VaultRent(s, TreasuryKey(i.treasuryIdx)) else 0)
  }

  function LikingCost(s: State, i: Instruction): nat
    requires i.LikeContent?
  {
    var likes := LikesKey(i.thread, i.page);
    AuthorFee(s, i) + BothRents(s, i) + (if likes in s.info then 0 else TopUp(s.lam[likes], LIKES_SIZE))
  }

  function JoinCost(s: State, i: Instruction): nat
    requires i.RequestAccess?
  {
    AuthorFee(s, i) + BothRents(s, i) + TopUp(s.lam[EntryKey(i.thread, i.payer)], ENTRY_SIZE)
  }

  function RootCost(s: State, i: Instruction): nat
    requires i.CreateRootAlloc?
  {
    BaseFee(s, i) + VaultRent(s, TreasuryKey(i.treasuryIdx)) + Rent(ThreadSize(|i.title|))
    + TopUp(s.lam[AllocKey(i.thread, 0)], ALLOC_SIZE)
  }

  function GateCost(s: State, i: Instruction): nat
    requires i.InitThreadAccess?
  {
    BaseFee(s, i) + VaultRent(s, TreasuryKey(i.treasuryIdx)) + TopUp(s.lam[AccessKey(i.thread)], ACCESS_SIZE)
  }

  function FollowCost(s: State, i: Instruction): nat
    requires i.Subscribe?
  {
    var registry, follower := RegistryKey(i.payer), FollowerKey(i.thread, FollowerShardIndex(i.payer));
    TopUp(s.lam[registry], RegistrySize(|Channels(s.info, registry)| + 1))
    + (if follower in s.info then 0 else TopUp(s.lam[follower], FOLLOWER_SIZE))
  }

  /** The money is there: nothing to pay, or a plain wallet that holds it. */
  predicate Affords(s: State, payer: Key, amount: nat) {
    amount == 0 || (payer !in s.info && amount <= s.lam[payer])
  }

  // ---- the handlers charge these prices ----

  /** Where every account is typed, an uninitialised account is an absent one. */
  lemma FreshIsAbsent(info: Accounts, k: Key)
    requires Typed(info)
    ensures Fresh(info, k) <==> k !in info
  {
    assert k in info ==> TypedAt(k, info[k]);
  }

  lemma AffordsIff(s: State, payer: Key, amount: nat)
    requires Typed(s.info)
    ensures CanPay(s, payer, amount) <==> Affords(s, payer, amount)
  {
    FreshIsAbsent(s.info, payer);
  }

  lemma RentsOpen(s: State, k: Key)
    requires Typed(s.info)
    ensures OpeningCost(s, k) == VaultRent(s, k)
  {
    FreshIsAbsent(s.info, k);
    hide TopUp;
  }

  lemma BothOpenings(s: State, i: Instruction)
    requires Typed(s.info) && (i.FillSlot? || i.LikeContent? || i.RequestAccess?)
    ensures OpenBoth(s, i) == BothRents(s, i)
  {
    hide Typed, OpeningCost, VaultRent;
    RentsOpen(s, TreasuryKey(i.treasuryIdx));
    RentsOpen(s, AuthorKey(i.thread, i.authorIdx));
  }

  lemma PostingPrices(s: State, i: Instruction)
    requires Typed(s.info) && i.FillSlot? && FillPrologue(s, i).Done?
    ensures CheckSettings(s.info).Done? && CheckThread(s.info, i.thread).Done?
    ensures PostFee(s, i) == BaseFee(s, i) && MessageFee(s.info, i.thread, i.payer) == AuthorFee(s, i)
    ensures s.info[SettingsKey].data.authorCutBps == AuthorCutBps(s, i)
  {
    FreshIsAbsent(s.info, EntryKey(i.thread, i.payer));
    hide Rent, Typed, Cut;
  }

  lemma AppendPrices(s: State, i: Instruction)
    requires Typed(s.info) && i.AppendContent? && AppendPrologue(s, i).Done?
    ensures CheckSettings(s.info).Done? && CheckContent(s.info, i.target).Done?
    ensures AppendFee(s, i) == BaseFee(s, i)
    ensures AppendCost(s, i)
            == TopUp(s.lam[i.target], ContentSize(|s.info[i.target].data.body| + |i.chunk|)) + AppendToVault(s, i)
  {
    RentsOpen(s, TreasuryKey(i.treasuryIdx));
    var n := |s.info[i.target].data.body|;
    RentMonotone(ContentSize(n), ContentSize(n + |i.chunk|));
    hide Rent, Typed, TopUp, VaultRent, OpeningCost;
  }

  lemma LikePrices(s: State, i: Instruction)
    requires Typed(s.info) && i.LikeContent? && LikePrologue(s, i).Done?
    ensures CheckSettings(s.info).Done? && CheckThread(s.info, i.thread).Done?
    ensures CheckContent(s.info, ContentKey(i.thread, i.page, i.slot)).Done?
    ensures LikeFee(s, i) == AuthorFee(s, i) && s.info[SettingsKey].data.likeCutBps == AuthorCutBps(s, i)
    ensures LikingCost(s, i) == OpenBoth(s, i) + LikesCost(s, LikesKey(i.thread, i.page)) + LikeFee(s, i)
  {
    FreshIsAbsent(s.info, LikesKey(i.thread, i.page));
    BothOpenings(s, i);
    hide Rent, Typed, TopUp, OpenBoth, BothRents;
  }

  lemma JoinPrices(s: State, i: Instruction)
    requires Typed(s.info) && i.RequestAccess? && RequestPrologue(s, i).Done?
    ensures CheckSettings(s.info).Done? && CheckAccess(s.info, AccessKey(i.thread)).Done?
    ensures s.info[AccessKey(i.thread)].data.entryFee == AuthorFee(s, i)
    ensures s.info[SettingsKey].data.entryCutBps == AuthorCutBps(s, i)
    ensures JoinCost(s, i) == OpenBoth(s, i) + s.info[AccessKey(i.thread)].data.entryFee
                              + TopUp(s.lam[EntryKey(i.thread, i.payer)], ENTRY_SIZE)
  {
    BothOpenings(s, i);
    hide Rent, Typed, TopUp, OpenBoth, BothRents;
  }

  lemma RootPrices(s: State, i: Instruction)
    requires Typed(s.info) && i.CreateRootAlloc? && RootPrologue(s, i).Done?
    ensures CheckSettings(s.info).Done? && RootFee(s, i) == BaseFee(s, i)
    ensures RootCost(s, i) == OpeningCost(s, TreasuryKey(i.treasuryIdx)) + Rent(ThreadSize(|i.title|)) + RootFee(s, i)
                              + TopUp(s.lam[AllocKey(i.thread, 0)], ALLOC_SIZE)
  {
    RentsOpen(s, TreasuryKey(i.treasuryIdx));
    hide Rent, Typed, TopUp, OpeningCost, VaultRent;
  }

  lemma FollowPrices(s: State, i: Instruction)
    requires Typed(s.info) && i.Subscribe?
    ensures var r, f := RegistryKey(i.payer), FollowerKey(i.thread, FollowerShardIndex(i.payer));
            FollowCost(s, i) == TopUp(s.lam[r], RegistrySize(|Channels(s.info, r)| + 1)) + FollowerCost(s, f)
  {
    FreshIsAbsent(s.info, FollowerKey(i.thread, FollowerShardIndex(i.payer)));
    hide Rent, Typed, TopUp;
  }
}
