/** Where fees go: exact revenue accounting for every vault, over every run. */
module Revenue {
  import opened Keys
  import opened Ledger
  import opened FeeMath
  import opened Instructions
  import opened Invariant
  import opened Prices
  import opened Frame
  import opened Sweep
  import opened Runs

  // ---- who is owed what ----

  /** The platform's side: the base fee, and its cut of the author's fee. */
  function PlatformDue(s: State, i: Instruction): nat {
    BaseFee(s, i) + Cut(AuthorFee(s, i), AuthorCutBps(s, i))
  }

  /** The author's side: the rest of the author's fee. */
  function AuthorDue(s: State, i: Instruction): nat
    requires Sane(s, i)
  {
    CutBounds(AuthorFee(s, i), AuthorCutBps(s, i));
    AuthorFee(s, i) - Cut(AuthorFee(s, i), AuthorCutBps(s, i))
  }

  predicate PaysTreasury(i: Instruction) {
    i.CreateRootAlloc? || i.FillSlot? || i.AppendContent? || i.LikeContent? || i.InitThreadAccess? || i.RequestAccess?
  }

  predicate PaysAuthor(i: Instruction) { i.FillSlot? || i.LikeContent? || i.RequestAccess? }

  /** The fee an instruction credits to address `k`. */
  function Due(s: State, i: Instruction, k: Key): nat
    requires Sane(s, i)
  {
    if PaysTreasury(i) && k == TreasuryKey(i.treasuryIdx) then PlatformDue(s, i)
    else if PaysAuthor(i) && k == AuthorKey(i.thread, i.authorIdx) then AuthorDue(s, i)
    else 0
  }

  predicate IsSweep(i: Instruction) { i.SweepTreasury? || i.SweepAuthorFees? }

  function SweptFrom(s: State, i: Instruction, k: Key): nat {
    if IsSweep(i) && k in Swept(s.info, i.accounts, i.recipient) then Excess(s.lam[k]) else 0
  }

  /** A sweep may pay into a vault, when the treasury wallet is one. */
  ghost function SweptInto(s: State, i: Instruction, k: Key): nat {
    if IsSweep(i) && k == i.recipient then ExcessSum(s.lam, Swept(s.info, i.accounts, k)) else 0
  }

  /** Rent paid to open a vault on the way. */
  function OpeningRent(a: State, b: State, k: Key): nat {
    if Fresh(a.info, k) && !Fresh(b.info, k) then TopUp(a.lam[k], 0) else 0
  }

  // ---- one instruction ----

  /** The vault's balance moves by exactly its opening rent, its due and the sweeps, and a fee
      is only ever credited to an open vault. */
  ghost predicate Accounted(s: State, i: Instruction, k: Key, t: State)
    requires Sane(s, i)
  {
    && t.lam[k] + SweptFrom(s, i, k) == s.lam[k] + OpeningRent(s, t, k) + Due(s, i, k) + SweptInto(s, i, k)
    && (Due(s, i, k) > 0 ==> !Fresh(t.info, k))
  }

  /** A settled bill, seen from a vault. */
  lemma BillAtVault(s: State, b: Bill, k: Key)
    requires b.Payable(s) && IsVault(k) && !IsVault(b.target)
    ensures Settle(s.lam, b)[k] == s.lam[k] + (if k == TreasuryKey(b.treasuryIdx) then b.toTreasury else 0)
                                            + (if k == AuthorKey(b.thread, b.authorIdx) then b.toAuthor else 0)
  {
    SettleMoves(s.lam, b);
  }

  lemma CreateRootAtVault(s: State, i: Instruction, k: Key)
    requires i.CreateRootAlloc? && WellFormed(i) && CreateRootCheck(s, i).Done? && IsVault(k)
    ensures CreateRootPost(s, i).lam[k] == s.lam[k] +
              (if k == TreasuryKey(i.treasuryIdx) then OpeningCost(s, k) + RootFee(s, i) else 0)
  {
    BillAtVault(s, CreateRootBill(s, i), k);
  }

  lemma CreateRootOpens(s: State, i: Instruction, k: Key)
    requires i.CreateRootAlloc? && WellFormed(i) && CreateRootCheck(s, i).Done? && IsVault(k)
    ensures !Fresh(CreateRootPost(s, i).info, TreasuryKey(i.treasuryIdx))
    ensures k != TreasuryKey(i.treasuryIdx) ==> SameAt(s.info, CreateRootPost(s, i).info, k)
  {
  }

  lemma CreateRootAccounted(s: State, i: Instruction, k: Key)
    requires i.CreateRootAlloc? && WellFormed(i) && CreateRootCheck(s, i).Done? && Sane(s, i) && Typed(s.info)
    requires IsVault(k)
    ensures Accounted(s, i, k, CreateRootPost(s, i))
  {
    hide CreateRootPost, RootFee, BaseFee, Typed, RootCost, Rent, CanPay;
    RootPrices(s, i);
    CreateRootAtVault(s, i, k);
    CreateRootOpens(s, i, k);
  }

  /** A vault's balance after a posting, a like or a paid join: opened and credited its share. */
  ghost predicate SplitAtVault(s: State, i: Instruction, k: Key, lam: Lamports)
    requires PaysAuthor(i) && Sane(s, i)
  {
    lam[k] == s.lam[k] + (if k == TreasuryKey(i.treasuryIdx) then OpeningCost(s, k) + PlatformDue(s, i)
                          else if k == AuthorKey(i.thread, i.authorIdx) then OpeningCost(s, k) + AuthorDue(s, i)
                          else 0)
  }

  /** Both vaults exist afterwards, and no other vault changes. */
  predicate BothOpen(a: Accounts, b: Accounts, i: Instruction, k: Key)
    requires PaysAuthor(i)
  {
    var treasury, author := TreasuryKey(i.treasuryIdx), AuthorKey(i.thread, i.authorIdx);
    !Fresh(b, treasury) && !Fresh(b, author) && (k != treasury && k != author ==> SameAt(a, b, k))
  }

  lemma FillAtVault(s: State, i: Instruction, k: Key)
    requires i.FillSlot? && WellFormed(i) && FillCheck(s, i).Done? && Sane(s, i) && Typed(s.info) && IsVault(k)
    ensures SplitAtVault(s, i, k, FillPost(s, i).lam)
  {
    PostingPrices(s, i);
    FilledInRange(s, i);
    BillAtVault(s, FillBill(s, i), k);
    hide Settle, AuthorFee, BaseFee, AuthorCutBps, Rent, TopUp, Typed, OpeningCost, CanPay, Cut;
  }

  lemma FillOpens(s: State, i: Instruction, k: Key)
    requires i.FillSlot? && WellFormed(i) && FillCheck(s, i).Done? && Sane(s, i) && IsVault(k)
    ensures BothOpen(s.info, FillPost(s, i).info, i, k)
  {
    FilledInRange(s, i);
  }

  lemma LikeAtVault(s: State, i: Instruction, k: Key)
    requires i.LikeContent? && WellFormed(i) && LikeCheck(s, i).Done? && Sane(s, i) && Typed(s.info) && IsVault(k)
    ensures SplitAtVault(s, i, k, LikePost(s, i).lam)
  {
    LikePrices(s, i);
    BillAtVault(s, LikeBill(s, i), k);
    hide Settle, AuthorFee, BaseFee, AuthorCutBps, Rent, TopUp, Typed, OpeningCost, CanPay, Cut;
  }

  lemma LikeOpens(s: State, i: Instruction, k: Key)
    requires i.LikeContent? && WellFormed(i) && LikeCheck(s, i).Done? && Sane(s, i) && IsVault(k)
    ensures BothOpen(s.info, LikePost(s, i).info, i, k)
  {
    hide Settle, CanPay, Rent, Cut, TopUp, OpeningCost;
  }

  lemma RequestAtVault(s: State, i: Instruction, k: Key)
    requires i.RequestAccess? && WellFormed(i) && RequestCheck(s, i).Done? && Sane(s, i) && Typed(s.info) && IsVault(k)
    ensures SplitAtVault(s, i, k, RequestPost(s, i).lam)
  {
    JoinPrices(s, i);
    BillAtVault(s, RequestBill(s, i), k);
    hide Settle, AuthorFee, BaseFee, AuthorCutBps, Rent, TopUp, Typed, OpeningCost, CanPay, Cut;
  }

  lemma RequestOpens(s: State, i: Instruction, k: Key)
    requires i.RequestAccess? && WellFormed(i) && RequestCheck(s, i).Done? && Sane(s, i) && IsVault(k)
    ensures BothOpen(s.info, RequestPost(s, i).info, i, k)
  {
    hide Settle, CanPay, Rent, Cut, TopUp, OpeningCost;
  }

  lemma FillAccounted(s: State, i: Instruction, k: Key)
    requires i.FillSlot? && WellFormed(i) && FillCheck(s, i).Done? && Sane(s, i) && Typed(s.info) && IsVault(k)
    ensures Accounted(s, i, k, FillPost(s, i))
  {
    hide FillPost, FillCheck, PlatformDue, AuthorDue, Typed, TopUp, WellFormed;
    FillAtVault(s, i, k);
    FillOpens(s, i, k);
  }

  lemma LikeAccounted(s: State, i: Instruction, k: Key)
    requires i.LikeContent? && WellFormed(i) && LikeCheck(s, i).Done? && Sane(s, i) && Typed(s.info) && IsVault(k)
    ensures Accounted(s, i, k, LikePost(s, i))
  {
    hide LikePost, LikeCheck, PlatformDue, AuthorDue, Typed, TopUp, WellFormed;
    LikeAtVault(s, i, k);
    LikeOpens(s, i, k);
  }

  lemma RequestAccounted(s: State, i: Instruction, k: Key)
    requires i.RequestAccess? && WellFormed(i) && RequestCheck(s, i).Done? && Sane(s, i) && Typed(s.info) && IsVault(k)
    ensures Accounted(s, i, k, RequestPost(s, i))
  {
    hide RequestPost, RequestCheck, PlatformDue, AuthorDue, Typed, TopUp, WellFormed;
    RequestAtVault(s, i, k);
    RequestOpens(s, i, k);
  }

  lemma AppendAtVault(s: State, i: Instruction, k: Key)
    requires i.AppendContent? && WellFormed(i) && AppendCheck(s, i).Done? && IsVault(k)
    ensures AppendPost(s, i).lam[k] == s.lam[k] + (if k == TreasuryKey(i.treasuryIdx) then AppendToVault(s, i) else 0)
    ensures AppendOpens(s, i) ==> !Fresh(AppendPost(s, i).info, TreasuryKey(i.treasuryIdx))
    ensures k != TreasuryKey(i.treasuryIdx) || !AppendOpens(s, i) ==> SameAt(s.info, AppendPost(s, i).info, k)
  {
    BillAtVault(s, AppendBill(s, i), k);
  }

  lemma AppendAccounted(s: State, i: Instruction, k: Key)
    requires i.AppendContent? && WellFormed(i) && AppendCheck(s, i).Done? && Sane(s, i) && Typed(s.info) && IsVault(k)
    ensures Accounted(s, i, k, AppendPost(s, i))
  {
    hide AppendPost, BaseFee, Typed, AppendCost, Rent;
    AppendPrices(s, i);
    AppendAtVault(s, i, k);
  }

  lemma InitAccessAccounted(s: State, i: Instruction, k: Key)
    requires i.InitThreadAccess? && WellFormed(i) && InitAccessCheck(s, i).Done? && Sane(s, i) && IsVault(k)
    ensures Accounted(s, i, k, InitAccessPost(s, i))
  {
    hide Settle, InitPrologue, CanPay, Rent;
    BillAtVault(s, InitAccessBill(s, i), k);
  }

  lemma SweepAccounted(s: State, i: Instruction, k: Key)
    requires IsSweep(i) && SweepCheck(s, i).Done? && Sane(s, i)
    ensures Accounted(s, i, k, SweepPost(s, i))
  {
    hide Drain, ExcessSum, SweepCheck;
    DrainBalances(s.lam, s.info, i.accounts, i.recipient);
  }

  lemma RegistryBalances(s: State, i: Instruction, k: Key)
    requires WellFormed(i) && IsVault(k)
    ensures i.Subscribe? && SubscribeCheck(s, i).Done? ==> SubscribePost(s, i).lam[k] == s.lam[k]
    ensures i.Unsubscribe? && UnsubscribeCheck(s, i).Done? ==> UnsubscribePost(s, i).lam[k] == s.lam[k]
  {
  }

  lemma ListBalances(s: State, i: Instruction, k: Key)
    requires WellFormed(i) && IsVault(k)
    ensures i.SetStatus? && SetStatusCheck(s, i).Done? ==> SetStatusPost(s, i).lam[k] == s.lam[k]
    ensures i.RemoveStatus? && RemoveStatusCheck(s, i).Done? ==> RemoveStatusPost(s, i).lam[k] == s.lam[k]
  {
  }

  /** Instructions without a fee move no vault's balance. */
  lemma FeelessBalances(s: State, i: Instruction, k: Key)
    requires WellFormed(i) && Check(s, i).Done? && Sane(s, i) && IsVault(k)
    requires !PaysTreasury(i) && !IsSweep(i)
    ensures Post(s, i).lam[k] == s.lam[k]
  {
    if i.Subscribe? || i.Unsubscribe? {
      RegistryBalances(s, i, k);
    } else if i.SetStatus? || i.RemoveStatus? {
      ListBalances(s, i, k);
    }
  }

  lemma FeelessTouchNoVault(s: State, i: Instruction, k: Key)
    requires WellFormed(i) && Check(s, i).Done? && Sane(s, i) && Typed(s.info) && IsVault(k)
    requires !PaysTreasury(i) && !IsSweep(i)
    ensures k !in Touched(s, i)
  {
    hide Check, Touched, Typed, Sane;
    if k in Touched(s, i) {
      TouchedFits(s, i, k);
    }
  }

  lemma FeelessAccounted(s: State, i: Instruction, k: Key)
    requires WellFormed(i) && Check(s, i).Done? && Sane(s, i) && Typed(s.info) && IsVault(k)
    requires !PaysTreasury(i) && !IsSweep(i)
    ensures Accounted(s, i, k, Post(s, i))
  {
    hide Check, Post, Sane, Typed, WellFormed, Touched, TopUp;
    FeelessBalances(s, i, k);
    FeelessTouchNoVault(s, i, k);
    TouchesOnly(s, i);
    assert SameAt(s.info, Post(s, i).info, k);
  }

  /** Every instruction, every vault: no fee is lost, doubled or routed to the wrong side. */
  lemma InstructionAccounted(s: State, i: Instruction, k: Key)
    requires WellFormed(i) && Check(s, i).Done? && Sane(s, i) && Typed(s.info) && IsVault(k)
    ensures Accounted(s, i, k, Post(s, i))
  {
    hide Accounted, Sane, Typed, WellFormed;
    match i
    case CreateRootAlloc(_, _, _, _, _) => CreateRootAccounted(s, i, k);
    case FillSlot(_, _, _, _, _, _, _, _, _, _, _) => FillAccounted(s, i, k);
    case AppendContent(_, _, _, _, _, _) => AppendAccounted(s, i, k);
    case LikeContent(_, _, _, _, _, _, _) => LikeAccounted(s, i, k);
    case InitThreadAccess(_, _, _, _) => InitAccessAccounted(s, i, k);
    case RequestAccess(_, _, _, _) => RequestAccounted(s, i, k);
    case SweepTreasury(_, _, _) => SweepAccounted(s, i, k);
    case SweepAuthorFees(_, _, _, _) => SweepAccounted(s, i, k);
    case _ => FeelessAccounted(s, i, k);
  }

  // ---- whole runs ----

  ghost function FeeOf(s: State, a: Action, t: State, k: Key): nat
    requires Next(s, a, t)
  {
    if a.Run? then Due(s, a.i, k) else 0
  }

  ghost function SweptOf(s: State, a: Action, k: Key): nat {
    if a.Run? then SweptFrom(s, a.i, k) else 0
  }

  /** What an open vault receives otherwise: transfers from outside, and sweeps directed at it. */
  ghost function GiftOf(s: State, a: Action, t: State, k: Key): int {
    var balance: int := t.lam[k];
    if a.Run? then SweptInto(s, a.i, k) else balance - s.lam[k]
  }

  /** All fees credited to a vault during a run. */
  ghost function Fees(h: History, k: Key): nat
    requires Valid(h)
  {
    match h
    case Genesis(_) => 0
    case Then(b, a, t) => Fees(b, k) + FeeOf(b.state, a, t, k)
  }

  /** All lamports swept out of a vault during a run. */
  ghost function Sweeps(h: History, k: Key): nat {
    match h
    case Genesis(_) => 0
    case Then(b, a, _) => Sweeps(b, k) + SweptOf(b.state, a, k)
  }

  /** What others gave: anything above the rent of an empty account when the vault was opened,
      and every gift since. */
  ghost function Surplus(h: History, k: Key): int {
    match h
    case Genesis(_) => 0
    case Then(b, a, t) =>
      if Fresh(t.info, k) then 0
      else if Fresh(b.state.info, k) then Excess(b.state.lam[k])
      else Surplus(b, k) + GiftOf(b.state, a, t, k)
  }

  /** Instructions that open vaults remove nothing. */
  lemma OpenersRemoveNothing(s: State, i: Instruction, k: Key)
    requires WellFormed(i) && Check(s, i).Done? && Sane(s, i) && IsVault(k) && k in s.info && PaysTreasury(i)
    ensures k in Post(s, i).info
  {
    hide Settle, Pay, Rent, CanPay, TopUp, Cut;
  }

  lemma VaultStaysPut(s: State, i: Instruction, k: Key)
    requires WellFormed(i) && Check(s, i).Done? && Sane(s, i) && Typed(s.info) && IsVault(k) && k in s.info
    ensures k in Post(s, i).info
  {
    hide Check, Touched, Typed, Sane, Post, WellFormed;
    TouchesOnly(s, i);
    if k in Touched(s, i) {
      TouchedFits(s, i, k);
      OpenersRemoveNothing(s, i, k);
    } else {
      assert SameAt(s.info, Post(s, i).info, k);
    }
  }

  /** Once open, a vault never closes. */
  lemma VaultStaysOpen(s: State, i: Instruction, k: Key)
    requires WellFormed(i) && Check(s, i).Done? && Sane(s, i) && Structure(s.info) && IsTime(s.now) && IsVault(k)
    ensures !Fresh(s.info, k) ==> !Fresh(Post(s, i).info, k)
  {
    StructureKept(s, i);
    if !Fresh(s.info, k) {
      VaultStaysPut(s, i, k);
      assert TypedAt(k, Post(s, i).info[k]);
    }
  }

  lemma RunStep(s: State, i: Instruction, t: State, k: Key)
    requires Inv(s) && Next(s, Run(i), t) && IsVault(k)
    ensures StepAccounted(s, Run(i), t, k)
  {
    InstructionAccounted(s, i, k);
    VaultStaysOpen(s, i, k);
  }

  /** One step in the ledger's terms: an open vault stays open and moves by fee, gift and sweep;
      an opened one starts from its rent and what was there before; a fresh one has no fee. */
  ghost predicate StepAccounted(s: State, a: Action, t: State, k: Key)
    requires Next(s, a, t)
  {
    var fee, swept := FeeOf(s, a, t, k), SweptOf(s, a, k);
    if !Fresh(s.info, k) then
      !Fresh(t.info, k) && t.lam[k] + swept == s.lam[k] + fee + GiftOf(s, a, t, k) && GiftOf(s, a, t, k) >= 0
    else if !Fresh(t.info, k) then
      t.lam[k] == Rent(0) + Excess(s.lam[k]) + fee && swept == 0
    else
      fee == 0 && swept == 0
  }

  lemma AnyStep(s: State, a: Action, t: State, k: Key)
    requires Inv(s) && Next(s, a, t) && IsVault(k)
    ensures StepAccounted(s, a, t, k)
  {
    if a.Run? {
      RunStep(s, a.i, t, k);
    } else {
      assert SameAt(s.info, t.info, k);
    }
  }

  /** The revenue ledger: in every reachable state an open vault holds the rent of an empty
      account, plus all fees ever credited to it, plus the surplus, minus all sweeps; an
      unopened one has never been credited or swept. */
  lemma {:induction false} RevenueLedger(h: History, k: Key)
    requires Valid(h) && IsVault(k)
    ensures !Fresh(h.state.info, k) ==> h.state.lam[k] + Sweeps(h, k) == Rent(0) + Fees(h, k) + Surplus(h, k)
    ensures Fresh(h.state.info, k) ==> Fees(h, k) == 0 && Sweeps(h, k) == 0
    ensures Surplus(h, k) >= 0
  {
    match h
    case Genesis(s) =>
    case Then(b, a, t) =>
      RevenueLedger(b, k);
      ReachableInv(b);
      AnyStep(b.state, a, t, k);
  }

  // ---- what the payer is charged ----

  /** What a vault gained beyond the rent it was opened with. */
  function Credited(s: State, t: State, k: Key): int {
    var balance: int := t.lam[k];
    balance - s.lam[k] - OpeningCost(s, k)
  }

  /** What the two vaults of an instruction are credited with, beyond their openings. */
  predicate Splits(s: State, t: State, i: Instruction, toPlatform: int, toAuthor: int)
    requires PaysAuthor(i)
  {
    && Credited(s, t, TreasuryKey(i.treasuryIdx)) == toPlatform
    && Credited(s, t, AuthorKey(i.thread, i.authorIdx)) == toAuthor
  }

  /** A posting credits its two vaults with exactly the base fee plus the channel's message fee,
      which is waived for the channel's author and for the members it has exempted, and for nobody
      else: the treasury with the base fee and the platform's cut, the author with the rest, and in
      all no more than the poster's cap. */
  lemma PostingCharge(s: State, i: Instruction)
    requires i.FillSlot? && WellFormed(i) && FillCheck(s, i).Done? && Inv(s)
    ensures Sane(s, i) && Data(s.info, SettingsKey).Settings? && Data(s.info, i.thread).Thread?
    ensures var channel, entry := Data(s.info, i.thread), Data(s.info, EntryKey(i.thread, i.payer));
            var exempt := i.payer == channel.author || (entry.Entry? && entry.status == ACCESS_FEE_EXEMPT);
            var fee := if exempt then 0 else channel.messageFee;
            var base := OneShot(i.body, Data(s.info, SettingsKey).baseFeeBps);
            var cut := Cut(fee, Data(s.info, SettingsKey).authorCutBps);
            Splits(s, FillPost(s, i), i, base + cut, fee - cut) && base + fee <= i.maxFee
  {
    hide FillPost, Cut, MessageFee, OpeningCost, OneShot, Inv, Typed, Sane, OpenBoth, TopUp, PickSlot, GateCheck,
         CheckShards;
    InvTyped(s);
    InvIsSane(s, i);
    PostingPrices(s, i);
    FillAtVault(s, i, TreasuryKey(i.treasuryIdx));
    FillAtVault(s, i, AuthorKey(i.thread, i.authorIdx));
  }

  /** A like credits its two vaults with exactly the channel's like fee, waived for the author of
      the message, within the liker's cap. */
  lemma LikeCharge(s: State, i: Instruction)
    requires i.LikeContent? && WellFormed(i) && LikeCheck(s, i).Done? && Inv(s)
    ensures Sane(s, i) && Data(s.info, SettingsKey).Settings? && Data(s.info, i.thread).Thread?
    ensures Data(s.info, ContentKey(i.thread, i.page, i.slot)).Content?
    ensures var own := i.payer == Data(s.info, ContentKey(i.thread, i.page, i.slot)).author;
            var fee := if own then 0 else Data(s.info, i.thread).likeFee;
            var cut := Cut(fee, Data(s.info, SettingsKey).likeCutBps);
            Splits(s, LikePost(s, i), i, cut, fee - cut) && fee <= i.maxFee
  {
    hide LikePost, Cut, OpeningCost, Inv, Typed, Sane, OpenBoth, TopUp, Rent, CanPay;
    InvTyped(s);
    InvIsSane(s, i);
    LikePrices(s, i);
    LikeAtVault(s, i, TreasuryKey(i.treasuryIdx));
    LikeAtVault(s, i, AuthorKey(i.thread, i.authorIdx));
  }

  /** A join credits its two vaults with exactly the gate's entry fee, which is never zero. */
  lemma JoinCharge(s: State, i: Instruction)
    requires i.RequestAccess? && WellFormed(i) && RequestCheck(s, i).Done? && Inv(s)
    ensures Sane(s, i) && Data(s.info, SettingsKey).Settings? && Data(s.info, AccessKey(i.thread)).Access?
    ensures var fee := Data(s.info, AccessKey(i.thread)).entryFee;
            var cut := Cut(fee, Data(s.info, SettingsKey).entryCutBps);
            Splits(s, RequestPost(s, i), i, cut, fee - cut) && fee > 0
  {
    hide RequestPost, Cut, OpeningCost, Inv, Typed, Sane, OpenBoth, TopUp, Rent, CanPay;
    InvTyped(s);
    InvIsSane(s, i);
    JoinPrices(s, i);
    RequestAtVault(s, i, TreasuryKey(i.treasuryIdx));
    RequestAtVault(s, i, AuthorKey(i.thread, i.authorIdx));
  }

  lemma CutIsCapped(s: State, i: Instruction)
    requires Inv(s)
    ensures Sane(s, i) && AuthorCutBps(s, i) <= MAX_FEE_CUT_BPS
  {
    InvIsSane(s, i);
    assert SettingsKey in s.info ==> TypedAt(SettingsKey, s.info[SettingsKey]);
    hide Pages, Children, Followers, Funded, Sane;
  }

  /** The author's side of every fee is never below the platform's. */
  lemma AuthorKeepsHalf(s: State, i: Instruction)
    requires Inv(s)
    ensures Sane(s, i) && Cut(AuthorFee(s, i), AuthorCutBps(s, i)) <= AuthorDue(s, i)
    ensures Cut(AuthorFee(s, i), AuthorCutBps(s, i)) + AuthorDue(s, i) == AuthorFee(s, i)
  {
    hide AuthorFee, Cut, Inv;
    CutIsCapped(s, i);
    CutBounds(AuthorFee(s, i), AuthorCutBps(s, i));
  }
}
