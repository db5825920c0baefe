/** The handlers of settings, threads and pages, step by step. */
module Threads {
  import opened Keys
  import opened Records
  import opened Ledger
  import opened FeeMath
  import opened Instructions
  import opened Chain
  import opened Charges

  // ---- settings ----

  /** `process_init_settings`. */
  method InitSettings(bank: Bank, i: Instruction) returns (r: Outcome)
    requires i.InitSettings? && WellFormed(i)
    modifies bank`lam, bank`info
    ensures r == InitSettingsCheck(old(bank.Now()), i)
    ensures r.Done? ==> bank.Now() == InitSettingsPost(old(bank.Now()), i)
  {
    if i.payer != i.upgradeAuthority {
      return Fail(Unauthorized);
    }
    if !Fresh(bank.info, SettingsKey) {
      return Fail(AccountAlreadyInitialized);
    }
    r := bank.CreateWith(i.payer, SettingsKey, Settings(i.payer, i.treasury, 1000, 1000, 1000, 1000));
  }

  /** `update_platform_setting` and the two address setters. */
  method UpdateSettings(bank: Bank, i: Instruction) returns (r: Outcome)
    requires i.UpdateSettings?
    modifies bank`info
    ensures r == UpdateSettingsCheck(old(bank.Now()), i)
    ensures r.Done? ==> bank.Now() == UpdateSettingsPost(old(bank.Now()), i)
    ensures r.Done? ==>
              var x, was, now := i.setting, old(bank.info)[SettingsKey].data, bank.info[SettingsKey].data;
              && now.Settings?
              && now.admin == (if x.SetAdmin? then x.key else was.admin)
              && now.treasury == (if x.SetTreasury? then x.key else was.treasury)
              && now.baseFeeBps == (if x.SetBaseFee? then x.bps else was.baseFeeBps)
              && now.authorCutBps == (if x.SetAuthorFeeCut? then x.bps else was.authorCutBps)
              && now.entryCutBps == (if x.SetEntryCut? then x.bps else was.entryCutBps)
              && now.likeCutBps == (if x.SetLikeCut? then x.bps else was.likeCutBps)
  {
    if IsBps(i.setting) && i.setting.bps > MAX_FEE_CUT_BPS {
      return Fail(InvalidFeeBps);
    }
    r := CheckSettings(bank.info);
    if r.Fail? {
      return;
    }
    var settings := bank.info[SettingsKey].data;
    if settings.admin != i.payer {
      return Fail(Unauthorized);
    }
    bank.Write(SettingsKey, ApplySetting(settings, i.setting));
  }

  /** The author's one-field setters. */
  method UpdateThread(bank: Bank, i: Instruction) returns (r: Outcome)
    requires i.UpdateThread?
    modifies bank`info
    ensures r == UpdateThreadCheck(old(bank.Now()), i)
    ensures r.Done? ==> bank.Now() == UpdateThreadPost(old(bank.Now()), i)
    ensures r.Done? ==>
              var x, was, now := i.fee, old(bank.info)[i.thread].data, bank.info[i.thread].data;
              && now.Thread? && now.author == was.author && now.title == was.title
              && now.allocCount == was.allocCount && now.lastPage == was.lastPage
              && now.messageFee == (if x.SetMessageFee? then x.fee else was.messageFee)
              && now.likeFee == (if x.SetLikeFee? then x.fee else was.likeFee)
  {
    r := CheckThread(bank.info, i.thread);
    if r.Fail? {
      return;
    }
    var thread := bank.info[i.thread].data;
    if i.payer != thread.author {
      return Fail(Unauthorized);
    }
    bank.Write(i.thread, ApplyThreadFee(thread, i.fee));
  }

  // ---- prepare_alloc ----

  /** `process_prepare_alloc`: one page past the tail. */
  method PrepareAlloc(bank: Bank, i: Instruction) returns (r: Outcome)
    requires i.PrepareAlloc? && WellFormed(i)
    modifies bank`lam, bank`info
    ensures r == PrepareCheck(old(bank.Now()), i)
    ensures r.Done? ==> bank.Now() == PreparePost(old(bank.Now()), i)
  {
    hide Pay, Rent, CanPay, TopUp;
    r := CheckAlloc(bank.info, i.current);
    if r.Fail? {
      return;
    }
    var current := bank.info[i.current].data;
    if current.thread != i.thread {
      return Fail(ThreadMismatch);
    }
    if current.page != i.page {
      return Fail(InvalidAllocSeq);
    }
    r := CheckThread(bank.info, i.thread);
    if r.Fail? {
      return;
    }
    var thread := bank.info[i.thread].data;
    if current.page != thread.lastPage {
      return Fail(InvalidAllocSeq);
    }
    if i.page + 1 > U32_MAX {
      return Fail(InvalidAccountData);
    }
    var newPage := i.page + 1;
    var next := AllocKey(i.thread, newPage);
    if !Fresh(bank.info, next) {
      return Fail(AccountAlreadyInitialized);
    }
    r := bank.CreateWith(i.payer, next, Alloc(i.thread, newPage));
    if r.Fail? {
      return;
    }
    if thread.allocCount + 1 > U32_MAX {
      return Fail(InvalidAccountData);
    }
    thread := thread.(allocCount := thread.allocCount + 1);
    thread := thread.(lastPage := newPage);
    bank.Write(i.thread, thread);
  }

  // ---- create_root_alloc ----

  method CheckRoot(bank: Bank, i: Instruction) returns (r: Outcome)
    requires i.CreateRootAlloc?
    ensures r == RootPrologue(bank.Now(), i)
  {
    if |i.title| > MAX_TITLE_LEN {
      return Fail(TextTooLong);
    }
    r := CheckSettings(bank.info);
    if r.Fail? {
      return;
    }
    if i.treasuryIdx >= N_TREASURY_SHARDS {
      return Fail(InvalidShard);
    }
    if !Fresh(bank.info, i.thread) || !Fresh(bank.info, AllocKey(i.thread, 0)) {
      return Fail(AccountAlreadyInitialized);
    }
    r := Done;
  }

  lemma RootMeans(s: State, i: Instruction)
    requires i.CreateRootAlloc? && i.payer.External? && i.thread.External?
    ensures RootPrologue(s, i).Fail? ==> CreateRootCheck(s, i) == RootPrologue(s, i)
    ensures RootPrologue(s, i).Done? ==>
              var vault, root := TreasuryKey(i.treasuryIdx), AllocKey(i.thread, 0);
              var open, rent := OpeningCost(s, vault), Rent(ThreadSize(|i.title|));
              && CheckSettings(s.info).Done? && SettingsKey in s.info && s.info[SettingsKey].data.Settings?
              && Fresh(s.info, i.thread) && Fresh(s.info, root)
              && CreateRootCheck(s, i) ==
                   if !CanPay(s, i.payer, open) then Fail(InsufficientFunds)
                   else if s.lam[i.thread] - (if i.thread == i.payer then open else 0) != 0 then Fail(AccountInUse)
                   else if !CanPay(s, i.payer, open + rent) then Fail(InsufficientFunds)
                   else if rent + Rent(ALLOC_SIZE) > U64_MAX then Fail(InvalidAccountData)
                   else CheckPay(s, i.payer, open + rent + RootFee(s, i) + TopUp(s.lam[root], ALLOC_SIZE))
  {
  }

  /** The thread's account exists and is paid for; nothing is written yet. */
  ghost predicate Rooted(s: State, t: State, i: Instruction)
    requires i.CreateRootAlloc?
  {
    var vault, size := TreasuryKey(i.treasuryIdx), ThreadSize(|i.title|);
    && t.info == WithVault(s.info, vault)[i.thread := Account(Program, size, Blank)] && t.now == s.now
    && Settled(s, t, NoBill(i.payer, i.treasuryIdx, i.thread, 0, i.thread)
                        .(toTreasury := OpeningCost(s, vault), deposit := Rent(size)))
    && t.lam[vault] >= Rent(0)
  }

  /** A bill without a deposit names no target. */
  lemma Retarget(s: State, t: State, b: Bill, target: Key)
    requires Settled(s, t, b) && b.deposit == 0 && target != b.payer
    ensures Settled(s, t, b.(target := target))
  {
    forall k
      ensures t.lam[k] == s.lam[k] + Credit(b.(target := target), k) - (if k == b.payer then b.Total() else 0)
    {
      assert Credit(b.(target := target), k) == Credit(b, k);
    }
  }

  /** `create_account` refuses a thread address that holds lamports, the payer's own included. */
  method MakeThread(bank: Bank, i: Instruction, size: nat, ghost s: State) returns (r: Outcome)
    requires i.CreateRootAlloc? && i.payer.External? && i.thread.External? && size == ThreadSize(|i.title|)
    requires var vault := TreasuryKey(i.treasuryIdx);
             && bank.info == WithVault(s.info, vault) && bank.now == s.now && bank.lam[vault] >= Rent(0)
             && Fresh(s.info, i.thread)
             && Settled(s, bank.Now(), NoBill(i.payer, i.treasuryIdx, i.thread, 0, AllocKey(i.thread, 0))
                                         .(toTreasury := OpeningCost(s, vault)))
    modifies bank`lam, bank`info
    ensures var open := OpeningCost(s, TreasuryKey(i.treasuryIdx));
            r == if s.lam[i.thread] - (if i.thread == i.payer then open else 0) != 0 then Fail(AccountInUse)
                 else CheckPay(s, i.payer, open + Rent(size))
    ensures r.Done? ==> i.thread != i.payer && Rooted(s, bank.Now(), i)
  {
    ghost var vault, t := TreasuryKey(i.treasuryIdx), bank.Now();
    ghost var b := NoBill(i.payer, i.treasuryIdx, i.thread, 0, i.thread).(toTreasury := OpeningCost(s, vault));
    assert bank.lam[i.thread] == s.lam[i.thread] - (if i.thread == i.payer then OpeningCost(s, vault) else 0);
    if i.thread != i.payer {
      Retarget(s, t, NoBill(i.payer, i.treasuryIdx, i.thread, 0, AllocKey(i.thread, 0))
                       .(toTreasury := OpeningCost(s, vault)), i.thread);
    }
    r := bank.CreateAccount(i.payer, i.thread, Rent(size), size);
    if r.Done? {
      PaidDeposit(s, t, bank.Now(), b, Rent(size));
    }
  }

  /** Thread and vaults are paid in full; the page and the two records are still to come. */
  ghost predicate RootPaid(s: State, t: State, i: Instruction)
    requires i.CreateRootAlloc? && CheckSettings(s.info).Done?
  {
    && t.info == WithVault(s.info, TreasuryKey(i.treasuryIdx))
                   [i.thread := Account(Program, ThreadSize(|i.title|), Blank)]
    && t.now == s.now && Settled(s, t, CreateRootBill(s, i))
  }

  method ChargeRoot(bank: Bank, i: Instruction, bps: nat, ghost s: State) returns (r: Outcome)
    requires i.CreateRootAlloc? && CheckSettings(s.info).Done? && bps == s.info[SettingsKey].data.baseFeeBps <= BPS
    requires Rooted(s, bank.Now(), i) && Rent(ThreadSize(|i.title|)) + Rent(ALLOC_SIZE) <= U64_MAX
    modifies bank`lam
    ensures r == CheckPay(s, i.payer,
                          OpeningCost(s, TreasuryKey(i.treasuryIdx)) + Rent(ThreadSize(|i.title|)) + RootFee(s, i))
    ensures r.Done? ==> RootPaid(s, bank.Now(), i)
  {
    hide Settled, OpeningCost, Rent, Cut;
    var vault, combined := TreasuryKey(i.treasuryIdx), Rent(ThreadSize(|i.title|)) + Rent(ALLOC_SIZE);
    r := CollectBase(bank, combined, bps, i.payer, vault, s,
                     NoBill(i.payer, i.treasuryIdx, i.thread, 0, i.thread)
                       .(toTreasury := OpeningCost(s, vault), deposit := Rent(ThreadSize(|i.title|))));
  }

  lemma RootState(s: State, t: State, u: State, i: Instruction)
    requires i.CreateRootAlloc? && WellFormed(i) && CreateRootCheck(s, i).Done?
    requires CheckSettings(s.info).Done? && RootPaid(s, t, i)
    requires var root := AllocKey(i.thread, 0); var topUp := TopUp(s.lam[root], ALLOC_SIZE);
             && topUp <= t.lam[i.payer] && u.now == t.now
             && u.lam == Pay(t.lam, i.payer, root, topUp)
             && u.info == Rewritten(t.info[root := Created(Alloc(i.thread, 0))], i.thread,
                                    Thread(1, 0, i.payer, i.messageFee, 0, i.title))
    ensures u == CreateRootPost(s, i)
  {
    SettledIsSettle(s, t, CreateRootBill(s, i));
  }

  lemma RootStarts(s: State, i: Instruction)
    requires i.CreateRootAlloc? && Healthy(s) && SettingsKey in s.info && s.info[SettingsKey].data.Settings?
    ensures s.info[SettingsKey].data.baseFeeBps <= BPS
  {
  }

  /** The page's address is untouched so far, and what is left can be judged from the start. */
  lemma RootLeft(s: State, t: State, i: Instruction)
    requires i.CreateRootAlloc? && CheckSettings(s.info).Done? && i.thread.External? && RootPaid(s, t, i)
    requires Fresh(s.info, AllocKey(i.thread, 0))
    ensures var root := AllocKey(i.thread, 0); var topUp := TopUp(s.lam[root], ALLOC_SIZE);
            && t.lam[root] == s.lam[root] && Fresh(t.info, root) && i.payer.External? && i.payer != root
            && (CanPay(t, i.payer, topUp)
                <==> CanPay(s, i.payer,
                    OpeningCost(s, TreasuryKey(i.treasuryIdx)) + Rent(ThreadSize(|i.title|)) + RootFee(s, i) + topUp))
    ensures i.thread in t.info && t.info[i.thread].len == ThreadSize(|i.title|)
  {
  }

  /** `process_create_root_alloc`. */
  method CreateRootAlloc(bank: Bank, i: Instruction) returns (r: Outcome)
    requires i.CreateRootAlloc? && WellFormed(i) && Healthy(bank.Now())
    modifies bank`lam, bank`info
    ensures r == CreateRootCheck(old(bank.Now()), i)
    ensures r.Done? ==> bank.Now() == CreateRootPost(old(bank.Now()), i)
  {
    hide Healthy, CreateRootCheck, RootPrologue, CreateRootPost, Rooted, RootPaid, CheckSettings, Settled,
         OpeningCost, Rent, RootFee, TopUp;
    ghost var s := bank.Now();
    var vault, root := TreasuryKey(i.treasuryIdx), AllocKey(i.thread, 0);
    RootMeans(s, i);
    r := CheckRoot(bank, i);
    if r.Fail? {
      return;
    }
    RootStarts(s, i);
    var settings := bank.info[SettingsKey].data;
    ghost var b := NoBill(i.payer, i.treasuryIdx, i.thread, 0, root);
    SettledNothing(s, b);
    r := OpenTreasury(bank, i.payer, vault, s, b);
    if r.Fail? {
      return;
    }
    var threadSize := ThreadSize(|i.title|);
    r := MakeThread(bank, i, threadSize, s);
    if r.Fail? {
      return;
    }
    if Rent(threadSize) + Rent(ALLOC_SIZE) > U64_MAX {
      return Fail(InvalidAccountData);
    }
    r := ChargeRoot(bank, i, settings.baseFeeBps, s);
    if r.Fail? {
      return;
    }
    ghost var t := bank.Now();
    RootLeft(s, t, i);
    r := bank.CreateWith(i.payer, root, Alloc(i.thread, 0));
    if r.Fail? {
      return;
    }
    bank.Write(i.thread, Thread(1, 0, i.payer, i.messageFee, 0, i.title));
    RootState(s, t, bank.Now(), i);
  }
}
