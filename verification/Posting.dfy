/** The handlers that write messages, step by step, proved to do what Instructions says. */
module Posting {
  import opened Keys
  import opened Records
  import opened Ledger
  import opened FeeMath
  import opened Instructions
  import opened Chain
  import opened Charges

  // ---- fill_slot ----

  /** The gate, from the cached counter, with the flags the handler keeps. */
  method Gate(bank: Bank, thread: Key, payer: Key) returns (r: Outcome, feeExempt: bool)
    requires CheckThread(bank.info, thread).Done?
    ensures r == GateCheck(bank.info, thread, payer)
    ensures r.Done? ==> MessageFee(bank.info, thread, payer) ==
                          if feeExempt then 0 else bank.info[thread].data.messageFee
  {
    var access, entry := AccessKey(thread), EntryKey(thread, payer);
    var gatingEnabled := false;
    feeExempt := false;
    if !Fresh(bank.info, access) {
      var loaded := CheckAccess(bank.info, access);
      :- loaded;
      var record := bank.info[access].data;
      :- Need(record.thread == thread, ThreadMismatch);
      gatingEnabled := record.enabled && (record.whitelistCount > 0 || record.entryFee > 0);
    }
    var allowed := payer == bank.info[thread].data.author;
    feeExempt := payer == bank.info[thread].data.author;
    if !Fresh(bank.info, entry) {
      var bound := CheckBoundEntry(bank.info, entry, thread, payer);
      :- bound;
      var status := bank.info[entry].data.status;
      if status == ACCESS_DENIED {
        return Fail(AccessDenied), feeExempt;
      }
      if status == ACCESS_ALLOWED || status == ACCESS_FEE_EXEMPT {
        allowed := true;
      }
      if status == ACCESS_FEE_EXEMPT {
        feeExempt := true;
      }
    }
    if gatingEnabled && !allowed {
      return Fail(AccessDenied), feeExempt;
    }
    r := Done;
  }

  /** Creates the message, prices it, checks the poster's cap and collects the fees. */
  method CreateAndCharge(bank: Bank, payer: Key, k: Key, data: Record<Key>, baseBps: nat, fee: nat, cutBps: nat,
                         maxFee: nat, author: Key, treasury: Key, ghost s: State, ghost b: Bill)
    returns (r: Outcome)
    requires Settled(s, bank.Now(), b) && baseBps <= BPS && cutBps <= BPS && fee <= U64_MAX && b.deposit == 0
    requires payer == b.payer && k == b.target && treasury == TreasuryKey(b.treasuryIdx)
    requires author == AuthorKey(b.thread, b.authorIdx)
    requires Fresh(bank.info, k) && bank.lam[k] == s.lam[k] && !IsVault(k)
    requires s.lam[treasury] + b.toTreasury >= Rent(0) && s.lam[author] + b.toAuthor >= Rent(0)
    modifies bank`lam, bank`info
    ensures Cut(fee, cutBps) <= fee
    ensures r == ChargeOutcome(s, payer, b.Total(), TopUp(s.lam[k], Size(data)), Cut(Rent(Size(data)), baseBps),
                               fee, maxFee)
    ensures r.Done? ==>
              && Settled(s, bank.Now(), b.(deposit := TopUp(s.lam[k], Size(data)),
                                           toTreasury := b.toTreasury + Cut(Rent(Size(data)), baseBps)
                                                         + Cut(fee, cutBps),
                                           toAuthor := b.toAuthor + (fee - Cut(fee, cutBps))))
              && bank.info == old(bank.info)[k := Created(data)]
  {
    hide Settled, Cut, CanPay, Rent, Size, TopUp, Fresh;
    CutBounds(fee, cutBps);
    ghost var topUp := TopUp(s.lam[k], Size(data));
    var rent := Rent(Size(data));
    r := CreateOnBill(bank, payer, k, data, s, b);
    if r.Fail? {
      return;
    }
    var baseFee := Cut(rent, baseBps);
    if baseFee + fee > U64_MAX {
      return Fail(InvalidAccountData);
    }
    if baseFee + fee > maxFee {
      return Fail(FeeExceedsMax);
    }
    VaultsKept(s, bank.Now(), b, topUp);
    r := CollectFees(bank, rent, baseBps, fee, cutBps, payer, author, treasury, s, b.(deposit := topUp));
  }

  // ---- the spec of a posting, taken apart ----

  predicate Ready(s: State, i: Instruction)
    requires i.FillSlot?
  {
    FillPrologue(s, i).Done? && CanPay(s, i.payer, OpenBoth(s, i))
  }

  predicate Picks(s: State, i: Instruction, p: Pick)
    requires i.FillSlot?
  {
    Ready(s, i) && PickSlot(s, i) == p
  }

  lemma ReadyMeans(s: State, i: Instruction)
    requires i.FillSlot?
    ensures FillPrologue(s, i).Done? ==>
              && CheckThread(s.info, i.thread).Done? && i.thread in s.info && s.info[i.thread].data.Thread?
              && CheckSettings(s.info).Done? && SettingsKey in s.info && s.info[SettingsKey].data.Settings?
              && |i.candidates| + 2 <= |i.remaining|
    ensures FillPrologue(s, i).Fail? ==> FillCheck(s, i) == FillPrologue(s, i)
    ensures FillPrologue(s, i).Done? && !CanPay(s, i.payer, OpenBoth(s, i)) ==>
              FillCheck(s, i) == Fail(InsufficientFunds)
  {
  }

  lemma PickFails(s: State, i: Instruction)
    requires i.FillSlot?
    ensures Picks(s, i, Full) ==> FillCheck(s, i) == Fail(NoFreeSlot)
    ensures forall e :: Picks(s, i, Rejected(e)) ==> FillCheck(s, i) == Fail(e)
  {
  }

  /** The chosen slot and what is charged for it. */
  lemma PickFills(s: State, i: Instruction, n: nat)
    requires i.FillSlot? && Picks(s, i, Found(n)) && CheckThread(s.info, i.thread).Done? && CheckSettings(s.info).Done?
    requires n < |i.remaining|
    ensures FillCheck(s, i)
              == ChargeOutcome(s, i.payer, OpenBoth(s, i), TopUp(s.lam[i.remaining[n]], ContentSize(|i.body|)),
                               PostFee(s, i), MessageFee(s.info, i.thread, i.payer), i.maxFee)
  {
  }

  lemma FillsState(s: State, t: State, i: Instruction, n: nat)
    requires i.FillSlot? && WellFormed(i) && Picks(s, i, Found(n)) && FillCheck(s, i).Done? && Sane(s, i)
    requires CheckThread(s.info, i.thread).Done? && CheckSettings(s.info).Done? && n < |i.candidates| <= |i.remaining|
    requires var k, fee := i.remaining[n], MessageFee(s.info, i.thread, i.payer);
             var cut := Cut(fee, s.info[SettingsKey].data.authorCutBps);
             && cut <= fee && k != i.payer
             && Settled(s, t, OpeningBill(s, i, k).(deposit := TopUp(s.lam[k], ContentSize(|i.body|)),
                                   toTreasury := OpeningCost(s, TreasuryKey(i.treasuryIdx)) + PostFee(s, i) + cut,
                                   toAuthor := OpeningCost(s, AuthorKey(i.thread, i.authorIdx)) + (fee - cut)))
             && t.now == s.now && t.info == BothVaults(s, i)[k := Created(FilledContent(s, i))]
    ensures t == FillPost(s, i)
  {
    FilledInRange(s, i);
    SettledIsSettle(s, t, FillBill(s, i));
  }

  /** All checks before money moves, and whether the poster's fee is waived. */
  method CheckPosting(bank: Bank, i: Instruction) returns (r: Outcome, feeExempt: bool)
    requires i.FillSlot?
    ensures r == FillPrologue(bank.Now(), i)
    ensures r.Done? ==>
              && CheckThread(bank.info, i.thread).Done?
              && MessageFee(bank.info, i.thread, i.payer)
                 == if feeExempt then 0 else bank.info[i.thread].data.messageFee
  {
    var n := |i.candidates|;
    feeExempt := false;
    if |i.body| > MAX_BODY_LEN {
      return Fail(TextTooLong), false;
    }
    if i.candidates == [] {
      return Fail(InvalidCandidateCount), false;
    }
    r := CheckThread(bank.info, i.thread);
    if r.Fail? {
      return;
    }
    r := CheckSettings(bank.info);
    if r.Fail? {
      return;
    }
    r := CheckShards(i.treasuryIdx, i.authorIdx);
    if r.Fail? {
      return;
    }
    if |i.remaining| < n + 2 {
      return Fail(InvalidCandidateCount), false;
    }
    if i.remaining[n] != AccessKey(i.thread) || i.remaining[n + 1] != EntryKey(i.thread, i.payer) {
      return Fail(InvalidPda), false;
    }
    r, feeExempt := Gate(bank, i.thread, i.payer);
  }

  /** What charging for the chosen slot starts from. */
  lemma FillStarts(s: State, t: State, i: Instruction, n: nat)
    requires i.FillSlot? && WellFormed(i) && Healthy(s) && Picks(s, i, Found(n)) && Opened(s, t, i)
    requires CheckThread(s.info, i.thread).Done? && CheckSettings(s.info).Done? && n < |i.candidates| <= |i.remaining|
    requires i.remaining[n] == ContentKey(i.thread, i.candidates[n].page, i.candidates[n].slot)
    requires Fresh(s.info, i.remaining[n])
    ensures Sane(s, i) && s.info[i.thread].data.messageFee <= U64_MAX
    ensures var r := s.info[SettingsKey].data; r.baseFeeBps <= BPS && r.authorCutBps <= BPS
    ensures var k := i.remaining[n]; var b := OpeningBill(s, i, k);
            && k != i.payer && Settled(s, t, b) && b.Total() == OpenBoth(s, i)
            && Fresh(t.info, k) && t.lam[k] == s.lam[k] && !IsVault(k)
            && s.lam[TreasuryKey(i.treasuryIdx)] + b.toTreasury >= Rent(0)
            && s.lam[AuthorKey(i.thread, i.authorIdx)] + b.toAuthor >= Rent(0)
    ensures t.now == s.now && t.info == BothVaults(s, i)
  {
    OpenedIsSettled(s, t, i, i.remaining[n]);
  }

  lemma FilledContentIs(s: State, i: Instruction, n: nat)
    requires i.FillSlot? && Picks(s, i, Found(n)) && FillCheck(s, i).Done? && n < |i.candidates|
    ensures FilledContent(s, i) == Content(i.candidates[n].page, i.candidates[n].slot, i.thread, i.payer, s.now,
                                           i.replyPage, i.replySlot, i.kind, i.body)
  {
  }

  /** Fills the chosen slot: account, message, fees. */
  method FillFree(bank: Bank, i: Instruction, n: nat, thread: Record<Key>, settings: Record<Key>, feeExempt: bool,
                  ghost s: State)
    returns (r: Outcome)
    requires i.FillSlot? && WellFormed(i) && Healthy(s) && Picks(s, i, Found(n)) && Opened(s, bank.Now(), i)
    requires CheckThread(s.info, i.thread).Done? && thread.Thread? && thread == s.info[i.thread].data
    requires CheckSettings(s.info).Done? && settings.Settings? && settings == s.info[SettingsKey].data
    requires n < |i.candidates| <= |i.remaining|
    requires i.remaining[n] == ContentKey(i.thread, i.candidates[n].page, i.candidates[n].slot)
    requires Fresh(s.info, i.remaining[n])
    requires MessageFee(s.info, i.thread, i.payer) == if feeExempt then 0 else thread.messageFee
    modifies bank`lam, bank`info
    ensures r == FillCheck(s, i)
    ensures r.Done? ==> Sane(s, i) && bank.Now() == FillPost(s, i)
  {
    hide WellFormed, Healthy, Picks, Opened, Sane, Settled, MessageFee, CanPay, FillCheck, FillPost, FilledContent;
    hide CheckThread, CheckSettings, BothVaults, Fresh, Cut, Rent, ChargeOutcome, TopUp, OpeningCost, OpenBoth;
    var c, k := i.candidates[n], i.remaining[n];
    var treasury, author := TreasuryKey(i.treasuryIdx), AuthorKey(i.thread, i.authorIdx);
    var authorFee := if feeExempt then 0 else thread.messageFee;
    var content := Content(c.page, c.slot, i.thread, i.payer, bank.now, i.replyPage, i.replySlot, i.kind, i.body);
    ghost var b := OpeningBill(s, i, k);
    FillStarts(s, bank.Now(), i, n);
    PickFills(s, i, n);
    r := CreateAndCharge(bank, i.payer, k, content, settings.baseFeeBps, authorFee, settings.authorCutBps, i.maxFee,
                         author, treasury, s, b);
    if r.Done? {
      FilledContentIs(s, i, n);
      FillsState(s, bank.Now(), i, n);
    }
  }

  /** The scan from `n` on is the whole scan. */
  predicate ScanAt(s: State, i: Instruction, lastPage: nat, n: nat)
    requires i.FillSlot?
  {
    && Ready(s, i) && n <= |i.candidates|
    && PickSlot(s, i) == PickFrom(s.info, i.thread, lastPage, i.candidates, i.remaining, n)
  }

  lemma ScanStarts(s: State, i: Instruction)
    requires i.FillSlot? && Ready(s, i) && CheckThread(s.info, i.thread).Done?
    ensures ScanAt(s, i, s.info[i.thread].data.lastPage, 0)
  {
  }

  /** One look at candidate `n`, in the order the handler makes its checks. */
  lemma ScanStep(s: State, i: Instruction, lastPage: nat, n: nat)
    requires i.FillSlot? && ScanAt(s, i, lastPage, n) && |i.candidates| <= |i.remaining|
    ensures n == |i.candidates| ==> Picks(s, i, Full)
    ensures n < |i.candidates| ==>
              var c, k := i.candidates[n], i.remaining[n];
              && (c.page > lastPage ==> Picks(s, i, Rejected(InvalidAllocSeq)))
              && (c.page <= lastPage && c.slot >= CONTENT_SLOTS ==> Picks(s, i, Rejected(InvalidSlot)))
              && (c.page <= lastPage && c.slot < CONTENT_SLOTS && k != ContentKey(i.thread, c.page, c.slot) ==>
                    Picks(s, i, Rejected(InvalidPda)))
              && (c.page <= lastPage && c.slot < CONTENT_SLOTS && k == ContentKey(i.thread, c.page, c.slot) ==>
                    if Fresh(s.info, k) then Picks(s, i, Found(n)) else ScanAt(s, i, lastPage, n + 1))
  {
  }

  lemma SameContent(s: State, t: State, i: Instruction, k: Key)
    requires Opened(s, t, i) && k.ContentKey?
    ensures Fresh(t.info, k) <==> Fresh(s.info, k)
  {
  }

  /** `process_fill_slot`: the first free candidate gets the message. */
  method FillSlot(bank: Bank, i: Instruction) returns (r: Outcome)
    requires i.FillSlot? && WellFormed(i) && Healthy(bank.Now())
    modifies bank`lam, bank`info
    ensures r == FillCheck(old(bank.Now()), i)
    ensures r.Done? ==> Sane(old(bank.Now()), i) && bank.Now() == FillPost(old(bank.Now()), i)
  {
    hide Healthy, Picks, Opened, Sane, MessageFee, CanPay, FillCheck, FillPost, FilledContent, FillPrologue, PickSlot,
         ScanAt;
    hide CheckThread, CheckSettings, OpeningCost, OpenBoth, Fresh, GateCheck;
    ghost var s := bank.Now();
    var feeExempt;
    ReadyMeans(s, i);
    r, feeExempt := CheckPosting(bank, i);
    if r.Fail? {
      return;
    }
    var thread, settings := bank.info[i.thread].data, bank.info[SettingsKey].data;
    r := OpenVaults(bank, i);
    if r.Fail? {
      return;
    }
    PickFails(s, i);
    ScanStarts(s, i);
    var filled := false;
    for n := 0 to |i.candidates|
      invariant Opened(s, bank.Now(), i) && ScanAt(s, i, thread.lastPage, n) && !filled
    {
      var c, k := i.candidates[n], i.remaining[n];
      ScanStep(s, i, thread.lastPage, n);
      if c.page > thread.lastPage {
        return Fail(InvalidAllocSeq);
      }
      if c.slot >= CONTENT_SLOTS {
        return Fail(InvalidSlot);
      }
      if k != ContentKey(i.thread, c.page, c.slot) {
        return Fail(InvalidPda);
      }
      SameContent(s, bank.Now(), i, k);
      if !Fresh(bank.info, k) {
        continue;
      }
      r := FillFree(bank, i, n, thread, settings, feeExempt, s);
      if r.Fail? {
        return;
      }
      filled := true;
      break;
    }
    if !filled {
      ScanStep(s, i, thread.lastPage, |i.candidates|);
      return Fail(NoFreeSlot);
    }
    r := Done;
  }
}
