/** The handler that grows a message in place, step by step. */
module Appending {
  import opened Keys
  import opened Records
  import opened Ledger
  import opened FeeMath
  import opened Instructions
  import opened Chain
  import opened Charges

  method CheckAppending(bank: Bank, i: Instruction) returns (r: Outcome)
    requires i.AppendContent?
    ensures r == AppendPrologue(bank.Now(), i)
  {
    r := CheckOwned(bank.info, i.target);
    if r.Fail? {
      return;
    }
    r := CheckThread(bank.info, i.thread);
    if r.Fail? {
      return;
    }
    r := CheckSettings(bank.info);
    if r.Fail? {
      return;
    }
    r := CheckShards(i.treasuryIdx, i.authorIdx);
    if r.Fail? {
      return;
    }
    r := CheckContent(bank.info, i.target);
    if r.Fail? {
      return;
    }
    var content := bank.info[i.target].data;
    if content.thread != i.thread {
      return Fail(ThreadMismatch);
    }
    if content.author != i.payer {
      return Fail(Unauthorized);
    }
    if bank.now - content.createdAt > APPEND_WINDOW_SECS {
      return Fail(AppendWindowExpired);
    }
    if |content.body| + |i.chunk| > MAX_BODY_LEN {
      return Fail(TextTooLong);
    }
    r := Done;
  }

  /** What a passed prologue gives the rest of the handler. */
  lemma AppendMeans(s: State, i: Instruction)
    requires i.AppendContent?
    ensures AppendPrologue(s, i).Fail? ==> AppendCheck(s, i) == AppendPrologue(s, i)
    ensures AppendPrologue(s, i).Done? ==>
              && CheckSettings(s.info).Done? && SettingsKey in s.info && s.info[SettingsKey].data.Settings?
              && CheckContent(s.info, i.target).Done? && i.target in s.info && s.info[i.target].data.Content?
              && i.target.ContentKey? && s.info[i.target].owner.Program?
              && s.info[i.target].len == ContentSize(|s.info[i.target].data.body|)
              && AppendCheck(s, i) == CheckPay(s, i.payer,
                   TopUp(s.lam[i.target], ContentSize(|s.info[i.target].data.body| + |i.chunk|)) + AppendToVault(s, i))
  {
  }

  /** The account has its new size and its rent; nothing is written yet. */
  ghost predicate Stretched(s: State, t: State, i: Instruction)
    requires i.AppendContent? && i.target in s.info && s.info[i.target].data.Content?
  {
    var size := ContentSize(|s.info[i.target].data.body| + |i.chunk|);
    && t.info == s.info[i.target := s.info[i.target].(len := size)] && t.now == s.now
    && Settled(s, t, NoBill(i.payer, i.treasuryIdx, i.thread, i.authorIdx, i.target)
                        .(deposit := TopUp(s.lam[i.target], size)))
  }

  method Stretch(bank: Bank, i: Instruction, size: nat, ghost s: State) returns (r: Outcome)
    requires i.AppendContent? && i.payer.External? && i.target.ContentKey? && s == bank.Now()
    requires i.target in s.info && s.info[i.target].data.Content?
    requires size == ContentSize(|s.info[i.target].data.body| + |i.chunk|)
    modifies bank`lam, bank`info
    ensures r == CheckPay(s, i.payer, TopUp(s.lam[i.target], size))
    ensures r.Done? ==> Stretched(s, bank.Now(), i)
  {
    ghost var b := NoBill(i.payer, i.treasuryIdx, i.thread, i.authorIdx, i.target);
    SettledNothing(s, b);
    bank.Resize(i.target, size);
    r := bank.EnsureRentExempt(i.payer, i.target, size);
    if r.Done? {
      PaidDeposit(s, s, bank.Now(), b, TopUp(s.lam[i.target], size));
    }
  }

  /** The vault is open and the base fee on the added rent is paid. */
  ghost predicate Charged(s: State, t: State, i: Instruction)
    requires i.AppendContent? && CheckSettings(s.info).Done? && CheckContent(s.info, i.target).Done?
  {
    var size := ContentSize(|s.info[i.target].data.body| + |i.chunk|);
    var resized := s.info[i.target := s.info[i.target].(len := size)];
    && t.info == (if AppendOpens(s, i) then WithVault(resized, TreasuryKey(i.treasuryIdx)) else resized)
    && t.now == s.now
    && Settled(s, t, AppendBill(s, i))
  }

  lemma GrowthStarts(s: State, t: State, i: Instruction)
    requires i.AppendContent? && CheckSettings(s.info).Done? && CheckContent(s.info, i.target).Done?
    requires Stretched(s, t, i)
    ensures var b := AppendBill(s, i); var vault := TreasuryKey(i.treasuryIdx);
            var n := |s.info[i.target].data.body|;
            var delta := SatSub(Rent(ContentSize(n + |i.chunk|)), Rent(ContentSize(n)));
            && Settled(s, t, b.(toTreasury := 0)) && CanPay(s, i.payer, b.deposit) && !IsVault(i.target)
            && (Fresh(t.info, vault) <==> Fresh(s.info, vault)) && b.toTreasury == AppendToVault(s, i)
            && (delta == 0 <==> !AppendOpens(s, i)) && delta <= U64_MAX
            && AppendToVault(s, i)
               == (if delta == 0 then 0 else OpeningCost(s, vault) + Cut(delta, s.info[SettingsKey].data.baseFeeBps))
  {
  }

  method ChargeGrowth(bank: Bank, i: Instruction, delta: nat, bps: nat, ghost s: State) returns (r: Outcome)
    requires i.AppendContent? && Healthy(s) && CheckSettings(s.info).Done? && CheckContent(s.info, i.target).Done?
    requires Stretched(s, bank.Now(), i) && bps == s.info[SettingsKey].data.baseFeeBps <= BPS
    requires var n := |s.info[i.target].data.body|;
             delta == SatSub(Rent(ContentSize(n + |i.chunk|)), Rent(ContentSize(n)))
    modifies bank`lam, bank`info
    ensures r == CheckPay(s, i.payer, AppendBill(s, i).Total())
    ensures r.Done? ==> Charged(s, bank.Now(), i)
  {
    hide Healthy, Settled, Cut, OpeningCost, Rent;
    var vault := TreasuryKey(i.treasuryIdx);
    ghost var b, t := AppendBill(s, i).(toTreasury := 0), bank.Now();
    GrowthStarts(s, t, i);
    if delta == 0 {
      return Done;
    }
    r := OpenTreasury(bank, i.payer, vault, s, b);
    if r.Fail? {
      return;
    }
    r := CollectBase(bank, delta, bps, i.payer, vault, s, b.(toTreasury := OpeningCost(s, vault)));
  }

  lemma AppendedState(s: State, t: State, u: State, i: Instruction)
    requires i.AppendContent? && WellFormed(i) && AppendPrologue(s, i).Done? && AppendCheck(s, i).Done?
    requires CheckSettings(s.info).Done? && CheckContent(s.info, i.target).Done? && Charged(s, t, i)
    requires i.target in t.info && u == t.(info := Rewritten(t.info, i.target, GrownContent(s, i)))
    ensures u == AppendPost(s, i)
  {
    hide Settle, Settled, Rent, CanPay, AppendToVault;
    SettledIsSettle(s, t, AppendBill(s, i));
  }

  lemma ChargedKeeps(s: State, t: State, i: Instruction)
    requires i.AppendContent? && CheckSettings(s.info).Done? && CheckContent(s.info, i.target).Done? && Charged(s, t, i)
    ensures i.target in t.info && t.info[i.target].len == ContentSize(|s.info[i.target].data.body| + |i.chunk|)
  {
  }

  lemma AppendCharges(s: State, i: Instruction)
    requires i.AppendContent? && Healthy(s) && AppendPrologue(s, i).Done?
    requires CheckSettings(s.info).Done? && CheckContent(s.info, i.target).Done?
    ensures AppendBill(s, i).Total()
              == TopUp(s.lam[i.target], ContentSize(|s.info[i.target].data.body| + |i.chunk|)) + AppendToVault(s, i)
    ensures s.info[SettingsKey].data.baseFeeBps <= BPS
    ensures Sane(s, i)
  {
  }

  /** `process_append_content`. */
  method AppendContent(bank: Bank, i: Instruction) returns (r: Outcome)
    requires i.AppendContent? && WellFormed(i) && Healthy(bank.Now())
    modifies bank`lam, bank`info
    ensures r == AppendCheck(old(bank.Now()), i)
    ensures r.Done? ==> Sane(old(bank.Now()), i) && bank.Now() == AppendPost(old(bank.Now()), i)
  {
    hide Healthy, Sane, AppendCheck, AppendPrologue, AppendPost, CheckThread, CheckSettings, CheckContent, Stretched,
         Charged, Settled, Rent, AppendToVault, AppendBill, TopUp;
    ghost var s := bank.Now();
    AppendMeans(s, i);
    r := CheckAppending(bank, i);
    if r.Fail? {
      return;
    }
    AppendCharges(s, i);
    var settings, content := bank.info[SettingsKey].data, bank.info[i.target].data;
    var oldSize := ContentSize(|content.body|);
    content := content.(body := content.body + i.chunk);
    var newSize := ContentSize(|content.body|);
    r := Stretch(bank, i, newSize, s);
    if r.Fail? {
      return;
    }
    var rentDelta := SatSub(Rent(newSize), Rent(oldSize));
    r := ChargeGrowth(bank, i, rentDelta, settings.baseFeeBps, s);
    if r.Fail? {
      return;
    }
    ghost var t := bank.Now();
    ChargedKeeps(s, t, i);
    bank.Write(i.target, content);
    AppendedState(s, t, bank.Now(), i);
  }
}
