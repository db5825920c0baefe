/** The handlers of access lists, step by step. */
module Joining {
  import opened Keys
  import opened Records
  import opened Ledger
  import opened FeeMath
  import opened Instructions
  import opened Chain
  import opened Charges

  // ---- entries and their counter ----

  function EntryCheck(s: State, payer: Key, thread: Key, wallet: Key): Outcome {
    var entry := EntryKey(thread, wallet);
    if Fresh(s.info, entry) then CheckPay(s, payer, TopUp(s.lam[entry], ENTRY_SIZE))
    else CheckBoundEntry(s.info, entry, thread, wallet)
  }

  /** `set_access_entry_status`: creates or rewrites the entry and returns the status before. */
  method SetEntryStatus(bank: Bank, payer: Key, thread: Key, wallet: Key, status: nat)
    returns (r: Outcome, prev: Option<nat>)
    requires payer.External?
    modifies bank`lam, bank`info
    ensures var s, entry := old(bank.Now()), EntryKey(thread, wallet);
            && r == EntryCheck(s, payer, thread, wallet)
            && (r.Done? && Fresh(s.info, entry) ==>
                  && prev == None && bank.lam == Pay(s.lam, payer, entry, TopUp(s.lam[entry], ENTRY_SIZE))
                  && bank.info == s.info[entry := Created(Entry(thread, wallet, status))])
            && (r.Done? && !Fresh(s.info, entry) ==>
                  && prev == Some(s.info[entry].data.status) && bank.lam == s.lam
                  && bank.info == Rewritten(s.info, entry, s.info[entry].data.(status := status)))
  {
    var entry := EntryKey(thread, wallet);
    prev := None;
    if Fresh(bank.info, entry) {
      r := bank.CreateWith(payer, entry, Entry(thread, wallet, status));
    } else {
      r := CheckBoundEntry(bank.info, entry, thread, wallet);
      if r.Done? {
        var record := bank.info[entry].data;
        prev := Some(record.status);
        bank.Write(entry, record.(status := status));
      }
    }
  }

  /** `adjust_whitelist_count`. */
  method AdjustWhitelistCount(bank: Bank, access: Key, delta: int)
    requires CheckAccess(bank.info, access).Done?
    modifies bank`info
    ensures bank.info == WithCount(old(bank.info), access, delta)
  {
    var record := bank.info[access].data;
    var count: int := record.whitelistCount + delta;
    if count < 0 {
      count := 0;
    }
    bank.Write(access, record.(whitelistCount := count % (U32_MAX + 1)));
  }

  /** `close_access_entry`: only an entry in the expected list is closed. */
  method CloseEntry(bank: Bank, recipient: Key, thread: Key, wallet: Key, expected: nat) returns (r: Outcome)
    requires recipient.External? && |bank.lam| <= U64_MAX
    modifies bank`lam, bank`info
    ensures var s, entry := old(bank.Now()), EntryKey(thread, wallet);
            && r == (if Fresh(s.info, entry) then Fail(AccessListMissing)
                     else if CheckBoundEntry(s.info, entry, thread, wallet).Fail?
                     then CheckBoundEntry(s.info, entry, thread, wallet)
                     else Need(s.info[entry].data.status == expected, AccessListMissing))
            && (r.Done? ==> bank.lam == Pay(s.lam, entry, recipient, s.lam[entry]) && bank.info == s.info - {entry})
  {
    var entry := EntryKey(thread, wallet);
    if Fresh(bank.info, entry) {
      return Fail(AccessListMissing);
    }
    r := CheckBoundEntry(bank.info, entry, thread, wallet);
    if r.Fail? {
      return;
    }
    if bank.info[entry].data.status != expected {
      return Fail(AccessListMissing);
    }
    r := bank.CloseProgramAccount(entry, recipient);
  }

  /** `apply_access_entry_status`: the counter follows the transition of the entry. */
  method SetStatus(bank: Bank, i: Instruction) returns (r: Outcome)
    requires i.SetStatus? && WellFormed(i)
    modifies bank`lam, bank`info
    ensures r == SetStatusCheck(old(bank.Now()), i)
    ensures r.Done? ==> bank.Now() == SetStatusPost(old(bank.Now()), i)
  {
    hide Rent, TopUp, CanPay, Pay;
    r := CheckAdminAccess(bank.info, i.payer, i.access);
    if r.Fail? {
      return;
    }
    var thread := bank.info[i.access].data.thread;
    var prev;
    r, prev := SetEntryStatus(bank, i.payer, thread, i.wallet, i.status);
    if r.Fail? {
      return;
    }
    var wasAllowed, nowAllowed := prev == Some(ACCESS_ALLOWED), i.status == ACCESS_ALLOWED;
    var delta := (if nowAllowed then 1 else 0) - (if wasAllowed then 1 else 0);
    if delta != 0 {
      AdjustWhitelistCount(bank, i.access, delta);
    }
  }

  /** `remove_access_entry`. */
  method RemoveStatus(bank: Bank, i: Instruction) returns (r: Outcome)
    requires i.RemoveStatus? && WellFormed(i) && |bank.lam| <= U64_MAX
    modifies bank`lam, bank`info
    ensures r == RemoveStatusCheck(old(bank.Now()), i)
    ensures r.Done? ==> bank.Now() == RemoveStatusPost(old(bank.Now()), i)
  {
    r := CheckAdminAccess(bank.info, i.payer, i.access);
    if r.Fail? {
      return;
    }
    var thread := bank.info[i.access].data.thread;
    r := CloseEntry(bank, i.payer, thread, i.wallet, i.status);
    if r.Done? && i.status == ACCESS_ALLOWED {
      AdjustWhitelistCount(bank, i.access, -1);
    }
  }

  /** The author switches the gate or prices the door. */
  method UpdateAccess(bank: Bank, i: Instruction) returns (r: Outcome)
    requires i.UpdateAccess?
    modifies bank`info
    ensures r == UpdateAccessCheck(old(bank.Now()), i)
    ensures r.Done? ==> bank.Now() == UpdateAccessPost(old(bank.Now()), i)
    ensures r.Done? ==>
              var x, was, now := i.policy, old(bank.info)[i.access].data, bank.info[i.access].data;
              && now.Access? && now.thread == was.thread && now.admin == was.admin
              && now.whitelistCount == was.whitelistCount
              && now.enabled == (if x.SetEnabled? then x.on else was.enabled)
              && now.entryFee == (if x.SetEntryFee? then x.fee else was.entryFee)
  {
    r := CheckAdminAccess(bank.info, i.payer, i.access);
    if r.Done? {
      bank.Write(i.access, ApplyPolicy(bank.info[i.access].data, i.policy));
    }
  }

  // ---- paid joins ----

  method CheckRequest(bank: Bank, i: Instruction) returns (r: Outcome)
    requires i.RequestAccess?
    ensures r == RequestPrologue(bank.Now(), i)
  {
    var access, entry := AccessKey(i.thread), EntryKey(i.thread, i.payer);
    r := CheckAccess(bank.info, access);
    if r.Fail? {
      return;
    }
    if bank.info[access].data.thread != i.thread {
      return Fail(ThreadMismatch);
    }
    if bank.info[access].data.entryFee == 0 {
      return Fail(ZeroEntryFee);
    }
    r := CheckThread(bank.info, i.thread);
    if r.Fail? {
      return;
    }
    if !Fresh(bank.info, entry) {
      r := CheckBoundEntry(bank.info, entry, i.thread, i.payer);
      if r.Fail? {
        return;
      }
      if bank.info[entry].data.status == ACCESS_DENIED {
        return Fail(AccessDenied);
      }
      return Fail(AccessListDuplicate);
    }
    r := CheckSettings(bank.info);
    if r.Fail? {
      return;
    }
    r := CheckShards(i.treasuryIdx, i.authorIdx);
  }

  lemma RequestMeans(s: State, i: Instruction)
    requires i.RequestAccess?
    ensures RequestPrologue(s, i).Fail? ==> RequestCheck(s, i) == RequestPrologue(s, i)
    ensures RequestPrologue(s, i).Done? ==>
              var access, entry := AccessKey(i.thread), EntryKey(i.thread, i.payer);
              && access in s.info && s.info[access].data.Access? && CheckAccess(s.info, access).Done?
              && SettingsKey in s.info && s.info[SettingsKey].data.Settings? && Fresh(s.info, entry)
              && RequestCheck(s, i)
                 == CheckPay(s, i.payer,
                             OpenBoth(s, i) + s.info[access].data.entryFee + TopUp(s.lam[entry], ENTRY_SIZE))
  {
  }

  /** What the paid part of a join starts from. */
  lemma RequestStarts(s: State, t: State, i: Instruction)
    requires i.RequestAccess? && Healthy(s) && RequestPrologue(s, i).Done? && Opened(s, t, i)
    requires SettingsKey in s.info && s.info[SettingsKey].data.Settings?
    requires AccessKey(i.thread) in s.info && s.info[AccessKey(i.thread)].data.Access?
    ensures s.info[SettingsKey].data.entryCutBps <= BPS && s.info[AccessKey(i.thread)].data.entryFee <= U64_MAX
    ensures Sane(s, i)
    ensures var entry := EntryKey(i.thread, i.payer); var b := OpeningBill(s, i, entry);
            && Settled(s, t, b) && b.Total() == OpenBoth(s, i) && t.info == BothVaults(s, i) && t.now == s.now
            && t.lam[TreasuryKey(i.treasuryIdx)] >= Rent(0) && t.lam[AuthorKey(i.thread, i.authorIdx)] >= Rent(0)
  {
    OpenedIsSettled(s, t, i, EntryKey(i.thread, i.payer));
    VaultsFunded(s, t, OpeningBill(s, i, EntryKey(i.thread, i.payer)));
  }

  /** Everything is paid and the entry written; the counter is still to move. */
  ghost predicate Paid(s: State, t: State, i: Instruction)
    requires i.RequestAccess? && SettingsKey in s.info && s.info[SettingsKey].data.Settings?
    requires AccessKey(i.thread) in s.info && s.info[AccessKey(i.thread)].data.Access?
  {
    var entry, fee := EntryKey(i.thread, i.payer), s.info[AccessKey(i.thread)].data.entryFee;
    var cut := Cut(fee, s.info[SettingsKey].data.entryCutBps);
    && cut <= fee && t.now == s.now
    && Settled(s, t, OpeningBill(s, i, entry).(toTreasury := OpeningCost(s, TreasuryKey(i.treasuryIdx)) + cut,
                                               toAuthor := OpeningCost(s, AuthorKey(i.thread, i.authorIdx)) +
                                                           (fee - cut),
                                               deposit := TopUp(s.lam[entry], ENTRY_SIZE)))
    && t.info == BothVaults(s, i)[entry := Created(Entry(i.thread, i.payer, ACCESS_ALLOWED))]
  }

  lemma RequestedState(s: State, t: State, u: State, i: Instruction)
    requires i.RequestAccess? && WellFormed(i) && RequestPrologue(s, i).Done? && RequestCheck(s, i).Done? && Sane(s, i)
    requires SettingsKey in s.info && s.info[SettingsKey].data.Settings?
    requires AccessKey(i.thread) in s.info && s.info[AccessKey(i.thread)].data.Access? && Paid(s, t, i)
    requires AccessKey(i.thread) in t.info && t.info[AccessKey(i.thread)].data.Access?
    requires u == t.(info := WithCount(t.info, AccessKey(i.thread), 1))
    ensures u == RequestPost(s, i)
  {
    SettledIsSettle(s, t, RequestBill(s, i));
    RequestTables(s, i);
  }

  lemma RequestTables(s: State, i: Instruction)
    requires i.RequestAccess? && AccessKey(i.thread) in s.info && s.info[AccessKey(i.thread)].data.Access?
    ensures var a := Created(Entry(i.thread, i.payer, ACCESS_ALLOWED)); var entry := EntryKey(i.thread, i.payer);
            AccessKey(i.thread) in BothVaults(s, i) && BothVaults(s, i)[AccessKey(i.thread)].data.Access?
            && WithCount(BothVaults(s, i)[entry := a], AccessKey(i.thread), 1)
               == WithCount(BothVaults(s, i), AccessKey(i.thread), 1)[entry := a]
  {
  }

  /** Writes the joining entry on the bill. */
  method WriteEntry(bank: Bank, i: Instruction, ghost s: State, ghost b: Bill) returns (r: Outcome)
    requires i.RequestAccess? && Settled(s, bank.Now(), b) && b.deposit == 0
    requires b.payer == i.payer && b.target == EntryKey(i.thread, i.payer) && Fresh(bank.info, b.target)
    modifies bank`lam, bank`info
    ensures r == CheckPay(s, i.payer, b.Total() + TopUp(s.lam[b.target], ENTRY_SIZE))
    ensures r.Done? ==>
              && Settled(s, bank.Now(), b.(deposit := TopUp(s.lam[b.target], ENTRY_SIZE)))
              && bank.info == old(bank.info)[b.target := Created(Entry(i.thread, i.payer, ACCESS_ALLOWED))]
  {
    ghost var t := bank.Now();
    UnpaidTarget(s, t, b);
    var prev;
    r, prev := SetEntryStatus(bank, i.payer, i.thread, i.payer, ACCESS_ALLOWED);
    if r.Done? {
      PaidDeposit(s, t, bank.Now(), b, TopUp(s.lam[b.target], ENTRY_SIZE));
    }
  }

  lemma PaidKeepsAccess(s: State, t: State, i: Instruction)
    requires i.RequestAccess? && SettingsKey in s.info && s.info[SettingsKey].data.Settings?
    requires AccessKey(i.thread) in s.info && s.info[AccessKey(i.thread)].data.Access? && Paid(s, t, i)
    requires CheckAccess(s.info, AccessKey(i.thread)).Done?
    ensures CheckAccess(t.info, AccessKey(i.thread)).Done? && AccessKey(i.thread) in t.info
    ensures t.info[AccessKey(i.thread)].data.Access?
  {
  }

  /** The fee, then the entry. */
  method PayAndJoin(bank: Bank, i: Instruction, entryFee: nat, cutBps: nat, ghost s: State) returns (r: Outcome)
    requires i.RequestAccess? && SettingsKey in s.info && s.info[SettingsKey].data.Settings?
    requires AccessKey(i.thread) in s.info && s.info[AccessKey(i.thread)].data.Access?
    requires entryFee == s.info[AccessKey(i.thread)].data.entryFee <= U64_MAX
    requires cutBps == s.info[SettingsKey].data.entryCutBps <= BPS
    requires Settled(s, bank.Now(), OpeningBill(s, i, EntryKey(i.thread, i.payer))) && bank.now == s.now
    requires bank.info == BothVaults(s, i) && Fresh(s.info, EntryKey(i.thread, i.payer))
    requires bank.lam[TreasuryKey(i.treasuryIdx)] >= Rent(0) && bank.lam[AuthorKey(i.thread, i.authorIdx)] >= Rent(0)
    modifies bank`lam, bank`info
    ensures r == CheckPay(s, i.payer, OpenBoth(s, i) + entryFee + TopUp(s.lam[EntryKey(i.thread, i.payer)], ENTRY_SIZE))
    ensures r.Done? ==> Paid(s, bank.Now(), i)
  {
    hide Settled, OpeningCost, Cut;
    ghost var b := OpeningBill(s, i, EntryKey(i.thread, i.payer));
    ghost var cut := Cut(entryFee, cutBps);
    r := CollectSplit(bank, entryFee, cutBps, i.payer, AuthorKey(i.thread, i.authorIdx), TreasuryKey(i.treasuryIdx),
                      s, b);
    if r.Done? {
      r := WriteEntry(bank, i, s, b.(toTreasury := b.toTreasury + cut, toAuthor := b.toAuthor + (entryFee - cut)));
    }
  }

  /** `process_request_access`. */
  method RequestAccess(bank: Bank, i: Instruction) returns (r: Outcome)
    requires i.RequestAccess? && WellFormed(i) && Healthy(bank.Now())
    modifies bank`lam, bank`info
    ensures r == RequestCheck(old(bank.Now()), i)
    ensures r.Done? ==> Sane(old(bank.Now()), i) && bank.Now() == RequestPost(old(bank.Now()), i)
  {
    hide Healthy, Sane, Opened, RequestCheck, RequestPrologue, RequestPost, CheckThread, CheckSettings, CheckAccess,
         Settled, OpeningCost, Cut, Fresh, OpenBoth, TopUp;
    ghost var s := bank.Now();
    var access, entry := AccessKey(i.thread), EntryKey(i.thread, i.payer);
    RequestMeans(s, i);
    r := CheckRequest(bank, i);
    if r.Fail? {
      return;
    }
    var entryFee, cutBps := bank.info[access].data.entryFee, bank.info[SettingsKey].data.entryCutBps;
    r := OpenVaults(bank, i);
    if r.Fail? {
      return;
    }
    RequestStarts(s, bank.Now(), i);
    r := PayAndJoin(bank, i, entryFee, cutBps, s);
    if r.Fail? {
      return;
    }
    ghost var t := bank.Now();
    PaidKeepsAccess(s, t, i);
    AdjustWhitelistCount(bank, access, 1);
    RequestedState(s, t, bank.Now(), i);
  }

  // ---- init_thread_access ----

  lemma InitMeans(s: State, i: Instruction)
    requires i.InitThreadAccess?
    ensures InitPrologue(s, i).Fail? ==> InitAccessCheck(s, i) == InitPrologue(s, i)
    ensures InitPrologue(s, i).Done? ==>
              && Fresh(s.info, AccessKey(i.thread))
              && InitAccessCheck(s, i) == CheckPay(s, i.payer, InitAccessBill(s, i).Total())
  {
  }

  method CheckInit(bank: Bank, i: Instruction) returns (r: Outcome)
    requires i.InitThreadAccess?
    ensures r == InitPrologue(bank.Now(), i)
  {
    r := CheckThread(bank.info, i.thread);
    if r.Fail? {
      return;
    }
    if bank.info[i.thread].data.author != i.payer {
      return Fail(Unauthorized);
    }
    if !Fresh(bank.info, AccessKey(i.thread)) {
      return Fail(AccountAlreadyInitialized);
    }
    if i.treasuryIdx >= N_TREASURY_SHARDS {
      return Fail(InvalidShard);
    }
    r := Done;
  }

  lemma InitState(s: State, t: State, i: Instruction)
    requires i.InitThreadAccess? && WellFormed(i) && InitAccessCheck(s, i).Done?
    requires Settled(s, t, InitAccessBill(s, i)) && t.now == s.now
    requires t.info == WithVault(s.info, TreasuryKey(i.treasuryIdx))
                         [AccessKey(i.thread) := Created(Access(i.thread, i.enabled, i.payer, 0, 0))]
    ensures t == InitAccessPost(s, i)
  {
    SettledIsSettle(s, t, InitAccessBill(s, i));
  }

  /** `process_init_thread_access`: the price of a gate is the rent it locks up. */
  method InitThreadAccess(bank: Bank, i: Instruction) returns (r: Outcome)
    requires i.InitThreadAccess? && WellFormed(i) && Healthy(bank.Now())
    modifies bank`lam, bank`info
    ensures r == InitAccessCheck(old(bank.Now()), i)
    ensures r.Done? ==> bank.Now() == InitAccessPost(old(bank.Now()), i)
  {
    hide Healthy, InitAccessCheck, InitPrologue, InitAccessPost, Settled, OpeningCost, TopUp;
    ghost var s := bank.Now();
    var access, vault := AccessKey(i.thread), TreasuryKey(i.treasuryIdx);
    InitMeans(s, i);
    r := CheckInit(bank, i);
    if r.Fail? {
      return;
    }
    ghost var b := NoBill(i.payer, i.treasuryIdx, i.thread, 0, access);
    SettledNothing(s, b);
    r := OpenTreasury(bank, i.payer, vault, s, b);
    if r.Fail? {
      return;
    }
    b := b.(toTreasury := OpeningCost(s, vault));
    r := CollectExact(bank, Rent(ACCESS_SIZE), i.payer, vault, s, b);
    if r.Fail? {
      return;
    }
    b := b.(toTreasury := b.toTreasury + Rent(ACCESS_SIZE));
    UnpaidTarget(s, bank.Now(), b);
    r := CreateOnBill(bank, i.payer, access, Access(i.thread, i.enabled, i.payer, 0, 0), s, b);
    if r.Done? {
      InitState(s, bank.Now(), i);
    }
  }
}
