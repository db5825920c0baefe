/** What every instruction checks, in order, and the state it leaves on success. */
module Instructions {
  import opened Keys
  import opened Records
  import opened Ledger
  import opened FeeMath

  datatype Option<T> = None | Some(value: T)

  datatype Slot = Slot(page: nat, slot: nat)

  datatype Setting =
    | SetTreasury(key: Key)
    | SetAdmin(key: Key)
    | SetBaseFee(bps: nat)
    | SetAuthorFeeCut(bps: nat)
    | SetEntryCut(bps: nat)
    | SetLikeCut(bps: nat)

  datatype Policy = SetEnabled(on: bool) | SetEntryFee(fee: nat)

  datatype ThreadFee = SetMessageFee(fee: nat) | SetLikeFee(fee: nat)

  /** One constructor per handler; the three list additions, the three removals and the
      one-field setters share theirs. `payer` has signed; `remaining` and `accounts` are
      the addresses of the trailing accounts. */
  datatype Instruction =
    | InitSettings(payer: Key, upgradeAuthority: Key, treasury: Key)
    | UpdateSettings(payer: Key, setting: Setting)
    | CreateRootAlloc(payer: Key, thread: Key, messageFee: nat, treasuryIdx: nat, title: Bytes)
    | PrepareAlloc(payer: Key, current: Key, thread: Key, page: nat)
    | FillSlot(payer: Key, thread: Key, kind: nat, body: Bytes, candidates: seq<Slot>, remaining: seq<Key>,
               treasuryIdx: nat, authorIdx: nat, replyPage: nat, replySlot: nat, maxFee: nat)
    | AppendContent(payer: Key, target: Key, thread: Key, chunk: Bytes, treasuryIdx: nat, authorIdx: nat)
    | LikeContent(payer: Key, thread: Key, page: nat, slot: nat, treasuryIdx: nat, authorIdx: nat, maxFee: nat)
    | CloseAccount(payer: Key, target: Key, likes: Option<Key>)
    | SweepTreasury(recipient: Key, accounts: seq<Key>, indices: seq<nat>)
    | SweepAuthorFees(recipient: Key, thread: Key, accounts: seq<Key>, indices: seq<nat>)
    | InitThreadAccess(payer: Key, thread: Key, enabled: bool, treasuryIdx: nat)
    | UpdateAccess(payer: Key, access: Key, policy: Policy)
    | SetStatus(payer: Key, access: Key, wallet: Key, status: nat)
    | RemoveStatus(payer: Key, access: Key, wallet: Key, status: nat)
    | RequestAccess(payer: Key, thread: Key, treasuryIdx: nat, authorIdx: nat)
    | UpdateThread(payer: Key, thread: Key, fee: ThreadFee)
    | Subscribe(payer: Key, thread: Key)
    | Unsubscribe(payer: Key, thread: Key)

  /** Arguments have the widths of the wire format, and signers are never the program's
      own derived addresses, which no one can sign for. */
  predicate WellFormed(i: Instruction) {
    match i
    case InitSettings(p, _, _) => p.External?
    case UpdateSettings(p, x) => p.External? && (x.SetTreasury? || x.SetAdmin? || x.bps <= U32_MAX)
    case CreateRootAlloc(p, t, fee, _, _) => p.External? && t.External? && fee <= U64_MAX
    case PrepareAlloc(p, _, _, page) => p.External? && page <= U32_MAX
    case FillSlot(p, _, kind, _, cs, _, _, _, rp, rs, fee) =>
      && p.External? && kind < 0x1_0000 && rp <= U32_MAX && rs < 0x100 && fee <= U64_MAX
      && (forall j :: 0 <= j < |cs| ==> cs[j].page <= U32_MAX && cs[j].slot < 0x100)
    case AppendContent(p, _, _, _, _, _) => p.External?
    case LikeContent(p, _, page, slot, _, _, fee) => p.External? && page <= U32_MAX && slot < 0x100 && fee <= U64_MAX
    case CloseAccount(p, _, _) => p.External?
    case SweepTreasury(_, _, _) => true
    case SweepAuthorFees(r, _, _, _) => r.External?
    case InitThreadAccess(p, _, _, _) => p.External?
    case UpdateAccess(p, _, x) => p.External? && (x.SetEntryFee? ==> x.fee <= U64_MAX)
    case SetStatus(p, _, _, status) => p.External? && status <= ACCESS_FEE_EXEMPT
    case RemoveStatus(p, _, _, status) => p.External? && status <= ACCESS_FEE_EXEMPT
    case RequestAccess(p, _, _, _) => p.External?
    case UpdateThread(p, _, x) => p.External? && x.fee <= U64_MAX
    case Subscribe(p, _) => p.External?
    case Unsubscribe(p, _) => p.External?
  }

  /** The cuts are within 100% and the closed slot is a real slot: facts of every reachable state. */
  predicate Sane(s: State, i: Instruction) {
    && (Data(s.info, SettingsKey).Settings? ==>
          && s.info[SettingsKey].data.authorCutBps <= BPS
          && s.info[SettingsKey].data.likeCutBps <= BPS
          && s.info[SettingsKey].data.entryCutBps <= BPS)
    && (i.CloseAccount? && Data(s.info, i.target).Content? ==> s.info[i.target].data.slot < CONTENT_SLOTS)
  }

  // ---- settings ----

  function InitSettingsCheck(s: State, i: Instruction): Outcome
    requires i.InitSettings?
  {
    var upgrader := Need(i.payer == i.upgradeAuthority, Unauthorized);
    :- upgrader;
    :- Need(Fresh(s.info, SettingsKey), AccountAlreadyInitialized);
    CheckPay(s, i.payer, TopUp(s.lam[SettingsKey], SETTINGS_SIZE))
  }

  function InitSettingsPost(s: State, i: Instruction): State
    requires i.InitSettings? && InitSettingsCheck(s, i).Done?
  {
    State(Pay(s.lam, i.payer, SettingsKey, TopUp(s.lam[SettingsKey], SETTINGS_SIZE)),
          s.info[SettingsKey := Created(Settings(i.payer, i.treasury, 1000, 1000, 1000, 1000))],
          s.now)
  }

  predicate IsBps(x: Setting) { !x.SetTreasury? && !x.SetAdmin? }

  function ApplySetting(r: Record<Key>, x: Setting): Record<Key>
    requires r.Settings?
  {
    match x
    case SetTreasury(k) => r.(treasury := k)
    case SetAdmin(k) => Settings(k, r.treasury, r.baseFeeBps, r.authorCutBps, r.entryCutBps, r.likeCutBps)
    case SetBaseFee(b) => r.(baseFeeBps := b)
    case SetAuthorFeeCut(b) => r.(authorCutBps := b)
    case SetEntryCut(b) => r.(entryCutBps := b)
    case SetLikeCut(b) => r.(likeCutBps := b)
  }

  function UpdateSettingsCheck(s: State, i: Instruction): Outcome
    requires i.UpdateSettings?
  {
    var capped := Need(IsBps(i.setting) ==> i.setting.bps <= MAX_FEE_CUT_BPS, InvalidFeeBps);
    :- capped;
    :- CheckSettings(s.info);
    Need(s.info[SettingsKey].data.admin == i.payer, Unauthorized)
  }

  function Rewritten(info: Accounts, k: Key, data: Record<Key>): Accounts
    requires k in info
  {
    info[k := info[k].(data := data)]
  }

  function UpdateSettingsPost(s: State, i: Instruction): State
    requires i.UpdateSettings? && UpdateSettingsCheck(s, i).Done?
  {
    s.(info := Rewritten(s.info, SettingsKey, ApplySetting(s.info[SettingsKey].data, i.setting)))
  }

  // ---- threads and pages ----

  function RootFee(s: State, i: Instruction): nat
    requires i.CreateRootAlloc? && CheckSettings(s.info).Done?
  {
    Cut(Rent(ThreadSize(|i.title|)) + Rent(ALLOC_SIZE), s.info[SettingsKey].data.baseFeeBps)
  }

  function RootPrologue(s: State, i: Instruction): Outcome
    requires i.CreateRootAlloc?
  {
    if |i.title| > MAX_TITLE_LEN then Fail(TextTooLong)
    else
      :- CheckSettings(s.info);
      :- Need(i.treasuryIdx < N_TREASURY_SHARDS, InvalidShard);
      :- Need(Fresh(s.info, i.thread), AccountAlreadyInitialized);
      Need(Fresh(s.info, AllocKey(i.thread, 0)), AccountAlreadyInitialized)
  }

  function CreateRootCheck(s: State, i: Instruction): Outcome
    requires i.CreateRootAlloc?
  {
    var vault, root := TreasuryKey(i.treasuryIdx), AllocKey(i.thread, 0);
    var open, rent := OpeningCost(s, vault), Rent(ThreadSize(|i.title|));
    :- RootPrologue(s, i);
    :- CheckPay(s, i.payer, open);
    :- Need(Pay(s.lam, i.payer, vault, open)[i.thread] == 0, AccountInUse);
    :- CheckPay(s, i.payer, open + rent);
    :- Need(rent + Rent(ALLOC_SIZE) <= U64_MAX, InvalidAccountData);
    CheckPay(s, i.payer, open + rent + RootFee(s, i) + TopUp(s.lam[root], ALLOC_SIZE))
  }

  function CreateRootBill(s: State, i: Instruction): Bill
    requires i.CreateRootAlloc? && CheckSettings(s.info).Done?
  {
    Bill(i.payer, i.treasuryIdx, OpeningCost(s, TreasuryKey(i.treasuryIdx)) + RootFee(s, i), i.thread, 0, 0,
         i.thread, Rent(ThreadSize(|i.title|)))
  }

  function CreateRootPost(s: State, i: Instruction): State
    requires i.CreateRootAlloc? && WellFormed(i) && CreateRootCheck(s, i).Done?
  {
    var root := AllocKey(i.thread, 0);
    assert i.payer != i.thread;
    var settled := Settle(s.lam, CreateRootBill(s, i));
    SettleMoves(s.lam, CreateRootBill(s, i));
    State(Pay(settled, i.payer, root, TopUp(s.lam[root], ALLOC_SIZE)),
          WithVault(s.info, TreasuryKey(i.treasuryIdx))
            [i.thread := Created(Thread(1, 0, i.payer, i.messageFee, 0, i.title))]
            [root := Created(Alloc(i.thread, 0))],
          s.now)
  }

  function PrepareCheck(s: State, i: Instruction): Outcome
    requires i.PrepareAlloc?
  {
    var loaded := CheckAlloc(s.info, i.current);
    :- loaded;
    :- Need(s.info[i.current].data.thread == i.thread, ThreadMismatch);
    :- Need(s.info[i.current].data.page == i.page, InvalidAllocSeq);
    :- CheckThread(s.info, i.thread);
    :- Need(i.page == s.info[i.thread].data.lastPage, InvalidAllocSeq);
    :- Need(i.page + 1 <= U32_MAX, InvalidAccountData);
    var next := AllocKey(i.thread, i.page + 1);
    :- Need(Fresh(s.info, next), AccountAlreadyInitialized);
    :- CheckPay(s, i.payer, TopUp(s.lam[next], ALLOC_SIZE));
    Need(s.info[i.thread].data.allocCount + 1 <= U32_MAX, InvalidAccountData)
  }

  function PreparePost(s: State, i: Instruction): State
    requires i.PrepareAlloc? && PrepareCheck(s, i).Done?
  {
    var next := AllocKey(i.thread, i.page + 1);
    var t := s.info[i.thread].data;
    State(Pay(s.lam, i.payer, next, TopUp(s.lam[next], ALLOC_SIZE)),
          Rewritten(s.info, i.thread, t.(allocCount := t.allocCount + 1, lastPage := i.page + 1))
            [next := Created(Alloc(i.thread, i.page + 1))],
          s.now)
  }

  function UpdateThreadCheck(s: State, i: Instruction): Outcome
    requires i.UpdateThread?
  {
    var loaded := CheckThread(s.info, i.thread);
    :- loaded;
    Need(i.payer == s.info[i.thread].data.author, Unauthorized)
  }

  function ApplyThreadFee(r: Record<Key>, x: ThreadFee): Record<Key>
    requires r.Thread?
  {
    match x
    case SetMessageFee(f) => r.(messageFee := f)
    case SetLikeFee(f) => r.(likeFee := f)
  }

  function UpdateThreadPost(s: State, i: Instruction): State
    requires i.UpdateThread? && UpdateThreadCheck(s, i).Done?
  {
    s.(info := Rewritten(s.info, i.thread, ApplyThreadFee(s.info[i.thread].data, i.fee)))
  }

  // ---- posting ----

  function CheckShards(treasuryIdx: nat, authorIdx: nat): Outcome {
    var treasury := Need(treasuryIdx < N_TREASURY_SHARDS, InvalidShard);
    :- treasury;
    Need(authorIdx < N_AUTHOR_FEE_SHARDS, InvalidShard)
  }

  predicate HasStatus(info: Accounts, thread: Key, wallet: Key, status: nat) {
    var k := EntryKey(thread, wallet);
    !Fresh(info, k) && info[k].data.Entry? && info[k].data.status == status
  }

  /** Gating as the program decides it, from the cached counter. */
  predicate Gated(info: Accounts, thread: Key) {
    var k := AccessKey(thread);
    && !Fresh(info, k) && info[k].data.Access? && info[k].data.enabled
    && (info[k].data.whitelistCount > 0 || info[k].data.entryFee > 0)
  }

  function GateCheck(info: Accounts, thread: Key, payer: Key): Outcome
    requires CheckThread(info, thread).Done?
  {
    var access, entry := AccessKey(thread), EntryKey(thread, payer);
    :- if Fresh(info, access) then Done else CheckAccess(info, access);
    :- Need(!Fresh(info, access) ==> info[access].data.thread == thread, ThreadMismatch);
    :- if Fresh(info, entry) then Done else CheckBoundEntry(info, entry, thread, payer);
    :- Need(!HasStatus(info, thread, payer, ACCESS_DENIED), AccessDenied);
    Need(Gated(info, thread) ==>
           || payer == info[thread].data.author
           || HasStatus(info, thread, payer, ACCESS_ALLOWED)
           || HasStatus(info, thread, payer, ACCESS_FEE_EXEMPT),
         AccessDenied)
  }

  /** What the poster owes the thread's author. */
  function MessageFee(info: Accounts, thread: Key, payer: Key): nat
    requires CheckThread(info, thread).Done?
  {
    if payer == info[thread].data.author || HasStatus(info, thread, payer, ACCESS_FEE_EXEMPT)
    then 0 else info[thread].data.messageFee
  }

  datatype Pick = Found(at: nat) | Rejected(error: Error) | Full

  function CandidateCheck(c: Slot, account: Key, thread: Key, lastPage: nat): Outcome {
    var paged := Need(c.page <= lastPage, InvalidAllocSeq);
    :- paged;
    :- Need(c.slot < CONTENT_SLOTS, InvalidSlot);
    Need(account == ContentKey(thread, c.page, c.slot), InvalidPda)
  }

  /** Scan the candidates from position `n` on. */
  function PickFrom(info: Accounts, thread: Key, lastPage: nat, cs: seq<Slot>, ks: seq<Key>, n: nat): Pick
    requires n <= |cs| <= |ks|
    decreases |cs| - n
  {
    if n == |cs| then Full
    else
      var check := CandidateCheck(cs[n], ks[n], thread, lastPage);
      if check.Fail? then Rejected(check.error)
      else if Fresh(info, ks[n]) then Found(n)
      else PickFrom(info, thread, lastPage, cs, ks, n + 1)
  }

  function PickSlot(s: State, i: Instruction): Pick
    requires i.FillSlot? && CheckThread(s.info, i.thread).Done? && |i.candidates| <= |i.remaining|
  {
    PickFrom(s.info, i.thread, s.info[i.thread].data.lastPage, i.candidates, i.remaining, 0)
  }

  function FillPrologue(s: State, i: Instruction): Outcome
    requires i.FillSlot?
  {
    var n := |i.candidates|;
    :- Need(|i.body| <= MAX_BODY_LEN, TextTooLong);
    :- Need(i.candidates != [], InvalidCandidateCount);
    :- CheckThread(s.info, i.thread);
    :- CheckSettings(s.info);
    :- CheckShards(i.treasuryIdx, i.authorIdx);
    :- Need(n + 2 <= |i.remaining|, InvalidCandidateCount);
    :- Need(i.remaining[n] == AccessKey(i.thread), InvalidPda);
    :- Need(i.remaining[n + 1] == EntryKey(i.thread, i.payer), InvalidPda);
    GateCheck(s.info, i.thread, i.payer)
  }

  function PostFee(s: State, i: Instruction): nat
    requires i.FillSlot? && CheckSettings(s.info).Done?
  {
    Cut(Rent(ContentSize(|i.body|)), s.info[SettingsKey].data.baseFeeBps)
  }

  function OpenBoth(s: State, i: Instruction): nat
    requires i.FillSlot? || i.LikeContent? || i.RequestAccess?
  {
    OpeningCost(s, TreasuryKey(i.treasuryIdx)) + OpeningCost(s, AuthorKey(i.thread, i.authorIdx))
  }

  /** Vaults opened where needed, `base` to the platform, `fee` split at `bps`, and a deposit. */
  function SplitBill(s: State, i: Instruction, base: nat, fee: nat, bps: nat, target: Key, deposit: nat): (b: Bill)
    requires i.FillSlot? || i.LikeContent? || i.RequestAccess?
    requires bps <= BPS
    ensures b.Total() == OpenBoth(s, i) + base + fee + deposit
    ensures b.toTreasury >= OpeningCost(s, TreasuryKey(i.treasuryIdx)) + base
    ensures b.toAuthor >= OpeningCost(s, AuthorKey(i.thread, i.authorIdx))
  {
    CutBounds(fee, bps);
    Bill(i.payer,
         i.treasuryIdx, OpeningCost(s, TreasuryKey(i.treasuryIdx)) + base + Cut(fee, bps),
         i.thread, i.authorIdx, OpeningCost(s, AuthorKey(i.thread, i.authorIdx)) + (fee - Cut(fee, bps)),
         target, deposit)
  }

  /** The outcome of creating an account of `size` bytes and charging `base` and `fee`, when
      `spent` has already been paid. */
  function ChargeOutcome(s: State, payer: Key, spent: nat, topUp: nat, base: nat, fee: nat, maxFee: nat): Outcome {
    if !CanPay(s, payer, spent + topUp) then Fail(InsufficientFunds)
    else if base + fee > U64_MAX then Fail(InvalidAccountData)
    else if base + fee > maxFee then Fail(FeeExceedsMax)
    else CheckPay(s, payer, spent + topUp + (base + fee))
  }

  function FillCheck(s: State, i: Instruction): Outcome
    requires i.FillSlot?
  {
    var prologue := FillPrologue(s, i);
    :- prologue;
    :- CheckPay(s, i.payer, OpenBoth(s, i));
    match PickSlot(s, i)
    case Rejected(e) => Fail(e)
    case Full => Fail(NoFreeSlot)
    case Found(j) =>
      ChargeOutcome(s, i.payer, OpenBoth(s, i), TopUp(s.lam[i.remaining[j]], ContentSize(|i.body|)),
                    PostFee(s, i), MessageFee(s.info, i.thread, i.payer), i.maxFee)
  }

  lemma {:induction false} PickInRange(info: Accounts, thread: Key, lastPage: nat, cs: seq<Slot>, ks: seq<Key>, n: nat)
    requires n <= |cs| <= |ks|
    ensures var p := PickFrom(info, thread, lastPage, cs, ks, n);
            p.Found? ==>
              && n <= p.at < |cs| && Fresh(info, ks[p.at])
              && ks[p.at] == ContentKey(thread, cs[p.at].page, cs[p.at].slot)
              && cs[p.at].page <= lastPage && cs[p.at].slot < CONTENT_SLOTS
    decreases |cs| - n
  {
    if n < |cs| {
      PickInRange(info, thread, lastPage, cs, ks, n + 1);
    }
  }

  function FilledSlot(s: State, i: Instruction): (j: nat)
    requires i.FillSlot? && FillCheck(s, i).Done?
    ensures j < |i.candidates| <= |i.remaining|
  {
    PickInRange(s.info, i.thread, s.info[i.thread].data.lastPage, i.candidates, i.remaining, 0);
    PickSlot(s, i).at
  }

  /** The chosen candidate is a free slot of an existing page, at its own address. */
  lemma FilledInRange(s: State, i: Instruction)
    requires i.FillSlot? && FillCheck(s, i).Done?
    ensures var j := FilledSlot(s, i); var c := i.candidates[j];
            && Fresh(s.info, i.remaining[j]) && i.remaining[j] == ContentKey(i.thread, c.page, c.slot)
            && c.page <= s.info[i.thread].data.lastPage && c.slot < CONTENT_SLOTS
  {
    PickInRange(s.info, i.thread, s.info[i.thread].data.lastPage, i.candidates, i.remaining, 0);
  }

  function FillBill(s: State, i: Instruction): Bill
    requires i.FillSlot? && FillCheck(s, i).Done? && Sane(s, i)
  {
    var k := i.remaining[FilledSlot(s, i)];
    SplitBill(s, i, PostFee(s, i), MessageFee(s.info, i.thread, i.payer), s.info[SettingsKey].data.authorCutBps,
              k, TopUp(s.lam[k], ContentSize(|i.body|)))
  }

  function FilledContent(s: State, i: Instruction): Record<Key>
    requires i.FillSlot? && FillCheck(s, i).Done?
  {
    var c := i.candidates[FilledSlot(s, i)];
    Content(c.page, c.slot, i.thread, i.payer, s.now, i.replyPage, i.replySlot, i.kind, i.body)
  }

  function FillPost(s: State, i: Instruction): State
    requires i.FillSlot? && WellFormed(i) && FillCheck(s, i).Done? && Sane(s, i)
  {
    FilledInRange(s, i);
    State(Settle(s.lam, FillBill(s, i)),
          WithVault(WithVault(s.info, TreasuryKey(i.treasuryIdx)), AuthorKey(i.thread, i.authorIdx))
            [i.remaining[FilledSlot(s, i)] := Created(FilledContent(s, i))],
          s.now)
  }

  // ---- appending, liking, closing ----

  function AppendFee(s: State, i: Instruction): nat
    requires i.AppendContent? && CheckSettings(s.info).Done? && CheckContent(s.info, i.target).Done?
  {
    var len := |s.info[i.target].data.body|;
    var before, after := Rent(ContentSize(len)), Rent(ContentSize(len + |i.chunk|));
    if before < after then Cut(after - before, s.info[SettingsKey].data.baseFeeBps) else 0
  }

  predicate AppendOpens(s: State, i: Instruction)
    requires i.AppendContent? && CheckContent(s.info, i.target).Done?
  {
    var len := |s.info[i.target].data.body|;
    Rent(ContentSize(len)) < Rent(ContentSize(len + |i.chunk|))
  }

  function AppendToVault(s: State, i: Instruction): nat
    requires i.AppendContent? && CheckSettings(s.info).Done? && CheckContent(s.info, i.target).Done?
  {
    if AppendOpens(s, i) then OpeningCost(s, TreasuryKey(i.treasuryIdx)) + AppendFee(s, i) else 0
  }

  function AppendPrologue(s: State, i: Instruction): Outcome
    requires i.AppendContent?
  {
    var owned := CheckOwned(s.info, i.target);
    :- owned;
    :- CheckThread(s.info, i.thread);
    :- CheckSettings(s.info);
    :- CheckShards(i.treasuryIdx, i.authorIdx);
    :- CheckContent(s.info, i.target);
    var c := s.info[i.target].data;
    :- Need(c.thread == i.thread, ThreadMismatch);
    :- Need(c.author == i.payer, Unauthorized);
    :- Need(s.now - c.createdAt <= APPEND_WINDOW_SECS, AppendWindowExpired);
    Need(|c.body| + |i.chunk| <= MAX_BODY_LEN, TextTooLong)
  }

  function AppendCheck(s: State, i: Instruction): Outcome
    requires i.AppendContent?
  {
    var prologue := AppendPrologue(s, i);
    :- prologue;
    var size := ContentSize(|s.info[i.target].data.body| + |i.chunk|);
    CheckPay(s, i.payer, TopUp(s.lam[i.target], size) + AppendToVault(s, i))
  }

  function AppendBill(s: State, i: Instruction): Bill
    requires i.AppendContent? && CheckSettings(s.info).Done? && CheckContent(s.info, i.target).Done?
  {
    Bill(i.payer, i.treasuryIdx, AppendToVault(s, i), i.thread, i.authorIdx, 0, i.target,
         TopUp(s.lam[i.target], ContentSize(|s.info[i.target].data.body| + |i.chunk|)))
  }

  function GrownContent(s: State, i: Instruction): Record<Key>
    requires i.AppendContent? && CheckContent(s.info, i.target).Done?
  {
    var c := s.info[i.target].data;
    c.(body := c.body + i.chunk)
  }

  function AppendPost(s: State, i: Instruction): State
    requires i.AppendContent? && WellFormed(i) && AppendCheck(s, i).Done?
  {
    var vault := TreasuryKey(i.treasuryIdx);
    State(Settle(s.lam, AppendBill(s, i)),
          (if AppendOpens(s, i) then WithVault(s.info, vault) else s.info)
            [i.target := Created(GrownContent(s, i))],
          s.now)
  }

  /** What a like costs: nothing for the content's own author or without a like fee. */
  function LikeFee(s: State, i: Instruction): nat
    requires i.LikeContent? && CheckThread(s.info, i.thread).Done?
    requires CheckContent(s.info, ContentKey(i.thread, i.page, i.slot)).Done?
  {
    if i.payer == s.info[ContentKey(i.thread, i.page, i.slot)].data.author then 0
    else s.info[i.thread].data.likeFee
  }

  function LikesCost(s: State, k: Key): nat {
    if Fresh(s.info, k) then TopUp(s.lam[k], LIKES_SIZE) else 0
  }

  function LikePrologue(s: State, i: Instruction): Outcome
    requires i.LikeContent?
  {
    if i.slot >= CONTENT_SLOTS then Fail(InvalidSlot)
    else
      :- CheckContent(s.info, ContentKey(i.thread, i.page, i.slot));
      :- CheckThread(s.info, i.thread);
      :- CheckSettings(s.info);
      CheckShards(i.treasuryIdx, i.authorIdx)
  }

  function LikeCheck(s: State, i: Instruction): Outcome
    requires i.LikeContent?
  {
    var likes := LikesKey(i.thread, i.page);
    :- LikePrologue(s, i);
    :- CheckPay(s, i.payer, OpenBoth(s, i) + LikesCost(s, likes));
    :- if Fresh(s.info, likes) then Done else CheckLikes(s.info, likes);
    :- Need(LikeFee(s, i) <= i.maxFee, FeeExceedsMax);
    CheckPay(s, i.payer, OpenBoth(s, i) + LikesCost(s, likes) + LikeFee(s, i))
  }

  function SaturatingInc(n: nat): nat { if n < U32_MAX then n + 1 else U32_MAX }

  function ZeroCounts(): (z: seq<nat>)
    ensures |z| == CONTENT_SLOTS && forall j :: 0 <= j < CONTENT_SLOTS ==> z[j] == 0
  {
    seq(CONTENT_SLOTS, _ => 0)
  }

  function LikedCounts(info: Accounts, k: Key, slot: nat): (c: seq<nat>)
    requires slot < CONTENT_SLOTS && (Fresh(info, k) || CheckLikes(info, k).Done?)
    ensures |c| == CONTENT_SLOTS
  {
    var counts := if Fresh(info, k) then ZeroCounts() else info[k].data.counts;
    counts[slot := SaturatingInc(counts[slot])]
  }

  function LikeBill(s: State, i: Instruction): Bill
    requires i.LikeContent? && LikeCheck(s, i).Done? && Sane(s, i)
  {
    var likes := LikesKey(i.thread, i.page);
    SplitBill(s, i, 0, LikeFee(s, i), s.info[SettingsKey].data.likeCutBps, likes, LikesCost(s, likes))
  }

  function LikedRecord(s: State, i: Instruction): Record<Key>
    requires i.LikeContent? && LikeCheck(s, i).Done?
  {
    var likes := LikesKey(i.thread, i.page);
    Likes(if Fresh(s.info, likes) then i.page else s.info[likes].data.page, LikedCounts(s.info, likes, i.slot))
  }

  function LikePost(s: State, i: Instruction): State
    requires i.LikeContent? && WellFormed(i) && LikeCheck(s, i).Done? && Sane(s, i)
  {
    State(Settle(s.lam, LikeBill(s, i)),
          WithVault(WithVault(s.info, TreasuryKey(i.treasuryIdx)), AuthorKey(i.thread, i.authorIdx))
            [LikesKey(i.thread, i.page) := Created(LikedRecord(s, i))],
          s.now)
  }

  function CloseCheck(s: State, i: Instruction): Outcome
    requires i.CloseAccount?
  {
    var loaded := CheckContent(s.info, i.target);
    :- loaded;
    var c := s.info[i.target].data;
    :- Need(c.author == i.payer, Unauthorized);
    if i.likes.None? then Done
    else
      var k := i.likes.value;
      :- Need(k == LikesKey(c.thread, c.page), InvalidPda);
      if Fresh(s.info, k) then Done
      else
        :- CheckLikes(s.info, k);
        Need(s.info[k].data.page == c.page, InvalidAllocSeq)
  }

  /** The likes account is rewritten only when it is supplied and exists. */
  predicate CloseResets(s: State, i: Instruction)
    requires i.CloseAccount?
  {
    i.likes.Some? && !Fresh(s.info, i.likes.value)
  }

  function ClosePost(s: State, i: Instruction): State
    requires i.CloseAccount? && CloseCheck(s, i).Done?
    requires s.info[i.target].data.slot < CONTENT_SLOTS
  {
    var c := s.info[i.target].data;
    var info :=
      if CloseResets(s, i) then
        var r := s.info[i.likes.value].data;
        Rewritten(s.info, i.likes.value, r.(counts := r.counts[c.slot := 0]))
      else s.info;
    State(Pay(s.lam, i.target, i.payer, s.lam[i.target]), info - {i.target}, s.now)
  }

  // ---- sweeping ----

  /** The vaults one sweep may empty. */
  datatype VaultSet = TreasuryVaults | AuthorVaults(thread: Key)

  function VaultKey(v: VaultSet, idx: nat): Key {
    match v
    case TreasuryVaults => TreasuryKey(idx)
    case AuthorVaults(t) => AuthorKey(t, idx)
  }

  function VaultLimit(v: VaultSet): nat {
    match v
    case TreasuryVaults => N_TREASURY_SHARDS
    case AuthorVaults(_) => N_AUTHOR_FEE_SHARDS
  }

  /** An uninitialised account is skipped before any other check. */
  function CheckSwept(info: Accounts, v: VaultSet, k: Key, idx: nat): Outcome {
    if Fresh(info, k) then Done
    else
      :- CheckOwned(info, k);
      :- Need(idx < VaultLimit(v), InvalidShard);
      Need(k == VaultKey(v, idx), InvalidPda)
  }

  function CheckSweptAll(info: Accounts, v: VaultSet, ks: seq<Key>, js: seq<nat>, n: nat): Outcome
    requires n <= |ks| == |js|
  {
    if n == 0 then Done
    else
      :- CheckSweptAll(info, v, ks, js, n - 1);
      CheckSwept(info, v, ks[n - 1], js[n - 1])
  }

  function CheckSweepList(info: Accounts, v: VaultSet, ks: seq<Key>, js: seq<nat>): Outcome {
    var listed := Need(ks != [], NothingToSweep);
    :- listed;
    :- Need(|ks| == |js|, InvalidShard);
    CheckSweptAll(info, v, ks, js, |ks|)
  }

  /** One vault gives what it holds above the rent of an empty account to the recipient. */
  function DrainOne(lam: Lamports, info: Accounts, k: Key, to: Key): Lamports {
    if Fresh(info, k) || lam[k] <= Rent(0) then lam
    else Pay(lam, k, to, lam[k] - Rent(0))
  }

  function Drain(lam: Lamports, info: Accounts, ks: seq<Key>, to: Key): Lamports {
    if ks == [] then lam
    else DrainOne(Drain(lam, info, ks[..|ks| - 1], to), info, ks[|ks| - 1], to)
  }

  function SweepCheck(s: State, i: Instruction): Outcome
    requires i.SweepTreasury? || i.SweepAuthorFees?
  {
    if i.SweepTreasury? then
      :- CheckSettings(s.info);
      :- Need(i.recipient == s.info[SettingsKey].data.treasury, InvalidTreasury);
      CheckSweepList(s.info, TreasuryVaults, i.accounts, i.indices)
    else
      :- CheckThread(s.info, i.thread);
      :- Need(i.recipient == s.info[i.thread].data.author, InvalidAuthor);
      CheckSweepList(s.info, AuthorVaults(i.thread), i.accounts, i.indices)
  }

  function SweepPost(s: State, i: Instruction): State
    requires i.SweepTreasury? || i.SweepAuthorFees?
  {
    s.(lam := Drain(s.lam, s.info, i.accounts, i.recipient))
  }

  // ---- access control ----

  function InitPrologue(s: State, i: Instruction): Outcome
    requires i.InitThreadAccess?
  {
    var loaded := CheckThread(s.info, i.thread);
    :- loaded;
    :- Need(s.info[i.thread].data.author == i.payer, Unauthorized);
    :- Need(Fresh(s.info, AccessKey(i.thread)), AccountAlreadyInitialized);
    Need(i.treasuryIdx < N_TREASURY_SHARDS, InvalidShard)
  }

  function InitAccessCheck(s: State, i: Instruction): Outcome
    requires i.InitThreadAccess?
  {
    var access, vault := AccessKey(i.thread), TreasuryKey(i.treasuryIdx);
    :- InitPrologue(s, i);
    CheckPay(s, i.payer, OpeningCost(s, vault) + Rent(ACCESS_SIZE) + TopUp(s.lam[access], ACCESS_SIZE))
  }

  function InitAccessBill(s: State, i: Instruction): Bill
    requires i.InitThreadAccess?
  {
    var access := AccessKey(i.thread);
    Bill(i.payer, i.treasuryIdx, OpeningCost(s, TreasuryKey(i.treasuryIdx)) + Rent(ACCESS_SIZE), i.thread, 0, 0,
         access, TopUp(s.lam[access], ACCESS_SIZE))
  }

  function InitAccessPost(s: State, i: Instruction): State
    requires i.InitThreadAccess? && WellFormed(i) && InitAccessCheck(s, i).Done?
  {
    State(Settle(s.lam, InitAccessBill(s, i)),
          WithVault(s.info, TreasuryKey(i.treasuryIdx))
            [AccessKey(i.thread) := Created(Access(i.thread, i.enabled, i.payer, 0, 0))],
          s.now)
  }

  function UpdateAccessCheck(s: State, i: Instruction): Outcome
    requires i.UpdateAccess?
  {
    CheckAdminAccess(s.info, i.payer, i.access)
  }

  function ApplyPolicy(r: Record<Key>, x: Policy): Record<Key>
    requires r.Access?
  {
    match x
    case SetEnabled(on) => r.(enabled := on)
    case SetEntryFee(fee) => r.(entryFee := fee)
  }

  function UpdateAccessPost(s: State, i: Instruction): State
    requires i.UpdateAccess? && UpdateAccessCheck(s, i).Done?
  {
    s.(info := Rewritten(s.info, i.access, ApplyPolicy(s.info[i.access].data, i.policy)))
  }

  /** `adjust_whitelist_count`: signed add, clamp at zero, truncate to 32 bits. */
  function Adjusted(count: nat, delta: int): nat {
    (if count + delta < 0 then 0 else count + delta) % (U32_MAX + 1)
  }

  function WithCount(info: Accounts, access: Key, delta: int): Accounts
    requires access in info && info[access].data.Access?
  {
    var r := info[access].data;
    Rewritten(info, access, r.(whitelistCount := Adjusted(r.whitelistCount, delta)))
  }

  function SetStatusCheck(s: State, i: Instruction): Outcome
    requires i.SetStatus?
  {
    var admin := CheckAdminAccess(s.info, i.payer, i.access);
    :- admin;
    var thread := s.info[i.access].data.thread;
    var entry := EntryKey(thread, i.wallet);
    if Fresh(s.info, entry) then CheckPay(s, i.payer, TopUp(s.lam[entry], ENTRY_SIZE))
    else CheckBoundEntry(s.info, entry, thread, i.wallet)
  }

  function SetStatusDelta(s: State, i: Instruction): int
    requires i.SetStatus? && SetStatusCheck(s, i).Done?
  {
    var was := HasStatus(s.info, s.info[i.access].data.thread, i.wallet, ACCESS_ALLOWED);
    (if i.status == ACCESS_ALLOWED then 1 else 0) - (if was then 1 else 0)
  }

  function SetStatusPost(s: State, i: Instruction): State
    requires i.SetStatus? && SetStatusCheck(s, i).Done?
  {
    var thread := s.info[i.access].data.thread;
    var entry := EntryKey(thread, i.wallet);
    var delta := SetStatusDelta(s, i);
    var counted := if delta == 0 then s.info else WithCount(s.info, i.access, delta);
    if Fresh(s.info, entry) then
      State(Pay(s.lam, i.payer, entry, TopUp(s.lam[entry], ENTRY_SIZE)),
            counted[entry := Created(Entry(thread, i.wallet, i.status))], s.now)
    else
      s.(info := Rewritten(counted, entry, s.info[entry].data.(status := i.status)))
  }

  function RemoveStatusCheck(s: State, i: Instruction): Outcome
    requires i.RemoveStatus?
  {
    var admin := CheckAdminAccess(s.info, i.payer, i.access);
    :- admin;
    var thread := s.info[i.access].data.thread;
    var entry := EntryKey(thread, i.wallet);
    :- Need(!Fresh(s.info, entry), AccessListMissing);
    :- CheckBoundEntry(s.info, entry, thread, i.wallet);
    Need(s.info[entry].data.status == i.status, AccessListMissing)
  }

  function RemoveStatusPost(s: State, i: Instruction): State
    requires i.RemoveStatus? && RemoveStatusCheck(s, i).Done?
  {
    var entry := EntryKey(s.info[i.access].data.thread, i.wallet);
    var counted := if i.status == ACCESS_ALLOWED then WithCount(s.info, i.access, -1) else s.info;
    State(Pay(s.lam, entry, i.payer, s.lam[entry]), counted - {entry}, s.now)
  }

  function RequestPrologue(s: State, i: Instruction): Outcome
    requires i.RequestAccess?
  {
    var access, entry := AccessKey(i.thread), EntryKey(i.thread, i.payer);
    :- CheckAccess(s.info, access);
    :- Need(s.info[access].data.thread == i.thread, ThreadMismatch);
    :- Need(s.info[access].data.entryFee != 0, ZeroEntryFee);
    :- CheckThread(s.info, i.thread);
    :- if Fresh(s.info, entry) then Done else CheckBoundEntry(s.info, entry, i.thread, i.payer);
    :- Need(!HasStatus(s.info, i.thread, i.payer, ACCESS_DENIED), AccessDenied);
    :- Need(Fresh(s.info, entry), AccessListDuplicate);
    :- CheckSettings(s.info);
    CheckShards(i.treasuryIdx, i.authorIdx)
  }

  function RequestCheck(s: State, i: Instruction): Outcome
    requires i.RequestAccess?
  {
    var prologue := RequestPrologue(s, i);
    :- prologue;
    CheckPay(s, i.payer, OpenBoth(s, i) + s.info[AccessKey(i.thread)].data.entryFee
                         + TopUp(s.lam[EntryKey(i.thread, i.payer)], ENTRY_SIZE))
  }

  function RequestBill(s: State, i: Instruction): Bill
    requires i.RequestAccess? && RequestCheck(s, i).Done? && Sane(s, i)
  {
    var entry := EntryKey(i.thread, i.payer);
    SplitBill(s, i, 0, s.info[AccessKey(i.thread)].data.entryFee, s.info[SettingsKey].data.entryCutBps,
              entry, TopUp(s.lam[entry], ENTRY_SIZE))
  }

  function RequestPost(s: State, i: Instruction): State
    requires i.RequestAccess? && WellFormed(i) && RequestCheck(s, i).Done? && Sane(s, i)
  {
    var vaulted := WithVault(WithVault(s.info, TreasuryKey(i.treasuryIdx)), AuthorKey(i.thread, i.authorIdx));
    State(Settle(s.lam, RequestBill(s, i)),
          WithCount(vaulted, AccessKey(i.thread), 1)
            [EntryKey(i.thread, i.payer) := Created(Entry(i.thread, i.payer, ACCESS_ALLOWED))],
          s.now)
  }

  // ---- following ----

  function Channels(info: Accounts, registry: Key): seq<Key> {
    if !Fresh(info, registry) && info[registry].data.Registry? then info[registry].data.channels else []
  }

  function FollowerCost(s: State, k: Key): nat {
    if Fresh(s.info, k) then TopUp(s.lam[k], FOLLOWER_SIZE) else 0
  }

  function RegistryCheck(s: State, owner: Key): Outcome {
    var registry := RegistryKey(owner);
    if Fresh(s.info, registry) then CheckPay(s, owner, TopUp(s.lam[registry], RegistrySize(0)))
    else CheckRegistry(s.info, registry, owner)
  }

  function SubscribeCheck(s: State, i: Instruction): Outcome
    requires i.Subscribe?
  {
    var registry, j := RegistryKey(i.payer), FollowerShardIndex(i.payer);
    var follower := FollowerKey(i.thread, j);
    :- CheckThread(s.info, i.thread);
    :- RegistryCheck(s, i.payer);
    var channels := Channels(s.info, registry);
    :- Need(i.thread !in channels, AlreadyFollowing);
    :- Need(|channels| < MAX_FOLLOWS, FollowListFull);
    var topUp := TopUp(s.lam[registry], RegistrySize(|channels| + 1));
    :- CheckPay(s, i.payer, topUp + FollowerCost(s, follower));
    :- if Fresh(s.info, follower) then Done else CheckBoundFollower(s.info, follower, i.thread, j);
    Need(!Fresh(s.info, follower) ==> s.info[follower].data.count + 1 <= U64_MAX, InvalidAccountData)
  }

  function GrownRegistry(s: State, i: Instruction): Record<Key>
    requires i.Subscribe?
  {
    Registry(i.payer, Channels(s.info, RegistryKey(i.payer)) + [i.thread])
  }

  function RaisedFollower(s: State, i: Instruction): Record<Key>
    requires i.Subscribe? && SubscribeCheck(s, i).Done?
  {
    var j := FollowerShardIndex(i.payer);
    var k := FollowerKey(i.thread, j);
    Follower(i.thread, j, if Fresh(s.info, k) then 1 else s.info[k].data.count + 1)
  }

  function SubscribePost(s: State, i: Instruction): State
    requires i.Subscribe? && WellFormed(i) && SubscribeCheck(s, i).Done?
  {
    var registry, follower := RegistryKey(i.payer), FollowerKey(i.thread, FollowerShardIndex(i.payer));
    var grown := GrownRegistry(s, i);
    var l1 := Pay(s.lam, i.payer, registry, TopUp(s.lam[registry], Size(grown)));
    State(Pay(l1, i.payer, follower, FollowerCost(s, follower)),
          s.info[registry := Created(grown)][follower := Created(RaisedFollower(s, i))],
          s.now)
  }

  /** Position of the first occurrence, or the length. */
  function IndexOf(xs: seq<Key>, x: Key): (n: nat)
    ensures n <= |xs| && x !in xs[..n] && (n < |xs| ==> xs[n] == x) && (n < |xs| <==> x in xs)
  {
    if xs == [] then 0
    else if xs[0] == x then 0
    else
      var n := IndexOf(xs[1..], x);
      assert xs[..n + 1] == [xs[0]] + xs[1..][..n];
      n + 1
  }

  /** `Vec::swap_remove`: the last element takes the place of the removed one. */
  function SwapRemove(xs: seq<Key>, n: nat): seq<Key>
    requires n < |xs|
  {
    xs[n := xs[|xs| - 1]][..|xs| - 1]
  }

  function UnfollowPrologue(s: State, i: Instruction): Outcome
    requires i.Unsubscribe?
  {
    var registry := RegistryKey(i.payer);
    :- CheckOwned(s.info, registry);
    :- CheckThread(s.info, i.thread);
    CheckRegistry(s.info, registry, i.payer)
  }

  function UnsubscribeCheck(s: State, i: Instruction): Outcome
    requires i.Unsubscribe?
  {
    var j := FollowerShardIndex(i.payer);
    var follower := FollowerKey(i.thread, j);
    :- UnfollowPrologue(s, i);
    :- Need(i.thread in s.info[RegistryKey(i.payer)].data.channels, NotFollowing);
    :- Need(!Fresh(s.info, follower), NotFollowing);
    CheckBoundFollower(s.info, follower, i.thread, j)
  }

  function UnsubscribePost(s: State, i: Instruction): State
    requires i.Unsubscribe? && UnsubscribeCheck(s, i).Done?
  {
    var registry, j := RegistryKey(i.payer), FollowerShardIndex(i.payer);
    var follower := FollowerKey(i.thread, j);
    var followed := s.info[registry].data.channels;
    var channels := SwapRemove(followed, IndexOf(followed, i.thread));
    var keep := Rent(RegistrySize(|channels|));
    var count := s.info[follower].data.count;
    State(if s.lam[registry] > keep then Pay(s.lam, registry, i.payer, s.lam[registry] - keep) else s.lam,
          Rewritten(s.info[registry := Created(Registry(i.payer, channels))], follower,
                    Follower(i.thread, j, if count == 0 then 0 else count - 1)),
          s.now)
  }

  // ---- dispatch ----

  function Check(s: State, i: Instruction): Outcome {
    match i
    case InitSettings(_, _, _) => InitSettingsCheck(s, i)
    case UpdateSettings(_, _) => UpdateSettingsCheck(s, i)
    case CreateRootAlloc(_, _, _, _, _) => CreateRootCheck(s, i)
    case PrepareAlloc(_, _, _, _) => PrepareCheck(s, i)
    case FillSlot(_, _, _, _, _, _, _, _, _, _, _) => FillCheck(s, i)
    case AppendContent(_, _, _, _, _, _) => AppendCheck(s, i)
    case LikeContent(_, _, _, _, _, _, _) => LikeCheck(s, i)
    case CloseAccount(_, _, _) => CloseCheck(s, i)
    case SweepTreasury(_, _, _) => SweepCheck(s, i)
    case SweepAuthorFees(_, _, _, _) => SweepCheck(s, i)
    case InitThreadAccess(_, _, _, _) => InitAccessCheck(s, i)
    case UpdateAccess(_, _, _) => UpdateAccessCheck(s, i)
    case SetStatus(_, _, _, _) => SetStatusCheck(s, i)
    case RemoveStatus(_, _, _, _) => RemoveStatusCheck(s, i)
    case RequestAccess(_, _, _, _) => RequestCheck(s, i)
    case UpdateThread(_, _, _) => UpdateThreadCheck(s, i)
    case Subscribe(_, _) => SubscribeCheck(s, i)
    case Unsubscribe(_, _) => UnsubscribeCheck(s, i)
  }

  function Post(s: State, i: Instruction): State
    requires WellFormed(i) && Check(s, i).Done? && Sane(s, i)
  {
    match i
    case InitSettings(_, _, _) => InitSettingsPost(s, i)
    case UpdateSettings(_, _) => UpdateSettingsPost(s, i)
    case CreateRootAlloc(_, _, _, _, _) => CreateRootPost(s, i)
    case PrepareAlloc(_, _, _, _) => PreparePost(s, i)
    case FillSlot(_, _, _, _, _, _, _, _, _, _, _) => FillPost(s, i)
    case AppendContent(_, _, _, _, _, _) => AppendPost(s, i)
    case LikeContent(_, _, _, _, _, _, _) => LikePost(s, i)
    case CloseAccount(_, _, _) => ClosePost(s, i)
    case SweepTreasury(_, _, _) => SweepPost(s, i)
    case SweepAuthorFees(_, _, _, _) => SweepPost(s, i)
    case InitThreadAccess(_, _, _, _) => InitAccessPost(s, i)
    case UpdateAccess(_, _, _) => UpdateAccessPost(s, i)
    case SetStatus(_, _, _, _) => SetStatusPost(s, i)
    case RemoveStatus(_, _, _, _) => RemoveStatusPost(s, i)
    case RequestAccess(_, _, _, _) => RequestPost(s, i)
    case UpdateThread(_, _, _) => UpdateThreadPost(s, i)
    case Subscribe(_, _) => SubscribePost(s, i)
    case Unsubscribe(_, _) => UnsubscribePost(s, i)
  }
}
