/** What a place on an access list is worth, from one edit of it to the next. */
module Standing {
  import opened Keys
  import opened Records
  import opened Ledger
  import opened Instructions
  import opened Invariant
  import opened Prices
  import opened Messages
  import opened Runs
  import opened Revenue
  import opened Authority
  import opened Acceptance

  /** The author edits this wallet's entry on this channel. */
  predicate Edits(a: Action, thread: Key, wallet: Key) {
    a.Run? && EditsEntry(a.i) && a.i.access == AccessKey(thread) && a.i.wallet == wallet
  }

  ghost predicate NeverEdited(earlier: History, later: History, thread: Key, wallet: Key)
    requires Continues(earlier, later)
  {
    later == earlier || (!Edits(later.action, thread, wallet) && NeverEdited(earlier, later.before, thread, wallet))
  }

  lemma EntryStep(s: State, a: Action, t: State, thread: Key, wallet: Key)
    requires Inv(s) && Next(s, a, t) && !Edits(a, thread, wallet) && EntryKey(thread, wallet) in s.info
    ensures Data(t.info, EntryKey(thread, wallet)) == Data(s.info, EntryKey(thread, wallet))
    ensures EntryKey(thread, wallet) in t.info
  {
    hide Inv, Next;
    if Changes(s, t, EntryKey(thread, wallet)) {
      MembershipAuthority(s, a, t, thread, wallet);
      MembershipChange(s, a, t, thread, wallet);
    }
  }

  /** Whatever anyone does, an entry keeps its status until the author edits it. */
  lemma {:induction false} StatusStands(earlier: History, later: History, thread: Key, wallet: Key)
    requires Valid(later) && Continues(earlier, later) && NeverEdited(earlier, later, thread, wallet)
    requires EntryKey(thread, wallet) in earlier.state.info
    ensures EntryKey(thread, wallet) in later.state.info
    ensures Data(later.state.info, EntryKey(thread, wallet)) == Data(earlier.state.info, EntryKey(thread, wallet))
  {
    if later != earlier {
      StatusStands(earlier, later.before, thread, wallet);
      ReachableInv(later.before);
      EntryStep(later.before.state, later.action, later.state, thread, wallet);
    }
  }

  /** The last step put `wallet` on the list of `thread` with this status. */
  ghost predicate JustSet(h: History, thread: Key, wallet: Key, status: nat) {
    && h.Then? && h.action.Run? && h.action.i.SetStatus?
    && h.action.i.access == AccessKey(thread) && h.action.i.wallet == wallet && h.action.i.status == status
  }

  /** The status an edit names is the status that stands. */
  lemma SetStands(edited: History, later: History, thread: Key, wallet: Key, status: nat)
    requires Valid(later) && Continues(edited, later) && NeverEdited(edited, later, thread, wallet)
    requires JustSet(edited, thread, wallet, status)
    ensures Data(later.state.info, EntryKey(thread, wallet)) == Entry(thread, wallet, status)
  {
    EarlierIsValid(edited, later);
    ReachableInv(edited.before);
    StatusIsSet(edited.before.state, edited.action.i);
    hide Inv, Post, SetStatusPost, Check, SetStatusCheck, Sane;
    StatusStands(edited, later, thread, wallet);
  }

  /** A posting in order but for the gate: the checks that come before it all pass. */
  predicate ReachesGate(s: State, i: Instruction)
    requires i.FillSlot?
  {
    && |i.body| <= MAX_BODY_LEN && WellAddressed(i)
    && IsThread(s.info, i.thread) && SettingsKey in s.info && ValidShards(i.treasuryIdx, i.authorIdx)
  }

  /** The gate has a price. */
  predicate SellsEntry(info: Accounts, thread: Key) {
    Data(info, AccessKey(thread)).Access? && Data(info, AccessKey(thread)).entryFee > 0
  }

  lemma GateDecides(s: State, i: Instruction)
    requires Inv(s) && i.FillSlot? && WellFormed(i) && !Admits(s.info, i.thread, i.payer)
    ensures FillCheck(s, i).Fail?
    ensures ReachesGate(s, i) ==> FillCheck(s, i) == Fail(AccessDenied)
  {
    PrologueIff(s, i);
    ThreadLoads(s.info, i.thread);
    SettingsLoad(s.info);
    if CheckThread(s.info, i.thread).Done? {
      GateAdmits(s.info, i.thread, i.payer);
    }
    hide Inv, Admits, GateCheck, CheckThread, CheckSettings;
  }

  /** A ban holds: from the edit that bans a wallet until the author edits its entry again, every
      posting by the wallet on that channel is refused, with AccessDenied unless it fails an earlier
      check; even while the gate is switched off, and even for the channel's author. */
  lemma BanHolds(banned: History, later: History, i: Instruction)
    requires Valid(later) && i.FillSlot? && WellFormed(i)
    requires Continues(banned, later) && NeverEdited(banned, later, i.thread, i.payer)
    requires JustSet(banned, i.thread, i.payer, ACCESS_DENIED)
    ensures FillCheck(later.state, i).Fail?
    ensures ReachesGate(later.state, i) ==> FillCheck(later.state, i) == Fail(AccessDenied)
  {
    SetStands(banned, later, i.thread, i.payer, ACCESS_DENIED);
    ReachableInv(later);
    hide Inv, Valid, FillCheck, NeverEdited, JustSet, ReachesGate, Continues, WellFormed, Admits;
    BannedIsNotAdmitted(later.state.info, i.thread, i.payer);
    GateDecides(later.state, i);
  }

  /** Nor can a banned wallet buy its way back in. */
  lemma BanIsNotForSale(banned: History, later: History, i: Instruction)
    requires Valid(later) && i.RequestAccess? && WellFormed(i)
    requires Continues(banned, later) && NeverEdited(banned, later, i.thread, i.payer)
    requires JustSet(banned, i.thread, i.payer, ACCESS_DENIED)
    ensures RequestCheck(later.state, i).Fail?
    ensures SellsEntry(later.state.info, i.thread) ==> RequestCheck(later.state, i) == Fail(AccessDenied)
  {
    SetStands(banned, later, i.thread, i.payer, ACCESS_DENIED);
    ReachableInv(later);
    hide Inv, Valid, RequestCheck, NeverEdited, JustSet, Continues, WellFormed, SellsEntry;
    BannedCannotJoin(later.state, i);
  }

  lemma BannedIsNotAdmitted(info: Accounts, thread: Key, wallet: Key)
    requires Data(info, EntryKey(thread, wallet)) == Entry(thread, wallet, ACCESS_DENIED)
    ensures !Admits(info, thread, wallet)
  {
  }

  lemma BannedCannotJoin(s: State, i: Instruction)
    requires Inv(s) && i.RequestAccess? && WellFormed(i)
    requires Data(s.info, EntryKey(i.thread, i.payer)) == Entry(i.thread, i.payer, ACCESS_DENIED)
    ensures RequestCheck(s, i).Fail?
    ensures SellsEntry(s.info, i.thread) ==> RequestCheck(s, i) == Fail(AccessDenied)
  {
    JoinIff(s, i);
    GateLoads(s.info, i.thread);
    EntryLoads(s.info, i.thread, i.payer);
    ThreadLoads(s.info, i.thread);
    if AccessKey(i.thread) in s.info {
      ParentExists(s.info, AccessKey(i.thread));
    }
    hide Inv, CheckThread, CheckAccess, CheckBoundEntry, OpenBoth, TopUp;
  }

  /** A grant holds: until the author edits the entry again the gate lets the wallet post, and a
      wallet the author exempted owes no message fee. */
  lemma GrantHolds(granted: History, later: History, i: Instruction, status: nat)
    requires Valid(later) && i.FillSlot?
    requires Continues(granted, later) && NeverEdited(granted, later, i.thread, i.payer)
    requires JustSet(granted, i.thread, i.payer, status) && status in {ACCESS_ALLOWED, ACCESS_FEE_EXEMPT}
    ensures Admits(later.state.info, i.thread, i.payer)
    ensures status == ACCESS_FEE_EXEMPT ==> AuthorFee(later.state, i) == 0
  {
    SetStands(granted, later, i.thread, i.payer, status);
    hide Valid, Continues, NeverEdited;
  }

  /** A wallet becomes a member in one of two ways: it pays the gate's price, which is not zero and
      reaches the two vaults in full, or the author of the channel admits it. */
  lemma MembersPayOrAreAdmitted(h: History, thread: Key, wallet: Key)
    requires Valid(h) && h.Then?
    requires var member := Entry(thread, wallet, ACCESS_ALLOWED);
             Data(h.before.state.info, EntryKey(thread, wallet)) != member
             && Data(h.state.info, EntryKey(thread, wallet)) == member
    ensures h.action.Run? && WellFormed(h.action.i)
    ensures var s, i := h.before.state, h.action.i;
            || (i.SetStatus? && i.access == AccessKey(thread) && i.wallet == wallet && i.status == ACCESS_ALLOWED
                && IsAuthor(s.info, thread, i.payer))
            || (i.RequestAccess? && i.thread == thread && i.payer == wallet
                && SellsEntry(s.info, thread)
                && Credited(s, h.state, TreasuryKey(i.treasuryIdx))
                   + Credited(s, h.state, AuthorKey(thread, i.authorIdx)) == Data(s.info, AccessKey(thread)).entryFee)
  {
    ReachableInv(h.before);
    var s, a, t := h.before.state, h.action, h.state;
    MembershipAuthority(s, a, t, thread, wallet);
    MembershipChange(s, a, t, thread, wallet);
    if a.i.RequestAccess? {
      JoinCharge(s, a.i);
    }
    hide Valid, Inv, Sane, WellFormed, RequestPost, RequestCheck, Credited;
  }
}
