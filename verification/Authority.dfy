/** Who may change what, and into what: every change of a record, in any step, traced to its signer. */
module Authority {
  import opened Keys
  import opened Records
  import opened Ledger
  import opened Instructions
  import opened Invariant
  import opened Frame
  import opened Runs

  /** The account at `k` differs after the step. */
  predicate Changes(s: State, t: State, k: Key) { !SameAt(s.info, t.info, k) }

  /** Instructions alone change derived accounts, and only those they are about. */
  lemma ChangedByInstruction(s: State, a: Action, t: State, k: Key)
    requires Inv(s) && Next(s, a, t) && Changes(s, t, k) && (!k.External? || IsThread(s.info, k))
    ensures a.Run? && WellFormed(a.i) && Check(s, a.i).Done? && k in Touched(s, a.i) && KindFits(a.i, k)
  {
    if a.Run? {
      assert Typed(s.info);
      hide Check, Sane, Typed, Post, Touched, KindFits;
      TouchesOnly(s, a.i);
      assert k in Touched(s, a.i);
      TouchedFits(s, a.i, k);
    }
  }

  predicate EditsEntry(i: Instruction) { i.SetStatus? || i.RemoveStatus? }

  /** The signer of an accepted list edit or gate change is the author of the gate's thread. */
  lemma GateSigner(s: State, i: Instruction)
    requires Inv(s) && (EditsEntry(i) || i.UpdateAccess?) && Check(s, i).Done?
    ensures i.access in s.info && i.access.AccessKey? && s.info[i.access].data.Access?
    ensures s.info[i.access].data.thread == i.access.thread && IsThread(s.info, i.access.thread)
    ensures i.payer == s.info[i.access.thread].data.author
  {
    hide CheckPay, Followers, Funded, Pages;
    assert TypedAt(i.access, s.info[i.access]);
    assert Anchored(s.info, i.access);
  }

  /** A membership changes only by the wallet's own paid join, or by an edit of that entry signed
      by the thread's author. */
  lemma MembershipAuthority(s: State, a: Action, t: State, thread: Key, wallet: Key)
    requires Inv(s) && Next(s, a, t) && Changes(s, t, EntryKey(thread, wallet))
    ensures a.Run?
    ensures || (a.i.RequestAccess? && a.i.thread == thread && a.i.payer == wallet)
            || (EditsEntry(a.i) && a.i.access == AccessKey(thread) && a.i.wallet == wallet
                && IsThread(s.info, thread) && a.i.payer == s.info[thread].data.author)
  {
    ChangedByInstruction(s, a, t, EntryKey(thread, wallet));
    if EditsEntry(a.i) {
      GateSigner(s, a.i);
    }
    hide Inv, Check, Next, KindFits, Changes, Post, Sane, WellFormed;
    EntryNamed(s, a.i, thread, wallet);
  }

  lemma EntryNamed(s: State, i: Instruction, thread: Key, wallet: Key)
    requires (EditsEntry(i) || i.RequestAccess?) && Check(s, i).Done? && EntryKey(thread, wallet) in Touched(s, i)
    requires EditsEntry(i) ==> i.access in s.info && i.access.AccessKey? && s.info[i.access].data.Access?
                               && s.info[i.access].data.thread == i.access.thread
    ensures if i.RequestAccess? then i.thread == thread && i.payer == wallet
            else i.access == AccessKey(thread) && i.wallet == wallet
  {
    hide Check;
  }

  /** The entry an accepted edit leaves behind. */
  lemma StatusIsSet(s: State, i: Instruction)
    requires Inv(s) && i.SetStatus? && WellFormed(i) && SetStatusCheck(s, i).Done?
    ensures i.access.AccessKey?
    ensures Data(SetStatusPost(s, i).info, EntryKey(i.access.thread, i.wallet))
            == Entry(i.access.thread, i.wallet, i.status)
  {
    GateSigner(s, i);
    var e := EntryKey(i.access.thread, i.wallet);
    assert e in s.info ==> TypedAt(e, s.info[e]);
    hide Inv, Pay, CanPay, TopUp, Rent, Adjusted, SetStatusDelta;
  }

  lemma StatusIsRemoved(s: State, i: Instruction)
    requires Inv(s) && i.RemoveStatus? && WellFormed(i) && RemoveStatusCheck(s, i).Done?
    ensures i.access.AccessKey?
    ensures var e := EntryKey(i.access.thread, i.wallet);
            Data(s.info, e) == Entry(i.access.thread, i.wallet, i.status) && e !in RemoveStatusPost(s, i).info
  {
    GateSigner(s, i);
    hide Inv, Pay, Rent, Adjusted;
  }

  lemma StatusIsBought(s: State, i: Instruction)
    requires Inv(s) && i.RequestAccess? && WellFormed(i) && RequestCheck(s, i).Done? && Sane(s, i)
    ensures var e := EntryKey(i.thread, i.payer);
            e !in s.info && Data(RequestPost(s, i).info, e) == Entry(i.thread, i.payer, ACCESS_ALLOWED)
  {
    var e := EntryKey(i.thread, i.payer);
    assert e in s.info ==> TypedAt(e, s.info[e]);
    hide Inv, Settle, CanPay, OpenBoth, TopUp, Rent, Adjusted, Sane;
  }

  /** A paid join makes a member of a wallet the list did not know; the author's edit gives the
      entry the status it names, or takes away an entry that has it. */
  lemma MembershipChange(s: State, a: Action, t: State, thread: Key, wallet: Key)
    requires Inv(s) && Next(s, a, t) && Changes(s, t, EntryKey(thread, wallet))
    ensures a.Run? && (a.i.RequestAccess? || a.i.SetStatus? || a.i.RemoveStatus?)
    ensures var e := EntryKey(thread, wallet);
            && (a.i.RequestAccess? ==> e !in s.info && Data(t.info, e) == Entry(thread, wallet, ACCESS_ALLOWED))
            && (a.i.SetStatus? ==> Data(t.info, e) == Entry(thread, wallet, a.i.status))
            && (a.i.RemoveStatus? ==> Data(s.info, e) == Entry(thread, wallet, a.i.status) && e !in t.info)
  {
    MembershipAuthority(s, a, t, thread, wallet);
    hide Inv, Changes, Sane, WellFormed, SetStatusPost, SetStatusCheck, RequestPost, RequestCheck, RemoveStatusPost,
         RemoveStatusCheck;
    match a.i
    case RequestAccess(_, _, _, _) => StatusIsBought(s, a.i);
    case SetStatus(_, _, _, _) => StatusIsSet(s, a.i);
    case RemoveStatus(_, _, _, _) => StatusIsRemoved(s, a.i);
  }

  /** A gate changes only by its thread's author, or in its counter by a paid join on the thread. */
  lemma GateAuthority(s: State, a: Action, t: State, thread: Key)
    requires Inv(s) && Next(s, a, t) && Changes(s, t, AccessKey(thread))
    ensures a.Run? && IsThread(s.info, thread)
    ensures a.i.payer == s.info[thread].data.author
            || (a.i.RequestAccess? && a.i.thread == thread && JoinCounts(s.info, t.info, thread))
  {
    ChangedByInstruction(s, a, t, AccessKey(thread));
    if EditsEntry(a.i) || a.i.UpdateAccess? {
      GateSigner(s, a.i);
    }
    hide Inv, Check, JoinCounts, Post, Sane, WellFormed, Changes;
    GateNamed(s, a.i, thread);
    if a.i.InitThreadAccess? {
      FirstGateSigner(s, a.i);
    } else if a.i.RequestAccess? {
      JoinMovesCounter(s, a.i, t);
    }
  }

  lemma GateNamed(s: State, i: Instruction, thread: Key)
    requires KindFits(i, AccessKey(thread)) && Check(s, i).Done? && AccessKey(thread) in Touched(s, i)
    ensures if i.InitThreadAccess? || i.RequestAccess? then i.thread == thread else i.access == AccessKey(thread)
  {
    hide Check;
  }

  lemma FirstGateSigner(s: State, i: Instruction)
    requires i.InitThreadAccess? && Check(s, i).Done?
    ensures IsThread(s.info, i.thread) && i.payer == s.info[i.thread].data.author
  {
    hide Rent, CanPay, TopUp, OpeningCost;
  }

  /** Both states hold the gate, and only its counter differs. */
  predicate JoinCounts(a: Accounts, b: Accounts, thread: Key) {
    var was, now := Data(a, AccessKey(thread)), Data(b, AccessKey(thread));
    was.Access? && now.Access? && now.(whitelistCount := was.whitelistCount) == was
  }

  lemma JoinMovesCounter(s: State, i: Instruction, t: State)
    requires i.RequestAccess? && Next(s, Run(i), t)
    ensures IsThread(s.info, i.thread) && JoinCounts(s.info, t.info, i.thread)
  {
    hide CanPay, Settle, OpenBoth, TopUp, Rent, Adjusted, Sane;
  }

  /** A gate is created closed or open as asked, free and empty; a policy change sets the field it
      names; everything else moves the counter alone. */
  lemma GateChange(s: State, a: Action, t: State, thread: Key)
    requires Inv(s) && Next(s, a, t) && Changes(s, t, AccessKey(thread))
    ensures a.Run? && (a.i.InitThreadAccess? || a.i.UpdateAccess? || EditsEntry(a.i) || a.i.RequestAccess?)
    ensures var was, now := Data(s.info, AccessKey(thread)), Data(t.info, AccessKey(thread));
            match a.i
            case InitThreadAccess(p, _, on, _) => AccessKey(thread) !in s.info && now == Access(thread, on, p, 0, 0)
            case UpdateAccess(_, _, SetEnabled(on)) => was.Access? && now == was.(enabled := on)
            case UpdateAccess(_, _, SetEntryFee(fee)) => was.Access? && now == was.(entryFee := fee)
            case _ => JoinCounts(s.info, t.info, thread)
  {
    ChangedByInstruction(s, a, t, AccessKey(thread));
    assert AccessKey(thread) in s.info ==> TypedAt(AccessKey(thread), s.info[AccessKey(thread)]);
    hide Inv, Check, Post, Sane, WellFormed, Changes, JoinCounts;
    GateNamed(s, a.i, thread);
    if a.i.InitThreadAccess? {
      GateIsNew(s, a.i, t);
    } else if a.i.RequestAccess? {
      JoinMovesCounter(s, a.i, t);
    } else if EditsEntry(a.i) {
      EditMovesCounter(s, a.i, t);
    } else {
      PolicyIsSet(s, a.i, t);
    }
  }

  lemma GateIsNew(s: State, i: Instruction, t: State)
    requires Typed(s.info) && i.InitThreadAccess? && Next(s, Run(i), t)
    ensures AccessKey(i.thread) !in s.info
    ensures Data(t.info, AccessKey(i.thread)) == Access(i.thread, i.enabled, i.payer, 0, 0)
  {
    assert AccessKey(i.thread) in s.info ==> TypedAt(AccessKey(i.thread), s.info[AccessKey(i.thread)]);
    hide CanPay, Settle, OpeningCost, TopUp, Rent, Sane, Typed;
  }

  lemma PolicyIsSet(s: State, i: Instruction, t: State)
    requires i.UpdateAccess? && Next(s, Run(i), t)
    ensures var was, now := Data(s.info, i.access), Data(t.info, i.access);
            was.Access? && now == if i.policy.SetEnabled? then was.(enabled := i.policy.on)
                                  else was.(entryFee := i.policy.fee)
  {
  }

  lemma EditMovesCounter(s: State, i: Instruction, t: State)
    requires EditsEntry(i) && i.access.AccessKey? && Next(s, Run(i), t)
    ensures JoinCounts(s.info, t.info, i.access.thread)
  {
    hide CanPay, Pay, TopUp, Rent, Adjusted, Sane, SetStatusDelta;
  }

  /** The settings are created once, by the upgrade authority, and then changed only by the admin
      they name. */
  lemma SettingsAuthority(s: State, a: Action, t: State)
    requires Inv(s) && Next(s, a, t) && Changes(s, t, SettingsKey)
    ensures a.Run?
    ensures if SettingsKey in s.info then a.i.UpdateSettings? && a.i.payer == s.info[SettingsKey].data.admin
            else a.i.InitSettings? && a.i.payer == a.i.upgradeAuthority
    ensures SettingsKey in s.info ==> s.info[SettingsKey].data.Settings?
  {
    ChangedByInstruction(s, a, t, SettingsKey);
    assert SettingsKey in s.info ==> TypedAt(SettingsKey, s.info[SettingsKey]);
    hide CheckPay, Followers, Funded, Pages, Children;
  }

  /** The first settings name the deployer and the given treasury, with every rate at 10%. */
  lemma SettingsBirth(s: State, a: Action, t: State)
    requires Inv(s) && Next(s, a, t) && SettingsKey !in s.info && SettingsKey in t.info
    ensures a.Run? && a.i.InitSettings?
    ensures Data(t.info, SettingsKey) == Settings(a.i.payer, a.i.treasury, 1000, 1000, 1000, 1000)
  {
    SettingsAuthority(s, a, t);
  }

  predicate SameFees(a: Record<Key>, b: Record<Key>) {
    a.Thread? && b.Thread? && a.messageFee == b.messageFee && a.likeFee == b.likeFee
  }

  /** A thread's fees change only by its author. */
  lemma FeeAuthority(s: State, a: Action, t: State, thread: Key)
    requires Inv(s) && Next(s, a, t) && IsThread(s.info, thread) && !SameFees(s.info[thread].data, Data(t.info, thread))
    ensures a.Run? && a.i.UpdateThread? && a.i.thread == thread && a.i.payer == s.info[thread].data.author
  {
    assert TypedAt(thread, s.info[thread]);
    if !SameAt(s.info, t.info, thread) {
      ChangedByInstruction(s, a, t, thread);
      hide Inv, Check, Post, Sane, WellFormed, Changes, SameFees, TypedAt;
      FeesNamed(s, a.i, t);
    }
  }

  /** Of the instructions that touch a thread, growth keeps its fees, and a second creation is
      refused. */
  lemma FeesNamed(s: State, i: Instruction, t: State)
    requires Next(s, Run(i), t) && (i.CreateRootAlloc? || i.PrepareAlloc? || i.UpdateThread?)
    requires IsThread(s.info, i.thread) && s.info[i.thread].owner.Program?
    ensures i.UpdateThread? ==> i.payer == s.info[i.thread].data.author
    ensures !i.CreateRootAlloc?
    ensures i.PrepareAlloc? ==> SameFees(s.info[i.thread].data, Data(t.info, i.thread))
  {
    hide CanPay, TopUp, Rent, Pay, RootFee, Sane, WellFormed, OpeningCost;
  }

  /** A thread appears only through a founding signed by its author, with the title and message fee
      given, no like fee, and its first page. */
  lemma ThreadBirth(s: State, a: Action, t: State, k: Key)
    requires Inv(s) && Next(s, a, t) && !IsThread(s.info, k) && IsThread(t.info, k)
    ensures a.Run? && a.i.CreateRootAlloc? && a.i.thread == k
    ensures t.info[k].data == Thread(1, 0, a.i.payer, a.i.messageFee, 0, a.i.title)
  {
    if a.Run? {
      StepKeepsInv(s, a, t);
      assert TypedAt(k, t.info[k]);
      assert Typed(s.info);
      hide Inv, Check, Post, Sane, WellFormed, Touched, Typed, TypedAt;
      TouchesOnly(s, a.i);
      assert k in Touched(s, a.i) || SameAt(s.info, t.info, k);
      TouchedFits(s, a.i, k);
      FoundingWrites(s, a.i, t, k);
    }
  }

  lemma FoundingWrites(s: State, i: Instruction, t: State, k: Key)
    requires (i.CreateRootAlloc? || i.PrepareAlloc? || i.UpdateThread?) && i.thread == k && k.External?
    requires Next(s, Run(i), t) && !IsThread(s.info, k)
    ensures i.CreateRootAlloc? && Data(t.info, k) == Thread(1, 0, i.payer, i.messageFee, 0, i.title)
  {
    hide CanPay, TopUp, Rent, Pay, Settle, RootFee, Sane, OpeningCost;
  }

  /** A registry changes only by its owner's own follow or unfollow. */
  lemma RegistryAuthority(s: State, a: Action, t: State, owner: Key)
    requires Inv(s) && Next(s, a, t) && Changes(s, t, RegistryKey(owner))
    ensures a.Run? && (a.i.Subscribe? || a.i.Unsubscribe?) && a.i.payer == owner
  {
    ChangedByInstruction(s, a, t, RegistryKey(owner));
    hide Inv, Check, Next, Post, Changes, Sane, WellFormed;
    RegistryNamed(s, a.i, owner);
  }

  lemma RegistryNamed(s: State, i: Instruction, owner: Key)
    requires (i.Subscribe? || i.Unsubscribe?) && Check(s, i).Done? && RegistryKey(owner) in Touched(s, i)
    ensures i.payer == owner
  {
    hide Check;
  }
}
