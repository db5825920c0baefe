/** Which accounts each instruction may touch. */
module Frame {
  import opened Keys
  import opened Ledger
  import opened Instructions
  import opened Invariant

  /** The accounts whose owner, size or data an instruction may change. */
  function Touched(s: State, i: Instruction): set<Key>
    requires Check(s, i).Done?
  {
    match i
    case InitSettings(_, _, _) => {SettingsKey}
    case UpdateSettings(_, _) => {SettingsKey}
    case CreateRootAlloc(_, t, _, j, _) => {TreasuryKey(j), t, AllocKey(t, 0)}
    case PrepareAlloc(_, _, t, p) => {t, AllocKey(t, p + 1)}
    case FillSlot(_, t, _, _, _, ks, j, m, _, _, _) => {TreasuryKey(j), AuthorKey(t, m), ks[FilledSlot(s, i)]}
    case AppendContent(_, k, _, _, j, _) => {TreasuryKey(j), k}
    case LikeContent(_, t, p, _, j, m, _) => {TreasuryKey(j), AuthorKey(t, m), LikesKey(t, p)}
    case CloseAccount(_, k, likes) => if likes.Some? then {k, likes.value} else {k}
    case SweepTreasury(_, _, _) => {}
    case SweepAuthorFees(_, _, _, _) => {}
    case InitThreadAccess(_, t, _, j) => {TreasuryKey(j), AccessKey(t)}
    case UpdateAccess(_, a, _) => {a}
    case SetStatus(_, a, w, _) => {a, EntryKey(s.info[a].data.thread, w)}
    case RemoveStatus(_, a, w, _) => {a, EntryKey(s.info[a].data.thread, w)}
    case RequestAccess(p, t, j, m) => {TreasuryKey(j), AuthorKey(t, m), AccessKey(t), EntryKey(t, p)}
    case UpdateThread(_, t, _) => {t}
    case Subscribe(p, t) => {RegistryKey(p), FollowerKey(t, FollowerShardIndex(p))}
    case Unsubscribe(p, t) => {RegistryKey(p), FollowerKey(t, FollowerShardIndex(p))}
  }

  predicate SameAt(a: Accounts, b: Accounts, k: Key) {
    (k in a <==> k in b) && (k in a ==> a[k] == b[k])
  }

  ghost predicate SameOutside(a: Accounts, b: Accounts, touched: set<Key>) {
    forall k :: k !in touched ==> SameAt(a, b, k)
  }

  lemma FramePosting(s: State, i: Instruction)
    requires i.FillSlot? || i.AppendContent? || i.LikeContent? || i.CloseAccount?
    requires WellFormed(i) && Check(s, i).Done? && Sane(s, i)
    ensures SameOutside(s.info, Post(s, i).info, Touched(s, i))
  {
  }

  lemma FrameLists(s: State, i: Instruction)
    requires i.SetStatus? || i.RemoveStatus?
    requires WellFormed(i) && Check(s, i).Done? && Sane(s, i)
    ensures SameOutside(s.info, Post(s, i).info, Touched(s, i))
  {
    hide Rent, TopUp, CanPay, Pay;
  }

  lemma FrameAccess(s: State, i: Instruction)
    requires i.InitThreadAccess? || i.UpdateAccess? || i.RequestAccess?
    requires WellFormed(i) && Check(s, i).Done? && Sane(s, i)
    ensures SameOutside(s.info, Post(s, i).info, Touched(s, i))
  {
    hide Rent, TopUp, CanPay, Settle;
  }

  lemma FrameFollow(s: State, i: Instruction)
    requires i.Subscribe? || i.Unsubscribe?
    requires WellFormed(i) && Check(s, i).Done? && Sane(s, i)
    ensures SameOutside(s.info, Post(s, i).info, Touched(s, i))
  {
  }

  lemma FrameRest(s: State, i: Instruction)
    requires !(i.FillSlot? || i.AppendContent? || i.LikeContent? || i.CloseAccount?)
    requires !(i.InitThreadAccess? || i.UpdateAccess? || i.SetStatus? || i.RemoveStatus? || i.RequestAccess?)
    requires !(i.Subscribe? || i.Unsubscribe?)
    requires WellFormed(i) && Check(s, i).Done? && Sane(s, i)
    ensures SameOutside(s.info, Post(s, i).info, Touched(s, i))
  {
  }

  lemma TouchesOnly(s: State, i: Instruction)
    requires WellFormed(i) && Check(s, i).Done? && Sane(s, i)
    ensures SameOutside(s.info, Post(s, i).info, Touched(s, i))
  {
    hide Check, Post, Sane, WellFormed, Touched;
    if i.FillSlot? || i.AppendContent? || i.LikeContent? || i.CloseAccount? {
      FramePosting(s, i);
    } else if i.SetStatus? || i.RemoveStatus? {
      FrameLists(s, i);
    } else if i.InitThreadAccess? || i.UpdateAccess? || i.RequestAccess? {
      FrameAccess(s, i);
    } else if i.Subscribe? || i.Unsubscribe? {
      FrameFollow(s, i);
    } else {
      FrameRest(s, i);
    }
  }

  // ---- which instructions reach which kind of address ----

  predicate KindFits(i: Instruction, k: Key) {
    match k
    case External(_) => (i.CreateRootAlloc? || i.PrepareAlloc? || i.UpdateThread?) && i.thread == k
    case SettingsKey => i.InitSettings? || i.UpdateSettings?
    case AllocKey(_, _) => i.CreateRootAlloc? || i.PrepareAlloc?
    case AccessKey(_) => i.InitThreadAccess? || i.UpdateAccess? || i.SetStatus? || i.RemoveStatus? || i.RequestAccess?
    case EntryKey(_, _) => i.SetStatus? || i.RemoveStatus? || i.RequestAccess?
    case LikesKey(_, _) => i.LikeContent? || i.CloseAccount?
    case TreasuryKey(_) =>
      i.CreateRootAlloc? || i.FillSlot? || i.AppendContent? || i.LikeContent? || i.InitThreadAccess? || i.RequestAccess?
    case AuthorKey(_, _) => i.FillSlot? || i.LikeContent? || i.RequestAccess?
    case RegistryKey(_) => i.Subscribe? || i.Unsubscribe?
    case FollowerKey(_, _) => i.Subscribe? || i.Unsubscribe?
    case ContentKey(_, _, _) => i.FillSlot? || ((i.AppendContent? || i.CloseAccount?) && i.target == k)
  }

  lemma KindsOfPosting(s: State, i: Instruction, k: Key)
    requires i.FillSlot? && FillCheck(s, i).Done? && k in Touched(s, i)
    ensures KindFits(i, k)
    ensures k.ContentKey? ==> Fresh(s.info, k)
  {
    hide FillPrologue, ChargeOutcome, Rent;
    FilledInRange(s, i);
  }

  lemma KindsOfMessages(s: State, i: Instruction, k: Key)
    requires i.AppendContent? || i.LikeContent? || i.CloseAccount?
    requires Check(s, i).Done? && k in Touched(s, i)
    ensures KindFits(i, k)
  {
    hide Rent, TopUp, CanPay, OpenBoth, LikeFee, AppendToVault;
  }

  lemma KindsOfAccess(s: State, i: Instruction, k: Key)
    requires i.InitThreadAccess? || i.UpdateAccess? || i.SetStatus? || i.RemoveStatus? || i.RequestAccess?
    requires Check(s, i).Done? && k in Touched(s, i)
    ensures KindFits(i, k)
  {
    hide Rent, TopUp, CanPay, RequestCheck, InitAccessCheck;
  }

  lemma KindsOfThreads(s: State, i: Instruction, k: Key)
    requires i.PrepareAlloc? || i.UpdateThread? || i.CreateRootAlloc?
    requires WellFormed(i) && Check(s, i).Done? && Typed(s.info) && k in Touched(s, i)
    ensures KindFits(i, k)
  {
    hide Rent, TopUp, CanPay, CreateRootCheck;
    if !i.CreateRootAlloc? {
      assert TypedAt(i.thread, s.info[i.thread]);
    }
  }

  /** An instruction touches only addresses of the kinds it is about. */
  lemma TouchedFits(s: State, i: Instruction, k: Key)
    requires WellFormed(i) && Check(s, i).Done? && Typed(s.info) && k in Touched(s, i)
    ensures KindFits(i, k)
    ensures i.FillSlot? && k.ContentKey? ==> Fresh(s.info, k)
  {
    hide WellFormed, Typed, InitSettingsCheck, UpdateSettingsCheck, CreateRootCheck, PrepareCheck, FillCheck,
         AppendCheck, LikeCheck, CloseCheck, SweepCheck, InitAccessCheck, UpdateAccessCheck, SetStatusCheck,
         RemoveStatusCheck, RequestCheck, UpdateThreadCheck, SubscribeCheck, UnsubscribeCheck;
    if i.FillSlot? {
      KindsOfPosting(s, i, k);
    } else if i.AppendContent? || i.LikeContent? || i.CloseAccount? {
      KindsOfMessages(s, i, k);
    } else if i.InitThreadAccess? || i.UpdateAccess? || i.SetStatus? || i.RemoveStatus? || i.RequestAccess? {
      KindsOfAccess(s, i, k);
    } else if i.PrepareAlloc? || i.UpdateThread? || i.CreateRootAlloc? {
      KindsOfThreads(s, i, k);
    }
  }
}
