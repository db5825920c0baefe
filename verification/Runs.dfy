/** Steps, runs, and the invariant of every reachable state. */
module Runs {
  import opened Keys
  import opened Ledger
  import opened Instructions
  import opened Invariant
  import opened Preservation
  import opened Frame
  import opened Money
  import opened FollowIndex
  import opened Sweep

  datatype Action = Run(i: Instruction) | Outside | Tick

  /** Everything the rest of the chain may do: move money between outside accounts, give to any
      address, create, change and delete outside accounts, burn or issue lamports. It cannot
      debit or write a derived address or an account of the program. */
  ghost predicate OutsideStep(s: State, t: State) {
    && t.now == s.now && |t.lam| <= U64_MAX
    && (forall k: Key | !k.External? || IsThread(s.info, k) :: SameAt(s.info, t.info, k) && t.lam[k] >= s.lam[k])
    && (forall k: Key | k in t.info && k.External? && !IsThread(s.info, k) ::
          t.info[k].data.Blank? && (t.info[k].owner.System? ==> t.info[k].len > 0))
  }

  ghost predicate Next(s: State, a: Action, t: State) {
    match a
    case Run(i) => WellFormed(i) && Check(s, i).Done? && Sane(s, i) && t == Post(s, i)
    case Outside => OutsideStep(s, t)
    case Tick => t == s.(now := t.now) && s.now <= t.now && IsTime(t.now)
  }

  lemma StructureKept(s: State, i: Instruction)
    requires WellFormed(i) && Check(s, i).Done? && Sane(s, i) && Structure(s.info) && IsTime(s.now)
    ensures Structure(Post(s, i).info)
  {
    hide Structure;
    match i
    case InitSettings(_, _, _) => InitSettingsStructure(s, i);
    case UpdateSettings(_, _) => UpdateSettingsStructure(s, i);
    case CreateRootAlloc(_, _, _, _, _) => CreateRootStructure(s, i);
    case PrepareAlloc(_, _, _, _) => PrepareStructure(s, i);
    case FillSlot(_, _, _, _, _, _, _, _, _, _, _) => FillStructure(s, i);
    case AppendContent(_, _, _, _, _, _) => AppendStructure(s, i);
    case LikeContent(_, _, _, _, _, _, _) => LikeStructure(s, i);
    case CloseAccount(_, _, _) => CloseStructure(s, i);
    case SweepTreasury(_, _, _) =>
    case SweepAuthorFees(_, _, _, _) =>
    case InitThreadAccess(_, _, _, _) => InitAccessStructure(s, i);
    case UpdateAccess(_, _, _) => UpdateAccessStructure(s, i);
    case SetStatus(_, _, _, _) => SetStatusStructure(s, i);
    case RemoveStatus(_, _, _, _) => RemoveStatusStructure(s, i);
    case RequestAccess(_, _, _, _) => RequestStructure(s, i);
    case UpdateThread(_, _, _) => UpdateThreadStructure(s, i);
    case Subscribe(_, _) => SubscribeStructure(s, i);
    case Unsubscribe(_, _) => UnsubscribeStructure(s, i);
  }

  /** Conservation: an instruction never changes the total, and leaves every record rent exempt. */
  lemma MoneyKept(s: State, i: Instruction)
    requires WellFormed(i) && Check(s, i).Done? && Sane(s, i) && Typed(s.info) && Funded(s.lam, s.info)
    ensures Funded(Post(s, i).lam, Post(s, i).info) && |Post(s, i).lam| == |s.lam|
  {
    hide Funded, Typed;
    match i
    case InitSettings(_, _, _) => InitSettingsMoney(s, i);
    case UpdateSettings(_, _) =>
      RewriteFunds(s.lam, s.info, SettingsKey, ApplySetting(s.info[SettingsKey].data, i.setting));
    case CreateRootAlloc(_, _, _, _, _) => CreateRootMoney(s, i);
    case PrepareAlloc(_, _, _, _) => PrepareMoney(s, i);
    case FillSlot(_, _, _, _, _, _, _, _, _, _, _) => FillMoney(s, i);
    case AppendContent(_, _, _, _, _, _) => AppendMoney(s, i);
    case LikeContent(_, _, _, _, _, _, _) => LikeMoney(s, i);
    case CloseAccount(_, _, _) => CloseMoney(s, i);
    case SweepTreasury(_, _, _) => SweepMoney(s, i);
    case SweepAuthorFees(_, _, _, _) => SweepMoney(s, i);
    case InitThreadAccess(_, _, _, _) => InitAccessMoney(s, i);
    case UpdateAccess(_, _, _) => RewriteFunds(s.lam, s.info, i.access, ApplyPolicy(s.info[i.access].data, i.policy));
    case SetStatus(_, _, _, _) => SetStatusMoney(s, i);
    case RemoveStatus(_, _, _, _) => RemoveStatusMoney(s, i);
    case RequestAccess(_, _, _, _) => RequestMoney(s, i);
    case UpdateThread(_, _, _) => RewriteFunds(s.lam, s.info, i.thread, ApplyThreadFee(s.info[i.thread].data, i.fee));
    case Subscribe(_, _) => SubscribeMoney(s, i);
    case Unsubscribe(_, _) => UnsubscribeMoney(s, i);
  }

  lemma IndexKept(s: State, i: Instruction)
    requires WellFormed(i) && Check(s, i).Done? && Sane(s, i) && Typed(s.info) && Followers(s.info)
    ensures Followers(Post(s, i).info)
  {
    if i.Subscribe? {
      SubscribeIsOneFollow(s, i);
      OneFollowKeeps(s.info, Post(s, i).info, RegistryKey(i.payer), i.thread);
    } else if i.Unsubscribe? {
      UnsubscribeIsOneFollow(s, i);
      OneFollowKeeps(s.info, Post(s, i).info, RegistryKey(i.payer), i.thread);
    } else {
      OthersKeepIndex(s, i);
    }
  }

  lemma OutsideKeepsThreads(a: Accounts, b: Accounts)
    requires Typed(a) && Typed(b)
    requires forall k: Key | !k.External? || IsThread(a, k) :: SameAt(a, b, k)
    requires forall k | k in b && k.External? && !IsThread(a, k) :: b[k].data.Blank?
    requires Pages(a) && Children(a)
    ensures Pages(b) && Children(b)
  {
    forall t, p: nat
      ensures HasPage(b, t, p) <==> HasPage(a, t, p)
      ensures AllocKey(t, p) in b <==> HasPage(b, t, p)
    {
      assert SameAt(a, b, AllocKey(t, p));
      assert AllocKey(t, p) in a <==> HasPage(a, t, p);
      assert t.External? ==> (IsThread(a, t) <==> IsThread(b, t));
    }
    forall k | k in b
      ensures Anchored(b, k)
    {
      assert SameAt(a, b, k) || k.External?;
      assert k in a ==> Anchored(a, k);
    }
  }

  lemma OutsideKeepsInv(s: State, t: State)
    requires Inv(s) && OutsideStep(s, t)
    ensures Inv(t)
  {
    forall k | k in t.info
      ensures TypedAt(k, t.info[k])
    {
      assert SameAt(s.info, t.info, k) || (k.External? && !IsThread(s.info, k));
    }
    OutsideKeepsThreads(s.info, t.info);
    FollowersFrame(s.info, t.info);
    forall k | k in t.info && !t.info[k].data.Blank?
      ensures t.lam[k] >= Rent(t.info[k].len)
    {
      assert SameAt(s.info, t.info, k);
    }
  }

  /** One step, whoever takes it, keeps the invariant. */
  lemma StepKeepsInv(s: State, a: Action, t: State)
    requires Inv(s) && Next(s, a, t)
    ensures Inv(t)
    ensures a.Run? ==> |t.lam| == |s.lam|
  {
    match a
    case Run(i) =>
      StructureKept(s, i);
      MoneyKept(s, i);
      IndexKept(s, i);
    case Outside => OutsideKeepsInv(s, t);
    case Tick =>
  }

  // ---- runs ----

  /** A run of the chain from the deployment of the program. Failed transactions leave the
      accounts as they were, so only successful instructions appear. */
  datatype History = Genesis(state: State) | Then(before: History, action: Action, state: State)

  /** At deployment no account belongs to the program and no derived address is in use. */
  ghost predicate Start(s: State) {
    && |s.lam| <= U64_MAX && IsTime(s.now)
    && forall k | k in s.info :: k.External? && s.info[k].data.Blank? && (s.info[k].owner.System? ==> s.info[k].len > 0)
  }

  ghost predicate Valid(h: History) {
    match h
    case Genesis(s) => Start(s)
    case Then(b, a, t) => Valid(b) && Next(b.state, a, t)
  }

  lemma StartInv(s: State)
    requires Start(s)
    ensures Inv(s)
  {
    forall t, j
      ensures FollowerCount(s.info, t, j) == |FollowerSet(s.info, t, j)|
    {
      assert FollowerSet(s.info, t, j) == {};
    }
  }

  /** Every reachable state satisfies the invariant. */
  lemma {:induction false} ReachableInv(h: History)
    requires Valid(h)
    ensures Inv(h.state)
  {
    match h
    case Genesis(s) => StartInv(s);
    case Then(b, a, t) =>
      ReachableInv(b);
      StepKeepsInv(b.state, a, t);
  }
}
