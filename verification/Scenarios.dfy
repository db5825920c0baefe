/** Concrete runs at which a documented or cached value is wrong. */
module Scenarios {
  import opened Keys
  import opened Records
  import opened Ledger
  import opened FeeMath
  import opened Instructions
  import opened Invariant
  import opened Runs
  import opened Whitelist
  import opened LikeCounts
  import opened Frame

  /** One wallet, one thread. */
  const AUTHOR: Key := External(0)
  const CHANNEL: Key := External(1)

  function ThreadRent(): nat { Rent(ThreadSize(0)) }

  /** The price of the settings, a thread with its first page, and one treasury vault. */
  function SetupCost(): nat {
    Rent(SETTINGS_SIZE) + Rent(0) + ThreadRent() + Cut(ThreadRent() + Rent(ALLOC_SIZE), 1000) + Rent(ALLOC_SIZE)
  }

  /** The channel is there, nothing else is, and the author can still spend `left`. */
  ghost predicate Channel(s: State, left: nat) {
    && SettingsKey in s.info && s.info[SettingsKey] == Created(Settings(AUTHOR, AUTHOR, 1000, 1000, 1000, 1000))
    && CHANNEL in s.info && s.info[CHANNEL] == Created(Thread(1, 0, AUTHOR, 0, 0, []))
    && Fresh(s.info, AUTHOR) && s.lam[AUTHOR] >= left
  }

  ghost predicate OnlySetup(s: State) {
    forall k | k in s.info :: k in {SettingsKey, TreasuryKey(0), CHANNEL, AllocKey(CHANNEL, 0)}
  }

  function Genesis0(funds: nat): State { State(multiset{}[AUTHOR := funds], map[], 0) }

  lemma Begin(funds: nat)
    requires funds <= U64_MAX
    ensures Start(Genesis0(funds))
  {
    assert |multiset{}[AUTHOR := funds]| == funds;
  }

  /** One accepted instruction extends a run. */
  lemma Extend(h: History, i: Instruction)
    requires Valid(h) && WellFormed(i) && Check(h.state, i).Done?
    ensures Sane(h.state, i) && Valid(Then(h, Run(i), Post(h.state, i)))
  {
    ReachableInv(h);
    InvIsSane(h.state, i);
  }

  function Initialise(): Instruction { InitSettings(AUTHOR, AUTHOR, AUTHOR) }

  function Founding(): Instruction { CreateRootAlloc(AUTHOR, CHANNEL, 0, 0, []) }

  lemma Initialised(s: State, left: nat)
    requires s == Genesis0(Rent(SETTINGS_SIZE) + left)
    ensures InitSettingsCheck(s, Initialise()).Done?
    ensures Configured(InitSettingsPost(s, Initialise())) && InitSettingsPost(s, Initialise()).lam[AUTHOR] == left
  {
    hide Rent;
  }

  /** Settings only, and money only with the author and the settings. */
  ghost predicate Configured(s: State) {
    && s.info == map[SettingsKey := Created(Settings(AUTHOR, AUTHOR, 1000, 1000, 1000, 1000))]
    && forall k | k != AUTHOR && k != SettingsKey :: s.lam[k] == 0
  }

  lemma FoundedCosts(s: State)
    requires Configured(s)
    ensures CheckSettings(s.info).Done? && RootFee(s, Founding()) == Cut(ThreadRent() + Rent(ALLOC_SIZE), 1000)
    ensures OpeningCost(s, TreasuryKey(0)) == Rent(0) && s.lam[CHANNEL] == 0
    ensures TopUp(s.lam[AllocKey(CHANNEL, 0)], ALLOC_SIZE) == Rent(ALLOC_SIZE)
  {
  }

  lemma FoundedCheck(s: State)
    requires Configured(s) && s.lam[AUTHOR] + Rent(SETTINGS_SIZE) >= SetupCost() && SetupCost() <= U64_MAX
    ensures CreateRootCheck(s, Founding()).Done?
  {
    hide Rent, Cut, RootFee, OpeningCost, TopUp;
    FoundedCosts(s);
  }

  lemma FoundedBalance(s: State, left: nat)
    requires Configured(s) && CreateRootCheck(s, Founding()).Done?
    requires s.lam[AUTHOR] == SetupCost() - Rent(SETTINGS_SIZE) + left
    ensures CreateRootPost(s, Founding()).lam[AUTHOR] == left
  {
    hide Rent, Cut, RootFee, OpeningCost, TopUp, CreateRootCheck, Configured;
    FoundedCosts(s);
    SettleMoves(s.lam, CreateRootBill(s, Founding()));
  }

  lemma Founded(s: State, left: nat)
    requires Configured(s) && s.lam[AUTHOR] == SetupCost() - Rent(SETTINGS_SIZE) + left && SetupCost() <= U64_MAX
    ensures CreateRootCheck(s, Founding()).Done?
    ensures Channel(CreateRootPost(s, Founding()), left) && OnlySetup(CreateRootPost(s, Founding()))
  {
    hide Rent, Cut, Settle, RootFee, CanPay;
    FoundedCheck(s);
    FoundedBalance(s, left);
  }

  /** From genesis to a channel with `left` to spend. */
  lemma Setup(left: nat) returns (h: History)
    requires SetupCost() + left <= U64_MAX
    ensures Valid(h) && Channel(h.state, left) && OnlySetup(h.state)
  {
    hide Rent, Cut, CreateRootCheck, CreateRootPost, InitSettingsCheck, InitSettingsPost, Channel, OnlySetup,
         Configured;
    var s := Genesis0(SetupCost() + left);
    Begin(SetupCost() + left);
    h := Genesis(s);
    Initialised(s, SetupCost() - Rent(SETTINGS_SIZE) + left);
    Extend(h, Initialise());
    h := Then(h, Run(Initialise()), Post(s, Initialise()));
    Founded(h.state, left);
    Extend(h, Founding());
    h := Then(h, Run(Founding()), Post(h.state, Founding()));
  }

  // ---- a new message that is born liked ----

  const SLOT: Key := ContentKey(CHANNEL, 0, 0)
  const LIKES: Key := LikesKey(CHANNEL, 0)

  function Posting(): Instruction {
    FillSlot(AUTHOR, CHANNEL, 0, [], [Slot(0, 0)], [SLOT, AccessKey(CHANNEL), EntryKey(CHANNEL, AUTHOR)],
             0, 0, 0, 0, U64_MAX)
  }

  function Liking(): Instruction { LikeContent(AUTHOR, CHANNEL, 0, 0, 0, 0, U64_MAX) }

  /** The closing leaves the optional likes account out. */
  function Closing(): Instruction { CloseAccount(AUTHOR, SLOT, None) }

  function PostCost(): nat { 2 * Rent(0) + Rent(ContentSize(0)) + Cut(Rent(ContentSize(0)), 1000) }

  function LikeCost(): nat { 2 * Rent(0) + Rent(LIKES_SIZE) }

  /** No gate, no list entry for the author. */
  predicate Open(info: Accounts) {
    Fresh(info, AccessKey(CHANNEL)) && Fresh(info, EntryKey(CHANNEL, AUTHOR))
  }

  predicate HasMessage(info: Accounts) {
    CheckContent(info, SLOT).Done? && info[SLOT].data.author == AUTHOR
  }

  lemma PostingAccepted(s: State)
    requires Channel(s, PostCost()) && Open(s.info) && Fresh(s.info, SLOT)
    ensures FillCheck(s, Posting()).Done?
    ensures PostFee(s, Posting()) + MessageFee(s.info, CHANNEL, AUTHOR) + OpenBoth(s, Posting())
            + TopUp(s.lam[SLOT], ContentSize(0)) <= PostCost()
  {
    hide Cut, Rent;
    CutBounds(Rent(ContentSize(0)), 1000);
    assert PickSlot(s, Posting()) == PickFrom(s.info, CHANNEL, 0, [Slot(0, 0)], Posting().remaining, 0)
           == Pick.Found(0);
  }

  lemma PostingSpends(s: State)
    requires FillCheck(s, Posting()).Done? && Sane(s, Posting())
    ensures s.lam[AUTHOR] == FillPost(s, Posting()).lam[AUTHOR] + FillBill(s, Posting()).Total()
  {
    FilledInRange(s, Posting());
    SettleMoves(s.lam, FillBill(s, Posting()));
  }

  lemma PostingPays(s: State, left: nat)
    requires Channel(s, PostCost() + left) && Open(s.info) && Fresh(s.info, SLOT) && Sane(s, Posting())
    ensures FillCheck(s, Posting()).Done? && FilledSlot(s, Posting()) == 0 && FillPost(s, Posting()).lam[AUTHOR] >= left
  {
    hide Rent, Cut, CanPay, OpeningCost, FillCheck, FillPost;
    PostingAccepted(s);
    PostingSpends(s);
    FilledInRange(s, Posting());
  }

  lemma PostingFills(s: State, left: nat)
    requires Channel(s, PostCost() + left) && Open(s.info) && Fresh(s.info, SLOT) && Sane(s, Posting())
    ensures FillCheck(s, Posting()).Done?
    ensures var t := FillPost(s, Posting());
            Channel(t, left) && Open(t.info) && HasMessage(t.info) && SameAt(s.info, t.info, LIKES)
  {
    hide Rent, Cut, CanPay, OpeningCost, FillCheck, FilledSlot, Settle, PostCost;
    PostingPays(s, left);
  }

  lemma LikingAccepted(s: State)
    requires Channel(s, LikeCost()) && HasMessage(s.info) && Fresh(s.info, LIKES)
    ensures LikeCheck(s, Liking()).Done? && LikeFee(s, Liking()) == 0
    ensures OpenBoth(s, Liking()) + LikesCost(s, LIKES) <= LikeCost()
  {
    hide Rent;
  }

  lemma LikingSpends(s: State)
    requires LikeCheck(s, Liking()).Done? && Sane(s, Liking())
    ensures s.lam[AUTHOR] == LikePost(s, Liking()).lam[AUTHOR] + LikeBill(s, Liking()).Total()
  {
    SettleMoves(s.lam, LikeBill(s, Liking()));
  }

  lemma LikingPays(s: State, left: nat)
    requires Channel(s, LikeCost() + left) && HasMessage(s.info) && Fresh(s.info, LIKES) && Sane(s, Liking())
    ensures LikeCheck(s, Liking()).Done? && LikePost(s, Liking()).lam[AUTHOR] >= left
  {
    LikingAccepted(s);
    hide Rent, CanPay, OpeningCost, LikeCheck, LikePost, HasMessage;
    LikingSpends(s);
  }

  lemma LikingCounts(s: State, left: nat)
    requires Channel(s, LikeCost() + left) && Open(s.info) && HasMessage(s.info) && Fresh(s.info, LIKES)
    requires Sane(s, Liking())
    ensures LikeCheck(s, Liking()).Done?
    ensures var t := LikePost(s, Liking());
            Channel(t, left) && Open(t.info) && HasMessage(t.info) && LikeCount(t.info, LIKES, 0) == 1
  {
    LikingPays(s, left);
    LikedOnce(s);
    LikingTable(s);
    hide Rent, LikeCheck, LikePost, Sane, LikeCost, LikeCount, Fresh;
    var t := LikePost(s, Liking());
    SameStanding(s.info, t.info);
  }

  lemma LikingTable(s: State)
    requires LikeCheck(s, Liking()).Done? && Sane(s, Liking())
    ensures var t := LikePost(s, Liking());
            && SameAt(s.info, t.info, SettingsKey) && SameAt(s.info, t.info, CHANNEL) && SameAt(s.info, t.info, SLOT)
            && SameAt(s.info, t.info, AUTHOR) && SameAt(s.info, t.info, AccessKey(CHANNEL))
            && SameAt(s.info, t.info, EntryKey(CHANNEL, AUTHOR)) && t.now == s.now
  {
    hide Rent, CanPay, Settle, LikedRecord, LikeCheck;
  }

  lemma SameStanding(a: Accounts, b: Accounts)
    requires SameAt(a, b, AUTHOR) && SameAt(a, b, AccessKey(CHANNEL)) && SameAt(a, b, EntryKey(CHANNEL, AUTHOR))
    ensures Fresh(b, AUTHOR) <==> Fresh(a, AUTHOR)
    ensures Open(b) <==> Open(a)
  {
  }

  lemma LikedOnce(s: State)
    requires LikeCheck(s, Liking()).Done? && Fresh(s.info, LIKES) && Sane(s, Liking())
    ensures LikeCount(LikePost(s, Liking()).info, LIKES, 0) == 1
  {
    hide Rent, CanPay, Settle, WithVault;
  }

  lemma ClosingFrees(s: State, left: nat)
    requires Channel(s, left) && Open(s.info) && HasMessage(s.info) && Sane(s, Closing())
    ensures CloseCheck(s, Closing()).Done?
    ensures var t := ClosePost(s, Closing());
            Channel(t, left) && Open(t.info) && SLOT !in t.info && SameAt(s.info, t.info, LIKES)
  {
    hide Rent;
  }

  lemma SetupIsBare(s: State)
    requires OnlySetup(s)
    ensures Open(s.info) && Fresh(s.info, SLOT) && Fresh(s.info, LIKES)
  {
  }

  lemma SameLikes(a: Accounts, b: Accounts)
    requires SameAt(a, b, LIKES)
    ensures LikeCount(b, LIKES, 0) == LikeCount(a, LIKES, 0) && (Fresh(b, LIKES) <==> Fresh(a, LIKES))
  {
  }

  lemma Posted(h: History, left: nat) returns (after: History)
    requires Valid(h) && Channel(h.state, PostCost() + left) && Open(h.state.info) && Fresh(h.state.info, SLOT)
    ensures Valid(after) && after == Then(h, Run(Posting()), after.state)
    ensures Channel(after.state, left) && Open(after.state.info) && HasMessage(after.state.info)
    ensures LikeCount(after.state.info, LIKES, 0) == LikeCount(h.state.info, LIKES, 0)
    ensures Fresh(after.state.info, LIKES) <==> Fresh(h.state.info, LIKES)
  {
    hide Channel, Open, HasMessage, FillCheck, FillPost, LikeCount, Valid, PostCost, Sane, Fresh;
    ReachableSane(h, Posting());
    PostingFills(h.state, left);
    Extend(h, Posting());
    after := Then(h, Run(Posting()), Post(h.state, Posting()));
    SameLikes(h.state.info, after.state.info);
  }

  lemma Liked(h: History, left: nat) returns (after: History)
    requires Valid(h) && Channel(h.state, LikeCost() + left) && Open(h.state.info) && HasMessage(h.state.info)
    requires Fresh(h.state.info, LIKES)
    ensures Valid(after) && after == Then(h, Run(Liking()), after.state)
    ensures Channel(after.state, left) && Open(after.state.info) && HasMessage(after.state.info)
    ensures LikeCount(after.state.info, LIKES, 0) == 1
  {
    hide Channel, Open, HasMessage, LikeCheck, LikePost, LikeCount, Valid, LikeCost, Sane, Fresh;
    ReachableSane(h, Liking());
    LikingCounts(h.state, left);
    Extend(h, Liking());
    after := Then(h, Run(Liking()), Post(h.state, Liking()));
  }

  lemma ReachableSane(h: History, i: Instruction)
    requires Valid(h)
    ensures Sane(h.state, i)
  {
    ReachableInv(h);
    InvIsSane(h.state, i);
  }

  lemma ClosingStep(h: History, left: nat)
    requires Valid(h) && Channel(h.state, left) && Open(h.state.info) && HasMessage(h.state.info)
    ensures CloseCheck(h.state, Closing()).Done? && Sane(h.state, Closing())
    ensures var t := Post(h.state, Closing());
            && Valid(Then(h, Run(Closing()), t))
            && Channel(t, left) && Open(t.info) && SLOT !in t.info && Fresh(t.info, SLOT)
            && LikeCount(t.info, LIKES, 0) == LikeCount(h.state.info, LIKES, 0)
  {
    hide Channel, Open, HasMessage, CloseCheck, ClosePost, LikeCount, Valid, Sane;
    ReachableSane(h, Closing());
    ClosingFrees(h.state, left);
    Extend(h, Closing());
    SameLikes(h.state.info, Post(h.state, Closing()).info);
  }

  /** What the whole story costs: a channel, two postings and one like. */
  function StoryCost(): nat { SetupCost() + 2 * PostCost() + LikeCost() }

  /** A run in which a liked message is closed without its likes account and the next message in
      its slot starts with one like, although nobody liked it. */
  lemma NewMessageInheritsLike() returns (closed: History, posted: History)
    requires StoryCost() <= U64_MAX
    ensures Valid(posted) && posted == Then(closed, Run(Posting()), posted.state)
    ensures closed.Then? && closed.action == Run(Closing()) && Inv(closed.before.state)
    ensures HasMessage(closed.before.state.info) && LikeCount(closed.before.state.info, LIKES, 0) == 1
    ensures SLOT !in closed.state.info && LikeCount(closed.state.info, LIKES, 0) == 1
    ensures HasMessage(posted.state.info) && LikeCount(posted.state.info, LIKES, 0) == 1
  {
    hide Rent, Cut, Post, FillPost, LikePost, ClosePost, FillCheck, LikeCheck, CloseCheck, Channel, Inv, LikeCount,
         Start, OnlySetup, Sane, PostCost, LikeCost, SetupCost, Open, HasMessage, Fresh;
    var h := Setup(2 * PostCost() + LikeCost());
    SetupIsBare(h.state);
    h := Posted(h, PostCost() + LikeCost());
    h := Liked(h, PostCost());
    ReachableInv(h);
    ClosingStep(h, PostCost());
    closed := Then(h, Run(Closing()), Post(h.state, Closing()));
    posted := Posted(closed, 0);
  }

  // ---- the whitelist that outgrows its counter ----

  function Gating(): Instruction { InitThreadAccess(AUTHOR, CHANNEL, true, 0) }

  function Granting(n: nat): Instruction { SetStatus(AUTHOR, AccessKey(CHANNEL), External(n), ACCESS_ALLOWED) }

  function GateCost(): nat { Rent(0) + 2 * Rent(ACCESS_SIZE) }

  /** The channel's gate is on and free of charge. */
  predicate IsOurGate(r: Record<Key>) { r.Access? && r.thread == CHANNEL && r.enabled && r.entryFee == 0 }

  /** Outside wallets 0 to `n - 1` are members and the others are not; the counter is `n` in 32 bits. */
  ghost predicate Crowd(s: State, n: nat, left: nat) {
    && Channel(s, left) && CheckAdminAccess(s.info, AUTHOR, AccessKey(CHANNEL)).Done?
    && IsOurGate(s.info[AccessKey(CHANNEL)].data)
    && (forall m: nat | m >= n :: Fresh(s.info, EntryKey(CHANNEL, External(m))))
    && |AllowedSet(s.info, CHANNEL)| == n && CachedCount(s.info, CHANNEL) == n % (U32_MAX + 1)
  }

  lemma GatingCosts(s: State, left: nat)
    requires Channel(s, GateCost() + left) && OnlySetup(s)
    ensures InitAccessCheck(s, Gating()).Done? && InitAccessBill(s, Gating()).Total() <= GateCost()
  {
    hide Rent;
  }

  lemma GatingPays(s: State, left: nat)
    requires Channel(s, GateCost() + left) && OnlySetup(s)
    ensures InitAccessCheck(s, Gating()).Done? && InitAccessPost(s, Gating()).lam[AUTHOR] >= left
  {
    hide Rent, Settle, InitAccessCheck, GateCost, OnlySetup;
    GatingCosts(s, left);
    SettleMoves(s.lam, InitAccessBill(s, Gating()));
  }

  lemma GatingOpens(s: State, left: nat)
    requires Channel(s, GateCost() + left) && OnlySetup(s)
    ensures InitAccessCheck(s, Gating()).Done? && Crowd(InitAccessPost(s, Gating()), 0, left)
  {
    hide Rent, CanPay, Settle;
    GatingPays(s, left);
    assert AllowedSet(InitAccessPost(s, Gating()).info, CHANNEL) == {};
  }

  lemma BareCacheIsExact(s: State)
    requires OnlySetup(s)
    ensures ExactAt(s.info, CHANNEL)
  {
    assert AllowedSet(s.info, CHANNEL) == {};
  }

  lemma GrantingTable(s: State, n: nat, left: nat)
    requires Crowd(s, n, Rent(ENTRY_SIZE) + left)
    ensures SetStatusCheck(s, Granting(n)).Done? && Growth(s, Granting(n)) == 1
    ensures EditedThread(s, Granting(n)) == CHANNEL
    ensures var t := SetStatusPost(s, Granting(n));
            && Channel(t, left) && CheckAdminAccess(t.info, AUTHOR, AccessKey(CHANNEL)).Done?
            && IsOurGate(t.info[AccessKey(CHANNEL)].data)
            && forall m: nat | m >= n + 1 :: Fresh(t.info, EntryKey(CHANNEL, External(m)))
  {
    hide Rent;
  }

  lemma GrantingCounts(s: State, n: nat, left: nat)
    requires Crowd(s, n, Rent(ENTRY_SIZE) + left) && Inv(s) && n <= U32_MAX && ExactAt(s.info, CHANNEL)
    ensures SetStatusCheck(s, Granting(n)).Done? && Crowd(SetStatusPost(s, Granting(n)), n + 1, left)
    ensures n < U32_MAX ==> ExactAt(SetStatusPost(s, Granting(n)).info, CHANNEL)
  {
    GrantingTable(s, n, left);
    InvIsSane(s, Granting(n));
    assert Typed(s.info);
    hide Inv, Typed, Sane, SetStatusPost, SetStatusCheck, Channel, CheckAdminAccess, ExactAt, Growth, EditedThread,
         AllowedSet, CachedCount;
    EditorsMove(s, Granting(n));
    assert Moves(s.info, SetStatusPost(s, Granting(n)).info, CHANNEL, 1);
    CacheExactIff(s, Granting(n), CHANNEL);
  }

  /** From genesis to a list of `n` members, with an exact counter while it fits. */
  lemma {:induction false} Assemble(n: nat, left: nat) returns (h: History)
    requires n <= U32_MAX && SetupCost() + GateCost() + n * Rent(ENTRY_SIZE) + left <= U64_MAX
    ensures Valid(h) && Crowd(h.state, n, left) && ExactAt(h.state.info, CHANNEL)
    decreases n
  {
    hide Rent, Crowd, Channel, Inv, Valid, OnlySetup, SetupCost, GateCost, SetStatusCheck, SetStatusPost,
         InitAccessCheck, InitAccessPost, ExactAt;
    if n == 0 {
      h := Setup(GateCost() + left);
      GatingOpens(h.state, left);
      BareCacheIsExact(h.state);
      Extend(h, Gating());
      ReachableInv(h);
      CacheExactIff(h.state, Gating(), CHANNEL);
      h := Then(h, Run(Gating()), Post(h.state, Gating()));
    } else {
      assert n * Rent(ENTRY_SIZE) == (n - 1) * Rent(ENTRY_SIZE) + Rent(ENTRY_SIZE);
      h := Assemble(n - 1, Rent(ENTRY_SIZE) + left);
      ReachableInv(h);
      GrantingCounts(h.state, n - 1, left);
      Extend(h, Granting(n - 1));
      h := Then(h, Run(Granting(n - 1)), Post(h.state, Granting(n - 1)));
    }
  }

  /** With a full list the gate, although enabled, admits a wallet that the full scan refuses. */
  lemma StrangerAdmitted(s: State, left: nat)
    requires Inv(s) && Crowd(s, U32_MAX + 1, left)
    ensures CheckThread(s.info, CHANNEL).Done?
    ensures var stranger := External(U32_MAX + 1);
            GateCheck(s.info, CHANNEL, stranger).Done? && !MayPost(s.info, CHANNEL, stranger)
  {
    hide Rent;
    var entry := EntryKey(CHANNEL, External(U32_MAX + 1));
    assert Fresh(s.info, entry);
    assert entry in s.info ==> TypedAt(entry, s.info[entry]);
  }

  /** A run that assembles 2^32 members. Before the last grant the counter is exact and full;
      after it, it reads zero, and the gate lets a stranger post. */
  lemma FullListReadsEmpty() returns (full: History, wrapped: History)
    requires SetupCost() + GateCost() + (U32_MAX + 1) * Rent(ENTRY_SIZE) <= U64_MAX
    ensures Valid(wrapped) && wrapped == Then(full, Run(Granting(U32_MAX)), wrapped.state)
    ensures ExactAt(full.state.info, CHANNEL) && CachedCount(full.state.info, CHANNEL) == U32_MAX
    ensures CachedCount(wrapped.state.info, CHANNEL) == 0 && |AllowedSet(wrapped.state.info, CHANNEL)| == U32_MAX + 1
    ensures CheckThread(wrapped.state.info, CHANNEL).Done?
    ensures var stranger := External(U32_MAX + 1);
            && GateCheck(wrapped.state.info, CHANNEL, stranger).Done?
            && !MayPost(wrapped.state.info, CHANNEL, stranger)
  {
    hide Rent, Channel, Inv, Valid, SetupCost, GateCost, SetStatusCheck, SetStatusPost, ExactAt, MayPost,
         GateCheck, CheckThread;
    full := Assemble(U32_MAX, Rent(ENTRY_SIZE));
    ReachableInv(full);
    GrantingCounts(full.state, U32_MAX, 0);
    Extend(full, Granting(U32_MAX));
    wrapped := Then(full, Run(Granting(U32_MAX)), Post(full.state, Granting(U32_MAX)));
    ReachableInv(wrapped);
    StrangerAdmitted(wrapped.state, 0);
  }
}
