/** The inductive invariant of the program's account table. */
module Invariant {
  import opened Keys
  import opened Records
  import opened Ledger
  import opened Instructions

  predicate NoDuplicates(xs: seq<Key>) {
    forall i, j :: 0 <= i < j < |xs| ==> xs[i] != xs[j]
  }

  /** What an address says about the record stored there: its kind, the fields bound to the
      seeds, the width of every number, and the limits of the protocol. */
  predicate Bound(k: Key, r: Record<Key>) {
    match k
    case External(_) =>
      && r.Thread? && r.author.External?
      && r.allocCount == r.lastPage + 1 <= U32_MAX
      && r.messageFee <= U64_MAX && r.likeFee <= U64_MAX && |r.title| <= MAX_TITLE_LEN
    case SettingsKey =>
      && r.Settings?
      && r.baseFeeBps <= MAX_FEE_CUT_BPS && r.authorCutBps <= MAX_FEE_CUT_BPS
      && r.entryCutBps <= MAX_FEE_CUT_BPS && r.likeCutBps <= MAX_FEE_CUT_BPS
    case AllocKey(t, p) => r == Alloc(t, p)
    case AccessKey(t) => r.Access? && r.thread == t && r.entryFee <= U64_MAX && r.whitelistCount <= U32_MAX
    case EntryKey(t, w) => r.Entry? && r.thread == t && r.wallet == w && r.status <= ACCESS_FEE_EXEMPT
    case LikesKey(_, p) =>
      && r.Likes? && r.page == p && |r.counts| == CONTENT_SLOTS
      && forall j :: 0 <= j < CONTENT_SLOTS ==> r.counts[j] <= U32_MAX
    case TreasuryKey(j) => r.Vault? && j < N_TREASURY_SHARDS
    case AuthorKey(_, j) => r.Vault? && j < N_AUTHOR_FEE_SHARDS
    case RegistryKey(o) => r.Registry? && r.owner == o && |r.channels| <= MAX_FOLLOWS && NoDuplicates(r.channels)
    case FollowerKey(t, j) => r.Follower? && r.thread == t && r.shard == j < N_FOLLOWER_SHARDS && r.count <= U64_MAX
    case ContentKey(t, p, j) =>
      && r.Content? && r.page == p && r.slot == j < CONTENT_SLOTS && r.thread == t
      && r.author.External? && |r.body| <= MAX_BODY_LEN
      && IsTime(r.createdAt) && r.replyPage <= U32_MAX && r.replySlot < 0x100 && r.kind < 0x1_0000
  }

  /** A derived address is either fresh or a program account sized for its record. An outside
      address may also hold data the program never wrote. */
  predicate TypedAt(k: Key, a: Account) {
    if k.External? && a.data.Blank? then a.owner.System? ==> a.len > 0
    else a.owner.Program? && a.len == Size(a.data) && Bound(k, a.data)
  }

  ghost predicate Typed(info: Accounts) {
    forall k | k in info :: TypedAt(k, info[k])
  }

  predicate IsThread(info: Accounts, t: Key) {
    t in info && info[t].data.Thread?
  }

  predicate HasPage(info: Accounts, t: Key, p: nat) {
    IsThread(info, t) && p <= info[t].data.lastPage
  }

  /** Pages exist exactly at 0..=last_alloc_seq of existing threads. */
  ghost predicate Pages(info: Accounts) {
    forall t, p: nat :: AllocKey(t, p) in info <==> HasPage(info, t, p)
  }

  /** The record a derived account hangs off exists. */
  predicate Anchored(info: Accounts, k: Key) {
    match k
    case ContentKey(t, p, _) => HasPage(info, t, p)
    case LikesKey(t, p) => HasPage(info, t, p)
    case AccessKey(t) => IsThread(info, t) && Data(info, k).Access? && Data(info, k).admin == info[t].data.author
    case EntryKey(t, _) => AccessKey(t) in info
    case AuthorKey(t, _) => IsThread(info, t)
    case FollowerKey(t, _) => IsThread(info, t)
    case _ => true
  }

  ghost predicate Children(info: Accounts) {
    forall k | k in info :: Anchored(info, k)
  }

  // ---- the follower index ----

  predicate Follows(info: Accounts, k: Key, t: Key) {
    k.RegistryKey? && Data(info, k).Registry? && t in Data(info, k).channels
  }

  /** Registries that hold channel `t` and whose owners map to shard `j`. */
  function FollowerSet(info: Accounts, t: Key, j: nat): set<Key> {
    set k | k in info && Follows(info, k, t) && FollowerShardIndex(k.owner) == j
  }

  function FollowerCount(info: Accounts, t: Key, j: nat): nat {
    var r := Data(info, FollowerKey(t, j));
    if r.Follower? then r.count else 0
  }

  ghost predicate Followers(info: Accounts) {
    forall t, j :: FollowerCount(info, t, j) == |FollowerSet(info, t, j)|
  }

  // ---- money ----

  /** Every account holding one of the program's records is rent exempt. */
  ghost predicate Funded(lam: Lamports, info: Accounts) {
    forall k | k in info && !info[k].data.Blank? :: lam[k] >= Rent(info[k].len)
  }

  ghost predicate Structure(info: Accounts) {
    Typed(info) && Pages(info) && Children(info)
  }

  ghost predicate Inv(s: State) {
    Structure(s.info) && Followers(s.info) && Funded(s.lam, s.info) && |s.lam| <= U64_MAX && IsTime(s.now)
  }

  lemma InvIsSane(s: State, i: Instruction)
    requires Typed(s.info)
    ensures Sane(s, i)
  {
  }

  lemma InvTyped(s: State)
    requires Inv(s)
    ensures Typed(s.info)
  {
  }
}
