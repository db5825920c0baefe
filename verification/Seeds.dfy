/** Seed layouts of the program-derived addresses, and why one table keyed by
    `Key` may stand for the real address space. */
module Seeds {
  import opened Keys
  import opened Wire

  const SETTINGS_SEED: Bytes := [115, 101, 116, 116, 105, 110, 103, 115]
  const ALLOC_SEED: Bytes := [97, 108, 108, 111, 99]
  const ACCESS_SEED: Bytes := [97, 99, 99, 101, 115, 115]
  const ACL_SEED: Bytes := [97, 99, 108]
  const LIKES_SEED: Bytes := [108, 105, 107, 101, 115]
  const TREASURY_SHARD_SEED: Bytes := [116, 114, 101, 97, 115, 117, 114, 121, 95, 115, 104, 97, 114, 100]
  const AUTHOR_FEE_SEED: Bytes := [97, 117, 116, 104, 111, 114, 95, 102, 101, 101]
  const FOLLOWS_SEED: Bytes := [102, 111, 108, 108, 111, 119, 115]
  const FOLLOWER_COUNT_SEED: Bytes := [102, 111, 108, 108, 111, 119, 101, 114, 95, 99, 111, 117, 110, 116]
  const CONTENT_SEED: Bytes := [99, 111, 110, 116, 101, 110, 116]

  /** How a cluster turns seeds into addresses: the addresses of outside keys, the
      derivation hash, and the bump the search settles on for given seeds. */
  datatype Cluster = Cluster(external: nat -> Bytes, hash: Bytes -> Bytes, bump: Bytes -> byte)

  /** Addresses are 32 bytes, whether they are public keys or digests. */
  ghost predicate Wide(c: Cluster) {
    (forall i :: |c.external(i)| == 32) && (forall x :: |c.hash(x)| == 32)
  }

  /** Every integer seed fits the width it is written with. */
  predicate Ranged(k: Key) {
    match k
    case External(_) => true
    case SettingsKey => true
    case AllocKey(t, p) => Ranged(t) && p <= U32_MAX
    case AccessKey(t) => Ranged(t)
    case EntryKey(t, w) => Ranged(t) && Ranged(w)
    case LikesKey(t, p) => Ranged(t) && p <= U32_MAX
    case TreasuryKey(j) => j < 0x1_0000
    case AuthorKey(t, j) => Ranged(t) && j < 0x100
    case RegistryKey(o) => Ranged(o)
    case FollowerKey(t, j) => Ranged(t) && j < 0x100
    case ContentKey(t, p, j) => Ranged(t) && p <= U32_MAX && j < 0x100
  }

  function SeedBytes(k: Key, c: Cluster): Bytes
    requires !k.External?
    decreases k, 0
  {
    match k
    case SettingsKey => SETTINGS_SEED
    case AllocKey(t, p) => ALLOC_SEED + Address(t, c) + LE(p, 4)
    case AccessKey(t) => ACCESS_SEED + Address(t, c)
    case EntryKey(t, w) => ACL_SEED + Address(t, c) + Address(w, c)
    case LikesKey(t, p) => LIKES_SEED + Address(t, c) + LE(p, 4)
    case TreasuryKey(j) => TREASURY_SHARD_SEED + LE(j, 2)
    case AuthorKey(t, j) => AUTHOR_FEE_SEED + Address(t, c) + LE(j, 1)
    case RegistryKey(o) => FOLLOWS_SEED + Address(o, c)
    case FollowerKey(t, j) => FOLLOWER_COUNT_SEED + Address(t, c) + LE(j, 1)
    case ContentKey(t, p, j) => CONTENT_SEED + Address(t, c) + LE(p, 4) + LE(j, 1)
  }

  function Address(k: Key, c: Cluster): Bytes
    decreases k, 1
  {
    match k
    case External(i) => c.external(i)
    case _ =>
      var seeds := SeedBytes(k, c);
      c.hash(seeds + [c.bump(seeds)])
  }

  lemma AddressLength(k: Key, c: Cluster)
    requires Wide(c)
    ensures |Address(k, c)| == 32
  {
  }

  /** The length of a seed list gives its kind away, except for pages and likes. */
  function SeedLength(k: Key): nat
    requires !k.External?
  {
    match k
    case SettingsKey => 8
    case AllocKey(_, _) => 41
    case AccessKey(_) => 38
    case EntryKey(_, _) => 67
    case LikesKey(_, _) => 41
    case TreasuryKey(_) => 16
    case AuthorKey(_, _) => 43
    case RegistryKey(_) => 39
    case FollowerKey(_, _) => 47
    case ContentKey(_, _, _) => 44
  }

  lemma SeedLengthIs(k: Key, c: Cluster)
    requires Wide(c) && !k.External?
    ensures |SeedBytes(k, c)| == SeedLength(k)
  {
  }

  /** A thread-prefixed seed list splits uniquely into prefix, thread and tail. */
  lemma SplitThread(prefix: Bytes, t1: Bytes, tail1: Bytes, t2: Bytes, tail2: Bytes)
    requires |t1| == |t2| == 32
    requires prefix + t1 + tail1 == prefix + t2 + tail2
    ensures t1 == t2 && tail1 == tail2
  {
    SplitConcat(prefix + t1, tail1, prefix + t2, tail2);
    SplitConcat(prefix, t1, prefix, t2);
  }

  lemma SplitOnly(prefix: Bytes, t1: Bytes, t2: Bytes)
    requires prefix + t1 == prefix + t2
    ensures t1 == t2
  {
    SplitConcat(prefix, t1, prefix, t2);
  }

  /** Same kind, same integer seeds, same address seeds. */
  predicate SameSeeds(a: Key, b: Key, c: Cluster) {
    match (a, b)
    case (SettingsKey, SettingsKey) => true
    case (AllocKey(t, p), AllocKey(u, q)) => Address(t, c) == Address(u, c) && p == q
    case (AccessKey(t), AccessKey(u)) => Address(t, c) == Address(u, c)
    case (EntryKey(t, v), EntryKey(u, w)) => Address(t, c) == Address(u, c) && Address(v, c) == Address(w, c)
    case (LikesKey(t, p), LikesKey(u, q)) => Address(t, c) == Address(u, c) && p == q
    case (TreasuryKey(i), TreasuryKey(j)) => i == j
    case (AuthorKey(t, i), AuthorKey(u, j)) => Address(t, c) == Address(u, c) && i == j
    case (RegistryKey(o), RegistryKey(p)) => Address(o, c) == Address(p, c)
    case (FollowerKey(t, i), FollowerKey(u, j)) => Address(t, c) == Address(u, c) && i == j
    case (ContentKey(t, p, i), ContentKey(u, q, j)) => Address(t, c) == Address(u, c) && p == q && i == j
    case _ => false
  }

  /** Equal seed bytes, bump included, mean the same kind, the same parameters and the same
      bump. This is about the bytes alone: nothing is assumed of the hash. */
  lemma SeedsUnambiguous(a: Key, b: Key, c: Cluster, bumpA: byte, bumpB: byte)
    requires Wide(c) && !a.External? && !b.External? && Ranged(a) && Ranged(b)
    requires SeedBytes(a, c) + [bumpA] == SeedBytes(b, c) + [bumpB]
    ensures SameSeeds(a, b, c) && bumpA == bumpB
  {
    SplitConcat(SeedBytes(a, c), [bumpA], SeedBytes(b, c), [bumpB]);
    assert bumpA == [bumpA][0] == [bumpB][0] == bumpB;
    SeedLengthIs(a, c);
    SeedLengthIs(b, c);
    SameKind(a, b, c);
    SameParameters(a, b, c);
  }

  lemma SameKind(a: Key, b: Key, c: Cluster)
    requires Wide(c) && !a.External? && !b.External?
    requires SeedBytes(a, c) == SeedBytes(b, c)
    ensures SeedLength(a) == SeedLength(b)
    ensures a.AllocKey? <==> b.AllocKey?
    ensures a.LikesKey? <==> b.LikesKey?
  {
    SeedLengthIs(a, c);
    SeedLengthIs(b, c);
    assert a.AllocKey? ==> SeedBytes(a, c)[0] == 97;
    assert b.AllocKey? ==> SeedBytes(b, c)[0] == 97;
    assert a.LikesKey? ==> SeedBytes(a, c)[0] == 108;
    assert b.LikesKey? ==> SeedBytes(b, c)[0] == 108;
  }

  lemma SameParameters(a: Key, b: Key, c: Cluster)
    requires Wide(c) && !a.External? && !b.External? && Ranged(a) && Ranged(b)
    requires SeedBytes(a, c) == SeedBytes(b, c)
    requires SeedLength(a) == SeedLength(b)
    requires a.AllocKey? <==> b.AllocKey?
    requires a.LikesKey? <==> b.LikesKey?
    ensures SameSeeds(a, b, c)
  {
    match a
    case SettingsKey =>
    case AllocKey(t, p) =>
      SplitThread(ALLOC_SEED, Address(t, c), LE(p, 4), Address(b.thread, c), LE(b.page, 4));
      LEInjective(p, b.page, 4);
    case AccessKey(t) =>
      SplitOnly(ACCESS_SEED, Address(t, c), Address(b.thread, c));
    case EntryKey(t, w) =>
      SplitThread(ACL_SEED, Address(t, c), Address(w, c), Address(b.thread, c), Address(b.wallet, c));
    case LikesKey(t, p) =>
      SplitThread(LIKES_SEED, Address(t, c), LE(p, 4), Address(b.thread, c), LE(b.page, 4));
      LEInjective(p, b.page, 4);
    case TreasuryKey(j) =>
      SplitOnly(TREASURY_SHARD_SEED, LE(j, 2), LE(b.shard, 2));
      LEInjective(j, b.shard, 2);
    case AuthorKey(t, j) =>
      SplitThread(AUTHOR_FEE_SEED, Address(t, c), LE(j, 1), Address(b.thread, c), LE(b.shard, 1));
      LEInjective(j, b.shard, 1);
    case RegistryKey(o) =>
      SplitOnly(FOLLOWS_SEED, Address(o, c), Address(b.owner, c));
    case FollowerKey(t, j) =>
      SplitThread(FOLLOWER_COUNT_SEED, Address(t, c), LE(j, 1), Address(b.thread, c), LE(b.shard, 1));
      LEInjective(j, b.shard, 1);
    case ContentKey(t, p, j) =>
      SplitConcat(CONTENT_SEED + Address(t, c) + LE(p, 4), LE(j, 1),
                  CONTENT_SEED + Address(b.thread, c) + LE(b.page, 4), LE(b.slot, 1));
      SplitThread(CONTENT_SEED, Address(t, c), LE(p, 4), Address(b.thread, c), LE(b.page, 4));
      LEInjective(p, b.page, 4);
      LEInjective(j, b.slot, 1);
  }

  // ---- one table for the address space ----

  /** The addresses a derived address is computed from. */
  function Parents(k: Key): set<Key> {
    match k
    case External(_) => {}
    case SettingsKey => {}
    case AllocKey(t, _) => {t}
    case AccessKey(t) => {t}
    case EntryKey(t, w) => {t, w}
    case LikesKey(t, _) => {t}
    case TreasuryKey(_) => {}
    case AuthorKey(t, _) => {t}
    case RegistryKey(o) => {o}
    case FollowerKey(t, _) => {t}
    case ContentKey(t, _, _) => {t}
  }

  function Preimage(k: Key, c: Cluster): Bytes
    requires !k.External?
  {
    SeedBytes(k, c) + [c.bump(SeedBytes(k, c))]
  }

  /** The one cryptographic assumption: among the finitely many addresses in use, which include
      the parents of derived ones, no two outside addresses coincide, no digest collides with
      another, and none hits an outside address. */
  ghost predicate CollisionFree(c: Cluster, used: set<Key>) {
    && (forall k | k in used :: Parents(k) <= used)
    && (forall a, b | a in used && b in used && a.External? && b.External? ::
          c.external(a.id) == c.external(b.id) ==> a == b)
    && (forall a, b | a in used && b in used && !a.External? && !b.External? ::
          Address(a, c) == Address(b, c) ==> Preimage(a, c) == Preimage(b, c))
    && (forall a, b | a in used && b in used && a.External? && !b.External? :: Address(a, c) != Address(b, c))
  }

  /** Distinct keys in use have distinct addresses, however deeply they are derived. */
  lemma {:induction false} AddressInjective(a: Key, b: Key, c: Cluster, used: set<Key>)
    requires Wide(c) && CollisionFree(c, used) && a in used && b in used && Ranged(a) && Ranged(b)
    requires Address(a, c) == Address(b, c)
    ensures a == b
    decreases a
  {
    hide SeedBytes, Wide;
    if !a.External? && !b.External? {
      SeedsUnambiguous(a, b, c, c.bump(SeedBytes(a, c)), c.bump(SeedBytes(b, c)));
      assert Parents(a) <= used && Parents(b) <= used;
      match a
      case EntryKey(t, w) =>
        AddressInjective(t, b.thread, c, used);
        AddressInjective(w, b.wallet, c, used);
      case RegistryKey(o) => AddressInjective(o, b.owner, c, used);
      case SettingsKey =>
      case TreasuryKey(_) =>
      case AllocKey(_, _) | AccessKey(_) | LikesKey(_, _) | AuthorKey(_, _) | FollowerKey(_, _) | ContentKey(_, _, _) =>
        AddressInjective(a.thread, b.thread, c, used);
    }
  }
}
