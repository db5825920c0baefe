/** The account table and the bytes on chain: what the strict loaders rely on. */
module Storage {
  import opened Keys
  import opened Records
  import opened Seeds
  import opened Layout
  import opened Ledger
  import opened Invariant
  import opened Runs

  function Addresses(ks: seq<Key>, c: Cluster): seq<Bytes> {
    seq(|ks|, i requires 0 <= i < |ks| => Address(ks[i], c))
  }

  /** The record as it is stored, with every address replaced by its 32 bytes. */
  function Stored(r: Record<Key>, c: Cluster): Raw {
    match r
    case Blank => Blank
    case Vault => Vault
    case Thread(n, p, a, m, l, title) => Thread(n, p, Address(a, c), m, l, title)
    case Alloc(t, p) => Alloc(Address(t, c), p)
    case Settings(a, t, b1, b2, b3, b4) => Settings(Address(a, c), Address(t, c), b1, b2, b3, b4)
    case Access(t, e, a, f, w) => Access(Address(t, c), e, Address(a, c), f, w)
    case Entry(t, w, x) => Entry(Address(t, c), Address(w, c), x)
    case Likes(p, counts) => Likes(p, counts)
    case Registry(o, ks) => Registry(Address(o, c), Addresses(ks, c))
    case Follower(t, j, n) => Follower(Address(t, c), j, n)
    case Content(p, j, t, a, at, rp, rj, k, body) => Content(p, j, Address(t, c), Address(a, c), at, rp, rj, k, body)
  }

  lemma PageFits(info: Accounts, t: Key, p: nat)
    requires Typed(info) && HasPage(info, t, p)
    ensures p <= U32_MAX
  {
    assert TypedAt(t, info[t]);
  }

  /** A bound record on an existing page has the field widths of its struct. */
  lemma BoundFits(k: Key, r: Record<Key>, c: Cluster)
    requires Wide(c) && Bound(k, r) && !r.Blank? && !r.Vault?
    requires k.AllocKey? || k.LikesKey? || k.ContentKey? ==> k.page <= U32_MAX
    ensures Fits(Stored(r, c)) && Size(Stored(r, c)) == Size(r)
  {
    forall x: Key
      ensures |Address(x, c)| == 32
    {
      AddressLength(x, c);
    }
    hide Address, Wide, NoDuplicates;
  }

  lemma PagesFit(info: Accounts, k: Key)
    requires Structure(info) && k in info && (k.AllocKey? || k.LikesKey? || k.ContentKey?)
    ensures k.page <= U32_MAX
  {
    assert Anchored(info, k);
    assert k.AllocKey? ==> HasPage(info, k.thread, k.page);
    PageFits(info, k.thread, k.page);
  }

  /** In a well-structured table every record fits its field widths and its account's size. */
  lemma RecordFits(info: Accounts, k: Key, c: Cluster)
    requires Structure(info) && Wide(c) && k in info && !info[k].data.Blank? && !info[k].data.Vault?
    ensures Fits(Stored(info[k].data, c)) && Size(Stored(info[k].data, c)) == info[k].len
  {
    assert TypedAt(k, info[k]);
    hide Structure, Fits, Stored, Bound, Size, Wide;
    if k.AllocKey? || k.LikesKey? || k.ContentKey? {
      PagesFit(info, k);
    }
    BoundFits(k, info[k].data, c);
  }

  /** In every reachable state, the bytes of every record account decode to that record with
      nothing left over, and fill the account exactly. */
  lemma EveryRecordReadsBack(h: History, k: Key, c: Cluster)
    requires Valid(h) && Wide(c)
    requires k in h.state.info && !h.state.info[k].data.Blank? && !h.state.info[k].data.Vault?
    ensures var raw := Stored(h.state.info[k].data, c);
            Fits(raw) && |Encode(raw)| == h.state.info[k].len && Get(Encode(raw)) == Parsed(raw, [])
  {
    ReachableInv(h);
    RecordFits(h.state.info, k, c);
    EncodedSize(Stored(h.state.info[k].data, c), []);
    RoundTrip(Stored(h.state.info[k].data, c), []);
  }

  /** The addresses a record mentions. */
  function Mentions(r: Record<Key>): set<Key> {
    match r
    case Blank => {}
    case Vault => {}
    case Thread(_, _, a, _, _, _) => {a}
    case Alloc(t, _) => {t}
    case Settings(a, t, _, _, _, _) => {a, t}
    case Access(t, _, a, _, _) => {t, a}
    case Entry(t, w, _) => {t, w}
    case Likes(_, _) => {}
    case Registry(o, ks) => {o} + (set k | k in ks)
    case Follower(t, _, _) => {t}
    case Content(_, _, t, a, _, _, _, _, _) => {t, a}
  }

  lemma SameChannels(xs: seq<Key>, ys: seq<Key>, c: Cluster, used: set<Key>)
    requires Wide(c) && CollisionFree(c, used) && (forall k | k in used :: Ranged(k))
    requires (forall k | k in xs :: k in used) && (forall k | k in ys :: k in used)
    requires Addresses(xs, c) == Addresses(ys, c)
    ensures xs == ys
  {
    assert |xs| == |Addresses(xs, c)| == |Addresses(ys, c)| == |ys|;
    forall i | 0 <= i < |xs|
      ensures xs[i] == ys[i]
    {
      assert Address(xs[i], c) == Addresses(xs, c)[i] == Addresses(ys, c)[i] == Address(ys[i], c);
      AddressInjective(xs[i], ys[i], c, used);
    }
  }

  /** The bytes determine the record: over collision-free addresses, two records stored in the
      same way are the same, so reading an account back is reading the table. */
  lemma BytesDetermineRecord(a: Record<Key>, b: Record<Key>, c: Cluster, used: set<Key>)
    requires Wide(c) && CollisionFree(c, used) && (forall k | k in used :: Ranged(k))
    requires Mentions(a) <= used && Mentions(b) <= used
    requires Fits(Stored(a, c)) && Fits(Stored(b, c)) && Encode(Stored(a, c)) == Encode(Stored(b, c))
    ensures a == b
  {
    EncodingUnambiguous(Stored(a, c), Stored(b, c));
    SameStored(a, b, c, used);
  }

  lemma SameStored(a: Record<Key>, b: Record<Key>, c: Cluster, used: set<Key>)
    requires Wide(c) && CollisionFree(c, used) && (forall k | k in used :: Ranged(k))
    requires Mentions(a) <= used && Mentions(b) <= used && Stored(a, c) == Stored(b, c)
    ensures a == b
  {
    match a
    case Blank =>
    case Vault =>
    case Thread(_, _, w, _, _, _) => AddressInjective(w, b.author, c, used);
    case Alloc(t, _) => AddressInjective(t, b.thread, c, used);
    case Settings(w, t, _, _, _, _) =>
      AddressInjective(w, b.admin, c, used);
      AddressInjective(t, b.treasury, c, used);
    case Access(t, _, w, _, _) =>
      AddressInjective(t, b.thread, c, used);
      AddressInjective(w, b.admin, c, used);
    case Entry(t, w, _) =>
      AddressInjective(t, b.thread, c, used);
      AddressInjective(w, b.wallet, c, used);
    case Likes(_, _) =>
    case Registry(o, ks) =>
      AddressInjective(o, b.owner, c, used);
      SameChannels(ks, b.channels, c, used);
    case Follower(t, _, _) => AddressInjective(t, b.thread, c, used);
    case Content(_, _, t, w, _, _, _, _, _) =>
      AddressInjective(t, b.thread, c, used);
      AddressInjective(w, b.author, c, used);
  }
}
