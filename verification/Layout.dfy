/** Byte layout of every record, and the loaders' decoding of it. */
module Layout {
  import opened Keys
  import opened Records
  import opened Wire

  type Raw = Record<Bytes>

  const U16_MAX: nat := 0xFFFF
  const I64_SPAN: nat := 0x1_0000_0000_0000_0000
  const I64_HALF: nat := 0x8000_0000_0000_0000

  predicate IsKey(b: Bytes) { |b| == 32 }

  /** The record uses the field widths of the stored structs. */
  predicate Fits(r: Raw) {
    match r
    case Blank => false
    case Vault => false
    case Thread(c, p, a, m, l, title) =>
      c <= U32_MAX && p <= U32_MAX && IsKey(a) && m <= U64_MAX && l <= U64_MAX && |title| <= U32_MAX
    case Alloc(t, p) => IsKey(t) && p <= U32_MAX
    case Settings(a, t, b1, b2, b3, b4) =>
      IsKey(a) && IsKey(t) && b1 <= U32_MAX && b2 <= U32_MAX && b3 <= U32_MAX && b4 <= U32_MAX
    case Access(t, _, a, f, w) => IsKey(t) && IsKey(a) && f <= U64_MAX && w <= U32_MAX
    case Entry(t, w, s) => IsKey(t) && IsKey(w) && s <= 0xFF
    case Likes(p, counts) =>
      p <= U32_MAX && |counts| == CONTENT_SLOTS && forall i :: 0 <= i < |counts| ==> counts[i] <= U32_MAX
    case Registry(o, channels) =>
      IsKey(o) && |channels| <= U32_MAX && forall i :: 0 <= i < |channels| ==> IsKey(channels[i])
    case Follower(t, j, n) => IsKey(t) && j <= 0xFF && n <= U64_MAX
    case Content(p, j, t, a, at, rp, rj, k, body) =>
      && p <= U32_MAX && j <= 0xFF && IsKey(t) && IsKey(a) && -(I64_HALF as int) <= at < I64_HALF
      && rp <= U32_MAX && rj <= 0xFF && k <= U16_MAX && |body| <= U32_MAX
  }

  function FromSigned(x: int): nat
    requires -(I64_HALF as int) <= x < I64_HALF
  {
    if x < 0 then x + I64_SPAN else x
  }

  function ToSigned(n: nat): int { if n < I64_HALF then n else n - I64_SPAN }

  function WriteInts(xs: seq<nat>): Bytes {
    if xs == [] then [] else LE(xs[0], 4) + WriteInts(xs[1..])
  }

  function WriteKeys(ks: seq<Bytes>): Bytes {
    if ks == [] then [] else ks[0] + WriteKeys(ks[1..])
  }

  /** Tag byte and Borsh fields, followed by `rest`. */
  function Put(r: Raw, rest: Bytes): Bytes
    requires Fits(r)
  {
    match r
    case Thread(c, p, a, m, l, title) =>
      [3] + (LE(c, 4) + (LE(p, 4) + (a + (LE(m, 8) + (LE(l, 8) + (LE(|title|, 4) + (title + rest)))))))
    case Alloc(t, p) => [2] + (t + (LE(p, 4) + rest))
    case Settings(a, t, b1, b2, b3, b4) =>
      [5] + (a + (t + (LE(b1, 4) + (LE(b2, 4) + (LE(b3, 4) + (LE(b4, 4) + rest))))))
    case Access(t, e, a, f, w) =>
      [6] + (t + (LE(if e then 1 else 0, 1) + (a + (LE(f, 8) + (LE(w, 4) + rest)))))
    case Entry(t, w, s) => [9] + (t + (w + (LE(s, 1) + rest)))
    case Likes(p, counts) => [7] + (LE(p, 4) + (WriteInts(counts) + rest))
    case Registry(o, channels) => [10] + (o + (LE(|channels|, 4) + (WriteKeys(channels) + rest)))
    case Follower(t, j, n) => [11] + (t + (LE(j, 1) + (LE(n, 8) + rest)))
    case Content(p, j, t, a, at, rp, rj, k, body) =>
      [1] + (LE(p, 4) + (LE(j, 1) + (t + (a + (LE(FromSigned(at), 8) + (LE(rp, 4) + (LE(rj, 1)
        + (LE(k, 2) + (LE(|body|, 4) + (body + rest))))))))))
  }

  function Encode(r: Raw): Bytes
    requires Fits(r)
  {
    Put(r, [])
  }

  // ---- decoding ----

  datatype Parse<T> = Failed | Parsed(value: T, rest: Bytes) {
    predicate IsFailure() { Failed? }

    function PropagateFailure<U>(): Parse<U>
      requires Failed?
    {
      Failed
    }

    function Extract(): (T, Bytes)
      requires Parsed?
    {
      (value, rest)
    }
  }

  function ReadBytes(bs: Bytes, n: nat): Parse<Bytes> {
    if |bs| < n then Failed else Parsed(bs[..n], bs[n..])
  }

  function ReadInt(bs: Bytes, w: nat): Parse<nat> {
    if |bs| < w then Failed else Parsed(FromLE(bs[..w]), bs[w..])
  }

  function ReadInts(bs: Bytes, n: nat): Parse<seq<nat>> {
    if n == 0 then Parsed([], bs)
    else
      var (x, r1) :- ReadInt(bs, 4);
      var (xs, r2) :- ReadInts(r1, n - 1);
      Parsed([x] + xs, r2)
  }

  function ReadKeys(bs: Bytes, n: nat): Parse<seq<Bytes>> {
    if n == 0 then Parsed([], bs)
    else
      var (k, r1) :- ReadBytes(bs, 32);
      var (ks, r2) :- ReadKeys(r1, n - 1);
      Parsed([k] + ks, r2)
  }

  function ReadVec(bs: Bytes): Parse<Bytes> {
    var (n, r) :- ReadInt(bs, 4);
    ReadBytes(r, n)
  }

  function ReadThread(bs: Bytes): Parse<Raw> {
    var (c, r1) :- ReadInt(bs, 4);
    var (p, r2) :- ReadInt(r1, 4);
    var (a, r3) :- ReadBytes(r2, 32);
    var (m, r4) :- ReadInt(r3, 8);
    var (l, r5) :- ReadInt(r4, 8);
    var (title, r6) :- ReadVec(r5);
    Parsed(Thread(c, p, a, m, l, title), r6)
  }

  function ReadAlloc(bs: Bytes): Parse<Raw> {
    var (t, r1) :- ReadBytes(bs, 32);
    var (p, r2) :- ReadInt(r1, 4);
    Parsed(Alloc(t, p), r2)
  }

  function ReadSettings(bs: Bytes): Parse<Raw> {
    var (a, r1) :- ReadBytes(bs, 32);
    var (t, r2) :- ReadBytes(r1, 32);
    var (b1, r3) :- ReadInt(r2, 4);
    var (b2, r4) :- ReadInt(r3, 4);
    var (b3, r5) :- ReadInt(r4, 4);
    var (b4, r6) :- ReadInt(r5, 4);
    Parsed(Settings(a, t, b1, b2, b3, b4), r6)
  }

  function ReadAccess(bs: Bytes): Parse<Raw> {
    var (t, r1) :- ReadBytes(bs, 32);
    var (e, r2) :- ReadInt(r1, 1);
    if e > 1 then Failed
    else
      var (a, r3) :- ReadBytes(r2, 32);
      var (f, r4) :- ReadInt(r3, 8);
      var (w, r5) :- ReadInt(r4, 4);
      Parsed(Access(t, e == 1, a, f, w), r5)
  }

  function ReadEntry(bs: Bytes): Parse<Raw> {
    var (t, r1) :- ReadBytes(bs, 32);
    var (w, r2) :- ReadBytes(r1, 32);
    var (s, r3) :- ReadInt(r2, 1);
    Parsed(Entry(t, w, s), r3)
  }

  function ReadLikes(bs: Bytes): Parse<Raw> {
    var (p, r1) :- ReadInt(bs, 4);
    var (counts, r2) :- ReadInts(r1, CONTENT_SLOTS);
    Parsed(Likes(p, counts), r2)
  }

  function ReadRegistry(bs: Bytes): Parse<Raw> {
    var (o, r1) :- ReadBytes(bs, 32);
    var (n, r2) :- ReadInt(r1, 4);
    var (channels, r3) :- ReadKeys(r2, n);
    Parsed(Registry(o, channels), r3)
  }

  function ReadFollower(bs: Bytes): Parse<Raw> {
    var (t, r1) :- ReadBytes(bs, 32);
    var (j, r2) :- ReadInt(r1, 1);
    var (n, r3) :- ReadInt(r2, 8);
    Parsed(Follower(t, j, n), r3)
  }

  function ReadContent(bs: Bytes): Parse<Raw> {
    var (p, r1) :- ReadInt(bs, 4);
    var (j, r2) :- ReadInt(r1, 1);
    var (t, r3) :- ReadBytes(r2, 32);
    var (a, r4) :- ReadBytes(r3, 32);
    var (at, r5) :- ReadInt(r4, 8);
    var (rp, r6) :- ReadInt(r5, 4);
    var (rj, r7) :- ReadInt(r6, 1);
    var (k, r8) :- ReadInt(r7, 2);
    var (body, r9) :- ReadVec(r8);
    Parsed(Content(p, j, t, a, ToSigned(at), rp, rj, k, body), r9)
  }

  /** Reads one record off the front of a buffer, dispatching on its tag byte. */
  function Get(bs: Bytes): Parse<Raw> {
    var (tag, r) :- ReadInt(bs, 1);
    match tag
    case 1 => ReadContent(r)
    case 2 => ReadAlloc(r)
    case 3 => ReadThread(r)
    case 5 => ReadSettings(r)
    case 6 => ReadAccess(r)
    case 7 => ReadLikes(r)
    case 9 => ReadEntry(r)
    case 10 => ReadRegistry(r)
    case 11 => ReadFollower(r)
    case _ => Failed
  }

  /** Serialising into an account buffer overwrites its front and keeps its tail. */
  function Overwrite(buffer: Bytes, bs: Bytes): Bytes
    requires |bs| <= |buffer|
  {
    bs + buffer[|bs|..]
  }

  // ---- reading back what was written ----

  lemma IntBack(n: nat, w: nat, rest: Bytes)
    requires n < Pow256(w)
    ensures ReadInt(LE(n, w) + rest, w) == Parsed(n, rest)
  {
    LERoundTrip(n, w);
    assert (LE(n, w) + rest)[..w] == LE(n, w);
    assert (LE(n, w) + rest)[w..] == rest;
  }

  lemma BytesBack(b: Bytes, rest: Bytes)
    ensures ReadBytes(b + rest, |b|) == Parsed(b, rest)
  {
    assert (b + rest)[..|b|] == b;
    assert (b + rest)[|b|..] == rest;
  }

  lemma VecBack(b: Bytes, rest: Bytes)
    requires |b| <= U32_MAX
    ensures ReadVec(LE(|b|, 4) + (b + rest)) == Parsed(b, rest)
  {
    IntBack(|b|, 4, b + rest);
    BytesBack(b, rest);
  }

  lemma {:induction false} IntsBack(xs: seq<nat>, rest: Bytes)
    requires forall i :: 0 <= i < |xs| ==> xs[i] <= U32_MAX
    ensures |WriteInts(xs)| == 4 * |xs|
    ensures ReadInts(WriteInts(xs) + rest, |xs|) == Parsed(xs, rest)
  {
    if xs == [] {
      assert WriteInts(xs) + rest == rest;
    } else {
      IntsBack(xs[1..], rest);
      IntBack(xs[0], 4, WriteInts(xs[1..]) + rest);
      assert WriteInts(xs) + rest == LE(xs[0], 4) + (WriteInts(xs[1..]) + rest);
      assert [xs[0]] + xs[1..] == xs;
    }
  }

  lemma {:induction false} KeysBack(ks: seq<Bytes>, rest: Bytes)
    requires forall i :: 0 <= i < |ks| ==> IsKey(ks[i])
    ensures |WriteKeys(ks)| == 32 * |ks|
    ensures ReadKeys(WriteKeys(ks) + rest, |ks|) == Parsed(ks, rest)
  {
    if ks == [] {
      assert WriteKeys(ks) + rest == rest;
    } else {
      KeysBack(ks[1..], rest);
      BytesBack(ks[0], WriteKeys(ks[1..]) + rest);
      assert WriteKeys(ks) + rest == ks[0] + (WriteKeys(ks[1..]) + rest);
      assert [ks[0]] + ks[1..] == ks;
    }
  }

  lemma TagBack(tag: byte, rest: Bytes)
    ensures ReadInt([tag] + rest, 1) == Parsed(tag, rest)
  {
    assert ([tag] + rest)[..1] == [tag];
    assert ([tag] + rest)[1..] == rest;
    assert FromLE([tag]) == tag;
  }

  lemma ThreadBack(r: Raw, rest: Bytes)
    requires Fits(r) && r.Thread?
    ensures Get(Put(r, rest)) == Parsed(r, rest)
  {
    var e6 := LE(|r.title|, 4) + (r.title + rest);
    var e5 := LE(r.likeFee, 8) + e6;
    var e4 := LE(r.messageFee, 8) + e5;
    var e3 := r.author + e4;
    var e2 := LE(r.lastPage, 4) + e3;
    var e1 := LE(r.allocCount, 4) + e2;
    TagBack(3, e1);
    IntBack(r.allocCount, 4, e2);
    IntBack(r.lastPage, 4, e3);
    BytesBack(r.author, e4);
    IntBack(r.messageFee, 8, e5);
    IntBack(r.likeFee, 8, e6);
    VecBack(r.title, rest);
  }

  lemma SettingsBack(r: Raw, rest: Bytes)
    requires Fits(r) && r.Settings?
    ensures Get(Put(r, rest)) == Parsed(r, rest)
  {
    var e5 := LE(r.likeCutBps, 4) + rest;
    var e4 := LE(r.entryCutBps, 4) + e5;
    var e3 := LE(r.authorCutBps, 4) + e4;
    var e2 := LE(r.baseFeeBps, 4) + e3;
    var e1 := r.treasury + e2;
    TagBack(5, r.admin + e1);
    BytesBack(r.admin, e1);
    BytesBack(r.treasury, e2);
    IntBack(r.baseFeeBps, 4, e3);
    IntBack(r.authorCutBps, 4, e4);
    IntBack(r.entryCutBps, 4, e5);
    IntBack(r.likeCutBps, 4, rest);
  }

  lemma AccessBack(r: Raw, rest: Bytes)
    requires Fits(r) && r.Access?
    ensures Get(Put(r, rest)) == Parsed(r, rest)
  {
    var flag: nat := if r.enabled then 1 else 0;
    var e4 := LE(r.whitelistCount, 4) + rest;
    var e3 := LE(r.entryFee, 8) + e4;
    var e2 := r.admin + e3;
    var e1 := LE(flag, 1) + e2;
    TagBack(6, r.thread + e1);
    BytesBack(r.thread, e1);
    IntBack(flag, 1, e2);
    BytesBack(r.admin, e3);
    IntBack(r.entryFee, 8, e4);
    IntBack(r.whitelistCount, 4, rest);
  }

  lemma ContentBack(r: Raw, rest: Bytes)
    requires Fits(r) && r.Content?
    ensures Get(Put(r, rest)) == Parsed(r, rest)
  {
    var e8 := LE(|r.body|, 4) + (r.body + rest);
    var e7 := LE(r.kind, 2) + e8;
    var e6 := LE(r.replySlot, 1) + e7;
    var e5 := LE(r.replyPage, 4) + e6;
    var e4 := LE(FromSigned(r.createdAt), 8) + e5;
    var e3 := r.author + e4;
    var e2 := r.thread + e3;
    var e1 := LE(r.slot, 1) + e2;
    TagBack(1, LE(r.page, 4) + e1);
    IntBack(r.page, 4, e1);
    IntBack(r.slot, 1, e2);
    BytesBack(r.thread, e3);
    BytesBack(r.author, e4);
    IntBack(FromSigned(r.createdAt), 8, e5);
    IntBack(r.replyPage, 4, e6);
    IntBack(r.replySlot, 1, e7);
    IntBack(r.kind, 2, e8);
    VecBack(r.body, rest);
  }

  lemma LikesBack(r: Raw, rest: Bytes)
    requires Fits(r) && r.Likes?
    ensures Get(Put(r, rest)) == Parsed(r, rest)
  {
    var e := WriteInts(r.counts) + rest;
    TagBack(7, LE(r.page, 4) + e);
    IntBack(r.page, 4, e);
    IntsBack(r.counts, rest);
  }

  lemma AllocBack(r: Raw, rest: Bytes)
    requires Fits(r) && r.Alloc?
    ensures Get(Put(r, rest)) == Parsed(r, rest)
  {
    var e := LE(r.page, 4) + rest;
    TagBack(2, r.thread + e);
    BytesBack(r.thread, e);
    IntBack(r.page, 4, rest);
  }

  lemma EntryBack(r: Raw, rest: Bytes)
    requires Fits(r) && r.Entry?
    ensures Get(Put(r, rest)) == Parsed(r, rest)
  {
    var e2 := LE(r.status, 1) + rest;
    var e1 := r.wallet + e2;
    TagBack(9, r.thread + e1);
    BytesBack(r.thread, e1);
    BytesBack(r.wallet, e2);
    IntBack(r.status, 1, rest);
  }

  lemma RegistryBack(r: Raw, rest: Bytes)
    requires Fits(r) && r.Registry?
    ensures Get(Put(r, rest)) == Parsed(r, rest)
  {
    var e2 := WriteKeys(r.channels) + rest;
    var e1 := LE(|r.channels|, 4) + e2;
    TagBack(10, r.owner + e1);
    BytesBack(r.owner, e1);
    IntBack(|r.channels|, 4, e2);
    KeysBack(r.channels, rest);
  }

  lemma FollowerBack(r: Raw, rest: Bytes)
    requires Fits(r) && r.Follower?
    ensures Get(Put(r, rest)) == Parsed(r, rest)
  {
    var e2 := LE(r.count, 8) + rest;
    var e1 := LE(r.shard, 1) + e2;
    TagBack(11, r.thread + e1);
    BytesBack(r.thread, e1);
    IntBack(r.shard, 1, e2);
    IntBack(r.count, 8, rest);
  }

  /** Decoding a written record gives it back and leaves exactly the bytes after it. */
  lemma RoundTrip(r: Raw, rest: Bytes)
    requires Fits(r)
    ensures Get(Put(r, rest)) == Parsed(r, rest)
  {
    match r
    case Thread(_, _, _, _, _, _) => ThreadBack(r, rest);
    case Alloc(_, _) => AllocBack(r, rest);
    case Settings(_, _, _, _, _, _) => SettingsBack(r, rest);
    case Access(_, _, _, _, _) => AccessBack(r, rest);
    case Entry(_, _, _) => EntryBack(r, rest);
    case Likes(_, _) => LikesBack(r, rest);
    case Registry(_, _) => RegistryBack(r, rest);
    case Follower(_, _, _) => FollowerBack(r, rest);
    case Content(_, _, _, _, _, _, _, _, _) => ContentBack(r, rest);
  }

  /** The `size` formulas are the encoded lengths, byte for byte. */
  lemma EncodedSize(r: Raw, rest: Bytes)
    requires Fits(r)
    ensures |Put(r, rest)| == Size(r) + |rest|
  {
    if r.Likes? {
      IntsBack(r.counts, rest);
    } else if r.Registry? {
      KeysBack(r.channels, rest);
    }
  }

  /** A rewrite of an account sized for the new record leaves no stale byte: a strict
      loader reads back the new record, and nothing else is in the buffer. */
  lemma RewriteLeavesNothing(buffer: Bytes, r: Raw)
    requires Fits(r) && |buffer| == Size(r)
    ensures |Encode(r)| == |buffer|
    ensures Overwrite(buffer, Encode(r)) == Encode(r)
    ensures Get(Overwrite(buffer, Encode(r))) == Parsed(r, [])
  {
    EncodedSize(r, []);
    RoundTrip(r, []);
    assert Encode(r) + buffer[|Encode(r)|..] == Encode(r);
  }

  /** No byte string encodes two records, so no account can be read as another type. */
  lemma EncodingUnambiguous(a: Raw, b: Raw)
    requires Fits(a) && Fits(b) && Encode(a) == Encode(b)
    ensures a == b
  {
    RoundTrip(a, []);
    RoundTrip(b, []);
  }
}
