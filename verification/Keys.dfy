/** Addresses, numeric bounds and the cluster's rent schedule. */
module Keys {
  type byte = n: nat | n < 256
  type Bytes = seq<byte>

  const U32_MAX: nat := 0xFFFF_FFFF
  const U64_MAX: nat := 0xFFFF_FFFF_FFFF_FFFF

  /** A clock reading is a signed 64-bit number of seconds. */
  predicate IsTime(t: int) { -0x8000_0000_0000_0000 <= t < 0x8000_0000_0000_0000 }

  const CONTENT_SLOTS: nat := 32
  const MAX_BODY_LEN: nat := 8192
  const MAX_TITLE_LEN: nat := 64
  const N_TREASURY_SHARDS: nat := 512
  const N_AUTHOR_FEE_SHARDS: nat := 4
  const N_FOLLOWER_SHARDS: nat := 8
  const MAX_FOLLOWS: nat := 1000
  const MAX_FEE_CUT_BPS: nat := 5000
  const BPS: nat := 10_000
  const APPEND_WINDOW_SECS: int := 120

  const ACCESS_ALLOWED: nat := 0
  const ACCESS_DENIED: nat := 1
  const ACCESS_FEE_EXEMPT: nat := 2

  /** An account address. `External` is any address the program does not derive:
      key pairs and the addresses of other programs. Every other constructor is
      the program-derived address for one seed layout; module Seeds shows that
      the layouts keep these constructors apart. */
  datatype Key =
    | External(id: nat)
    | SettingsKey
    | AllocKey(thread: Key, page: nat)
    | AccessKey(thread: Key)
    | EntryKey(thread: Key, wallet: Key)
    | LikesKey(thread: Key, page: nat)
    | TreasuryKey(shard: nat)
    | AuthorKey(thread: Key, shard: nat)
    | RegistryKey(owner: Key)
    | FollowerKey(thread: Key, shard: nat)
    | ContentKey(thread: Key, page: nat, slot: nat)

  /** The two kinds of fee vault. */
  predicate IsVault(k: Key) {
    k.TreasuryKey? || k.AuthorKey?
  }

  /** First byte of an address. Nothing is assumed about it. */
  const FIRST_BYTE: Key -> byte

  /** The follower-counter shard a wallet writes to. */
  function FollowerShardIndex(wallet: Key): (j: nat)
    ensures j < N_FOLLOWER_SHARDS
  {
    FIRST_BYTE(wallet) % N_FOLLOWER_SHARDS
  }

  /** The longest data an account can hold. */
  const MAX_ACCOUNT_LEN: nat := 10 * 1024 * 1024

  /** A cluster's rent schedule: positive, 64 bits wide and monotone in the data length,
      otherwise arbitrary. */
  type PriceList = p: seq<nat> |
      |p| == MAX_ACCOUNT_LEN + 1 && 0 < p[0] && p[MAX_ACCOUNT_LEN] <= U64_MAX
      && (forall a, b :: 0 <= a <= b < |p| ==> p[a] <= p[b])
    witness seq(MAX_ACCOUNT_LEN + 1, n => 128 + n)

  const RENT: PriceList

  /** Minimum rent-exempt balance for `len` bytes of data. */
  function Rent(len: nat): (r: nat)
    ensures 0 < r <= U64_MAX
  {
    RENT[if len <= MAX_ACCOUNT_LEN then len else MAX_ACCOUNT_LEN]
  }

  lemma RentMonotone(a: nat, b: nat)
    requires a <= b
    ensures Rent(a) <= Rent(b)
  {
  }
}
