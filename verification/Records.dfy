/** The typed records the program stores in its accounts, and their sizes. */
module Records {
  import opened Keys

  /** `K` is the type of an address: `Key` in the ledger, 32 raw bytes on the wire.
      `Blank` is data the program never wrote (zeroes, or another program's bytes);
      `Vault` is the empty data of a fee shard. */
  datatype Record<K> =
    | Blank
    | Vault
    | Thread(allocCount: nat, lastPage: nat, author: K, messageFee: nat, likeFee: nat, title: Bytes)
    | Alloc(thread: K, page: nat)
    | Settings(admin: K, treasury: K, baseFeeBps: nat, authorCutBps: nat, entryCutBps: nat, likeCutBps: nat)
    | Access(thread: K, enabled: bool, admin: K, entryFee: nat, whitelistCount: nat)
    | Entry(thread: K, wallet: K, status: nat)
    | Likes(page: nat, counts: seq<nat>)
    | Registry(owner: K, channels: seq<K>)
    | Follower(thread: K, shard: nat, count: nat)
    | Content(page: nat, slot: nat, thread: K, author: K, createdAt: int,
              replyPage: nat, replySlot: nat, kind: nat, body: Bytes)

  const ALLOC_SIZE: nat := 1 + 32 + 4
  const SETTINGS_SIZE: nat := 1 + 32 + 32 + 4 * 4
  const ACCESS_SIZE: nat := 1 + 32 + 1 + 32 + 8 + 4
  const ENTRY_SIZE: nat := 1 + 32 + 32 + 1
  const LIKES_SIZE: nat := 1 + 4 + 4 * CONTENT_SLOTS
  const FOLLOWER_SIZE: nat := 1 + 32 + 1 + 8
  const HEADER_SIZE: nat := 1 + 4 + 1 + 32 + 32 + 8 + 4 + 1

  function ThreadSize(titleLen: nat): nat { 1 + 4 + 4 + 32 + 8 + 8 + 4 + titleLen }

  function RegistrySize(channels: nat): nat { 1 + 32 + 4 + channels * 32 }

  function ContentSize(bodyLen: nat): nat { HEADER_SIZE + 2 + 4 + bodyLen }

  function Size<K>(r: Record<K>): nat {
    match r
    case Blank => 0
    case Vault => 0
    case Thread(_, _, _, _, _, title) => ThreadSize(|title|)
    case Alloc(_, _) => ALLOC_SIZE
    case Settings(_, _, _, _, _, _) => SETTINGS_SIZE
    case Access(_, _, _, _, _) => ACCESS_SIZE
    case Entry(_, _, _) => ENTRY_SIZE
    case Likes(_, _) => LIKES_SIZE
    case Registry(_, channels) => RegistrySize(|channels|)
    case Follower(_, _, _) => FOLLOWER_SIZE
    case Content(_, _, _, _, _, _, _, _, body) => ContentSize(|body|)
  }
}
