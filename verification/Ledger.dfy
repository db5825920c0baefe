/** The account table the program runs on, and the checks its loaders make. */
module Ledger {
  import opened Keys
  import opened Records

  datatype Error =
    | TextTooLong | InvalidCandidateCount | AccountOwnerMismatch | AccountAlreadyInitialized
    | InvalidAccountData | NoFreeSlot | InvalidShard | ThreadMismatch | InvalidPda | Unauthorized
    | InvalidTreasury | AccessDenied | AccessListDuplicate | AccessListMissing | InvalidFeeBps
    | InvalidAuthor | ZeroEntryFee | InvalidSlot | InvalidAllocSeq | NothingToSweep
    | AppendWindowExpired | FeeExceedsMax | AlreadyFollowing | NotFollowing | FollowListFull
    | InsufficientFunds   // System Program: the payer cannot fund a transfer
    | AccountInUse        // System Program: create_account on a funded address

  /** The result of a fallible step; `:-` plays the part of Rust's `?`. */
  datatype Outcome = Done | Fail(error: Error) {
    predicate IsFailure() { Fail? }

    function PropagateFailure(): Outcome
      requires Fail?
    {
      this
    }
  }

  function Need(condition: bool, error: Error): Outcome {
    if condition then Done else Fail(error)
  }

  datatype Owner = System | Program | Foreign

  /** Owner, data length and data. The first `Size(data)` bytes of the buffer encode `data`. */
  datatype Account = Account(owner: Owner, len: nat, data: Record<Key>)

  type Accounts = map<Key, Account>

  /** Balances: the multiplicity of a key is its lamports, so `|lam|` is the supply. */
  type Lamports = multiset<Key>

  /** `info` holds every account that is not system-owned and empty. */
  datatype State = State(lam: Lamports, info: Accounts, now: int)

  /** System-owned and empty: what `is_uninitialized` tests. */
  predicate Fresh(info: Accounts, k: Key) {
    k !in info || (info[k].owner.System? && info[k].len == 0)
  }

  function Data(info: Accounts, k: Key): Record<Key> {
    if k in info then info[k].data else Blank
  }

  // ---- balances ----

  function Pay(lam: Lamports, from: Key, to: Key, amount: nat): Lamports
    requires amount <= lam[from]
  {
    var debited := lam[from := lam[from] - amount];
    debited[to := debited[to] + amount]
  }

  /** What one instruction charges its payer: the two fee vaults, and a deposit that makes
      the account it creates or grows rent exempt. */
  datatype Bill = Bill(payer: Key, treasuryIdx: nat, toTreasury: nat, thread: Key, authorIdx: nat, toAuthor: nat,
                       target: Key, deposit: nat) {
    function Total(): nat { toTreasury + toAuthor + deposit }

    predicate Payable(s: State) {
      payer.External? && payer != target && CanPay(s, payer, Total())
    }
  }

  function Settle(lam: Lamports, b: Bill): Lamports
    requires b.payer.External? && b.payer != b.target && b.Total() <= lam[b.payer]
  {
    var l1 := Pay(lam, b.payer, TreasuryKey(b.treasuryIdx), b.toTreasury);
    var l2 := Pay(l1, b.payer, AuthorKey(b.thread, b.authorIdx), b.toAuthor);
    Pay(l2, b.payer, b.target, b.deposit)
  }

  /** Every lamport a bill moves, address by address. */
  lemma SettleMoves(lam: Lamports, b: Bill)
    requires b.payer.External? && b.payer != b.target && b.Total() <= lam[b.payer]
    ensures |Settle(lam, b)| == |lam|
    ensures forall k :: Settle(lam, b)[k] == lam[k]
              + (if k == TreasuryKey(b.treasuryIdx) then b.toTreasury else 0)
              + (if k == AuthorKey(b.thread, b.authorIdx) then b.toAuthor else 0)
              + (if k == b.target then b.deposit else 0)
              - (if k == b.payer then b.Total() else 0)
  {
  }

  /** What an address still needs to be rent exempt at `len` bytes. */
  function TopUp(balance: nat, len: nat): (t: nat)
    ensures balance + t >= Rent(len)
  {
    if balance < Rent(len) then Rent(len) - balance else 0
  }

  /** System transfers succeed from a system-owned, data-free account that holds the money. */
  predicate CanPay(s: State, payer: Key, amount: nat) {
    amount == 0 || (Fresh(s.info, payer) && amount <= s.lam[payer])
  }

  function CheckPay(s: State, payer: Key, amount: nat): Outcome {
    Need(CanPay(s, payer, amount), InsufficientFunds)
  }

  lemma BalanceWithinSupply(lam: Lamports, a: Key, b: Key)
    requires a != b
    ensures lam[a] + lam[b] <= |lam|
  {
    assert |lam[a := 0][b := 0]| == |lam| - lam[a] - lam[b];
  }

  // ---- fresh program accounts ----

  function Created(data: Record<Key>): Account {
    Account(Program, Size(data), data)
  }

  /** Lamports needed to open the fee vault `k`, which may already hold some. */
  function OpeningCost(s: State, k: Key): nat {
    if Fresh(s.info, k) then TopUp(s.lam[k], 0) else 0
  }

  function WithVault(info: Accounts, k: Key): Accounts {
    if Fresh(info, k) then info[k := Created(Vault)] else info
  }

  // ---- loaders ----

  function CheckOwned(info: Accounts, k: Key): Outcome {
    Need(k in info && info[k].owner.Program?, AccountOwnerMismatch)
  }

  function CheckThread(info: Accounts, k: Key): Outcome {
    var owned := CheckOwned(info, k);
    :- owned;
    Need(info[k].data.Thread? && info[k].len == Size(info[k].data), InvalidAccountData)
  }

  function CheckSettings(info: Accounts): Outcome {
    var owned := CheckOwned(info, SettingsKey);
    :- owned;
    Need(info[SettingsKey].data.Settings? && info[SettingsKey].len == SETTINGS_SIZE, InvalidAccountData)
  }

  function CheckAlloc(info: Accounts, k: Key): Outcome {
    var owned := CheckOwned(info, k);
    :- owned;
    :- Need(info[k].data.Alloc? && info[k].len == ALLOC_SIZE, InvalidAccountData);
    Need(k == AllocKey(info[k].data.thread, info[k].data.page), InvalidPda)
  }

  function CheckContent(info: Accounts, k: Key): Outcome {
    var owned := CheckOwned(info, k);
    :- owned;
    :- Need(info[k].data.Content? && info[k].len == Size(info[k].data), InvalidAccountData);
    var c := info[k].data;
    Need(k == ContentKey(c.thread, c.page, c.slot), InvalidPda)
  }

  /** The access record and the entries are read without a check for trailing bytes. */
  function CheckAccess(info: Accounts, k: Key): Outcome {
    var owned := CheckOwned(info, k);
    :- owned;
    Need(info[k].data.Access? && ACCESS_SIZE <= info[k].len, InvalidAccountData)
  }

  function CheckAdminAccess(info: Accounts, admin: Key, k: Key): Outcome {
    var access := CheckAccess(info, k);
    :- access;
    :- Need(info[k].data.admin == admin, Unauthorized);
    Need(k == AccessKey(info[k].data.thread), InvalidPda)
  }

  function CheckBoundEntry(info: Accounts, k: Key, thread: Key, wallet: Key): Outcome {
    var owned := CheckOwned(info, k);
    :- owned;
    :- Need(info[k].data.Entry? && ENTRY_SIZE <= info[k].len, InvalidAccountData);
    Need(info[k].data.thread == thread && info[k].data.wallet == wallet, ThreadMismatch)
  }

  function CheckLikes(info: Accounts, k: Key): Outcome {
    var owned := CheckOwned(info, k);
    :- owned;
    Need(info[k].data.Likes? && info[k].len == LIKES_SIZE && |info[k].data.counts| == CONTENT_SLOTS,
         InvalidAccountData)
  }

  function CheckRegistry(info: Accounts, k: Key, owner: Key): Outcome {
    var owned := CheckOwned(info, k);
    :- owned;
    :- Need(info[k].data.Registry? && info[k].len == Size(info[k].data), InvalidAccountData);
    Need(info[k].data.owner == owner, Unauthorized)
  }

  function CheckBoundFollower(info: Accounts, k: Key, thread: Key, shard: nat): Outcome {
    var owned := CheckOwned(info, k);
    :- owned;
    :- Need(info[k].data.Follower? && info[k].len == FOLLOWER_SIZE, InvalidAccountData);
    Need(info[k].data.thread == thread && info[k].data.shard == shard, ThreadMismatch)
  }
}
