# txtcel on-chain program: a verified model

This project models the txtcel protocol, a Solana program that stores message threads, as one
transition system over a ledger of accounts, and proves what the protocol keeps over every run.

**State.** `Ledger.State` holds the balances (a multiset of addresses, so that its cardinality is
the total supply), the account table (owner, data length, typed record) and the clock. Addresses
are the constructors of `Keys.Key`, one for each seed layout; module `Seeds` proves from the seed
bytes that this is sound. The rent schedule is an arbitrary positive, monotone, 64-bit function of
the data length, and nothing is assumed of the first byte of a wallet, which selects its follower
shard.

**Steps.** `Instructions` gives, for each handler, the outcome with every error in source order and
the state after success. The handlers themselves are methods that change a `Chain.Bank` in place,
in the source's own order of checks, transfers, creations and writes (`Chain` and `Charges` for the
shared helpers, then `Threads`, `Posting`, `Appending`, `Liking`, `Joining`, `Following`,
`Sweeping`). Each is proved to return exactly that outcome and to leave exactly that state, and
`Entrypoint.Execute` adds the rollback of a failed transaction. `Entrypoint.Submit` shows that
executing instructions follows a `Runs.History`, so every theorem about runs holds of the accounts
in place.

**Runs.** A run interleaves successful instructions with clock ticks and with anything the rest of
the chain may do: move money, give lamports to any address including future program addresses,
create and delete outside accounts. `Runs.ReachableInv` is the inductive invariant. On it rest the
main theorems:

| theorem | module |
|---|---|
| the cached whitelist counter equals the number of ALLOWED entries, and the gate decides like a full scan | `Whitelist` |
| the eight follower counters of a channel count exactly the registries that hold it | `FollowIndex`, `FollowerTotals` |
| exact revenue accounting of every fee vault over every run | `Revenue`, `Sweep` |
| conservation, rent exemption, bounded cuts | `Money`, `Guarantees` |
| when each instruction is accepted, from the records alone, and that every error tells the truth | `Acceptance`, `Refusals` |
| who may change each record, and into what | `Authority`, `Guarantees` |
| every lamport an instruction moves, address by address, and where vaults pay out | `Prices`, `Balances`, `Debits`, `Guarantees` |
| bans and grants hold until the author edits them; members pay or are admitted | `Standing` |
| first-free posting, append-only messages, the dense page chain | `Messages` |
| chunked appends cost what one posting costs, to within one lamport each | `AppendFees` |
| a like counter is the number of likes since its last reset | `LikeCounts` |
| seed layouts and record layouts are unambiguous and round-trip | `Seeds`, `Layout`, `Storage` |

**Where code and comments differ** the model follows the code. `src/state/accounts.rs:179` says the
like count of a freed slot is reset; `src/processor/close_account.rs:67` does so only when the
likes account is supplied. `LikeCounts.FreedSlotIsResetIff` gives the exact condition and
`LikeCounts.StaleLikesSurvive` the consequence for the slot's next message. The comment on
`compute_fee_split` (`src/state/fees.rs:26-28`) says saturation keeps a split from minting lamports;
`FeeMath.SplitConservesIff` shows that a split conserves every amount exactly when the rate is at
most 100%. The whitelist counter is truncated to 32 bits (`src/state/loaders.rs:229-230`):
`Whitelist.CacheExactIff` gives the exact guard for each thread, readable before the call: its counter
stays right unless the instruction grants membership on it while the counter is full. Module `Scenarios` gives a
failing run for each: in `NewMessageInheritsLike` a message is posted, liked and closed without its
likes account, and the next message in the slot is born with one like; in `FullListReadsEmpty` the
grant that makes 2^32 members resets the counter, and the gate lets a stranger post. Both assume
only that the rents involved fit the supply.

## Model

| member | source | states |
|---|---|---|
| Entrypoint.Execute | src/lib.rs:50-136 | one transaction: the specified outcome; on success exactly the specified state, on failure the old state; the invariant holds either way |
| Entrypoint.Submit | src/lib.rs:50-136 | executing an instruction in place extends a valid run, and a failed one leaves no trace |
| Chain.Bank.CreatePda | src/state/account_utils.rs:116-174 | on both creation paths, for any prior balance: program-owned, of the requested size, holding max(balance, rent), the payer charged exactly what was missing |
| Chain.Bank.EnsureRentExempt | src/state/account_utils.rs:33-59 | the target is lifted to its rent and no further |
| Chain.Bank.CloseProgramAccount | src/state/account_utils.rs:72-83 | the whole balance reaches the recipient, the account is gone, and the overflow error is unreachable within the supply |
| Chain.Bank.EnsureShard | src/state/fees.rs:206-231 | a missing vault is opened for what its address lacks of the rent; an open one is left alone |
| Chain.Bank.EnsureBothShards | src/state/fees.rs:299-321 | treasury then author vault, judged as one payment of both openings |
| Chain.Bank.CollectFee | src/state/fees.rs:55-76 | charges max(amount, rent deficit), and nothing for a zero amount |
| Chain.CollectedIsExactIff | src/state/fees.rs:67 | the deficit branch leaves the charge alone exactly when the fee is zero or lifts the vault to its rent |
| Chain.Bank.CollectBaseFee | src/state/fees.rs:90-101 | on a funded vault the charge is exactly the floor of the rate, despite 128-bit saturation and 64-bit truncation |
| Chain.Bank.TransferFeeSplit | src/state/fees.rs:116-135 | the two legs together move exactly the amount, or the payment fails as one of the whole amount would |
| Chain.Bank.SweepShardExcess | src/state/fees.rs:388-402 | everything above the rent moves, also when recipient and vault coincide; the overflow error is unreachable |
| FeeMath.CutBounds | src/state/fees.rs:35-41 | the platform share is the floor of the rate, within the amount, and at most half of it under the 5000 cap |
| FeeMath.SplitIsExact | src/state/fees.rs:35-41 | up to 100% the machine split equals the exact floor split, sums to the amount, and under the cap gives the author at least half |
| FeeMath.SplitConservesIff | src/state/fees.rs:35-41 | a 32-bit rate splits every 64-bit amount without loss or gain if and only if it is at most 100% |
| FeeMath.CutTelescopes | src/state/fees.rs:90-101 | rounding two parts never exceeds rounding the whole and misses it by at most one |
| Posting.Gate | src/processor/fill_slot.rs:134-161 | the flag-setting gate returns the specified decision and waiver; `Acceptance.PostIff` and `Revenue.PostingCharge` say from the records what they are |
| Posting.CheckPosting | src/processor/fill_slot.rs:83-161 | every validation before money moves, in order, with its error |
| Posting.FillFree | src/processor/fill_slot.rs:199-274 | message, price, cap and fee collection for the chosen slot leave exactly the specified state |
| Posting.FillSlot | src/processor/fill_slot.rs:71-281 | the loop over candidates gives the specified outcome and state for every input; when that is success, what it charges and what it stores: `Acceptance.PostIff`, `Revenue.PostingCharge`, `Messages.BirthAndDeath` |
| Appending.AppendContent | src/processor/append_content.rs:54-156 | the in-place growth, top-up and base fee on the rent difference give the specified outcome and state |
| Liking.StoreCount | src/processor/like_content.rs:116-120 | one cell of the 32 counters changes, saturating, and the rest of the record stays |
| Liking.LikeContent | src/processor/like_content.rs:43-137 | lazy counter account, increment, cap and split fee give the specified outcome and state |
| Liking.CloseAccount | src/processor/close_account.rs:48-94 | author-only closing with the optional counter reset gives the specified outcome and state; who is refunded: `Balances.CloseRefunds` |
| Joining.SetEntryStatus | src/state/loaders.rs:173-214 | creates or rewrites the entry and returns the status it had |
| Joining.AdjustWhitelistCount | src/state/loaders.rs:226-233 | signed add, clamp at zero, truncation to 32 bits |
| Joining.CloseEntry | src/state/loaders.rs:250-274 | closes only an entry with the expected status and refunds it whole |
| Joining.SetStatus | src/state/loaders.rs:295-329 | the three list additions: entry and counter move by the same transition; the status stored: `Authority.StatusIsSet` |
| Joining.RemoveStatus | src/state/loaders.rs:349-379 | the three list removals |
| Joining.UpdateAccess | src/processor/set_entry_fee.rs:28-43 | for the access admin only, the named field changes and thread, admin, counter and the other setting stay |
| Joining.RequestAccess | src/processor/request_access.rs:43-127 | the paid join gives the specified outcome and state; when it is accepted: `Acceptance.JoinIff` |
| Joining.InitThreadAccess | src/processor/init_thread_access.rs:45-114 | the one-time gate record and its rent-sized fee give the specified outcome and state |
| Threads.InitSettings | src/processor/init_settings.rs:35-79 | the singleton is created once, with all four rates at 1000 |
| Threads.UpdateSettings | src/processor/set_platform_fees.rs:34-54 | a rate above the cap is refused before anything else; only the admin changes the named field, and the five others stay |
| Threads.UpdateThread | src/processor/set_message_fee.rs:28-43 | only the author changes the named fee; author, title, chain and the other fee stay |
| Threads.PrepareAlloc | src/processor/prepare_alloc.rs:44-115 | tail-only growth with checked arithmetic gives the specified outcome and state |
| Threads.CreateRootAlloc | src/processor/create_root_alloc.rs:34-142 | thread, page 0 and the base fee on their combined rent give the specified outcome and state |
| Following.Position | src/processor/unsubscribe.rs:72-76 | the scan finds the first occurrence |
| Following.Subscribe | src/processor/subscribe.rs:43-136 | registry creation or growth, rent and shard counter give the specified outcome and state |
| Following.Refund | src/processor/unsubscribe.rs:84-94 | everything above the rent of the new size goes back; the overflow error is unreachable |
| Following.Unsubscribe | src/processor/unsubscribe.rs:42-104 | swap-remove, shrink, refund and shard counter give the specified outcome and state |
| Sweeping.SweepAll | src/processor/sweep_treasury.rs:64-74 | the loop over zipped vaults and indices equals the specified sweep, or fails with the first error |
| Sweeping.SweepVaults | src/processor/sweep_author_fees.rs:34-77 | both sweeps give the specified outcome and state; when, and to whom: `Acceptance.SweepIff` |
| Frame.TouchesOnly | src/lib.rs:50-136 | every instruction leaves owner, size and data of every account outside its short list as they were |
| Frame.TouchedFits | src/lib.rs:50-136 | what an instruction may touch is of the kinds it is about, and a posting's slot was free |
| Runs.StructureKept | src/state/loaders.rs:390-457 | every instruction keeps every account typed, sized and bound to its address, pages dense, children anchored |
| Runs.MoneyKept | src/state/account_utils.rs:33-83 | every instruction conserves the supply and leaves every record rent exempt |
| Runs.IndexKept | src/processor/subscribe.rs:92-133 | every instruction keeps follower counters equal to the registries they index |
| Runs.StepKeepsInv | src/lib.rs:50-136 | one step of anyone keeps the invariant |
| Runs.ReachableInv | src/lib.rs:50-136 | every reachable state satisfies the invariant |
| Whitelist.EditorsMove | src/state/loaders.rs:295-379 | every editing instruction moves the set of ALLOWED entries and the counter of its thread by the same amount, and of no other thread |
| Whitelist.CacheExactIff | src/state/loaders.rs:226-233 | thread by thread: a step leaves an exact counter exact if and only if it is not a grant to that thread while its counter is 2^32-1; equivalently, the thread's new list still fits 32 bits |
| Scenarios.FullListReadsEmpty | src/state/loaders.rs:229-231 | a run to 2^32-1 members with an exact counter, and the grant after which the counter reads zero and the enabled gate admits a wallet the scan refuses |
| Whitelist.ClampNeverFires | src/state/loaders.rs:229-231 | where the edited thread's counter is exact, it is lowered only when positive |
| Whitelist.CounterWraps | src/state/loaders.rs:229-231 | the grant that makes 2^32 members of a thread leaves its counter at zero |
| Whitelist.CacheExactOverRuns | src/processor/request_access.rs:84-124 | over every run in which a thread stays below 2^32 members, whatever happens on other threads and after any interleaving of adds, flips, removals and paid joins, its counter = number of its live ALLOWED entries |
| Whitelist.ExactThroughoutIff | src/state/loaders.rs:226-233 | a thread's counter is right all along a run if and only if the thread had fewer than 2^32 members all along |
| Whitelist.GateRefinesScan | src/processor/fill_slot.rs:134-161 | where the thread's own counter is exact, the decision taken from it is the decision of scanning all entries |
| Whitelist.PostsAreAdmitted | src/processor/fill_slot.rs:134-161 | over every run in which the thread stayed below 2^32 members, an accepted message comes from a wallet the scan admits |
| FollowIndex.SubscribeIsOneFollow | src/processor/subscribe.rs:92-133 | a follow adds one channel to one registry and one to the matching counter |
| FollowIndex.UnsubscribeIsOneFollow | src/processor/unsubscribe.rs:72-101 | an unfollow takes one away from both; the decrement never saturates |
| FollowIndex.OneFollowKeeps | src/processor/subscribe.rs:112-133 | a matched change of one registry and one shard keeps every counter equal to the cardinality of its follower set |
| Preservation.SwapRemoveKeeps | src/processor/unsubscribe.rs:78 | swap-remove takes out exactly one channel and keeps the list free of duplicates |
| FollowerTotals.FollowerTotal | src/state/pda.rs:119-133 | in every reachable state the eight shards sum to the number of registries that hold the channel |
| FollowerTotals.UnfollowIff | src/processor/unsubscribe.rs:72-101 | unfollowing succeeds exactly for followed channels, so the missing-shard error is unreachable and the count is positive |
| FollowerTotals.FollowerCountHasRoom | src/processor/subscribe.rs:128-131 | the counter's overflow error is unreachable |
| FollowerTotals.FollowIff | src/processor/subscribe.rs:58-133 | following succeeds exactly for an existing channel not yet followed, below 1000, with the rent funded |
| FollowerTotals.FollowReversed | src/processor/unsubscribe.rs:72-101 | unfollow after any accepted follow is accepted and restores the wallet's list, every counter and every other account; the wallet's balance afterwards is exact, short by at most the opening rents |
| FollowerTotals.FollowUndone | src/processor/unsubscribe.rs:72-101 | where registry and shard existed, it restores the account table exactly |
| Revenue.InstructionAccounted | src/state/fees.rs:55-135 | for every instruction and vault: balance change = opening rent + due fee + sweeps in - sweeps out, and fees reach open vaults only |
| Revenue.RevenueLedger | src/state/fees.rs:388-402 | over every run an open vault holds rent(0) + all fees credited + surplus - all sweeps; an unopened one was never credited |
| Revenue.PostingCharge | src/processor/fill_slot.rs:144-269 | read from the records: the two vaults gain, beyond their openings, the base fee at the stored rate plus the channel's message fee, waived exactly for the channel's author and for members stored as FEE_EXEMPT; the treasury gets its share; in all at most `max_fee` |
| Debits.PostingDebit | src/processor/fill_slot.rs:163-269 | beyond that the poster pays only vault openings and the message's rent |
| Revenue.LikeCharge | src/processor/like_content.rs:122-134 | read from the records: the two vaults gain, beyond their openings, the channel's like fee, waived exactly for the message's author, and the treasury its share; at most `max_fee` |
| Revenue.JoinCharge | src/processor/request_access.rs:75-110 | read from the records: the two vaults gain, beyond their openings, the gate's entry fee, which is positive |
| Debits.LikeDebit | src/processor/like_content.rs:82-134 | beyond that the liker pays only openings and the counter's rent |
| Debits.AppendDebit | src/processor/append_content.rs:112-151 | an append costs exactly its top-up, the base fee on the rent difference and the opening of the vault |
| Debits.RootDebit | src/processor/create_root_alloc.rs:73-119 | a new thread costs exactly its rent, the first page's missing rent, the base fee and the opening of the vault |
| Debits.RequestDebit | src/processor/request_access.rs:91-122 | a paid join costs exactly the entry fee, the entry's missing rent and the openings |
| Debits.GateDebit | src/processor/init_thread_access.rs:74-99 | a gate costs exactly its rent as fee, its missing rent and the opening of the vault |
| Debits.OnlyTheseAreDebited | src/lib.rs:50-136 | an instruction lowers no balance but its payer's, the closed message's or entry's, the caller's own registry's, or a swept vault's |
| Debits.DerivedDebits | src/state/account_utils.rs:72-83 | in reachable states a derived address loses lamports only to its author's closing, to an entry removal by the thread's author, to its owner's unfollow, or to a sweep |
| Balances.BalanceSheet | src/lib.rs:50-136 | every instruction, every address: balance after + loss = balance before + gain, where the sheet names every gain (due fees, rent of what is created or grown, refund of a closed message or entry, released registry rent, swept excess) and every loss |
| Balances.CloseRefunds | src/processor/close_account.rs:91 | a closing adds the message's whole balance to its author's, leaves the message with nothing and touches no other balance |
| Balances.GrowthIsFunded | src/state/account_utils.rs:33-59 | whatever an instruction creates or grows, vaults aside, ends at max(balance before, rent of the new size) |
| Acceptance.AcceptedIff | src/lib.rs:50-136 | in every state of the invariant an instruction is accepted if and only if a condition on the stored records holds: all eighteen instructions |
| Acceptance.PostIff | src/processor/fill_slot.rs:71-281 | a posting is accepted exactly when it is short enough and well addressed, the gate's records admit the wallet, some candidate is the first free one, the fees fit the cap and the wallet affords fees and rents |
| Acceptance.AppendIff | src/processor/append_content.rs:65-156 | an append is accepted exactly for the message's own author and channel, at most 120 seconds after the posting, up to 8192 bytes, when affordable |
| Acceptance.LikeIff | src/processor/like_content.rs:54-134 | a like is accepted exactly for an existing message, within the cap, when affordable |
| Acceptance.CloseIff | src/processor/close_account.rs:48-91 | a closing is accepted exactly from the message's author, with its page's likes account or none |
| Acceptance.JoinIff | src/processor/request_access.rs:62-122 | a paid join is accepted exactly when the gate has a positive entry fee, no entry stands for the wallet, settings and indices are good and the wallet affords fee, openings and entry |
| Acceptance.SweepIff | src/processor/sweep_treasury.rs:47-74 | a sweep is accepted exactly when the list is non-empty and paired, each listed account is absent or the vault at its index, and the recipient is the treasury the settings name (the channel's author for author vaults) |
| Acceptance.SetStatusIff | src/state/loaders.rs:295-329 | a list addition is accepted exactly from the author of the gate's channel, when a new entry is affordable |
| Acceptance.RemoveStatusIff | src/state/loaders.rs:349-379 | a list removal is accepted exactly from that author, for an entry that stands with exactly the given status |
| Acceptance.GateIff | src/processor/init_thread_access.rs:56-114 | a gate is accepted exactly once per channel, from its author, when affordable |
| Acceptance.FoundIff | src/processor/create_root_alloc.rs:41-119 | a thread is accepted exactly on an unused address that holds nothing, when affordable; no other check can refuse it |
| Acceptance.ConfigureIff | src/processor/set_platform_fees.rs:34-54 | settings are accepted exactly once, from the upgrade authority; changes exactly from the stored admin, with rates up to 5000 |
| Refusals.ErrorsAreTrue | src/error.rs:10-93 | in every state of the invariant, whatever error an instruction answers, the fault it names is there in the records or the arguments: all twenty-seven errors, all instructions |
| Authority.MembershipAuthority | src/state/loaders.rs:295-379 | in every step a membership changes only by the wallet's own paid join or by an edit of that entry signed by the thread's author |
| Authority.StatusIsSet | src/state/loaders.rs:173-214 | after an accepted list addition the stored entry is exactly the channel, the wallet and the given status |
| Authority.MembershipChange | src/state/loaders.rs:250-329 | in every step that changes an entry: a join makes a new ALLOWED one, an addition leaves the given status, a removal takes one with exactly the given status |
| Standing.StatusStands | src/state/loaders.rs:295-379 | over every run an entry keeps its status until the author edits it |
| Standing.BanHolds | src/processor/fill_slot.rs:146-150 | over every run, from the edit that bans a wallet to the next edit of its entry, each of its postings on the channel is refused, with AccessDenied once it reaches the gate |
| Standing.BanIsNotForSale | src/processor/request_access.rs:84-88 | and each of its paid joins, with AccessDenied while the gate has a price |
| Standing.GrantHolds | src/processor/fill_slot.rs:151-156 | over every run, from a grant to the next edit of the entry, the gate admits the wallet, and an exempted one owes no message fee |
| Standing.MembersPayOrAreAdmitted | src/processor/request_access.rs:75-124 | over every run a wallet becomes a member only by paying the gate's positive entry fee in full to the two vaults, or by the channel author's edit |
| Authority.GateAuthority | src/state/loaders.rs:470-490 | a gate changes only by its thread's author, or in its counter alone by a paid join |
| Authority.GateChange | src/processor/init_thread_access.rs:101-111 | in every step that changes a gate: it is created with the given switch, no fee and no members; a policy change sets the named field; anything else moves the counter alone |
| Authority.SettingsAuthority | src/state/loaders.rs:536-551 | settings are created by the upgrade authority and then changed only by the admin they name |
| Authority.SettingsBirth | src/processor/init_settings.rs:66-79 | the first settings name the deployer and the given treasury, all rates 1000 |
| Authority.FeeAuthority | src/state/loaders.rs:415-430 | a thread's fees change only by its author |
| Authority.ThreadBirth | src/processor/create_root_alloc.rs:121-131 | a thread appears only by a founding signed by its author, with the given title and message fee, no like fee and one page |
| Authority.RegistryAuthority | src/processor/subscribe.rs:84-110 | a registry changes only by its owner's own follow or unfollow |
| Revenue.AuthorKeepsHalf | src/state/fees.rs:116-135 | in every state of the invariant the author's leg is at least the platform's and the legs sum to the fee |
| Sweep.DrainBalances | src/processor/sweep_treasury.rs:64-74 | closed form of a sweep of any list: each distinct vault loses its excess once, the recipient gains the sum |
| Sweep.SweepDependsOnSetOnly | src/processor/sweep_treasury.rs:64-74 | order, repetition and uninitialised members do not matter |
| Sweep.SecondSweepIsIdle | src/processor/sweep_author_fees.rs:63-74 | a repeated sweep moves nothing |
| Sweep.SweepsVaultsOnly | src/processor/sweep_author_fees.rs:63-74 | an accepted sweep debits fee vaults only |
| Guarantees.SweptHoldRent | src/state/fees.rs:388-402 | in reachable states a swept vault ends at exactly rent(0) |
| Guarantees.TreasuryPayout | src/processor/sweep_treasury.rs:47-74 | over every run lamports leave a treasury vault only into the treasury the settings name at that moment, down to rent(0) |
| Guarantees.AuthorPayout | src/processor/sweep_author_fees.rs:44-74 | over every run lamports leave an author vault only into its channel's author, down to rent(0) |
| Guarantees.DeficitNeverRaises | src/state/fees.rs:67 | in reachable states an open vault is charged exactly the fee |
| Guarantees.EverySplitIsFair | src/processor/set_platform_fees.rs:34-54 | in reachable states all four rates are at most 5000 and each splits any amount exactly |
| Guarantees.AuthorityIsStable | src/processor/init_thread_access.rs:66-109 | over every run a thread's author never changes and is its access admin |
| Guarantees.SupplyIsConstant | src/state/account_utils.rs:72-83 | over any instructions and ticks the total supply is constant |
| Guarantees.AlwaysRentExempt | src/processor/unsubscribe.rs:80-94 | in reachable states every record is rent exempt at its exact size; a just shortened registry holds exactly its rent |
| Messages.ScanIsFirstFree | src/processor/fill_slot.rs:180-278 | found exactly at the first free genuine slot after taken ones, full exactly when all are taken, rejected exactly at a bad candidate after taken ones |
| Messages.NoFreeSlotIff | src/processor/fill_slot.rs:276-278 | `NoFreeSlot` exactly when all candidates are genuine and taken |
| Messages.PostingTouchesOneSlot | src/processor/fill_slot.rs:199-233 | a posting writes the chosen free slot and no other message, page or thread |
| Messages.MessageStep | src/processor/append_content.rs:89-153 | a stored message changes only by an append of the given chunk, by its author, within 120 seconds |
| Messages.BirthAndDeath | src/processor/fill_slot.rs:213-233 | messages appear only by a posting on their channel, with every field as posted: author, clock, reply pointer, kind, body; they vanish only by their author's closing |
| Messages.MessageHistory | src/processor/append_content.rs:89-153 | between posting and closing the header never changes, each earlier body is a prefix of each later one, and length stays within 8192 |
| Messages.ThreadHistory | src/processor/prepare_alloc.rs:104-112 | over every run author and title are fixed and the chain never shrinks |
| Messages.DenseChain | src/processor/create_root_alloc.rs:121-139 | in reachable states pages are exactly 0..=tail, the counter counts them, every message lies on one |
| Messages.TailGrowsIff | src/processor/prepare_alloc.rs:74-112 | the tail can be extended exactly when it is at most 2^32-3 and the payer funds what the next address lacks |
| LikeCounts.CountStep | src/processor/like_content.rs:97-120 | each step raises, resets or keeps a slot's counter |
| LikeCounts.CountsAreTallies | src/processor/like_content.rs:97-120 | over every run the counter is min(2^32-1, likes since the last reset) |
| LikeCounts.FreedSlotIsResetIff | src/processor/close_account.rs:67-84 | a freed slot counts zero if and only if the likes account was supplied or it had no likes |
| LikeCounts.StaleLikesSurvive | src/processor/close_account.rs:67-84 | the slot's next message, whenever it comes and whatever happens before it, starts from zero if the closing supplied the likes account and from the closed message's count otherwise |
| LikeCounts.VacancyKeepsCount | src/processor/like_content.rs:97-120 | over any stretch of a run in which a slot is empty, its count does not change, up to and into the step that refills it |
| Scenarios.NewMessageInheritsLike | src/processor/close_account.rs:67-84 | a run in which a liked message is closed without its likes account and the next one starts with one like |
| LikeCounts.CloseFindsItsCounter | src/processor/close_account.rs:76-82 | the page mismatch error is unreachable and the slot always indexes the counters |
| AppendFees.AppendStep | src/processor/append_content.rs:122-151 | one append never overcharges and misses the one-shot fee by at most one lamport |
| AppendFees.FeesTelescope | src/processor/append_content.rs:105-151 | over every run at a steady rate: one-shot fee - n <= fees paid for posting and n appends <= one-shot fee |
| Seeds.SeedsUnambiguous | src/state/pda.rs:22-121 | equal seed bytes with bump mean equal kind, parameters and bump, whatever the hash |
| Seeds.AddressInjective | src/content/mod.rs:181-191 | with no digest collision among the addresses in use, distinct keys have distinct addresses at any depth of derivation |
| Layout.RoundTrip | src/state/accounts.rs:20-247 | every record decodes from its bytes, leaving exactly the bytes after it |
| Layout.EncodedSize | src/state/accounts.rs:36-245 | the `size` formulas are the encoded lengths |
| Layout.RewriteLeavesNothing | src/state/loaders.rs:226-233 | an in-place rewrite at the record's size leaves no stale byte |
| Layout.EncodingUnambiguous | src/state/constants.rs:11-27 | no bytes encode two records |
| Storage.EveryRecordReadsBack | src/state/loaders.rs:90-155 | in reachable states every record's bytes fill its account and are accepted by the strict loaders |
| Storage.BytesDetermineRecord | src/content/mod.rs:118-120 | stored bytes determine the record |

## Left out

- Signer and writable flags, and the identity of the System Program account: the payer of an instruction is taken to have signed, and derived addresses never sign (`Instructions.WellFormed`).
- Account lists: an address fixed by seeds is passed implicitly, so a wrong account at that position, which the source rejects with `InvalidPda`, is not an input; candidate, sweep, likes, page and content accounts are explicit.
- Error codes: `InvalidTag` is merged into `InvalidAccountData`, and the numbering is not modelled.
- Threads.InitSettings: the upgrade authority is a parameter, because the source reads it from another loader's account layout; the comparison with the signer is modelled, the parsing is not.
- Address derivation: the hash and the bump search are arbitrary functions; collision freedom among the addresses in use is a hypothesis of `Seeds.AddressInjective` and the reason the ledger may be keyed by constructors.
- System Program and runtime: transfer, create, allocate and assign are modelled by their effect; compute limits, the limit on data growth per instruction and the runtime's own rent-state check of outside payers are not.
- Typed message bodies: the program stores bodies as opaque bytes and validates a text body by its length only; the body helpers of src/content/body.rs are client code.
- Reply pointers are stored and never interpreted, here as in the source.
- Decoding of instruction data in src/lib.rs; instructions are typed values with the widths of the wire format.
- The three list additions, the three list removals and the one-field setters share one instruction each.
- The subtraction of timestamps in the append window is unbounded; clock readings are signed 64-bit numbers, and a wrap would need readings more than 2^63 seconds apart.
- FollowerTotals.FollowUndone: equality of whole account tables holds where registry and shard already existed, because an unfollow empties but does not close what a first follow created; FollowReversed covers every follow.
- The security contact record, the repository test suite and the SDK.
