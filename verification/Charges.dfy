/** Charging one payer step by step, against the bill the steps add up to. */
module Charges {
  import opened Keys
  import opened Records
  import opened Ledger
  import opened FeeMath
  import opened Instructions
  import opened Invariant
  import opened Chain

  /** What the handlers need of the state they start from; every reachable state has it. */
  ghost predicate Healthy(s: State) {
    && |s.lam| <= U64_MAX
    && (forall k | IsVault(k) && !Fresh(s.info, k) :: s.lam[k] >= Rent(0))
    && (forall k | k in s.info :: Narrow(s.info[k].data))
  }

  /** Amounts of 64 bits, rates of at most 100%, slots of a page. */
  predicate Narrow(r: Record<Key>) {
    match r
    case Thread(_, _, _, m, l, _) => m <= U64_MAX && l <= U64_MAX
    case Settings(_, _, b1, b2, b3, b4) => b1 <= BPS && b2 <= BPS && b3 <= BPS && b4 <= BPS
    case Access(_, _, _, fee, _) => fee <= U64_MAX
    case Content(_, slot, _, _, _, _, _, _, _) => slot < CONTENT_SLOTS
    case _ => true
  }

  lemma InvIsHealthy(s: State)
    requires Inv(s)
    ensures Healthy(s)
  {
    forall k | IsVault(k) && !Fresh(s.info, k)
      ensures s.lam[k] >= Rent(0)
    {
      assert TypedAt(k, s.info[k]);
    }
    forall k | k in s.info
      ensures Narrow(s.info[k].data)
    {
      assert TypedAt(k, s.info[k]);
    }
  }

  // ---- a charge under way ----

  /** What `b` moves at address `k`, apart from the payer. */
  function Credit(b: Bill, k: Key): nat {
    (if k == TreasuryKey(b.treasuryIdx) then b.toTreasury else 0)
    + (if k == AuthorKey(b.thread, b.authorIdx) then b.toAuthor else 0)
    + (if k == b.target then b.deposit else 0)
  }

  ghost predicate Moved(before: Lamports, after: Lamports, b: Bill) {
    forall k :: after[k] == before[k] + Credit(b, k) - (if k == b.payer then b.Total() else 0)
  }

  /** From `s`, the handler has so far settled `b`. */
  ghost predicate Settled(s: State, t: State, b: Bill) {
    && b.payer.External? && b.payer != b.target && CanPay(s, b.payer, b.Total())
    && t.lam[b.payer] + b.Total() == s.lam[b.payer] && (Fresh(t.info, b.payer) <==> Fresh(s.info, b.payer))
    && Moved(s.lam, t.lam, b)
  }

  lemma SettledIsSettle(s: State, t: State, b: Bill)
    requires Settled(s, t, b)
    ensures b.Total() <= s.lam[b.payer] && t.lam == Settle(s.lam, b)
  {
    SettleMoves(s.lam, b);
    assert forall k :: t.lam[k] == Settle(s.lam, b)[k];
  }

  /** A bill that moves nothing yet. */
  function NoBill(payer: Key, treasuryIdx: nat, thread: Key, authorIdx: nat, target: Key): Bill {
    Bill(payer, treasuryIdx, 0, thread, authorIdx, 0, target, 0)
  }

  lemma SettledNothing(s: State, b: Bill)
    requires b.payer.External? && b.payer != b.target && b.Total() == 0
    ensures Settled(s, s, b)
  {
  }

  /** A further payment is judged as if it were part of the bill. */
  lemma SettledPays(s: State, t: State, b: Bill, x: nat)
    requires Settled(s, t, b)
    ensures CanPay(t, b.payer, x) <==> CanPay(s, b.payer, b.Total() + x)
    ensures CanPay(t, b.payer, x) ==> x <= t.lam[b.payer]
    ensures b.payer.External? && b.payer != b.target
  {
  }

  predicate SamePayer(t: State, u: State, payer: Key) {
    Fresh(u.info, payer) <==> Fresh(t.info, payer)
  }

  /** One more payment, to one side of the bill. */
  lemma PaidTreasury(s: State, t: State, u: State, b: Bill, x: nat)
    requires Settled(s, t, b) && CanPay(t, b.payer, x) && x <= t.lam[b.payer] && SamePayer(t, u, b.payer)
    requires u.lam == Pay(t.lam, b.payer, TreasuryKey(b.treasuryIdx), x)
    ensures Settled(s, u, b.(toTreasury := b.toTreasury + x))
  {
  }

  lemma PaidDeposit(s: State, t: State, u: State, b: Bill, x: nat)
    requires Settled(s, t, b) && CanPay(t, b.payer, x) && x <= t.lam[b.payer] && SamePayer(t, u, b.payer)
    requires u.lam == Pay(t.lam, b.payer, b.target, x)
    ensures Settled(s, u, b.(deposit := b.deposit + x))
  {
  }

  lemma PaidInTurn(lam: Lamports, payer: Key, first: Key, x: nat, second: Key, y: nat, k: Key)
    requires payer != first && payer != second && first != second && x + y <= lam[payer]
    ensures Pay(Pay(lam, payer, first, x), payer, second, y)[k]
              == lam[k] + (if k == first then x else 0) + (if k == second then y else 0)
               - (if k == payer then x + y else 0)
  {
  }

  /** Platform and author paid in turn. */
  lemma PaidBoth(s: State, t: State, u: State, b: Bill, x: nat, y: nat)
    requires Settled(s, t, b) && CanPay(t, b.payer, x + y) && x + y <= t.lam[b.payer] && SamePayer(t, u, b.payer)
    requires u.lam == Pay(Pay(t.lam, b.payer, TreasuryKey(b.treasuryIdx), x),
                          b.payer, AuthorKey(b.thread, b.authorIdx), y)
    ensures Settled(s, u, b.(toTreasury := b.toTreasury + x, toAuthor := b.toAuthor + y))
  {
    hide Pay;
    forall k
      ensures u.lam[k] == t.lam[k] + (if k == TreasuryKey(b.treasuryIdx) then x else 0)
                          + (if k == AuthorKey(b.thread, b.authorIdx) then y else 0)
                          - (if k == b.payer then x + y else 0)
    {
      PaidInTurn(t.lam, b.payer, TreasuryKey(b.treasuryIdx), x, AuthorKey(b.thread, b.authorIdx), y, k);
    }
  }

  /** An opened vault is funded, before or because of this bill. */
  lemma VaultsFunded(s: State, t: State, b: Bill)
    requires Healthy(s) && Settled(s, t, b)
    ensures b.toTreasury >= OpeningCost(s, TreasuryKey(b.treasuryIdx)) ==> t.lam[TreasuryKey(b.treasuryIdx)] >= Rent(0)
    ensures b.toAuthor >= OpeningCost(s, AuthorKey(b.thread, b.authorIdx)) ==>
              t.lam[AuthorKey(b.thread, b.authorIdx)] >= Rent(0)
  {
  }

  /** Until its deposit is paid, the target's balance is untouched. */
  lemma UnpaidTarget(s: State, t: State, b: Bill)
    requires Settled(s, t, b) && !IsVault(b.target) && b.deposit == 0
    ensures t.lam[b.target] == s.lam[b.target]
  {
  }

  // ---- paying into the two vaults ----

  /** The bill once both vaults are open and nothing else is paid. */
  function OpeningBill(s: State, i: Instruction, target: Key): Bill
    requires i.FillSlot? || i.LikeContent? || i.RequestAccess?
  {
    Bill(i.payer, i.treasuryIdx, OpeningCost(s, TreasuryKey(i.treasuryIdx)),
         i.thread, i.authorIdx, OpeningCost(s, AuthorKey(i.thread, i.authorIdx)), target, 0)
  }

  function BothVaults(s: State, i: Instruction): Accounts
    requires i.FillSlot? || i.LikeContent? || i.RequestAccess?
  {
    WithVault(WithVault(s.info, TreasuryKey(i.treasuryIdx)), AuthorKey(i.thread, i.authorIdx))
  }

  /** The vaults are open and paid for. */
  ghost predicate Opened(s: State, t: State, i: Instruction) {
    && (i.FillSlot? || i.LikeContent? || i.RequestAccess?)
    && i.payer.External? && CanPay(s, i.payer, OpenBoth(s, i)) && OpenBoth(s, i) <= s.lam[i.payer]
    && t == State(Pay(Pay(s.lam, i.payer, TreasuryKey(i.treasuryIdx), OpeningCost(s, TreasuryKey(i.treasuryIdx))),
                      i.payer, AuthorKey(i.thread, i.authorIdx), OpeningCost(s, AuthorKey(i.thread, i.authorIdx))),
                  BothVaults(s, i), s.now)
  }

  /** Pays a split fee on top of what the bill has settled. */
  method CollectSplit(bank: Bank, fee: nat, bps: nat, payer: Key, author: Key, treasury: Key, ghost s: State,
                      ghost b: Bill)
    returns (r: Outcome)
    requires Settled(s, bank.Now(), b) && bps <= BPS && fee <= U64_MAX
    requires payer == b.payer && treasury == TreasuryKey(b.treasuryIdx) && author == AuthorKey(b.thread, b.authorIdx)
    requires bank.lam[treasury] >= Rent(0) && bank.lam[author] >= Rent(0)
    modifies bank`lam
    ensures Cut(fee, bps) <= fee
    ensures r == CheckPay(s, b.payer, b.Total() + fee)
    ensures r.Done? ==>
              Settled(s, bank.Now(),
                      b.(toTreasury := b.toTreasury + Cut(fee, bps), toAuthor := b.toAuthor + (fee - Cut(fee, bps))))
  {
    hide Settled, CanPay, Cut, Rent;
    CutBounds(fee, bps);
    ghost var t := bank.Now();
    SettledPays(s, t, b, fee);
    r := bank.TransferFeeSplit(fee, bps, payer, author, treasury);
    if r.Done? {
      PaidBoth(s, t, bank.Now(), b, Cut(fee, bps), fee - Cut(fee, bps));
    }
  }

  /** A waived fee moves nothing. */
  method CollectAnySplit(bank: Bank, fee: nat, bps: nat, payer: Key, author: Key, treasury: Key, ghost s: State,
                         ghost b: Bill)
    returns (r: Outcome)
    requires Settled(s, bank.Now(), b) && bps <= BPS && fee <= U64_MAX
    requires payer == b.payer && treasury == TreasuryKey(b.treasuryIdx) && author == AuthorKey(b.thread, b.authorIdx)
    requires bank.lam[treasury] >= Rent(0) && bank.lam[author] >= Rent(0)
    modifies bank`lam
    ensures Cut(fee, bps) <= fee
    ensures r == CheckPay(s, b.payer, b.Total() + fee)
    ensures r.Done? ==>
              Settled(s, bank.Now(),
                      b.(toTreasury := b.toTreasury + Cut(fee, bps), toAuthor := b.toAuthor + (fee - Cut(fee, bps))))
  {
    CutBounds(fee, bps);
    if fee > 0 {
      r := CollectSplit(bank, fee, bps, payer, author, treasury, s, b);
    } else {
      r := Done;
      assert b.(toTreasury := b.toTreasury + 0, toAuthor := b.toAuthor + 0) == b;
    }
  }

  /** Opening both vaults, seen as a bill for `target`. */
  lemma OpenedIsSettled(s: State, t: State, i: Instruction, target: Key)
    requires Opened(s, t, i) && target != i.payer
    ensures Settled(s, t, OpeningBill(s, i, target)) && t.lam[target] >= s.lam[target]
    ensures !IsVault(target) ==> t.lam[target] == s.lam[target] && (Fresh(t.info, target) <==> Fresh(s.info, target))
  {
    hide Rent, OpeningCost, CanPay;
  }

  /** The base fee, on top of what the bill has settled. */
  method CollectBase(bank: Bank, rent: nat, bps: nat, payer: Key, treasury: Key, ghost s: State, ghost b: Bill)
    returns (r: Outcome)
    requires Settled(s, bank.Now(), b) && rent <= U64_MAX && bps <= BPS
    requires payer == b.payer && treasury == TreasuryKey(b.treasuryIdx) && bank.lam[treasury] >= Rent(0)
    modifies bank`lam
    ensures r == CheckPay(s, b.payer, b.Total() + Cut(rent, bps))
    ensures r.Done? ==> Settled(s, bank.Now(), b.(toTreasury := b.toTreasury + Cut(rent, bps)))
  {
    hide Settled, CanPay, Cut, Rent;
    ghost var t := bank.Now();
    SettledPays(s, t, b, Cut(rent, bps));
    r := bank.CollectBaseFee(rent, bps, payer, treasury);
    if r.Done? {
      PaidTreasury(s, t, bank.Now(), b, Cut(rent, bps));
    }
  }

  lemma VaultsGrow(s: State, t: State, u: State, b: Bill, x: nat)
    requires Settled(s, t, b) && Settled(s, u, b.(toTreasury := b.toTreasury + x))
    ensures u.lam[TreasuryKey(b.treasuryIdx)] >= t.lam[TreasuryKey(b.treasuryIdx)]
    ensures u.lam[AuthorKey(b.thread, b.authorIdx)] >= t.lam[AuthorKey(b.thread, b.authorIdx)]
  {
  }

  /** The base fee, then the author's fee, on top of a bill that has opened both vaults. */
  method CollectFees(bank: Bank, rent: nat, baseBps: nat, fee: nat, cutBps: nat,
                     payer: Key, author: Key, treasury: Key, ghost s: State, ghost b: Bill)
    returns (r: Outcome)
    requires Settled(s, bank.Now(), b) && rent <= U64_MAX && baseBps <= BPS && cutBps <= BPS && fee <= U64_MAX
    requires payer == b.payer && treasury == TreasuryKey(b.treasuryIdx) && author == AuthorKey(b.thread, b.authorIdx)
    requires bank.lam[treasury] >= Rent(0) && bank.lam[author] >= Rent(0)
    modifies bank`lam
    ensures Cut(fee, cutBps) <= fee
    ensures r == CheckPay(s, b.payer, b.Total() + Cut(rent, baseBps) + fee)
    ensures r.Done? ==>
              Settled(s, bank.Now(), b.(toTreasury := b.toTreasury + Cut(rent, baseBps) + Cut(fee, cutBps),
                                        toAuthor := b.toAuthor + (fee - Cut(fee, cutBps))))
  {
    CutBounds(fee, cutBps);
    hide Settled, Cut, Rent;
    ghost var t, b1 := bank.Now(), b.(toTreasury := b.toTreasury + Cut(rent, baseBps));
    r := CollectBase(bank, rent, baseBps, payer, treasury, s, b);
    if r.Done? {
      VaultsGrow(s, t, bank.Now(), b, Cut(rent, baseBps));
      r := CollectAnySplit(bank, fee, cutBps, payer, author, treasury, s, b1);
    }
  }

  /** Creates and writes the account, on top of what the bill has settled. */
  method CreateOnBill(bank: Bank, payer: Key, k: Key, data: Record<Key>, ghost s: State, ghost b: Bill)
    returns (r: Outcome)
    requires Settled(s, bank.Now(), b) && payer == b.payer && k == b.target
    requires Fresh(bank.info, k) && bank.lam[k] == s.lam[k]
    modifies bank`lam, bank`info
    ensures var topUp := TopUp(s.lam[k], Size(data));
            && r == CheckPay(s, payer, b.Total() + topUp)
            && (r.Done? ==> Settled(s, bank.Now(), b.(deposit := b.deposit + topUp)))
            && (r.Done? ==> bank.info == old(bank.info)[k := Created(data)])
  {
    hide Settled, CanPay, Rent, TopUp, Size;
    ghost var t := bank.Now();
    SettledPays(s, t, b, TopUp(s.lam[k], Size(data)));
    r := bank.CreateWith(payer, k, data);
    if r.Done? {
      PaidDeposit(s, t, bank.Now(), b, TopUp(s.lam[k], Size(data)));
    }
  }

  /** A deposit elsewhere leaves the vaults as they were. */
  lemma VaultsKept(s: State, t: State, b: Bill, x: nat)
    requires Settled(s, t, b.(deposit := x)) && !IsVault(b.target)
    ensures t.lam[TreasuryKey(b.treasuryIdx)] == s.lam[TreasuryKey(b.treasuryIdx)] + b.toTreasury
    ensures t.lam[AuthorKey(b.thread, b.authorIdx)] == s.lam[AuthorKey(b.thread, b.authorIdx)] + b.toAuthor
  {
  }

  /** Both vaults of a posting, a like or a paid join. */
  method OpenVaults(bank: Bank, i: Instruction) returns (r: Outcome)
    requires i.FillSlot? || i.LikeContent? || i.RequestAccess?
    requires i.payer.External?
    modifies bank`lam, bank`info
    ensures r == CheckPay(old(bank.Now()), i.payer, OpenBoth(old(bank.Now()), i))
    ensures r.Done? ==> Opened(old(bank.Now()), bank.Now(), i)
  {
    r := bank.EnsureBothShards(i.payer, TreasuryKey(i.treasuryIdx), AuthorKey(i.thread, i.authorIdx));
  }

  /** A funded vault collects exactly what is asked. */
  method CollectExact(bank: Bank, amount: nat, payer: Key, treasury: Key, ghost s: State, ghost b: Bill)
    returns (r: Outcome)
    requires Settled(s, bank.Now(), b) && payer == b.payer && treasury == TreasuryKey(b.treasuryIdx)
    requires bank.lam[treasury] >= Rent(0)
    modifies bank`lam
    ensures r == CheckPay(s, payer, b.Total() + amount)
    ensures r.Done? ==> Settled(s, bank.Now(), b.(toTreasury := b.toTreasury + amount))
  {
    ghost var t := bank.Now();
    CollectedIsExactIff(amount, bank.lam[treasury]);
    r := bank.CollectFee(amount, payer, treasury);
    if r.Done? {
      PaidTreasury(s, t, bank.Now(), b, amount);
    }
  }

  /** The treasury vault is there and funded, on top of a bill that has paid no vault yet. */
  method OpenTreasury(bank: Bank, payer: Key, treasury: Key, ghost s: State, ghost b: Bill) returns (r: Outcome)
    requires Settled(s, bank.Now(), b) && b.toTreasury == 0 && payer == b.payer
    requires treasury == TreasuryKey(b.treasuryIdx)
    requires Healthy(s) && !IsVault(b.target) && (Fresh(bank.info, treasury) <==> Fresh(s.info, treasury))
    modifies bank`lam, bank`info
    ensures r == CheckPay(s, payer, b.Total() + OpeningCost(s, treasury))
    ensures r.Done? ==>
              && Settled(s, bank.Now(), b.(toTreasury := OpeningCost(s, treasury)))
              && bank.lam[treasury] >= Rent(0) && bank.info == WithVault(old(bank.info), treasury)
  {
    hide Settled, Rent, Healthy, OpeningCost, CanPay;
    ghost var t := bank.Now();
    SettledPays(s, t, b, OpeningCost(s, treasury));
    SameOpeningCost(s, t, b);
    r := bank.EnsureShard(payer, treasury);
    if r.Done? {
      PaidTreasury(s, t, bank.Now(), b, OpeningCost(s, treasury));
      VaultsFunded(s, bank.Now(), b.(toTreasury := OpeningCost(s, treasury)));
    }
  }

  lemma SameOpeningCost(s: State, t: State, b: Bill)
    requires Settled(s, t, b) && b.toTreasury == 0 && !IsVault(b.target)
    requires Fresh(t.info, TreasuryKey(b.treasuryIdx)) <==> Fresh(s.info, TreasuryKey(b.treasuryIdx))
    ensures OpeningCost(t, TreasuryKey(b.treasuryIdx)) == OpeningCost(s, TreasuryKey(b.treasuryIdx))
  {
  }
}
