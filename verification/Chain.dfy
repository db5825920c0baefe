/** The account table in place: the System Program calls the handlers make, and the helpers
    every handler shares. */
module Chain {
  import opened Keys
  import opened Records
  import opened Ledger
  import opened FeeMath
  import opened Instructions

  function Max(a: nat, b: nat): nat { if a < b then b else a }

  function SatSub(a: nat, b: nat): nat { if a < b then 0 else a - b }

  /** What `collect_fee_to_shard` really charges: at least what the shard lacks of its rent. */
  function Collected(amount: nat, balance: nat): nat {
    if amount == 0 then 0 else Max(amount, SatSub(Rent(0), balance))
  }

  /** The charge is the fee exactly when the fee is zero or lifts the shard to its rent. */
  lemma CollectedIsExactIff(amount: nat, balance: nat)
    ensures Collected(amount, balance) == amount <==> amount == 0 || balance + amount >= Rent(0)
  {
  }

  /** Money for a second transfer after a first, judged before the first. */
  lemma PayTwice(s: State, t: State, payer: Key, x: nat, y: nat)
    requires CanPay(s, payer, x) && t.lam[payer] + x == s.lam[payer] && (Fresh(t.info, payer) <==> Fresh(s.info, payer))
    ensures CanPay(t, payer, y) <==> CanPay(s, payer, x + y)
  {
  }

  lemma MoreCostsMore(s: State, payer: Key, x: nat, y: nat)
    ensures CanPay(s, payer, x + y) ==> CanPay(s, payer, x)
  {
  }

  /** Opening one vault leaves the cost of another, and the payer's standing, as they were. */
  lemma OpeningElsewhere(s: State, t: State, payer: Key, first: Key, second: Key)
    requires payer != first && payer != second && first != second
    requires CanPay(s, payer, OpeningCost(s, first))
    requires t.lam == Pay(s.lam, payer, first, OpeningCost(s, first)) && t.info == WithVault(s.info, first)
    ensures OpeningCost(t, second) == OpeningCost(s, second) && t.lam[payer] + OpeningCost(s, first) == s.lam[payer]
    ensures Fresh(t.info, payer) <==> Fresh(s.info, payer)
  {
    hide Rent;
  }

  lemma PayNothing(lam: Lamports, from: Key, to: Key)
    ensures Pay(lam, from, to, 0) == lam
  {
  }

  class Bank {
    var lam: Lamports
    var info: Accounts
    var now: int

    constructor (s: State)
      ensures Now() == s
    {
      lam, info, now := s.lam, s.info, s.now;
    }

    function Now(): State
      reads this
    {
      State(lam, info, now)
    }

    // ---- System Program ----

    method Transfer(from: Key, to: Key, amount: nat) returns (r: Outcome)
      modifies `lam
      ensures r == CheckPay(old(Now()), from, amount)
      ensures lam == if r.Done? then Pay(old(lam), from, to, amount) else old(lam)
    {
      if amount != 0 && !(Fresh(info, from) && amount <= lam[from]) {
        return Fail(InsufficientFunds);
      }
      lam := Pay(lam, from, to, amount);
      assert amount == 0 ==> lam == old(lam);
      return Done;
    }

    /** Fails on an address that already holds lamports. */
    method CreateAccount(payer: Key, target: Key, lamports: nat, space: nat) returns (r: Outcome)
      requires Fresh(info, target)
      modifies `lam, `info
      ensures r == if old(lam)[target] > 0 then Fail(AccountInUse) else CheckPay(old(Now()), payer, lamports)
      ensures r.Done? ==> lam == Pay(old(lam), payer, target, lamports)
                          && info == old(info)[target := Account(Program, space, Blank)]
      ensures r.Fail? ==> Now() == old(Now())
    {
      if lam[target] > 0 {
        return Fail(AccountInUse);
      }
      r := Transfer(payer, target, lamports);
      if r.Done? {
        info := info[target := Account(Program, space, Blank)];
      }
    }

    method Allocate(target: Key, space: nat)
      requires Fresh(info, target)
      modifies `info
      ensures info == old(info)[target := Account(System, space, Blank)]
    {
      info := info[target := Account(System, space, Blank)];
    }

    method Assign(target: Key)
      requires target in info
      modifies `info
      ensures info == old(info)[target := old(info)[target].(owner := Program)]
    {
      info := info[target := info[target].(owner := Program)];
    }

    // ---- account lifecycle ----

    method EnsureRentExempt(payer: Key, target: Key, len: nat) returns (r: Outcome)
      requires payer != target
      modifies `lam
      ensures r == CheckPay(old(Now()), payer, TopUp(old(lam)[target], len))
      ensures r.Done? ==> lam == Pay(old(lam), payer, target, TopUp(old(lam)[target], len))
    {
      var minimum, current := Rent(len), lam[target];
      if current >= minimum {
        PayNothing(lam, payer, target);
        return Done;
      }
      var topUp := minimum - current;
      r := Transfer(payer, target, topUp);
    }

    method TakeOver(target: Key, space: nat)
      requires Fresh(info, target)
      modifies `info
      ensures info == old(info)[target := Account(Program, space, Blank)]
    {
      Allocate(target, space);
      Assign(target);
    }

    /** The path for an address that holds lamports: top up what is missing, then take over. */
    method TakeOverFunded(payer: Key, target: Key, space: nat) returns (r: Outcome)
      requires payer != target && Fresh(info, target)
      modifies `lam, `info
      ensures r == CheckPay(old(Now()), payer, TopUp(old(lam)[target], space))
      ensures r.Done? ==> lam == Pay(old(lam), payer, target, TopUp(old(lam)[target], space))
      ensures r.Done? ==> info == old(info)[target := Account(Program, space, Blank)]
    {
      hide Pay, Rent, CanPay, Fresh;
      r := EnsureRentExempt(payer, target, space);
      if r.Done? {
        TakeOver(target, space);
      }
    }

    /** Whatever the address held before, the account ends up program-owned, of the requested
        size, with `max(balance, rent)`; the payer is charged exactly what was missing. */
    method CreatePda(payer: Key, target: Key, space: nat) returns (r: Outcome)
      requires payer != target && Fresh(info, target)
      modifies `lam, `info
      ensures r == CheckPay(old(Now()), payer, TopUp(old(lam)[target], space))
      ensures r.Done? ==> lam == Pay(old(lam), payer, target, TopUp(old(lam)[target], space))
      ensures r.Done? ==> lam[target] == Max(old(lam)[target], Rent(space))
      ensures r.Done? ==> info == old(info)[target := Account(Program, space, Blank)]
    {
      hide Rent, Fresh;
      var required, current := Rent(space), lam[target];
      if current == 0 {
        r := CreateAccount(payer, target, required, space);
      } else {
        r := TakeOverFunded(payer, target, space);
      }
    }

    /** The owner rewrites an account's data in place. */
    method Write(k: Key, data: Record<Key>)
      requires k in info && Size(data) <= info[k].len
      modifies `info
      ensures info == old(info)[k := old(info)[k].(data := data)]
    {
      info := info[k := info[k].(data := data)];
    }

    /** A new account of exactly the size of its first record. */
    method CreateWith(payer: Key, target: Key, data: Record<Key>) returns (r: Outcome)
      requires payer != target && Fresh(info, target)
      modifies `lam, `info
      ensures r == CheckPay(old(Now()), payer, TopUp(old(lam)[target], Size(data)))
      ensures r.Done? ==> lam == Pay(old(lam), payer, target, TopUp(old(lam)[target], Size(data)))
      ensures r.Done? ==> info == old(info)[target := Created(data)]
    {
      var size := Size(data);
      r := CreatePda(payer, target, size);
      if r.Done? {
        Write(target, data);
      }
    }

    method Resize(k: Key, len: nat)
      requires k in info
      modifies `info
      ensures info == old(info)[k := old(info)[k].(len := len)]
    {
      info := info[k := info[k].(len := len)];
    }

    /** The recipient gets the whole balance and the account is gone. The 64-bit addition
        cannot overflow while the supply fits. */
    method CloseProgramAccount(account: Key, recipient: Key) returns (r: Outcome)
      requires account != recipient && |lam| <= U64_MAX
      modifies `lam, `info
      ensures r == Done
      ensures lam == Pay(old(lam), account, recipient, old(lam)[account]) && info == old(info) - {account}
    {
      var lamports := lam[account];
      BalanceWithinSupply(lam, account, recipient);
      if lam[recipient] + lamports > U64_MAX {
        return Fail(InvalidAccountData);
      }
      lam := lam[recipient := lam[recipient] + lamports];
      lam := lam[account := 0];
      info := info - {account};
      return Done;
    }

    // ---- fees ----

    method EnsureShard(payer: Key, vault: Key) returns (r: Outcome)
      requires payer != vault
      modifies `lam, `info
      ensures r == CheckPay(old(Now()), payer, OpeningCost(old(Now()), vault))
      ensures r.Done? ==> lam == Pay(old(lam), payer, vault, OpeningCost(old(Now()), vault))
      ensures r.Done? ==> info == WithVault(old(info), vault)
    {
      if !Fresh(info, vault) {
        PayNothing(lam, payer, vault);
        return Done;
      }
      r := CreateWith(payer, vault, Vault);
    }

    method EnsureBothShards(payer: Key, treasury: Key, author: Key) returns (r: Outcome)
      requires payer != treasury && payer != author && treasury != author && payer.External?
      requires IsVault(treasury) && IsVault(author)
      modifies `lam, `info
      ensures var open1, open2 := OpeningCost(old(Now()), treasury), OpeningCost(old(Now()), author);
              && r == CheckPay(old(Now()), payer, open1 + open2)
              && (r.Done? ==> lam == Pay(Pay(old(lam), payer, treasury, open1), payer, author, open2)
                              && info == WithVault(WithVault(old(info), treasury), author))
    {
      hide Rent, Pay, OpeningCost, CanPay, WithVault, Fresh;
      ghost var start, open1 := Now(), OpeningCost(Now(), treasury);
      r := EnsureShard(payer, treasury);
      if r.Fail? {
        MoreCostsMore(start, payer, open1, OpeningCost(start, author));
        return;
      }
      OpeningElsewhere(start, Now(), payer, treasury, author);
      PayTwice(start, Now(), payer, open1, OpeningCost(start, author));
      r := EnsureShard(payer, author);
    }

    method CollectFee(amount: nat, payer: Key, vault: Key) returns (r: Outcome)
      requires payer != vault
      modifies `lam
      ensures r == CheckPay(old(Now()), payer, Collected(amount, old(lam)[vault]))
      ensures r.Done? ==> lam == Pay(old(lam), payer, vault, Collected(amount, old(lam)[vault]))
    {
      if amount == 0 {
        PayNothing(lam, payer, vault);
        return Done;
      }
      var fee := Max(amount, SatSub(Rent(0), lam[vault]));
      r := Transfer(payer, vault, fee);
    }

    /** On a funded vault and a rate of at most 100% the machine arithmetic is exact. */
    method CollectBaseFee(rent: nat, bps: nat, payer: Key, vault: Key) returns (r: Outcome)
      requires payer != vault && rent <= U64_MAX && bps <= BPS && lam[vault] >= Rent(0)
      modifies `lam
      ensures r == CheckPay(old(Now()), payer, Cut(rent, bps))
      ensures r.Done? ==> lam == Pay(old(lam), payer, vault, Cut(rent, bps))
    {
      var split := ComputeFeeSplit(rent, bps);
      SplitIsExact(rent, bps);
      r := CollectFee(split.1, payer, vault);
    }

    /** Platform leg, then author leg: together they move the whole amount. */
    method TransferFeeSplit(amount: nat, bps: nat, payer: Key, author: Key, treasury: Key) returns (r: Outcome)
      requires payer != treasury && payer != author && treasury != author
      requires amount <= U64_MAX && bps <= BPS && lam[treasury] >= Rent(0) && lam[author] >= Rent(0)
      modifies `lam
      ensures Cut(amount, bps) <= amount
      ensures r == CheckPay(old(Now()), payer, amount)
      ensures r.Done? ==>
                lam == Pay(Pay(old(lam), payer, treasury, Cut(amount, bps)), payer, author, amount - Cut(amount, bps))
    {
      var (authorReceives, platformCut) := ComputeFeeSplit(amount, bps);
      SplitIsExact(amount, bps);
      CutBounds(amount, bps);
      ghost var start := Now();
      if platformCut > 0 {
        r := CollectFee(platformCut, payer, treasury);
        if r.Fail? {
          return;
        }
      }
      assert lam == Pay(old(lam), payer, treasury, platformCut);
      PayTwice(start, Now(), payer, platformCut, authorReceives);
      ghost var mid := lam;
      if authorReceives > 0 {
        r := CollectFee(authorReceives, payer, author);
        return;
      }
      PayNothing(lam, payer, author);
      return Done;
    }

    /** The vault keeps its rent and the recipient gains the rest. The 64-bit addition cannot
        overflow within the supply, not even when the recipient is the vault itself. */
    method SweepShardExcess(vault: Key, recipient: Key) returns (r: Outcome)
      requires !Fresh(info, vault) && |lam| <= U64_MAX
      modifies `lam
      ensures r == Done && lam == DrainOne(old(lam), info, vault, recipient)
    {
      var excess := SatSub(lam[vault], Rent(0));
      if excess > 0 {
        if vault != recipient {
          BalanceWithinSupply(lam, vault, recipient);
        }
        lam := lam[vault := Rent(0)];
        if lam[recipient] + excess > U64_MAX {
          return Fail(InvalidAccountData);
        }
        lam := lam[recipient := lam[recipient] + excess];
      }
      return Done;
    }
  }
}
