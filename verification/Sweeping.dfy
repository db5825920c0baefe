/** The two sweeps: a loop over a caller-supplied list of vaults. */
module Sweeping {
  import opened Keys
  import opened Ledger
  import opened Instructions
  import opened Sweep
  import opened Chain

  lemma {:induction false} FirstFailureDecides(info: Accounts, v: VaultSet, ks: seq<Key>, js: seq<nat>, n: nat, m: nat)
    requires n <= m <= |ks| == |js| && CheckSweptAll(info, v, ks, js, n).Fail?
    ensures CheckSweptAll(info, v, ks, js, m) == CheckSweptAll(info, v, ks, js, n)
  {
    if n < m {
      FirstFailureDecides(info, v, ks, js, n, m - 1);
    }
  }

  /** One vault: skipped while uninitialised, else checked and drained. */
  method SweepOne(bank: Bank, v: VaultSet, k: Key, idx: nat, recipient: Key) returns (r: Outcome)
    requires |bank.lam| <= U64_MAX
    modifies bank`lam
    ensures r == CheckSwept(bank.info, v, k, idx)
    ensures r.Done? ==> bank.lam == DrainOne(old(bank.lam), bank.info, k, recipient)
  {
    if Fresh(bank.info, k) {
      return Done;
    }
    r := CheckOwned(bank.info, k);
    if r.Fail? {
      return;
    }
    if idx >= VaultLimit(v) {
      return Fail(InvalidShard);
    }
    if k != VaultKey(v, idx) {
      return Fail(InvalidPda);
    }
    r := bank.SweepShardExcess(k, recipient);
  }

  method SweepAll(bank: Bank, v: VaultSet, ks: seq<Key>, js: seq<nat>, recipient: Key) returns (r: Outcome)
    requires |ks| == |js| && |bank.lam| <= U64_MAX
    modifies bank`lam
    ensures r == CheckSweptAll(bank.info, v, ks, js, |ks|)
    ensures r.Done? ==> bank.lam == Drain(old(bank.lam), bank.info, ks, recipient)
  {
    r := Done;
    ghost var lam := bank.lam;
    for n := 0 to |ks|
      invariant r.Done? && CheckSweptAll(bank.info, v, ks, js, n).Done?
      invariant bank.lam == Drain(lam, bank.info, ks[..n], recipient) && |bank.lam| == |lam|
    {
      r := SweepOne(bank, v, ks[n], js[n], recipient);
      if r.Fail? {
        FirstFailureDecides(bank.info, v, ks, js, n + 1, |ks|);
        return;
      }
      assert ks[..n + 1][..n] == ks[..n];
      DrainBalances(lam, bank.info, ks[..n + 1], recipient);
    }
    assert ks[..|ks|] == ks;
  }

  method SweepList(bank: Bank, v: VaultSet, ks: seq<Key>, js: seq<nat>, recipient: Key) returns (r: Outcome)
    requires |bank.lam| <= U64_MAX
    modifies bank`lam
    ensures r == CheckSweepList(bank.info, v, ks, js)
    ensures r.Done? ==> bank.lam == Drain(old(bank.lam), bank.info, ks, recipient)
  {
    if ks == [] {
      return Fail(NothingToSweep);
    }
    if |ks| != |js| {
      return Fail(InvalidShard);
    }
    r := SweepAll(bank, v, ks, js, recipient);
  }

  /** `process_sweep_treasury` and `process_sweep_author_fees`. */
  method SweepVaults(bank: Bank, i: Instruction) returns (r: Outcome)
    requires (i.SweepTreasury? || i.SweepAuthorFees?) && |bank.lam| <= U64_MAX
    modifies bank`lam
    ensures r == SweepCheck(old(bank.Now()), i)
    ensures r.Done? ==> bank.Now() == SweepPost(old(bank.Now()), i)
  {
    if i.SweepTreasury? {
      r := CheckSettings(bank.info);
      if r.Fail? {
        return;
      }
      if i.recipient != bank.info[SettingsKey].data.treasury {
        return Fail(InvalidTreasury);
      }
      r := SweepList(bank, TreasuryVaults, i.accounts, i.indices, i.recipient);
    } else {
      r := CheckThread(bank.info, i.thread);
      if r.Fail? {
        return;
      }
      if i.recipient != bank.info[i.thread].data.author {
        return Fail(InvalidAuthor);
      }
      r := SweepList(bank, AuthorVaults(i.thread), i.accounts, i.indices, i.recipient);
    }
  }
}
