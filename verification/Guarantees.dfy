/** What holds of every run: bounded cuts, stable authority, conservation, rent exemption. */
module Guarantees {
  import opened Keys
  import opened Records
  import opened Ledger
  import opened FeeMath
  import opened Instructions
  import opened Invariant
  import opened Prices
  import opened Revenue
  import opened Debits
  import opened Acceptance
  import opened Messages
  import opened Money
  import opened Sweep
  import opened Chain
  import opened Runs

  /** In every reachable state each cut splits any amount exactly, at most half to the platform. */
  lemma EverySplitIsFair(h: History, amount: nat, bps: nat)
    requires Valid(h) && amount <= U64_MAX && Data(h.state.info, SettingsKey).Settings?
    requires var r := Data(h.state.info, SettingsKey);
             bps in {r.baseFeeBps, r.authorCutBps, r.entryCutBps, r.likeCutBps}
    ensures bps <= MAX_FEE_CUT_BPS
    ensures var (author, platform) := ComputeFeeSplit(amount, bps);
            author + platform == amount && platform == amount * bps / BPS && platform <= author
  {
    ReachableInv(h);
    assert TypedAt(SettingsKey, h.state.info[SettingsKey]);
    SplitIsExact(amount, bps);
  }

  /** A thread's author never changes, and whoever administers its access list is that author. */
  lemma AuthorityIsStable(earlier: History, later: History, t: Key)
    requires Valid(later) && Continues(earlier, later) && IsThread(earlier.state.info, t)
    ensures IsThread(later.state.info, t)
    ensures later.state.info[t].data.author == earlier.state.info[t].data.author
    ensures var access := Data(later.state.info, AccessKey(t));
            AccessKey(t) in later.state.info ==> access.Access? && access.thread == t
                                                 && access.admin == earlier.state.info[t].data.author
  {
    ThreadHistory(earlier, later, t);
    ReachableInv(later);
    if AccessKey(t) in later.state.info {
      assert Anchored(later.state.info, AccessKey(t));
      assert TypedAt(AccessKey(t), later.state.info[AccessKey(t)]);
    }
  }

  /** Between two moments with instructions and clock ticks only. */
  ghost predicate Undisturbed(earlier: History, later: History)
    requires Continues(earlier, later)
  {
    later == earlier || (!later.action.Outside? && Undisturbed(earlier, later.before))
  }

  /** The program neither creates nor destroys lamports, over any number of instructions. */
  lemma {:induction false} SupplyIsConstant(earlier: History, later: History)
    requires Valid(later) && Continues(earlier, later) && Undisturbed(earlier, later)
    ensures |later.state.lam| == |earlier.state.lam|
  {
    if later != earlier {
      SupplyIsConstant(earlier, later.before);
      ReachableInv(later.before);
      StepKeepsInv(later.before.state, later.action, later.state);
    }
  }

  /** In every reachable state each account the program wrote is rent exempt at its size, and a
      registry its owner has just shortened holds exactly the rent of its new size. */
  lemma AlwaysRentExempt(h: History, k: Key)
    requires Valid(h) && k in h.state.info && !h.state.info[k].data.Blank?
    ensures h.state.info[k].owner.Program? && h.state.info[k].len == Size(h.state.info[k].data)
    ensures h.state.lam[k] >= Rent(h.state.info[k].len)
    ensures h.Then? && h.action.Run? && h.action.i.Unsubscribe? && k == RegistryKey(h.action.i.payer) ==>
              h.state.lam[k] == Rent(h.state.info[k].len)
  {
    hide UnsubscribePost, UnsubscribeCheck, Followers, Pages, Children;
    ReachableInv(h);
    assert TypedAt(k, h.state.info[k]);
    if h.Then? && h.action.Run? && h.action.i.Unsubscribe? {
      ReachableInv(h.before);
      UnsubscribeMoney(h.before.state, h.action.i);
    }
  }

  /** In every reachable state the rent-deficit branch of fee collection is idle: an open vault
      is charged exactly the fee. */
  lemma DeficitNeverRaises(h: History, k: Key, amount: nat)
    requires Valid(h) && IsVault(k) && !Fresh(h.state.info, k)
    ensures Collected(amount, h.state.lam[k]) == amount
  {
    ReachableInv(h);
    assert TypedAt(k, h.state.info[k]);
    CollectedIsExactIff(amount, h.state.lam[k]);
  }

  /** What a sweep empties is a fee vault, funded in every state of the invariant. */
  lemma SweptAreFunded(s: State, i: Instruction)
    requires Inv(s) && (i.SweepTreasury? || i.SweepAuthorFees?) && SweepCheck(s, i).Done?
    ensures forall k | k in Swept(s.info, i.accounts, i.recipient) :: s.lam[k] >= Rent(0)
  {
    hide SweepCheck, Swept, Followers, Pages, Children;
    SweepsVaultsOnly(s, i);
    forall k | k in Swept(s.info, i.accounts, i.recipient)
      ensures s.lam[k] >= Rent(0)
    {
      assert TypedAt(k, s.info[k]);
    }
  }

  /** A sweep of a reachable state leaves every vault it empties with exactly the rent of an
      empty account, and pays the recipient everything else they held. */
  lemma SweptHoldRent(h: History, i: Instruction)
    requires Valid(h) && (i.SweepTreasury? || i.SweepAuthorFees?) && SweepCheck(h.state, i).Done?
    ensures var s, t, swept := h.state, SweepPost(h.state, i), Swept(h.state.info, i.accounts, i.recipient);
            && (forall k | k in swept :: t.lam[k] == Rent(0))
            && t.lam[i.recipient] == s.lam[i.recipient] + ExcessSum(s.lam, swept)
            && (forall k | k !in swept && k != i.recipient :: t.lam[k] == s.lam[k])
  {
    hide Valid, Inv, SweepCheck, Drain, ExcessSum, Rent, Fresh;
    ReachableInv(h);
    SweptAreFunded(h.state, i);
    DrainBalances(h.state.lam, h.state.info, i.accounts, i.recipient);
  }

  /** What a listed vault is, when a sweep that lists it is accepted. */
  lemma SweptIsListed(s: State, i: Instruction, k: Key)
    requires Inv(s) && IsSweep(i) && SweepCheck(s, i).Done? && k in Swept(s.info, i.accounts, i.recipient)
    ensures if i.SweepTreasury? then k.TreasuryKey? && Data(s.info, SettingsKey).Settings?
                                     && i.recipient == Data(s.info, SettingsKey).treasury
            else k.AuthorKey? && k.thread == i.thread && IsAuthor(s.info, i.thread, i.recipient)
  {
    SweepIff(s, i);
    FreshIsAbsent(s.info, k);
    hide Inv, SweepCheck, Fresh;
    var m :| 0 <= m < |i.accounts| && i.accounts[m] == k;
  }

  /** Whoever takes the step, lamports leave a fee vault only by a sweep that lists it. */
  lemma VaultsAreSwept(h: History, k: Key)
    requires Valid(h) && h.Then? && IsVault(k) && h.state.lam[k] < h.before.state.lam[k]
    ensures h.action.Run? && IsSweep(h.action.i) && SweepCheck(h.before.state, h.action.i).Done?
    ensures k in Swept(h.before.state.info, h.action.i.accounts, h.action.i.recipient)
    ensures h.state == SweepPost(h.before.state, h.action.i)
  {
    hide WellFormed, Sane, SweepCheck, SweepPost, Swept, IsThread;
    if h.action.Run? {
      DerivedDebits(h.before, h.action.i, k);
      OnlyTheseAreDebited(h.before.state, h.action.i, k);
    }
  }

  /** Over every run, lamports leave a treasury vault only into the address the settings name as the
      treasury at that moment, down to the rent of an empty account and not below. */
  lemma TreasuryPayout(h: History, k: Key)
    requires Valid(h) && h.Then? && k.TreasuryKey? && h.state.lam[k] < h.before.state.lam[k]
    ensures h.action.Run? && h.action.i.SweepTreasury? && h.state.lam[k] == Rent(0)
    ensures var s, t, i := h.before.state, h.state, h.action.i;
            && Data(s.info, SettingsKey).Settings? && i.recipient == Data(s.info, SettingsKey).treasury
            && t.lam[i.recipient] == s.lam[i.recipient] + ExcessSum(s.lam, Swept(s.info, i.accounts, i.recipient))
  {
    VaultsAreSwept(h, k);
    ReachableInv(h.before);
    hide Valid, Inv, SweepCheck, SweepPost, Rent, ExcessSum, Swept;
    SweptIsListed(h.before.state, h.action.i, k);
    SweptHoldRent(h.before, h.action.i);
  }

  /** Likewise a channel's vaults pay only the channel's author. */
  lemma AuthorPayout(h: History, k: Key)
    requires Valid(h) && h.Then? && k.AuthorKey? && h.state.lam[k] < h.before.state.lam[k]
    ensures h.action.Run? && h.action.i.SweepAuthorFees? && h.state.lam[k] == Rent(0)
    ensures var s, t, i := h.before.state, h.state, h.action.i;
            && IsAuthor(s.info, k.thread, i.recipient)
            && t.lam[i.recipient] == s.lam[i.recipient] + ExcessSum(s.lam, Swept(s.info, i.accounts, i.recipient))
  {
    VaultsAreSwept(h, k);
    ReachableInv(h.before);
    hide Valid, Inv, SweepCheck, SweepPost, Rent, ExcessSum, Swept;
    SweptIsListed(h.before.state, h.action.i, k);
    SweptHoldRent(h.before, h.action.i);
  }
}
