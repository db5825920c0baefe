/** What sweeping a caller-supplied list of vaults does, in closed form. */
module Sweep {
  import opened Keys
  import opened Ledger
  import opened Instructions
  import opened Invariant

  /** The distinct vaults a list really empties: initialised ones other than the recipient. */
  function Swept(info: Accounts, ks: seq<Key>, to: Key): set<Key> {
    set k | k in ks && !Fresh(info, k) && k != to
  }

  function Excess(balance: nat): nat { if balance > Rent(0) then balance - Rent(0) else 0 }

  ghost function ExcessSum(lam: Lamports, ks: set<Key>): nat {
    if ks == {} then 0
    else
      var k :| k in ks;
      Excess(lam[k]) + ExcessSum(lam, ks - {k})
  }

  lemma {:induction false} ExcessSumSplit(lam: Lamports, ks: set<Key>, k: Key)
    requires k in ks
    ensures ExcessSum(lam, ks) == Excess(lam[k]) + ExcessSum(lam, ks - {k})
    decreases |ks|
  {
    var x :| x in ks && ExcessSum(lam, ks) == Excess(lam[x]) + ExcessSum(lam, ks - {x});
    if x != k {
      ExcessSumSplit(lam, ks - {x}, k);
      ExcessSumSplit(lam, ks - {k}, x);
      assert ks - {x} - {k} == ks - {k} - {x};
    }
  }

  lemma PayMoves(lam: Lamports, from: Key, to: Key, amount: nat)
    requires amount <= lam[from] && from != to
    ensures |Pay(lam, from, to, amount)| == |lam|
    ensures Pay(lam, from, to, amount)[from] == lam[from] - amount
    ensures Pay(lam, from, to, amount)[to] == lam[to] + amount
    ensures forall x | x != from && x != to :: Pay(lam, from, to, amount)[x] == lam[x]
  {
  }

  lemma DrainOneMoves(lam: Lamports, info: Accounts, k: Key, to: Key)
    ensures |DrainOne(lam, info, k, to)| == |lam|
    ensures Fresh(info, k) || k == to ==> DrainOne(lam, info, k, to) == lam
    ensures forall x | x != k && x != to :: DrainOne(lam, info, k, to)[x] == lam[x]
    ensures !Fresh(info, k) && k != to ==>
              && DrainOne(lam, info, k, to)[k] == lam[k] - Excess(lam[k])
              && DrainOne(lam, info, k, to)[to] == lam[to] + Excess(lam[k])
  {
    if !Fresh(info, k) && lam[k] > Rent(0) {
      if k == to {
        SelfPay(lam, k, lam[k] - Rent(0));
      } else {
        PayMoves(lam, k, to, lam[k] - Rent(0));
      }
    }
    hide Pay, Rent, Fresh;
  }

  lemma SelfPay(lam: Lamports, k: Key, amount: nat)
    requires amount <= lam[k]
    ensures Pay(lam, k, k, amount) == lam
  {
  }

  /** One more member adds itself, if it is a vault that counts and is not there yet. */
  lemma SweptGrows(info: Accounts, ks: seq<Key>, to: Key)
    requires ks != []
    ensures var before, last := Swept(info, ks[..|ks| - 1], to), ks[|ks| - 1];
            Swept(info, ks, to) == before + (if Fresh(info, last) || last == to then {} else {last})
  {
    hide Fresh;
    var front, last := ks[..|ks| - 1], ks[|ks| - 1];
    assert forall k :: k in ks <==> k in front || k == last;
  }

  /** The balances after sweeping the set `ks` of vaults. */
  ghost predicate Drained(lam: Lamports, after: Lamports, ks: set<Key>, to: Key) {
    && |after| == |lam|
    && (forall k | k != to :: after[k] == if k in ks then lam[k] - Excess(lam[k]) else lam[k])
    && after[to] == lam[to] + ExcessSum(lam, ks)
  }

  lemma DrainedAgain(lam: Lamports, mid: Lamports, ks: set<Key>, info: Accounts, k: Key, to: Key)
    requires Drained(lam, mid, ks, to) && (Fresh(info, k) || k == to || k in ks)
    ensures Drained(lam, DrainOne(mid, info, k, to), ks, to)
  {
    DrainOneMoves(mid, info, k, to);
    hide DrainOne, ExcessSum;
    assert k in ks && k != to ==> Excess(mid[k]) == 0;
  }

  lemma DrainedMore(lam: Lamports, mid: Lamports, ks: set<Key>, info: Accounts, k: Key, to: Key)
    requires Drained(lam, mid, ks, to) && !Fresh(info, k) && k != to && k !in ks
    ensures Drained(lam, DrainOne(mid, info, k, to), ks + {k}, to)
  {
    DrainOneMoves(mid, info, k, to);
    assert ks + {k} - {k} == ks;
    ExcessSumSplit(lam, ks + {k}, k);
    hide DrainOne, ExcessSum, Fresh, Excess;
  }

  lemma {:induction false} DrainIsDrained(lam: Lamports, info: Accounts, ks: seq<Key>, to: Key)
    ensures Drained(lam, Drain(lam, info, ks, to), Swept(info, ks, to), to)
  {
    if ks == [] {
      assert Swept(info, ks, to) == {};
    } else {
      var front, last := ks[..|ks| - 1], ks[|ks| - 1];
      var before, mid := Swept(info, front, to), Drain(lam, info, front, to);
      DrainIsDrained(lam, info, front, to);
      SweptGrows(info, ks, to);
      hide Drained, Swept, DrainOne, Fresh;
      if Fresh(info, last) || last == to || last in before {
        assert Swept(info, ks, to) == before;
        DrainedAgain(lam, mid, before, info, last, to);
      } else {
        DrainedMore(lam, mid, before, info, last, to);
      }
    }
  }

  /** Each swept vault keeps the rent of an empty account, the recipient gains the sum of the
      excesses, nothing else moves and the supply is unchanged, whatever the list. */
  lemma DrainBalances(lam: Lamports, info: Accounts, ks: seq<Key>, to: Key)
    ensures |Drain(lam, info, ks, to)| == |lam|
    ensures forall k | k != to :: Drain(lam, info, ks, to)[k] ==
              if k in Swept(info, ks, to) then lam[k] - Excess(lam[k]) else lam[k]
    ensures Drain(lam, info, ks, to)[to] == lam[to] + ExcessSum(lam, Swept(info, ks, to))
  {
    hide Drain, Swept, ExcessSum, Excess;
    DrainIsDrained(lam, info, ks, to);
  }

  /** Order, repetition and uninitialised members do not matter: the set of vaults does. */
  lemma SweepDependsOnSetOnly(lam: Lamports, info: Accounts, xs: seq<Key>, ys: seq<Key>, to: Key)
    requires Swept(info, xs, to) == Swept(info, ys, to)
    ensures Drain(lam, info, xs, to) == Drain(lam, info, ys, to)
  {
    DrainBalances(lam, info, xs, to);
    DrainBalances(lam, info, ys, to);
    var dx, dy := Drain(lam, info, xs, to), Drain(lam, info, ys, to);
    assert forall k :: dx[k] == dy[k];
  }

  lemma {:induction false} NoExcess(lam: Lamports, ks: set<Key>)
    requires forall k | k in ks :: lam[k] <= Rent(0)
    ensures ExcessSum(lam, ks) == 0
    decreases |ks|
  {
    if ks != {} {
      var k :| k in ks;
      ExcessSumSplit(lam, ks, k);
      NoExcess(lam, ks - {k});
    }
  }

  /** Sweeping the same list again moves nothing. */
  lemma SecondSweepIsIdle(lam: Lamports, info: Accounts, ks: seq<Key>, to: Key)
    ensures var once := Drain(lam, info, ks, to); Drain(once, info, ks, to) == once
  {
    var once := Drain(lam, info, ks, to);
    DrainBalances(lam, info, ks, to);
    DrainBalances(once, info, ks, to);
    NoExcess(once, Swept(info, ks, to));
    assert forall k :: Drain(once, info, ks, to)[k] == once[k];
  }

  lemma {:induction false} SweptAreVaults(info: Accounts, v: VaultSet, ks: seq<Key>, js: seq<nat>, n: nat, m: nat)
    requires m < n <= |ks| == |js|
    requires CheckSweptAll(info, v, ks, js, n).Done?
    ensures CheckSwept(info, v, ks[m], js[m]).Done?
  {
    if m < n - 1 {
      SweptAreVaults(info, v, ks, js, n - 1, m);
    }
  }

  lemma SweepListVaults(info: Accounts, v: VaultSet, ks: seq<Key>, js: seq<nat>, to: Key)
    requires CheckSweepList(info, v, ks, js).Done?
    ensures forall k | k in Swept(info, ks, to) :: IsVault(k) && k in info
  {
    forall k | k in Swept(info, ks, to)
      ensures IsVault(k) && k in info
    {
      var m :| 0 <= m < |ks| && ks[m] == k;
      SweptAreVaults(info, v, ks, js, |ks|, m);
    }
  }

  /** An accepted sweep empties only fee vaults. */
  lemma SweepsVaultsOnly(s: State, i: Instruction)
    requires (i.SweepTreasury? || i.SweepAuthorFees?) && SweepCheck(s, i).Done?
    ensures forall k | k in Swept(s.info, i.accounts, i.recipient) :: IsVault(k) && k in s.info
  {
    var v := if i.SweepTreasury? then TreasuryVaults else AuthorVaults(i.thread);
    SweepListVaults(s.info, v, i.accounts, i.indices, i.recipient);
  }

  lemma DrainFunds(lam: Lamports, info: Accounts, ks: seq<Key>, to: Key)
    requires Funded(lam, info) && forall k | k in Swept(info, ks, to) :: k in info && info[k].len == 0
    ensures Funded(Drain(lam, info, ks, to), info)
  {
    DrainBalances(lam, info, ks, to);
  }

  lemma SweepMoney(s: State, i: Instruction)
    requires (i.SweepTreasury? || i.SweepAuthorFees?) && SweepCheck(s, i).Done?
    requires Typed(s.info) && Funded(s.lam, s.info)
    ensures var t := SweepPost(s, i); Funded(t.lam, t.info) && |t.lam| == |s.lam|
  {
    DrainBalances(s.lam, s.info, i.accounts, i.recipient);
    SweepsVaultsOnly(s, i);
    forall k | k in Swept(s.info, i.accounts, i.recipient)
      ensures s.info[k].len == 0
    {
      assert TypedAt(k, s.info[k]);
    }
    DrainFunds(s.lam, s.info, i.accounts, i.recipient);
  }
}
