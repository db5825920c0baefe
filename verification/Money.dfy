/** Rent exemption and conservation, instruction by instruction. */
module Money {
  import opened Keys
  import opened Records
  import opened Ledger
  import opened Instructions
  import opened Invariant

  /** Settling a bill keeps every untouched account rent exempt; a payer that is really
      debited holds none of the program's records. */
  lemma SettleFunds(s: State, b: Bill, info: Accounts)
    requires Typed(s.info) && Funded(s.lam, s.info) && b.Payable(s)
    requires forall k | k in info && !info[k].data.Blank? ::
               (k in s.info && info[k] == s.info[k]) || Settle(s.lam, b)[k] >= Rent(info[k].len)
    ensures Funded(Settle(s.lam, b), info) && |Settle(s.lam, b)| == |s.lam|
  {
    SettleMoves(s.lam, b);
    assert b.Total() == 0 || b.payer !in s.info;
  }

  /** What a bill leaves at its target and at the vaults it opens. */
  lemma BillCovers(s: State, b: Bill, k: Key)
    requires b.Payable(s)
    ensures k == b.target ==> Settle(s.lam, b)[k] >= s.lam[k] + b.deposit
    ensures k == TreasuryKey(b.treasuryIdx) && Fresh(s.info, k) && b.toTreasury >= OpeningCost(s, k) ==>
              Settle(s.lam, b)[k] >= Rent(0)
    ensures k == AuthorKey(b.thread, b.authorIdx) && Fresh(s.info, k) && b.toAuthor >= OpeningCost(s, k) ==>
              Settle(s.lam, b)[k] >= Rent(0)
  {
    hide Rent;
    SettleMoves(s.lam, b);
  }

  /** The common case: vaults opened where the bill covers it, and one record put in place. */
  lemma SettleAndPut(s: State, b: Bill, a: Account, withTreasury: bool, withAuthor: bool)
    requires Typed(s.info) && Funded(s.lam, s.info) && b.Payable(s)
    requires withTreasury ==> b.toTreasury >= OpeningCost(s, TreasuryKey(b.treasuryIdx))
    requires withAuthor ==> b.toAuthor >= OpeningCost(s, AuthorKey(b.thread, b.authorIdx))
    requires !IsVault(b.target) && s.lam[b.target] + b.deposit >= Rent(a.len)
    ensures var m1 := if withTreasury then WithVault(s.info, TreasuryKey(b.treasuryIdx)) else s.info;
            var m2 := if withAuthor then WithVault(m1, AuthorKey(b.thread, b.authorIdx)) else m1;
            Funded(Settle(s.lam, b), m2[b.target := a])
    ensures |Settle(s.lam, b)| == |s.lam|
  {
    var m1 := if withTreasury then WithVault(s.info, TreasuryKey(b.treasuryIdx)) else s.info;
    var m2 := if withAuthor then WithVault(m1, AuthorKey(b.thread, b.authorIdx)) else m1;
    var post := m2[b.target := a];
    hide Settle, Rent, Typed, Funded, OpeningCost;
    forall k | k in post && !post[k].data.Blank?
      ensures (k in s.info && post[k] == s.info[k]) || Settle(s.lam, b)[k] >= Rent(post[k].len)
    {
      BillCovers(s, b, k);
      if k != b.target && !(k in s.info && post[k] == s.info[k]) {
        assert Fresh(s.info, k) && post[k].len == 0;
      }
    }
    SettleFunds(s, b, post);
  }

  lemma PayAndPut(lam: Lamports, info: Accounts, payer: Key, k: Key, amount: nat, a: Account)
    requires Funded(lam, info) && amount <= lam[payer] && payer != k && (amount == 0 || payer !in info)
    requires lam[k] + amount >= Rent(a.len)
    ensures Funded(Pay(lam, payer, k, amount), info[k := a])
    ensures |Pay(lam, payer, k, amount)| == |lam|
  {
  }

  /** A closed account's balance goes back to a signer. */
  lemma RefundAndDrop(lam: Lamports, info: Accounts, k: Key, to: Key)
    requires Funded(lam, info) && k != to
    ensures Funded(Pay(lam, k, to, lam[k]), info - {k})
    ensures |Pay(lam, k, to, lam[k])| == |lam|
  {
  }

  lemma InitSettingsMoney(s: State, i: Instruction)
    requires i.InitSettings? && WellFormed(i) && InitSettingsCheck(s, i).Done? && Typed(s.info) && Funded(s.lam, s.info)
    ensures var t := InitSettingsPost(s, i); Funded(t.lam, t.info) && |t.lam| == |s.lam|
  {
    PayAndPut(s.lam, s.info, i.payer, SettingsKey, TopUp(s.lam[SettingsKey], SETTINGS_SIZE),
              InitSettingsPost(s, i).info[SettingsKey]);
  }

  lemma CreateRootMoney(s: State, i: Instruction)
    requires i.CreateRootAlloc? && WellFormed(i) && CreateRootCheck(s, i).Done? && Typed(s.info)
    requires Funded(s.lam, s.info)
    ensures var t := CreateRootPost(s, i); Funded(t.lam, t.info) && |t.lam| == |s.lam|
  {
    hide Settle;
    SettleMoves(s.lam, CreateRootBill(s, i));
    var b, t := CreateRootBill(s, i), CreateRootPost(s, i);
    var root := AllocKey(i.thread, 0);
    SettleAndPut(s, b, t.info[i.thread], true, false);
    PayAndPut(Settle(s.lam, b), WithVault(s.info, TreasuryKey(i.treasuryIdx))[i.thread := t.info[i.thread]],
              i.payer, root, TopUp(s.lam[root], ALLOC_SIZE), t.info[root]);
  }

  lemma PrepareMoney(s: State, i: Instruction)
    requires i.PrepareAlloc? && WellFormed(i) && PrepareCheck(s, i).Done? && Typed(s.info) && Funded(s.lam, s.info)
    ensures var t := PreparePost(s, i); Funded(t.lam, t.info) && |t.lam| == |s.lam|
  {
  }

  lemma FillMoney(s: State, i: Instruction)
    requires i.FillSlot? && WellFormed(i) && FillCheck(s, i).Done? && Typed(s.info) && Funded(s.lam, s.info)
    requires Sane(s, i)
    ensures var t := FillPost(s, i); Funded(t.lam, t.info) && |t.lam| == |s.lam|
  {
    FilledInRange(s, i);
    SettleAndPut(s, FillBill(s, i), Created(FilledContent(s, i)), true, true);
  }

  lemma AppendMoney(s: State, i: Instruction)
    requires i.AppendContent? && WellFormed(i) && AppendCheck(s, i).Done? && Typed(s.info) && Funded(s.lam, s.info)
    ensures var t := AppendPost(s, i); Funded(t.lam, t.info) && |t.lam| == |s.lam|
  {
    SettleAndPut(s, AppendBill(s, i), Created(GrownContent(s, i)), AppendOpens(s, i), false);
  }

  lemma LikesAreFunded(s: State, i: Instruction)
    requires i.LikeContent? && Typed(s.info) && Funded(s.lam, s.info)
    ensures s.lam[LikesKey(i.thread, i.page)] + LikesCost(s, LikesKey(i.thread, i.page)) >= Rent(LIKES_SIZE)
  {
    hide Rent;
    var k := LikesKey(i.thread, i.page);
    assert k in s.info ==> TypedAt(k, s.info[k]);
  }

  lemma LikeMoney(s: State, i: Instruction)
    requires i.LikeContent? && WellFormed(i) && LikeCheck(s, i).Done? && Typed(s.info) && Funded(s.lam, s.info)
    requires Sane(s, i)
    ensures var t := LikePost(s, i); Funded(t.lam, t.info) && |t.lam| == |s.lam|
  {
    LikesAreFunded(s, i);
    hide Settle, Rent, LikedCounts, Funded, Typed, LikesCost;
    SettleAndPut(s, LikeBill(s, i), Created(LikedRecord(s, i)), true, true);
  }

  lemma CloseMoney(s: State, i: Instruction)
    requires i.CloseAccount? && WellFormed(i) && CloseCheck(s, i).Done?
    requires Typed(s.info) && Funded(s.lam, s.info) && Sane(s, i)
    ensures var t := ClosePost(s, i); Funded(t.lam, t.info) && |t.lam| == |s.lam|
  {
    RefundAndDrop(s.lam, s.info, i.target, i.payer);
  }

  lemma InitAccessMoney(s: State, i: Instruction)
    requires i.InitThreadAccess? && WellFormed(i) && InitAccessCheck(s, i).Done? && Typed(s.info)
    requires Funded(s.lam, s.info)
    ensures var t := InitAccessPost(s, i); Funded(t.lam, t.info) && |t.lam| == |s.lam|
  {
    SettleAndPut(s, InitAccessBill(s, i), InitAccessPost(s, i).info[AccessKey(i.thread)], true, false);
  }

  /** A counter rewrite changes no length. */
  lemma CountKeepsFunds(lam: Lamports, info: Accounts, access: Key, delta: int)
    requires Funded(lam, info) && access in info && info[access].data.Access?
    ensures Funded(lam, WithCount(info, access, delta))
  {
  }

  lemma SetStatusMoney(s: State, i: Instruction)
    requires i.SetStatus? && WellFormed(i) && SetStatusCheck(s, i).Done? && Typed(s.info) && Funded(s.lam, s.info)
    ensures var t := SetStatusPost(s, i); Funded(t.lam, t.info) && |t.lam| == |s.lam|
  {
    var delta := SetStatusDelta(s, i);
    CountKeepsFunds(s.lam, s.info, i.access, delta);
    var counted := if delta == 0 then s.info else WithCount(s.info, i.access, delta);
    var k := EntryKey(s.info[i.access].data.thread, i.wallet);
    if Fresh(s.info, k) {
      PayAndPut(s.lam, counted, i.payer, k, TopUp(s.lam[k], ENTRY_SIZE), Created(Entry(k.thread, i.wallet, i.status)));
    }
  }

  lemma RemoveStatusMoney(s: State, i: Instruction)
    requires i.RemoveStatus? && WellFormed(i) && RemoveStatusCheck(s, i).Done? && Typed(s.info) && Funded(s.lam, s.info)
    ensures var t := RemoveStatusPost(s, i); Funded(t.lam, t.info) && |t.lam| == |s.lam|
  {
    CountKeepsFunds(s.lam, s.info, i.access, -1);
    RefundAndDrop(s.lam, if i.status == ACCESS_ALLOWED then WithCount(s.info, i.access, -1) else s.info,
                  EntryKey(s.info[i.access].data.thread, i.wallet), i.payer);
  }

  lemma RequestSettles(s: State, i: Instruction)
    requires i.RequestAccess? && WellFormed(i) && RequestCheck(s, i).Done?
    requires Typed(s.info) && Funded(s.lam, s.info) && Sane(s, i)
    ensures |RequestPost(s, i).lam| == |s.lam|
    ensures Funded(RequestPost(s, i).lam,
                   WithVault(WithVault(s.info, TreasuryKey(i.treasuryIdx)), AuthorKey(i.thread, i.authorIdx))
                     [EntryKey(i.thread, i.payer) := Created(Entry(i.thread, i.payer, ACCESS_ALLOWED))])
  {
    hide Settle, Rent, Funded, Typed;
    SettleAndPut(s, RequestBill(s, i), Created(Entry(i.thread, i.payer, ACCESS_ALLOWED)), true, true);
  }

  lemma RequestMoney(s: State, i: Instruction)
    requires i.RequestAccess? && WellFormed(i) && RequestCheck(s, i).Done?
    requires Typed(s.info) && Funded(s.lam, s.info) && Sane(s, i)
    ensures var t := RequestPost(s, i); Funded(t.lam, t.info) && |t.lam| == |s.lam|
  {
    RequestSettles(s, i);
    CountKeepsFunds(RequestPost(s, i).lam,
                    WithVault(WithVault(s.info, TreasuryKey(i.treasuryIdx)), AuthorKey(i.thread, i.authorIdx))
                      [EntryKey(i.thread, i.payer) := Created(Entry(i.thread, i.payer, ACCESS_ALLOWED))],
                    AccessKey(i.thread), 1);
  }

  lemma PayTwoAndPut(lam: Lamports, info: Accounts, payer: Key, k1: Key, x: nat, a1: Account, k2: Key, y: nat,
                     a2: Account)
    requires Funded(lam, info) && x + y <= lam[payer] && (x + y == 0 || payer !in info)
    requires payer != k1 && payer != k2 && k1 != k2
    requires lam[k1] + x >= Rent(a1.len) && lam[k2] + y >= Rent(a2.len)
    ensures Funded(Pay(Pay(lam, payer, k1, x), payer, k2, y), info[k1 := a1][k2 := a2])
    ensures |Pay(Pay(lam, payer, k1, x), payer, k2, y)| == |lam|
  {
    PayAndPut(lam, info, payer, k1, x, a1);
    PayAndPut(Pay(lam, payer, k1, x), info[k1 := a1], payer, k2, y, a2);
  }

  lemma SubscribeMoney(s: State, i: Instruction)
    requires i.Subscribe? && WellFormed(i) && SubscribeCheck(s, i).Done? && Typed(s.info) && Funded(s.lam, s.info)
    ensures var t := SubscribePost(s, i); Funded(t.lam, t.info) && |t.lam| == |s.lam|
  {
    var r, f := RegistryKey(i.payer), FollowerKey(i.thread, FollowerShardIndex(i.payer));
    var grown := GrownRegistry(s, i);
    PayTwoAndPut(s.lam, s.info, i.payer, r, TopUp(s.lam[r], Size(grown)), Created(grown),
                 f, FollowerCost(s, f), Created(RaisedFollower(s, i)));
  }

  /** An account shrinks to `a` and gives up everything above its new rent. */
  lemma ShrinkAndPut(lam: Lamports, info: Accounts, k: Key, to: Key, a: Account)
    requires Funded(lam, info) && k != to && lam[k] >= Rent(a.len)
    ensures var l := if lam[k] > Rent(a.len) then Pay(lam, k, to, lam[k] - Rent(a.len)) else lam;
            Funded(l, info[k := a]) && |l| == |lam| && l[k] == Rent(a.len)
  {
  }

  /** Rewriting one record in place at the same size. */
  lemma RewriteFunds(lam: Lamports, info: Accounts, k: Key, data: Record<Key>)
    requires Funded(lam, info) && k in info && !info[k].data.Blank?
    ensures Funded(lam, Rewritten(info, k, data))
  {
  }

  lemma RegistryShrinks(s: State, i: Instruction)
    requires i.Unsubscribe? && UnsubscribeCheck(s, i).Done?
    ensures UnsubscribePost(s, i).info[RegistryKey(i.payer)].len <= s.info[RegistryKey(i.payer)].len
  {
    hide Rent, Pay;
  }

  /** Shrinking a registry leaves it with exactly the rent of its new size. */
  lemma UnsubscribeMoney(s: State, i: Instruction)
    requires i.Unsubscribe? && WellFormed(i) && UnsubscribeCheck(s, i).Done? && Typed(s.info) && Funded(s.lam, s.info)
    ensures var t := UnsubscribePost(s, i); Funded(t.lam, t.info) && |t.lam| == |s.lam|
    ensures var r := RegistryKey(i.payer); UnsubscribePost(s, i).lam[r] == Rent(UnsubscribePost(s, i).info[r].len)
  {
    hide IndexOf, Pay, SwapRemove;
    RegistryShrinks(s, i);
    var r, f := RegistryKey(i.payer), FollowerKey(i.thread, FollowerShardIndex(i.payer));
    var t := UnsubscribePost(s, i);
    var a := t.info[r];
    RentMonotone(a.len, s.info[r].len);
    ShrinkAndPut(s.lam, s.info, r, i.payer, a);
    RewriteFunds(t.lam, s.info[r := a], f, t.info[f].data);
  }
}
