/** The handlers that count likes and reset them, step by step. */
module Liking {
  import opened Keys
  import opened Records
  import opened Ledger
  import opened FeeMath
  import opened Instructions
  import opened Chain
  import opened Charges

  // ---- the per-page counters ----

  /** Loads the counters of a page, changes one cell in place and writes them back. */
  method StoreCount(bank: Bank, likes: Key, slot: nat, reset: bool)
    requires CheckLikes(bank.info, likes).Done? && slot < CONTENT_SLOTS
    modifies bank`info
    ensures var r := old(bank.info[likes].data);
            bank.info == Rewritten(old(bank.info), likes,
                                   r.(counts := r.counts[slot := if reset then 0 else SaturatingInc(r.counts[slot])]))
  {
    var r := bank.info[likes].data;
    var counts := new nat[CONTENT_SLOTS](j requires 0 <= j < |r.counts| => r.counts[j]);
    counts[slot] := if reset then 0 else SaturatingInc(counts[slot]);
    assert counts[..] == r.counts[slot := counts[slot]];
    bank.Write(likes, r.(counts := counts[..]));
  }

  // ---- like_content ----

  /** The checks of a like once the prologue is passed. */
  lemma LikeMeans(s: State, i: Instruction)
    requires i.LikeContent?
    ensures LikePrologue(s, i).Fail? ==> LikeCheck(s, i) == LikePrologue(s, i)
    ensures LikePrologue(s, i).Done? ==>
              var likes := LikesKey(i.thread, i.page); var spent := OpenBoth(s, i) + LikesCost(s, likes);
              && i.slot < CONTENT_SLOTS && i.thread in s.info && s.info[i.thread].data.Thread?
              && SettingsKey in s.info && s.info[SettingsKey].data.Settings?
              && ContentKey(i.thread, i.page, i.slot) in s.info
              && s.info[ContentKey(i.thread, i.page, i.slot)].data.Content?
              && CheckThread(s.info, i.thread).Done? && CheckContent(s.info, ContentKey(i.thread, i.page, i.slot)).Done?
              && LikeCheck(s, i) ==
                   if !CanPay(s, i.payer, spent) then Fail(InsufficientFunds)
                   else if !Fresh(s.info, likes) && CheckLikes(s.info, likes).Fail? then CheckLikes(s.info, likes)
                   else if LikeFee(s, i) > i.maxFee then Fail(FeeExceedsMax)
                   else CheckPay(s, i.payer, spent + LikeFee(s, i))
  {
  }

  /** After the vaults, the counters exist: made on the bill, or there already. */
  ghost predicate Counted(s: State, t: State, i: Instruction)
    requires i.LikeContent?
  {
    var likes := LikesKey(i.thread, i.page);
    && Settled(s, t, OpeningBill(s, i, likes).(deposit := LikesCost(s, likes))) && t.now == s.now
    && t.info == if Fresh(s.info, likes)
                 then BothVaults(s, i)[likes := Created(Likes(i.page, ZeroCounts()))]
                 else BothVaults(s, i)
  }

  lemma CountersStart(s: State, t: State, i: Instruction)
    requires i.LikeContent? && Opened(s, t, i)
    ensures var likes := LikesKey(i.thread, i.page); var b := OpeningBill(s, i, likes);
            && Settled(s, t, b) && CanPay(s, i.payer, b.Total()) && b.Total() == OpenBoth(s, i) && b.payer == i.payer
            && t.lam[likes] == s.lam[likes] && (Fresh(t.info, likes) <==> Fresh(s.info, likes))
            && t.info == BothVaults(s, i) && t.now == s.now
  {
    OpenedIsSettled(s, t, i, LikesKey(i.thread, i.page));
  }

  method EnsureCounters(bank: Bank, i: Instruction, ghost s: State) returns (r: Outcome)
    requires i.LikeContent? && Opened(s, bank.Now(), i)
    modifies bank`lam, bank`info
    ensures r == CheckPay(s, i.payer, OpenBoth(s, i) + LikesCost(s, LikesKey(i.thread, i.page)))
    ensures r.Done? ==> Counted(s, bank.Now(), i)
  {
    hide Settled, OpeningCost, Rent, Opened;
    var likes := LikesKey(i.thread, i.page);
    CountersStart(s, bank.Now(), i);
    if !Fresh(bank.info, likes) {
      r := Done;
    } else {
      r := CreateOnBill(bank, i.payer, likes, Likes(i.page, ZeroCounts()), s, OpeningBill(s, i, likes));
    }
  }

  lemma CountersReady(s: State, t: State, i: Instruction)
    requires i.LikeContent? && Counted(s, t, i)
    ensures var likes := LikesKey(i.thread, i.page);
            CheckLikes(t.info, likes) == if Fresh(s.info, likes) then Done else CheckLikes(s.info, likes)
  {
  }

  /** The like is stored; the bill is as before. */
  ghost predicate LikeStored(s: State, t: State, i: Instruction)
    requires i.LikeContent? && i.slot < CONTENT_SLOTS
  {
    var likes := LikesKey(i.thread, i.page);
    && (Fresh(s.info, likes) || CheckLikes(s.info, likes).Done?)
    && t.info == BothVaults(s, i)[likes := Created(
                   Likes(if Fresh(s.info, likes) then i.page else s.info[likes].data.page,
                         LikedCounts(s.info, likes, i.slot)))]
    && Settled(s, t, OpeningBill(s, i, likes).(deposit := LikesCost(s, likes))) && t.now == s.now
  }

  lemma StoredLike(s: State, t: State, u: State, i: Instruction)
    requires i.LikeContent? && i.slot < CONTENT_SLOTS && Counted(s, t, i)
    requires var likes := LikesKey(i.thread, i.page);
             && CheckLikes(t.info, likes).Done?
             && CheckLikes(t.info, likes) == (if Fresh(s.info, likes) then Done else CheckLikes(s.info, likes))
             && var r := t.info[likes].data;
             u == t.(info := Rewritten(t.info, likes,
                                         r.(counts := r.counts[i.slot := SaturatingInc(r.counts[i.slot])])))
    ensures LikeStored(s, u, i)
  {
    var likes := LikesKey(i.thread, i.page);
    if !Fresh(s.info, likes) {
      assert BothVaults(s, i)[likes] == s.info[likes];
    }
  }

  /** What paying the like fee starts from. */
  lemma LikeStarts(s: State, t: State, i: Instruction)
    requires i.LikeContent? && Healthy(s) && LikePrologue(s, i).Done? && i.slot < CONTENT_SLOTS && LikeStored(s, t, i)
    ensures s.info[i.thread].data.likeFee <= U64_MAX && s.info[SettingsKey].data.likeCutBps <= BPS && Sane(s, i)
    ensures t.lam[TreasuryKey(i.treasuryIdx)] >= Rent(0) && t.lam[AuthorKey(i.thread, i.authorIdx)] >= Rent(0)
  {
    var likes := LikesKey(i.thread, i.page);
    VaultsFunded(s, t, OpeningBill(s, i, likes).(deposit := LikesCost(s, likes)));
  }

  lemma LikedState(s: State, t: State, u: State, i: Instruction)
    requires i.LikeContent? && WellFormed(i) && LikeCheck(s, i).Done? && Sane(s, i) && LikePrologue(s, i).Done?
    requires LikeStored(s, t, i) && u.info == t.info && u.now == t.now
    requires var likes, fee := LikesKey(i.thread, i.page), LikeFee(s, i);
             var cut := Cut(fee, s.info[SettingsKey].data.likeCutBps);
             && cut <= fee
             && Settled(s, u, OpeningBill(s, i, likes).(deposit := LikesCost(s, likes),
                                toTreasury := OpeningCost(s, TreasuryKey(i.treasuryIdx)) + cut,
                                toAuthor := OpeningCost(s, AuthorKey(i.thread, i.authorIdx)) + (fee - cut)))
    ensures u == LikePost(s, i)
  {
    SettledIsSettle(s, u, LikeBill(s, i));
  }

  method CheckLiking(bank: Bank, i: Instruction) returns (r: Outcome)
    requires i.LikeContent?
    ensures r == LikePrologue(bank.Now(), i)
  {
    if i.slot >= CONTENT_SLOTS {
      return Fail(InvalidSlot);
    }
    r := CheckContent(bank.info, ContentKey(i.thread, i.page, i.slot));
    if r.Fail? {
      return;
    }
    r := CheckThread(bank.info, i.thread);
    if r.Fail? {
      return;
    }
    r := CheckSettings(bank.info);
    if r.Fail? {
      return;
    }
    r := CheckShards(i.treasuryIdx, i.authorIdx);
  }

  lemma StoredBill(s: State, t: State, i: Instruction)
    requires i.LikeContent? && i.slot < CONTENT_SLOTS && LikeStored(s, t, i)
    ensures var likes := LikesKey(i.thread, i.page); var b := OpeningBill(s, i, likes).(deposit := LikesCost(s, likes));
            && Settled(s, t, b) && b.Total() == OpenBoth(s, i) + LikesCost(s, likes) && CanPay(s, i.payer, b.Total())
  {
  }

  /** The fee, if one is due and within the cap. */
  method PayLike(bank: Bank, i: Instruction, likeFee: nat, cutBps: nat, contentAuthor: Key, ghost s: State)
    returns (r: Outcome)
    requires i.LikeContent? && i.slot < CONTENT_SLOTS && LikeStored(s, bank.Now(), i) && likeFee <= U64_MAX
    requires cutBps <= BPS
    requires bank.lam[TreasuryKey(i.treasuryIdx)] >= Rent(0) && bank.lam[AuthorKey(i.thread, i.authorIdx)] >= Rent(0)
    modifies bank`lam
    ensures var likes := LikesKey(i.thread, i.page); var fee := if i.payer == contentAuthor then 0 else likeFee;
            var cut := Cut(fee, cutBps);
            && cut <= fee
            && r == (if fee > i.maxFee then Fail(FeeExceedsMax)
                     else CheckPay(s, i.payer, OpenBoth(s, i) + LikesCost(s, likes) + fee))
            && (r.Done? ==>
                  Settled(s, bank.Now(), OpeningBill(s, i, likes).(deposit := LikesCost(s, likes),
                                           toTreasury := OpeningCost(s, TreasuryKey(i.treasuryIdx)) + cut,
                                           toAuthor := OpeningCost(s, AuthorKey(i.thread, i.authorIdx)) + (fee - cut))))
  {
    hide Cut, OpeningCost, LikesCost, Settled, CanPay, LikeStored, Rent;
    var likes := LikesKey(i.thread, i.page);
    ghost var b := OpeningBill(s, i, likes).(deposit := LikesCost(s, likes));
    StoredBill(s, bank.Now(), i);
    CutBounds(if i.payer == contentAuthor then 0 else likeFee, cutBps);
    if likeFee > 0 && i.payer != contentAuthor {
      if likeFee > i.maxFee {
        return Fail(FeeExceedsMax);
      }
      r := CollectSplit(bank, likeFee, cutBps, i.payer, AuthorKey(i.thread, i.authorIdx), TreasuryKey(i.treasuryIdx),
                        s, b);
    } else {
      r := Done;
    }
  }

  /** `process_like_content`. */
  method LikeContent(bank: Bank, i: Instruction) returns (r: Outcome)
    requires i.LikeContent? && WellFormed(i) && Healthy(bank.Now())
    modifies bank`lam, bank`info
    ensures r == LikeCheck(old(bank.Now()), i)
    ensures r.Done? ==> Sane(old(bank.Now()), i) && bank.Now() == LikePost(old(bank.Now()), i)
  {
    hide Healthy, Sane, Opened, Counted, LikeStored, LikeCheck, LikePrologue, LikePost, CheckLikes, CheckThread,
         CheckSettings, CheckContent, Settled, OpeningCost, LikesCost, Cut, Fresh, OpenBoth;
    ghost var s := bank.Now();
    var likes := LikesKey(i.thread, i.page);
    LikeMeans(s, i);
    r := CheckLiking(bank, i);
    if r.Fail? {
      return;
    }
    var thread, settings := bank.info[i.thread].data, bank.info[SettingsKey].data;
    var contentAuthor := bank.info[ContentKey(i.thread, i.page, i.slot)].data.author;
    r := OpenVaults(bank, i);
    if r.Fail? {
      return;
    }
    r := EnsureCounters(bank, i, s);
    if r.Fail? {
      return;
    }
    CountersReady(s, bank.Now(), i);
    r := CheckLikes(bank.info, likes);
    if r.Fail? {
      return;
    }
    ghost var t := bank.Now();
    StoreCount(bank, likes, i.slot, false);
    StoredLike(s, t, bank.Now(), i);
    LikeStarts(s, bank.Now(), i);
    t := bank.Now();
    r := PayLike(bank, i, thread.likeFee, settings.likeCutBps, contentAuthor, s);
    if r.Done? {
      LikedState(s, t, bank.Now(), i);
    }
  }

  // ---- close_account ----

  /** `process_close_account`: the counter is reset only when its account is supplied. */
  method CloseAccount(bank: Bank, i: Instruction) returns (r: Outcome)
    requires i.CloseAccount? && WellFormed(i) && Healthy(bank.Now())
    modifies bank`lam, bank`info
    ensures r == CloseCheck(old(bank.Now()), i)
    ensures r.Done? ==> Sane(old(bank.Now()), i) && bank.Now() == ClosePost(old(bank.Now()), i)
  {
    r := CheckContent(bank.info, i.target);
    if r.Fail? {
      return;
    }
    var content := bank.info[i.target].data;
    if content.author != i.payer {
      return Fail(Unauthorized);
    }
    if i.likes.Some? {
      var likes := i.likes.value;
      if likes != LikesKey(content.thread, content.page) {
        return Fail(InvalidPda);
      }
      if !Fresh(bank.info, likes) {
        r := CheckLikes(bank.info, likes);
        if r.Fail? {
          return;
        }
        if bank.info[likes].data.page != content.page {
          return Fail(InvalidAllocSeq);
        }
        StoreCount(bank, likes, content.slot, true);
      }
    }
    r := bank.CloseProgramAccount(i.target, i.payer);
  }
}
