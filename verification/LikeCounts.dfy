/** Like counters: what they count over a run, and when a freed slot is really reset. */
module LikeCounts {
  import opened Keys
  import opened Ledger
  import opened Instructions
  import opened Invariant
  import opened Frame
  import opened Messages
  import opened Runs

  /** The counter of a slot; an account that does not exist yet counts nothing. */
  function LikeCount(info: Accounts, k: Key, slot: nat): nat {
    var r := Data(info, k);
    if r.Likes? && slot < |r.counts| then r.counts[slot] else 0
  }

  predicate IsLike(a: Action, k: Key, slot: nat) {
    a.Run? && a.i.LikeContent? && k == LikesKey(a.i.thread, a.i.page) && slot == a.i.slot
  }

  /** A closing of the message in `slot` that supplies the likes account `k`. */
  predicate ResetsSlot(s: State, a: Action, k: Key, slot: nat) {
    && a.Run? && a.i.CloseAccount? && a.i.likes == Some(k)
    && Data(s.info, a.i.target).Content? && Data(s.info, a.i.target).slot == slot
  }

  /** Successful likes of a slot since its counter was last reset, or since the beginning. */
  function Tally(h: History, k: Key, slot: nat): nat {
    match h
    case Genesis(_) => 0
    case Then(b, a, _) =>
      if IsLike(a, k, slot) then Tally(b, k, slot) + 1
      else if ResetsSlot(b.state, a, k, slot) then 0
      else Tally(b, k, slot)
  }

  lemma LikeRaises(s: State, i: Instruction, k: Key, slot: nat)
    requires i.LikeContent? && WellFormed(i) && LikeCheck(s, i).Done? && Sane(s, i) && Typed(s.info)
    requires k == LikesKey(i.thread, i.page) && slot < CONTENT_SLOTS
    ensures LikeCount(LikePost(s, i).info, k, slot)
              == if slot == i.slot then SaturatingInc(LikeCount(s.info, k, slot)) else LikeCount(s.info, k, slot)
  {
    assert k in s.info ==> TypedAt(k, s.info[k]);
  }

  lemma CloseResetsOnly(s: State, i: Instruction, k: Key, slot: nat)
    requires i.CloseAccount? && WellFormed(i) && CloseCheck(s, i).Done? && Sane(s, i) && Typed(s.info)
    requires k.LikesKey? && slot < CONTENT_SLOTS
    ensures LikeCount(ClosePost(s, i).info, k, slot)
              == if ResetsSlot(s, Run(i), k, slot) then 0 else LikeCount(s.info, k, slot)
  {
    assert TypedAt(i.target, s.info[i.target]);
    assert k in s.info ==> TypedAt(k, s.info[k]);
  }

  lemma LikesTouchers(s: State, i: Instruction, k: Key)
    requires WellFormed(i) && Check(s, i).Done? && Sane(s, i) && Typed(s.info) && k.LikesKey?
    requires !i.LikeContent? && !i.CloseAccount?
    ensures k !in Touched(s, i)
  {
    hide Check, Touched, Typed, Sane;
    if k in Touched(s, i) {
      TouchedFits(s, i, k);
    }
  }

  lemma SameCount(a: Accounts, b: Accounts, k: Key, slot: nat)
    requires SameAt(a, b, k)
    ensures LikeCount(b, k, slot) == LikeCount(a, k, slot)
  {
  }

  lemma CountStep(s: State, a: Action, t: State, k: Key, slot: nat)
    requires Inv(s) && Next(s, a, t) && k.LikesKey? && slot < CONTENT_SLOTS
    ensures LikeCount(t.info, k, slot) ==
              if IsLike(a, k, slot) then SaturatingInc(LikeCount(s.info, k, slot))
              else if ResetsSlot(s, a, k, slot) then 0
              else LikeCount(s.info, k, slot)
  {
    hide LikeCount, LikePost, ClosePost, LikeCheck, CloseCheck;
    if a.Run? && a.i.LikeContent? && k == LikesKey(a.i.thread, a.i.page) {
      LikeRaises(s, a.i, k, slot);
    } else if a.Run? && a.i.CloseAccount? {
      CloseResetsOnly(s, a.i, k, slot);
    } else if a.Run? {
      TouchesOnly(s, a.i);
      if !a.i.LikeContent? {
        LikesTouchers(s, a.i, k);
      }
      SameCount(s.info, t.info, k, slot);
    } else {
      SameCount(s.info, t.info, k, slot);
    }
  }

  /** Over every run a counter is the number of likes since its last reset, capped at 32 bits. */
  lemma {:induction false} CountsAreTallies(h: History, k: Key, slot: nat)
    requires Valid(h) && k.LikesKey? && slot < CONTENT_SLOTS
    ensures LikeCount(h.state.info, k, slot) == if Tally(h, k, slot) < U32_MAX then Tally(h, k, slot) else U32_MAX
  {
    match h
    case Genesis(s) =>
    case Then(b, a, t) =>
      CountsAreTallies(b, k, slot);
      ReachableInv(b);
      CountStep(b.state, a, t, k, slot);
  }

  /** The comment on the counters says a freed slot starts again from zero. It does exactly when
      the closing supplies the likes account or nobody had liked the message: otherwise the next
      message in the slot inherits the count. */
  lemma FreedSlotIsResetIff(s: State, i: Instruction)
    requires i.CloseAccount? && WellFormed(i) && CloseCheck(s, i).Done? && Inv(s)
    ensures var c := s.info[i.target].data; var k := LikesKey(c.thread, c.page);
            LikeCount(Post(s, i).info, k, c.slot) == 0 <==> i.likes.Some? || LikeCount(s.info, k, c.slot) == 0
  {
    var c := s.info[i.target].data;
    assert TypedAt(i.target, s.info[i.target]);
    CloseResetsOnly(s, i, LikesKey(c.thread, c.page), c.slot);
  }

  // ---- from one message to the next ----

  /** A like or a reset of a slot needs the message to be there. */
  lemma EmptySlotKeepsCount(s: State, a: Action, t: State, k: Key)
    requires Inv(s) && Next(s, a, t) && k.ContentKey? && k !in s.info && k.slot < CONTENT_SLOTS
    ensures LikeCount(t.info, LikesKey(k.thread, k.page), k.slot)
            == LikeCount(s.info, LikesKey(k.thread, k.page), k.slot)
  {
    NeedsTheMessage(s, a, t, k);
    hide LikeCount, Inv, Next, IsLike, ResetsSlot;
    CountStep(s, a, t, LikesKey(k.thread, k.page), k.slot);
  }

  lemma NeedsTheMessage(s: State, a: Action, t: State, k: Key)
    requires Next(s, a, t) && k.ContentKey? && k !in s.info
    ensures !IsLike(a, LikesKey(k.thread, k.page), k.slot) && !ResetsSlot(s, a, LikesKey(k.thread, k.page), k.slot)
  {
    hide Rent, CanPay, OpenBoth, TopUp, Post, Sane, WellFormed;
  }

  /** No message stands at `k` from `earlier` until just before `later`. */
  ghost predicate Vacant(earlier: History, later: History, k: Key)
    requires Continues(earlier, later)
  {
    later == earlier || (k !in later.before.state.info && Vacant(earlier, later.before, k))
  }

  /** Whatever happens meanwhile, an empty slot keeps its count up to and into the step that
      fills it again. */
  lemma {:induction false} VacancyKeepsCount(earlier: History, later: History, k: Key)
    requires Valid(later) && Continues(earlier, later) && Vacant(earlier, later, k)
    requires k.ContentKey? && k.slot < CONTENT_SLOTS
    ensures LikeCount(later.state.info, LikesKey(k.thread, k.page), k.slot)
            == LikeCount(earlier.state.info, LikesKey(k.thread, k.page), k.slot)
  {
    if later != earlier {
      VacancyKeepsCount(earlier, later.before, k);
      ReachableInv(later.before);
      EmptySlotKeepsCount(later.before.state, later.action, later.state, k);
    }
  }

  /** What a closing leaves in the counter of the slot it frees. */
  lemma ClosingLeaves(s: State, a: Action, t: State, k: Key)
    requires Inv(s) && Next(s, a, t) && Closes(a, k) && k.ContentKey?
    ensures k.slot < CONTENT_SLOTS
    ensures LikeCount(t.info, LikesKey(k.thread, k.page), k.slot)
            == if a.i.likes.Some? then 0 else LikeCount(s.info, LikesKey(k.thread, k.page), k.slot)
  {
    ClosesItsSlot(s, a.i, t);
    hide LikeCount, Inv, Next;
    CountStep(s, a, t, LikesKey(k.thread, k.page), k.slot);
  }

  lemma ClosesItsSlot(s: State, i: Instruction, t: State)
    requires Inv(s) && i.CloseAccount? && Next(s, Run(i), t) && i.target.ContentKey?
    ensures Data(s.info, i.target).Content? && Data(s.info, i.target).slot == i.target.slot < CONTENT_SLOTS
    ensures i.likes.Some? ==> i.likes.value == LikesKey(i.target.thread, i.target.page)
  {
    hide Post, Pages, Children, Followers, Funded;
    assert i.target in s.info ==> TypedAt(i.target, s.info[i.target]);
  }

  /** The slot's next message, whenever it comes and whatever happens before it, starts from the
      count the closing left: from zero if the likes account was supplied, and otherwise from the
      count of the closed message. */
  lemma StaleLikesSurvive(closed: History, refilled: History, k: Key)
    requires Valid(refilled) && Continues(closed, refilled) && Vacant(closed, refilled, k)
    requires closed.Then? && Closes(closed.action, k) && k.ContentKey?
    ensures LikeCount(refilled.state.info, LikesKey(k.thread, k.page), k.slot)
            == if closed.action.i.likes.Some? then 0
               else LikeCount(closed.before.state.info, LikesKey(k.thread, k.page), k.slot)
  {
    EarlierIsValid(closed, refilled);
    ReachableInv(closed.before);
    ClosingLeaves(closed.before.state, closed.action, closed.state, k);
    VacancyKeepsCount(closed, refilled, k);
  }

  /** In reachable states a closing never meets a likes record of another page, and its slot
      always indexes the counters. */
  lemma CloseFindsItsCounter(s: State, i: Instruction)
    requires Inv(s) && i.CloseAccount? && CheckContent(s.info, i.target).Done?
    requires i.likes.Some? && i.likes.value == LikesKey(s.info[i.target].data.thread, s.info[i.target].data.page)
    requires !Fresh(s.info, i.likes.value)
    ensures CheckLikes(s.info, i.likes.value).Done?
    ensures CloseCheck(s, i) != Fail(InvalidAllocSeq)
    ensures s.info[i.target].data.slot < |s.info[i.likes.value].data.counts|
  {
    assert TypedAt(i.target, s.info[i.target]);
    assert TypedAt(i.likes.value, s.info[i.likes.value]);
  }
}
