/** The cached whitelist counter against the entries it counts, and the posting gate. */
module Whitelist {
  import opened Keys
  import opened Ledger
  import opened Instructions
  import opened Invariant
  import opened Frame
  import opened Runs

  predicate Allows(info: Accounts, k: Key, t: Key) {
    k.EntryKey? && k.thread == t && Data(info, k).Entry? && Data(info, k).status == ACCESS_ALLOWED
  }

  /** The whitelist itself: every entry of the thread whose status is ALLOWED. */
  function AllowedSet(info: Accounts, t: Key): set<Key> {
    set k | k in info && Allows(info, k, t)
  }

  function CachedCount(info: Accounts, t: Key): nat {
    var r := Data(info, AccessKey(t));
    if r.Access? then r.whitelistCount else 0
  }

  /** The counter of one thread agrees with its list. Nothing is asked of other threads. */
  predicate ExactAt(info: Accounts, t: Key) {
    CachedCount(info, t) == |AllowedSet(info, t)|
  }

  /** A thread's whitelist depends on that thread's entries only. */
  lemma SameWhitelist(a: Accounts, b: Accounts, t: Key)
    requires forall k: Key | k.EntryKey? && k.thread == t :: SameAt(a, b, k)
    ensures AllowedSet(a, t) == AllowedSet(b, t)
  {
    forall k
      ensures k in AllowedSet(a, t) <==> k in AllowedSet(b, t)
    {
      if k.EntryKey? && k.thread == t {
        assert SameAt(a, b, k);
      }
    }
  }

  function Bit(b: bool): int { if b then 1 else 0 }

  lemma SetsDifferAt(a: set<Key>, b: set<Key>, e: Key)
    requires a - {e} == b - {e}
    ensures |b| - |a| == Bit(e in b) - Bit(e in a)
  {
    assert a == (a - {e}) + (if e in a then {e} else {});
    assert b == (b - {e}) + (if e in b then {e} else {});
  }

  /** Changing one entry moves the size of its thread's whitelist by the change of that entry. */
  lemma OneEntry(a: Accounts, b: Accounts, e: Key)
    requires e.EntryKey?
    requires forall k: Key | k.EntryKey? && k != e :: SameAt(a, b, k)
    ensures |AllowedSet(b, e.thread)|
        == |AllowedSet(a, e.thread)| + Bit(Allows(b, e, e.thread)) - Bit(Allows(a, e, e.thread))
  {
    var t := e.thread;
    var sa, sb := AllowedSet(a, t), AllowedSet(b, t);
    forall k | k != e
      ensures k in sa <==> k in sb
    {
      if k.EntryKey? {
        assert SameAt(a, b, k);
      }
    }
    SetsDifferAt(sa, sb, e);
  }

  // ---- what each kind of step does to one thread ----

  /** The whitelist and the counter of thread `t` after a step from `a` to `b`: the size moves
      by `delta`, and so does the counter, with its clamp and its truncation. */
  ghost predicate Moves(a: Accounts, b: Accounts, t: Key, delta: int) {
    && |AllowedSet(b, t)| == |AllowedSet(a, t)| + delta
    && CachedCount(b, t) == if delta == 0 then CachedCount(a, t) else Adjusted(CachedCount(a, t), delta)
  }

  /** The thread whose list an instruction edits, and by how much its whitelist grows. */
  function EditedThread(s: State, i: Instruction): Key
    requires i.SetStatus? || i.RemoveStatus? || i.RequestAccess?
  {
    if i.RequestAccess? then i.thread
    else if Data(s.info, i.access).Access? then Data(s.info, i.access).thread else i.access
  }

  function Growth(s: State, i: Instruction): int
    requires i.SetStatus? || i.RemoveStatus? || i.RequestAccess?
  {
    match i
    case SetStatus(_, _, w, status) =>
      Bit(status == ACCESS_ALLOWED) - Bit(HasStatus(s.info, EditedThread(s, i), w, ACCESS_ALLOWED))
    case RemoveStatus(_, _, _, status) => -Bit(status == ACCESS_ALLOWED)
    case RequestAccess(_, _, _, _) => 1
  }

  /** One entry and its thread's counter change together. */
  ghost predicate EditsEntry(a: Accounts, b: Accounts, e: Key, delta: int) {
    && e.EntryKey?
    && (forall k: Key | k.EntryKey? && k != e :: SameAt(a, b, k))
    && (forall k: Key | k.AccessKey? && k != AccessKey(e.thread) :: SameAt(a, b, k))
    && Bit(Allows(b, e, e.thread)) - Bit(Allows(a, e, e.thread)) == delta
    && CachedCount(b, e.thread)
       == if delta == 0 then CachedCount(a, e.thread) else Adjusted(CachedCount(a, e.thread), delta)
  }

  lemma EditMoves(a: Accounts, b: Accounts, e: Key, delta: int)
    requires EditsEntry(a, b, e, delta)
    ensures Moves(a, b, e.thread, delta)
    ensures forall u | u != e.thread :: Moves(a, b, u, 0)
  {
    OneEntry(a, b, e);
    forall u | u != e.thread
      ensures Moves(a, b, u, 0)
    {
      SameWhitelist(a, b, u);
      assert SameAt(a, b, AccessKey(u));
    }
  }

  /** Only the entry and its gate are written. */
  lemma SetStatusTable(s: State, i: Instruction)
    requires i.SetStatus? && SetStatusCheck(s, i).Done?
    ensures forall k: Key | k != i.access && k != EntryKey(EditedThread(s, i), i.wallet) ::
              SameAt(s.info, SetStatusPost(s, i).info, k)
  {
    hide Pay, CanPay, TopUp, Rent, Adjusted, SetStatusDelta;
  }

  lemma SetStatusEdits(s: State, i: Instruction)
    requires i.SetStatus? && WellFormed(i) && SetStatusCheck(s, i).Done? && Typed(s.info)
    ensures EditsEntry(s.info, SetStatusPost(s, i).info, EntryKey(EditedThread(s, i), i.wallet), Growth(s, i))
  {
    hide Pay, CanPay, TopUp, Rent, Adjusted, CheckPay;
    SetStatusTable(s, i);
  }

  lemma RemoveStatusEdits(s: State, i: Instruction)
    requires i.RemoveStatus? && WellFormed(i) && RemoveStatusCheck(s, i).Done? && Typed(s.info)
    ensures EditsEntry(s.info, RemoveStatusPost(s, i).info, EntryKey(EditedThread(s, i), i.wallet), Growth(s, i))
  {
  }

  lemma RequestEdits(s: State, i: Instruction)
    requires i.RequestAccess? && WellFormed(i) && RequestCheck(s, i).Done? && Typed(s.info) && Sane(s, i)
    ensures EditsEntry(s.info, RequestPost(s, i).info, EntryKey(i.thread, i.payer), 1)
  {
    hide Rent, Settle, CanPay, TopUp, OpenBoth, Adjusted;
    RequestEditsOnly(s, i);
    var post := RequestPost(s, i).info;
    assert post[AccessKey(i.thread)].data.whitelistCount
        == Adjusted(s.info[AccessKey(i.thread)].data.whitelistCount, 1);
  }

  lemma RequestEditsOnly(s: State, i: Instruction)
    requires i.RequestAccess? && WellFormed(i) && RequestCheck(s, i).Done? && Sane(s, i)
    ensures var post := RequestPost(s, i).info; var e := EntryKey(i.thread, i.payer);
            && (forall k: Key | k.EntryKey? && k != e :: SameAt(s.info, post, k))
            && (forall k: Key | k.AccessKey? && k != AccessKey(i.thread) :: SameAt(s.info, post, k))
  {
    hide Rent, Settle, CanPay, TopUp, RequestCheck, Adjusted;
  }

  /** Every instruction that edits a list moves whitelist and counter of its thread together. */
  lemma EditorsMove(s: State, i: Instruction)
    requires EditsWhitelist(i) && WellFormed(i) && Check(s, i).Done? && Sane(s, i) && Typed(s.info)
    ensures Moves(s.info, Post(s, i).info, EditedThread(s, i), Growth(s, i))
    ensures forall u | u != EditedThread(s, i) :: Moves(s.info, Post(s, i).info, u, 0)
  {
    match i
    case SetStatus(_, _, w, _) =>
      SetStatusEdits(s, i);
      EditMoves(s.info, Post(s, i).info, EntryKey(EditedThread(s, i), w), Growth(s, i));
    case RemoveStatus(_, _, w, _) =>
      RemoveStatusEdits(s, i);
      EditMoves(s.info, Post(s, i).info, EntryKey(EditedThread(s, i), w), Growth(s, i));
    case RequestAccess(p, t, _, _) =>
      RequestEdits(s, i);
      EditMoves(s.info, Post(s, i).info, EntryKey(t, p), 1);
  }

  lemma NoAccessNoEntries(info: Accounts, t: Key)
    requires Children(info) && AccessKey(t) !in info
    ensures AllowedSet(info, t) == {}
  {
  }

  predicate EditsWhitelist(i: Instruction) { i.SetStatus? || i.RemoveStatus? || i.RequestAccess? }

  /** No other instruction touches an entry. */
  lemma OthersTouchNoEntry(s: State, i: Instruction)
    requires WellFormed(i) && Check(s, i).Done? && Sane(s, i) && Typed(s.info) && !EditsWhitelist(i)
    ensures forall k | k in Touched(s, i) :: !k.EntryKey?
    ensures forall k | k in Touched(s, i) && k.AccessKey? :: i.InitThreadAccess? || i.UpdateAccess?
  {
    hide Check, Touched, Typed, Sane;
    forall k | k in Touched(s, i)
      ensures !k.EntryKey? && (k.AccessKey? ==> i.InitThreadAccess? || i.UpdateAccess?)
    {
      TouchedFits(s, i, k);
    }
  }

  lemma OthersMoveNothing(s: State, i: Instruction, t: Key)
    requires WellFormed(i) && Check(s, i).Done? && Sane(s, i) && Structure(s.info) && !EditsWhitelist(i)
    ensures AllowedSet(Post(s, i).info, t) == AllowedSet(s.info, t)
    ensures AccessKey(t) in s.info ==> CachedCount(Post(s, i).info, t) == CachedCount(s.info, t)
    ensures AccessKey(t) !in s.info ==> CachedCount(Post(s, i).info, t) == 0
  {
    hide Check, Sane, Touched, Typed, Pages, Children, Post, Allows;
    TouchesOnly(s, i);
    OthersTouchNoEntry(s, i);
    SameWhitelist(s.info, Post(s, i).info, t);
    if AccessKey(t) !in Touched(s, i) {
      assert SameAt(s.info, Post(s, i).info, AccessKey(t));
    } else {
      GateKeepsCount(s, i, t);
    }
  }

  /** The two instructions that write a gate without editing its list. */
  lemma GateKeepsCount(s: State, i: Instruction, t: Key)
    requires WellFormed(i) && Check(s, i).Done? && Sane(s, i) && Typed(s.info)
    requires (i.InitThreadAccess? || i.UpdateAccess?) && AccessKey(t) in Touched(s, i)
    ensures AccessKey(t) in s.info ==> CachedCount(Post(s, i).info, t) == CachedCount(s.info, t)
    ensures AccessKey(t) !in s.info ==> CachedCount(Post(s, i).info, t) == 0
  {
    hide Rent, Settle, CanPay, TopUp;
    assert AccessKey(t) in s.info ==> TypedAt(AccessKey(t), s.info[AccessKey(t)]);
  }

  // ---- the cache theorem ----

  lemma CountIsNarrow(info: Accounts, t: Key)
    requires Typed(info)
    ensures CachedCount(info, t) <= U32_MAX
  {
    if AccessKey(t) in info {
      assert TypedAt(AccessKey(t), info[AccessKey(t)]);
    }
  }

  /** While the new whitelist fits, clamp and truncation are idle and the counter stays exact. */
  lemma ExactMove(a: Accounts, b: Accounts, t: Key, delta: int)
    requires Moves(a, b, t, delta) && ExactAt(a, t)
    requires |AllowedSet(b, t)| <= U32_MAX
    ensures ExactAt(b, t)
  {
  }

  lemma FittingStaysExact(s: State, i: Instruction, t: Key)
    requires Structure(s.info) && ExactAt(s.info, t)
    requires WellFormed(i) && Check(s, i).Done? && Sane(s, i)
    requires |AllowedSet(Post(s, i).info, t)| <= U32_MAX
    ensures ExactAt(Post(s, i).info, t)
  {
    hide Check, Sane, WellFormed, Post, Growth, EditedThread, Allows;
    if EditsWhitelist(i) {
      EditorsMove(s, i);
      ExactMove(s.info, Post(s, i).info, t, if t == EditedThread(s, i) then Growth(s, i) else 0);
    } else {
      OthersMoveNothing(s, i, t);
      if AccessKey(t) !in s.info {
        NoAccessNoEntries(s.info, t);
      }
    }
  }

  /** At the edge the cache is wrong: the grant that makes 2^32 members resets the counter. */
  lemma CounterWraps(s: State, i: Instruction)
    requires Inv(s) && EditsWhitelist(i) && ExactAt(s.info, EditedThread(s, i))
    requires WellFormed(i) && Check(s, i).Done? && Sane(s, i)
    requires Growth(s, i) == 1 && |AllowedSet(s.info, EditedThread(s, i))| == U32_MAX
    ensures CachedCount(Post(s, i).info, EditedThread(s, i)) == 0
    ensures |AllowedSet(Post(s, i).info, EditedThread(s, i))| == U32_MAX + 1
  {
    hide Check, Sane, WellFormed, Post, Growth, EditedThread, AllowedSet, CachedCount;
    EditorsMove(s, i);
  }

  /** The grant that would make 2^32 members of thread `t`. */
  predicate Overflows(s: State, i: Instruction, t: Key) {
    EditsWhitelist(i) && t == EditedThread(s, i) && Growth(s, i) == 1 && CachedCount(s.info, t) == U32_MAX
  }

  lemma FitsUnlessOverflow(s: State, i: Instruction, t: Key)
    requires Structure(s.info) && ExactAt(s.info, t) && !Overflows(s, i, t)
    requires WellFormed(i) && Check(s, i).Done? && Sane(s, i)
    ensures |AllowedSet(Post(s, i).info, t)| <= U32_MAX
  {
    CountIsNarrow(s.info, t);
    hide Check, Sane, WellFormed, Post, EditedThread, Allows;
    if EditsWhitelist(i) {
      EditorsMove(s, i);
      assert Moves(s.info, Post(s, i).info, t, if t == EditedThread(s, i) then Growth(s, i) else 0);
    } else {
      OthersMoveNothing(s, i, t);
    }
  }

  /** Thread by thread: one instruction leaves an exact counter exact if and only if it is not a
      grant to that thread while its counter is full; equivalently, the new list still fits. In
      particular the clamp at zero never changes a result. */
  lemma CacheExactIff(s: State, i: Instruction, t: Key)
    requires Inv(s) && ExactAt(s.info, t)
    requires WellFormed(i) && Check(s, i).Done? && Sane(s, i)
    ensures ExactAt(Post(s, i).info, t) <==> !Overflows(s, i, t)
    ensures ExactAt(Post(s, i).info, t) <==> |AllowedSet(Post(s, i).info, t)| <= U32_MAX
  {
    hide Check, Sane, WellFormed, Post, Growth, EditedThread, AllowedSet, CachedCount;
    if Overflows(s, i, t) {
      CounterWraps(s, i);
    } else {
      FitsUnlessOverflow(s, i, t);
      FittingStaysExact(s, i, t);
    }
  }

  /** The clamp in the counter update never fires: a counter is lowered only when it is positive. */
  lemma ClampNeverFires(s: State, i: Instruction)
    requires Inv(s) && EditsWhitelist(i) && ExactAt(s.info, EditedThread(s, i))
    requires WellFormed(i) && Check(s, i).Done? && Sane(s, i)
    ensures CachedCount(s.info, EditedThread(s, i)) + Growth(s, i) >= 0
  {
    hide Check, Sane, WellFormed, Post, Growth, EditedThread, AllowedSet, CachedCount;
    EditorsMove(s, i);
  }

  // ---- whole runs ----

  /** Thread `t` had fewer than 2^32 members in every state of the run. */
  ghost predicate AlwaysFits(h: History, t: Key) {
    |AllowedSet(h.state.info, t)| <= U32_MAX && (h.Then? ==> AlwaysFits(h.before, t))
  }

  ghost predicate AlwaysExact(h: History, t: Key) {
    ExactAt(h.state.info, t) && (h.Then? ==> AlwaysExact(h.before, t))
  }

  lemma StartsExact(s: State, t: Key)
    requires Start(s)
    ensures ExactAt(s.info, t)
  {
    assert AllowedSet(s.info, t) == {};
  }

  lemma OutsideKeepsCount(s: State, a: Action, u: State, t: Key)
    requires Inv(s) && Next(s, a, u) && !a.Run?
    ensures CachedCount(u.info, t) == CachedCount(s.info, t) && AllowedSet(u.info, t) == AllowedSet(s.info, t)
  {
    SameWhitelist(s.info, u.info, t);
    assert SameAt(s.info, u.info, AccessKey(t));
  }

  /** Over every run in which a thread stays below 2^32 members, whatever happens on other threads
      and after any interleaving of adds, flips, removals and paid joins, its counter equals the
      number of its live ALLOWED entries. */
  lemma {:induction false} CacheExactOverRuns(h: History, t: Key)
    requires Valid(h) && AlwaysFits(h, t)
    ensures ExactAt(h.state.info, t)
  {
    match h
    case Genesis(s) => StartsExact(s, t);
    case Then(b, a, u) =>
      ReachableInv(b);
      CacheExactOverRuns(b, t);
      hide Inv, Valid, AllowedSet, CachedCount, Overflows, Post, Check, Sane;
      if a.Run? {
        CacheExactIff(b.state, a.i, t);
      } else {
        OutsideKeepsCount(b.state, a, u, t);
      }
  }

  /** The bound is exactly what the cache needs: a thread's counter is right all along a run if and
      only if the thread had fewer than 2^32 members all along. */
  lemma {:induction false} ExactThroughoutIff(h: History, t: Key)
    requires Valid(h)
    ensures AlwaysExact(h, t) <==> AlwaysFits(h, t)
  {
    ReachableInv(h);
    CountIsNarrow(h.state.info, t);
    if AlwaysFits(h, t) {
      CacheExactOverRuns(h, t);
    }
    if h.Then? {
      ExactThroughoutIff(h.before, t);
    }
  }

  // ---- the posting gate ----

  /** Who may post, decided from the entries alone: nobody denied, not even the author; anyone
      else while gating is off or nothing gates; otherwise the author and the members. */
  ghost predicate MayPost(info: Accounts, thread: Key, wallet: Key)
    requires IsThread(info, thread)
  {
    var access := Data(info, AccessKey(thread));
    var entry := Data(info, EntryKey(thread, wallet));
    var open := !access.Access? || !access.enabled || (AllowedSet(info, thread) == {} && access.entryFee == 0);
    var member := wallet == info[thread].data.author
                  || (entry.Entry? && (entry.status == ACCESS_ALLOWED || entry.status == ACCESS_FEE_EXEMPT));
    var denied := entry.Entry? && entry.status == ACCESS_DENIED;
    !denied && (open || member)
  }

  /** Where the thread's own counter is exact, the decision taken from it is the decision of the
      full scan. */
  lemma GateRefinesScan(s: State, thread: Key, wallet: Key)
    requires Inv(s) && ExactAt(s.info, thread) && CheckThread(s.info, thread).Done?
    ensures GateCheck(s.info, thread, wallet).Done? <==> MayPost(s.info, thread, wallet)
    ensures !MayPost(s.info, thread, wallet) ==> GateCheck(s.info, thread, wallet) == Fail(AccessDenied)
  {
    var access, entry := AccessKey(thread), EntryKey(thread, wallet);
    assert access in s.info ==> TypedAt(access, s.info[access]);
    assert entry in s.info ==> TypedAt(entry, s.info[entry]);
  }

  lemma AcceptedPassesGate(s: State, i: Instruction)
    requires i.FillSlot? && FillCheck(s, i).Done?
    ensures CheckThread(s.info, i.thread).Done? && GateCheck(s.info, i.thread, i.payer).Done?
  {
  }

  /** Over every run in which the thread stayed below 2^32 members, a message is accepted only from
      a wallet the scan admits. */
  lemma PostsAreAdmitted(h: History, i: Instruction)
    requires Valid(h) && i.FillSlot? && AlwaysFits(h, i.thread)
    requires WellFormed(i) && FillCheck(h.state, i).Done?
    ensures MayPost(h.state.info, i.thread, i.payer)
  {
    ReachableInv(h);
    CacheExactOverRuns(h, i.thread);
    AcceptedPassesGate(h.state, i);
    GateRefinesScan(h.state, i.thread, i.payer);
  }
}
