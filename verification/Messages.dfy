/** Posting, growing and closing messages; the page chain; stable authority. */
module Messages {
  import opened Keys
  import opened Records
  import opened Ledger
  import opened Instructions
  import opened Invariant
  import opened Frame
  import opened Runs

  // ---- the candidate scan ----

  predicate GoodCandidate(thread: Key, lastPage: nat, cs: seq<Slot>, ks: seq<Key>, j: nat)
    requires j < |cs| <= |ks|
  {
    cs[j].page <= lastPage && cs[j].slot < CONTENT_SLOTS && ks[j] == ContentKey(thread, cs[j].page, cs[j].slot)
  }

  /** Candidates `n` to `j - 1` are all genuine slots that hold a message. */
  ghost predicate AllTaken(info: Accounts, thread: Key, lastPage: nat, cs: seq<Slot>, ks: seq<Key>, n: nat, j: nat)
    requires j <= |cs| <= |ks|
  {
    forall m | n <= m < j :: GoodCandidate(thread, lastPage, cs, ks, m) && !Fresh(info, ks[m])
  }

  /** Where the scan stops: the first candidate that is not a genuine taken slot. */
  lemma {:induction false} ScanStops(info: Accounts, thread: Key, lastPage: nat, cs: seq<Slot>, ks: seq<Key>, n: nat)
    returns (j: nat)
    requires n <= |cs| <= |ks|
    ensures n <= j <= |cs| && AllTaken(info, thread, lastPage, cs, ks, n, j)
    ensures var p := PickFrom(info, thread, lastPage, cs, ks, n);
            if j == |cs| then p == Full
            else if GoodCandidate(thread, lastPage, cs, ks, j) then p == Found(j) && Fresh(info, ks[j])
            else p.Rejected? && p.error in {InvalidAllocSeq, InvalidSlot, InvalidPda}
    decreases |cs| - n
  {
    if n < |cs| && GoodCandidate(thread, lastPage, cs, ks, n) && !Fresh(info, ks[n]) {
      j := ScanStops(info, thread, lastPage, cs, ks, n + 1);
    } else {
      j := n;
    }
  }

  /** The scan is first-free: it finds `j` exactly when `j` is a genuine free slot and every
      earlier candidate is a genuine taken one; it is exhausted exactly when all are taken; and
      it rejects exactly when some bad candidate comes after taken ones only. */
  lemma ScanIsFirstFree(info: Accounts, thread: Key, lastPage: nat, cs: seq<Slot>, ks: seq<Key>)
    requires |cs| <= |ks|
    ensures var p := PickFrom(info, thread, lastPage, cs, ks, 0);
            && (forall j: nat :: p == Found(j) <==>
                  && j < |cs| && AllTaken(info, thread, lastPage, cs, ks, 0, j)
                  && GoodCandidate(thread, lastPage, cs, ks, j) && Fresh(info, ks[j]))
            && (p == Full <==> AllTaken(info, thread, lastPage, cs, ks, 0, |cs|))
            && (p.Rejected? <==>
                  exists j: nat | j < |cs| :: AllTaken(info, thread, lastPage, cs, ks, 0, j)
                                              && !GoodCandidate(thread, lastPage, cs, ks, j))
  {
    var stop := ScanStops(info, thread, lastPage, cs, ks, 0);
    forall j: nat | j < |cs| && AllTaken(info, thread, lastPage, cs, ks, 0, j)
      ensures j <= stop
    {
    }
  }

  /** A posting that passes every earlier check reports a full list exactly when every
      candidate is a genuine slot holding a message. */
  lemma NoFreeSlotIff(s: State, i: Instruction)
    requires i.FillSlot? && FillPrologue(s, i).Done? && CanPay(s, i.payer, OpenBoth(s, i))
    ensures FillCheck(s, i) == Fail(NoFreeSlot) <==>
              AllTaken(s.info, i.thread, s.info[i.thread].data.lastPage, i.candidates, i.remaining, 0, |i.candidates|)
  {
    var last := s.info[i.thread].data.lastPage;
    ScanIsFirstFree(s.info, i.thread, last, i.candidates, i.remaining);
    var _ := ScanStops(s.info, i.thread, last, i.candidates, i.remaining, 0);
  }

  /** A posting writes exactly the chosen slot: no other message, page or thread changes. */
  lemma PostingTouchesOneSlot(s: State, i: Instruction, k: Key)
    requires i.FillSlot? && WellFormed(i) && FillCheck(s, i).Done? && Sane(s, i)
    requires k.ContentKey? || k.AllocKey? || k.External?
    ensures var j := FilledSlot(s, i);
            if k == i.remaining[j] then k !in s.info || Fresh(s.info, k)
            else SameAt(s.info, FillPost(s, i).info, k)
    ensures var j := FilledSlot(s, i);
            FillPost(s, i).info[i.remaining[j]] == Created(FilledContent(s, i))
  {
    FilledInRange(s, i);
  }

  // ---- one message, step by step ----

  /** The only instructions that reach a stored message are its own growth and its closing. */
  lemma MessageTouchers(s: State, i: Instruction, k: Key)
    requires WellFormed(i) && Check(s, i).Done? && Sane(s, i) && Typed(s.info)
    requires k.ContentKey? && k in Touched(s, i)
    ensures i.FillSlot? || ((i.AppendContent? || i.CloseAccount?) && i.target == k)
    ensures i.FillSlot? ==> Fresh(s.info, k)
  {
    hide Check, Touched, Typed, Sane;
    TouchedFits(s, i, k);
  }

  /** Everything but the body. */
  predicate SameMessage(a: Record<Key>, b: Record<Key>) {
    a.Content? && b.Content? && b.(body := a.body) == a
  }

  /** What a step may do to a stored message that it does not close: nothing, or an extension
      by its author no later than 120 seconds after the posting. */
  ghost predicate MayGrow(s: State, a: Action, t: State, k: Key) {
    && k in s.info && k in t.info && SameMessage(s.info[k].data, t.info[k].data)
    && s.info[k].data.body <= t.info[k].data.body && |t.info[k].data.body| <= MAX_BODY_LEN
    && (t.info[k].data.body != s.info[k].data.body ==>
          && a.Run? && a.i.AppendContent? && a.i.target == k && a.i.payer == s.info[k].data.author
          && t.info[k].data.body == s.info[k].data.body + a.i.chunk
          && s.now - s.info[k].data.createdAt <= APPEND_WINDOW_SECS)
  }

  predicate Closes(a: Action, k: Key) { a.Run? && a.i.CloseAccount? && a.i.target == k }

  lemma AppendGrows(s: State, i: Instruction)
    requires i.AppendContent? && WellFormed(i) && AppendCheck(s, i).Done? && Structure(s.info)
    ensures MayGrow(s, Run(i), AppendPost(s, i), i.target)
  {
  }

  lemma MessageStep(s: State, a: Action, t: State, k: Key)
    requires Inv(s) && Next(s, a, t) && k.ContentKey? && k in s.info && !Closes(a, k)
    ensures MayGrow(s, a, t, k)
  {
    assert TypedAt(k, s.info[k]);
    if a.Run? {
      TouchesOnly(s, a.i);
      if k in Touched(s, a.i) {
        MessageTouchers(s, a.i, k);
        AppendGrows(s, a.i);
      } else {
        assert SameAt(s.info, t.info, k);
      }
    } else {
      assert SameAt(s.info, t.info, k);
    }
  }

  /** A message appears only through a posting on its channel: signed by its author, stamped with the
      clock, answering what the poster answers, carrying the posted kind and body. It disappears
      only through a closing signed by its author. */
  lemma BirthAndDeath(s: State, a: Action, t: State, k: Key)
    requires Inv(s) && Next(s, a, t) && k.ContentKey?
    ensures k !in s.info && k in t.info ==>
              && a.Run? && a.i.FillSlot? && k.thread == a.i.thread
              && t.info[k].data == Content(k.page, k.slot, k.thread, a.i.payer, s.now, a.i.replyPage, a.i.replySlot,
                                           a.i.kind, a.i.body)
    ensures k in s.info && k !in t.info ==> Closes(a, k) && s.info[k].data.author == a.i.payer
  {
    hide Pages, Children, Followers, Funded, Touched, Sane;
    if a.Run? {
      TouchesOnly(s, a.i);
      if k in Touched(s, a.i) {
        MessageTouchers(s, a.i, k);
        if a.i.FillSlot? {
          PostingTouchesOneSlot(s, a.i, k);
          FilledInRange(s, a.i);
        } else if a.i.AppendContent? {
          AppendGrows(s, a.i);
        }
      } else {
        assert SameAt(s.info, t.info, k);
      }
    } else {
      assert SameAt(s.info, t.info, k);
    }
  }

  // ---- whole runs ----

  /** `later` continues `earlier`. */
  ghost predicate Continues(earlier: History, later: History) {
    later == earlier || (later.Then? && Continues(earlier, later.before))
  }

  lemma {:induction false} EarlierIsValid(earlier: History, later: History)
    requires Valid(later) && Continues(earlier, later)
    ensures Valid(earlier)
  {
    if later != earlier {
      EarlierIsValid(earlier, later.before);
    }
  }

  /** No step of the continuation closes `k`. */
  ghost predicate NeverClosed(earlier: History, later: History, k: Key)
    requires Continues(earlier, later)
  {
    later == earlier || (!Closes(later.action, k) && NeverClosed(earlier, later.before, k))
  }

  /** Between posting and closing, header and kind never change and every earlier body is a
      prefix of every later one. */
  lemma {:induction false} MessageHistory(earlier: History, later: History, k: Key)
    requires Valid(later) && Continues(earlier, later) && NeverClosed(earlier, later, k)
    requires k.ContentKey? && k in earlier.state.info
    ensures k in later.state.info && SameMessage(earlier.state.info[k].data, later.state.info[k].data)
    ensures earlier.state.info[k].data.body <= later.state.info[k].data.body
    ensures |later.state.info[k].data.body| <= MAX_BODY_LEN
  {
    ReachableInv(later);
    assert k in later.state.info ==> TypedAt(k, later.state.info[k]);
    if later != earlier {
      MessageHistory(earlier, later.before, k);
      ReachableInv(later.before);
      MessageStep(later.before.state, later.action, later.state, k);
    }
  }

  // ---- threads and pages ----

  /** A thread's author never changes, its title neither, and its chain only grows, a page at a time. */
  ghost predicate ThreadGrows(a: Accounts, b: Accounts, t: Key) {
    && IsThread(a, t) && IsThread(b, t)
    && b[t].data.author == a[t].data.author && b[t].data.title == a[t].data.title
    && a[t].data.lastPage <= b[t].data.lastPage && a[t].data.allocCount <= b[t].data.allocCount
  }

  lemma ThreadTouchers(s: State, i: Instruction, k: Key)
    requires WellFormed(i) && Check(s, i).Done? && Sane(s, i) && Typed(s.info)
    requires k.External? && k in Touched(s, i)
    ensures (i.CreateRootAlloc? || i.PrepareAlloc? || i.UpdateThread?) && i.thread == k
  {
    hide Check, Touched, Typed, Sane;
    TouchedFits(s, i, k);
  }

  lemma TailPageGrows(s: State, i: Instruction)
    requires i.PrepareAlloc? && WellFormed(i) && PrepareCheck(s, i).Done?
    ensures ThreadGrows(s.info, PreparePost(s, i).info, i.thread)
    ensures PreparePost(s, i).info[i.thread].data.lastPage == s.info[i.thread].data.lastPage + 1
  {
  }

  lemma FeeChangeGrows(s: State, i: Instruction)
    requires i.UpdateThread? && UpdateThreadCheck(s, i).Done?
    ensures ThreadGrows(s.info, UpdateThreadPost(s, i).info, i.thread)
    ensures UpdateThreadPost(s, i).info[i.thread].data.lastPage == s.info[i.thread].data.lastPage
  {
  }

  /** A thread is never created over: its address is not fresh. */
  lemma NoSecondRoot(s: State, i: Instruction)
    requires i.CreateRootAlloc? && Typed(s.info) && IsThread(s.info, i.thread)
    ensures CreateRootCheck(s, i).Fail?
  {
    assert TypedAt(i.thread, s.info[i.thread]);
  }

  lemma ThreadStep(s: State, a: Action, t: State, k: Key)
    requires Inv(s) && Next(s, a, t) && IsThread(s.info, k)
    ensures ThreadGrows(s.info, t.info, k)
    ensures t.info[k].data.lastPage != s.info[k].data.lastPage ==>
              a.Run? && a.i.PrepareAlloc? && t.info[k].data.lastPage == s.info[k].data.lastPage + 1
  {
    hide PreparePost, PrepareCheck, UpdateThreadPost, UpdateThreadCheck, CreateRootCheck, CreateRootPost;
    hide Followers, Funded, Pages, Children, Sane, Touched;
    assert TypedAt(k, s.info[k]);
    if a.Run? {
      TouchesOnly(s, a.i);
      if k !in Touched(s, a.i) {
        assert SameAt(s.info, t.info, k);
      } else {
        ThreadTouchers(s, a.i, k);
        match a.i
        case PrepareAlloc(_, _, _, _) => TailPageGrows(s, a.i);
        case UpdateThread(_, _, _) => FeeChangeGrows(s, a.i);
        case CreateRootAlloc(_, _, _, _, _) => NoSecondRoot(s, a.i);
      }
    } else {
      assert SameAt(s.info, t.info, k);
    }
  }

  /** Over every run: threads are never lost, authors never change, chains never shrink. */
  lemma {:induction false} ThreadHistory(earlier: History, later: History, k: Key)
    requires Valid(later) && Continues(earlier, later) && IsThread(earlier.state.info, k)
    ensures ThreadGrows(earlier.state.info, later.state.info, k)
  {
    if later != earlier {
      ThreadHistory(earlier, later.before, k);
      ReachableInv(later.before);
      ThreadStep(later.before.state, later.action, later.state, k);
    }
  }

  /** The dense chain: in every reachable state the pages of a thread are exactly the numbers up
      to its tail, the counter counts them, and every message lies on one of them. */
  lemma DenseChain(h: History, t: Key)
    requires Valid(h)
    ensures forall p: nat :: AllocKey(t, p) in h.state.info <==> HasPage(h.state.info, t, p)
    ensures IsThread(h.state.info, t) ==>
              h.state.info[t].data.allocCount == h.state.info[t].data.lastPage + 1 <= U32_MAX
    ensures forall p: nat, j: nat ::
              ContentKey(t, p, j) in h.state.info ==> HasPage(h.state.info, t, p) && j < CONTENT_SLOTS
  {
    hide Valid, Followers, Funded;
    ReachableInv(h);
    forall p: nat, j: nat | ContentKey(t, p, j) in h.state.info
      ensures HasPage(h.state.info, t, p) && j < CONTENT_SLOTS
    {
      assert Anchored(h.state.info, ContentKey(t, p, j));
    }
    if IsThread(h.state.info, t) {
      assert TypedAt(t, h.state.info[t]);
    }
  }

  /** Growth at the true tail depends on two things only: the counter has room (it stops cleanly
      at tail 2^32 - 2), and the payer can fund what the next page's address lacks. Lamports sent
      to that address beforehand can only make it cheaper, never block it. */
  lemma TailGrowsIff(s: State, i: Instruction)
    requires Inv(s) && i.PrepareAlloc? && WellFormed(i) && IsThread(s.info, i.thread)
    requires i.page == s.info[i.thread].data.lastPage && i.current == AllocKey(i.thread, i.page)
    ensures PrepareCheck(s, i).Done? <==>
              i.page <= U32_MAX - 2 && CanPay(s, i.payer, TopUp(s.lam[AllocKey(i.thread, i.page + 1)], ALLOC_SIZE))
  {
    var next := AllocKey(i.thread, i.page + 1);
    assert TypedAt(i.thread, s.info[i.thread]);
    assert HasPage(s.info, i.thread, i.page) && !HasPage(s.info, i.thread, i.page + 1);
    assert i.current in s.info && next !in s.info;
    assert TypedAt(i.current, s.info[i.current]);
  }
}
