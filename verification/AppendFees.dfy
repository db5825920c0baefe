/** Growing a message by appends costs what posting it at once would have cost. */
module AppendFees {
  import opened Keys
  import opened Records
  import opened Ledger
  import opened FeeMath
  import opened Instructions
  import opened Invariant
  import opened Prices
  import opened Messages
  import opened Runs

  predicate Posts(s: State, a: Action, t: State, k: Key) {
    a.Run? && a.i.FillSlot? && k !in s.info && k in t.info
  }

  predicate Extends(a: Action, k: Key) { a.Run? && a.i.AppendContent? && a.i.target == k }

  /** Base fees paid for the message stored at `k`, from its posting on. */
  ghost function BasePaid(h: History, k: Key): nat
    requires Valid(h)
  {
    match h
    case Genesis(_) => 0
    case Then(b, a, t) =>
      if Posts(b.state, a, t, k) then BaseFee(b.state, a.i)
      else if Extends(a, k) then BasePaid(b, k) + BaseFee(b.state, a.i)
      else BasePaid(b, k)
  }

  /** How often the message stored at `k` was appended to. */
  function Appends(h: History, k: Key): nat {
    match h
    case Genesis(_) => 0
    case Then(b, a, t) =>
      if Posts(b.state, a, t, k) then 0
      else if Extends(a, k) then Appends(b, k) + 1
      else Appends(b, k)
  }

  /** The rate was `bps` whenever a fee for this message was due. */
  predicate Steady(h: History, k: Key, bps: nat) {
    match h
    case Genesis(_) => true
    case Then(b, a, t) =>
      if Posts(b.state, a, t, k) then Rate(b.state) == bps
      else if Extends(a, k) then Rate(b.state) == bps && Steady(b, k, bps)
      else Steady(b, k, bps)
  }

  lemma AppendBytes(s: State, i: Instruction)
    requires i.AppendContent? && WellFormed(i) && AppendCheck(s, i).Done?
    ensures i.target in s.info && s.info[i.target].data.Content?
    ensures AppendPost(s, i).info[i.target] == Created(GrownContent(s, i))
  {
  }

  /** One append never overcharges, and undercharges by at most one lamport. */
  lemma AppendStep(s: State, i: Instruction)
    requires i.AppendContent? && Data(s.info, i.target).Content?
    ensures var body := Data(s.info, i.target).body; var paid := OneShot(body, Rate(s)) + BaseFee(s, i);
            paid <= OneShot(body + i.chunk, Rate(s)) <= paid + 1
  {
    var n := |Data(s.info, i.target).body|;
    CutTelescopes(Rent(ContentSize(n)), AddedRent(n, |i.chunk|), Rate(s));
    hide Rent, Cut;
  }

  lemma ClosedIsGone(s: State, i: Instruction)
    requires i.CloseAccount? && WellFormed(i) && CloseCheck(s, i).Done? && Sane(s, i)
    ensures i.target !in ClosePost(s, i).info
  {
  }

  function Body(info: Accounts, k: Key): Bytes {
    var r := Data(info, k);
    if r.Content? then r.body else []
  }

  lemma PostedBody(s: State, a: Action, t: State, k: Key)
    requires Inv(s) && Next(s, a, t) && k.ContentKey? && k !in s.info && k in t.info
    ensures Posts(s, a, t, k) && Body(t.info, k) == a.i.body
  {
    BirthAndDeath(s, a, t, k);
    StepKeepsInv(s, a, t);
    assert TypedAt(k, t.info[k]);
  }

  lemma KeptBody(s: State, a: Action, t: State, k: Key)
    requires Inv(s) && Next(s, a, t) && k.ContentKey? && k in s.info && k in t.info
    ensures !Closes(a, k)
    ensures Body(t.info, k) == if Extends(a, k) then Body(s.info, k) + a.i.chunk else Body(s.info, k)
  {
    if Extends(a, k) {
      AppendBytes(s, a.i);
    } else if Closes(a, k) {
      ClosedIsGone(s, a.i);
    } else {
      MessageStep(s, a, t, k);
    }
  }

  /** Over every run: a message posted and then grown by `n` appends at a steady rate has paid
      the one-shot fee of its present size, less at most `n` lamports. */
  lemma {:induction false} FeesTelescope(h: History, k: Key, bps: nat)
    requires Valid(h) && k.ContentKey? && k in h.state.info && Steady(h, k, bps)
    ensures var due := OneShot(Body(h.state.info, k), bps);
            due - Appends(h, k) <= BasePaid(h, k) <= due
  {
    match h
    case Genesis(s) =>
    case Then(b, a, t) =>
      ReachableInv(b);
      if k !in b.state.info {
        PostedBody(b.state, a, t, k);
      } else {
        FeesTelescope(b, k, bps);
        KeptBody(b.state, a, t, k);
        if Extends(a, k) {
          AppendStep(b.state, a.i);
        }
      }
  }
}
