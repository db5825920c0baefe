/** One transaction: dispatch to the handler, and roll back when it fails. */
module Entrypoint {
  import opened Ledger
  import opened Instructions
  import opened Invariant
  import opened Runs
  import opened Chain
  import opened Charges
  import Posting
  import Appending
  import Liking
  import Sweeping
  import Joining
  import Threads
  import Following

  /** A failing handler may leave the accounts half-changed; its outcome is the specified one
      all the same. */
  method Dispatch(bank: Bank, i: Instruction) returns (r: Outcome)
    requires WellFormed(i) && Healthy(bank.Now()) && Sane(bank.Now(), i)
    modifies bank`lam, bank`info
    ensures r == Check(old(bank.Now()), i)
    ensures r.Done? ==> bank.Now() == Post(old(bank.Now()), i)
  {
    match i
    case InitSettings(_, _, _) => r := Threads.InitSettings(bank, i);
    case UpdateSettings(_, _) => r := Threads.UpdateSettings(bank, i);
    case CreateRootAlloc(_, _, _, _, _) => r := Threads.CreateRootAlloc(bank, i);
    case PrepareAlloc(_, _, _, _) => r := Threads.PrepareAlloc(bank, i);
    case FillSlot(_, _, _, _, _, _, _, _, _, _, _) => r := Posting.FillSlot(bank, i);
    case AppendContent(_, _, _, _, _, _) => r := Appending.AppendContent(bank, i);
    case LikeContent(_, _, _, _, _, _, _) => r := Liking.LikeContent(bank, i);
    case CloseAccount(_, _, _) => r := Liking.CloseAccount(bank, i);
    case SweepTreasury(_, _, _) => r := Sweeping.SweepVaults(bank, i);
    case SweepAuthorFees(_, _, _, _) => r := Sweeping.SweepVaults(bank, i);
    case InitThreadAccess(_, _, _, _) => r := Joining.InitThreadAccess(bank, i);
    case UpdateAccess(_, _, _) => r := Joining.UpdateAccess(bank, i);
    case SetStatus(_, _, _, _) => r := Joining.SetStatus(bank, i);
    case RemoveStatus(_, _, _, _) => r := Joining.RemoveStatus(bank, i);
    case RequestAccess(_, _, _, _) => r := Joining.RequestAccess(bank, i);
    case UpdateThread(_, _, _) => r := Threads.UpdateThread(bank, i);
    case Subscribe(_, _) => r := Following.Subscribe(bank, i);
    case Unsubscribe(_, _) => r := Following.Unsubscribe(bank, i);
  }

  /** All or nothing, and the invariant holds again either way. */
  method Execute(bank: Bank, i: Instruction) returns (r: Outcome)
    requires WellFormed(i) && Inv(bank.Now())
    modifies bank`lam, bank`info
    ensures Sane(old(bank.Now()), i) && r == Check(old(bank.Now()), i)
    ensures bank.Now() == if r.Done? then Post(old(bank.Now()), i) else old(bank.Now())
    ensures Inv(bank.Now())
  {
    hide Inv, Healthy, Check, Post, Sane, WellFormed;
    var lam, info := bank.lam, bank.info;
    ghost var s := bank.Now();
    ExecutionStarts(s, i);
    r := Dispatch(bank, i);
    if r.Fail? {
      bank.lam, bank.info := lam, info;
    } else {
      ExecutionEnds(s, i);
    }
  }

  lemma ExecutionStarts(s: State, i: Instruction)
    requires Inv(s)
    ensures Healthy(s) && Sane(s, i)
  {
    InvIsHealthy(s);
    InvIsSane(s, i);
  }

  lemma ExecutionEnds(s: State, i: Instruction)
    requires Inv(s) && WellFormed(i) && Check(s, i).Done? && Sane(s, i)
    ensures Inv(Post(s, i))
  {
    StepKeepsInv(s, Run(i), Post(s, i));
  }

  /** Executing instructions follows a run: what is proved of runs holds of the accounts in
      place, and a failed instruction leaves no trace. */
  method Submit(bank: Bank, i: Instruction, ghost h: History) returns (r: Outcome, ghost after: History)
    requires WellFormed(i) && Valid(h) && h.state == bank.Now()
    modifies bank`lam, bank`info
    ensures Valid(after) && after.state == bank.Now()
    ensures r == Check(h.state, i)
    ensures after == if r.Done? then Then(h, Run(i), bank.Now()) else h
  {
    ReachableInv(h);
    r := Execute(bank, i);
    after := if r.Done? then Then(h, Run(i), bank.Now()) else h;
  }
}
