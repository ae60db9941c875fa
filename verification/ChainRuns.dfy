/**
 * Whole histories of the bToken contracts: users' transactions, rewards accruing at the staking
 * module, time passing, and other traffic on the underlying token.
 */
module ChainRuns {
  import opened Prelude
  import opened Decimals
  import opened Messages
  import opened Vault
  import opened VaultLedger
  import opened VaultHistory
  import opened Chain
  import opened ChainLaws
  import opened ChainSteps
  import BToken
  import Vesting

  lemma QueueBelow(w: World, stack: seq<Msg>)
    requires stack != [] && Inv(w, stack)
    ensures Ready(w, stack[0])
  {
  }

  /** A stack that runs to its end leaves the invariant with nothing promised. */
  lemma {:induction false} RunKeeps(w: World, stack: seq<Msg>)
    requires Inv(w, stack) && Run(w, stack).Ok?
    ensures Inv(Run(w, stack).value, [])
    ensures Run(w, stack).value.c == w.c && Run(w, stack).value.kind == w.kind
    decreases StackWeight(stack)
  {
    if stack != [] {
      QueueBelow(w, stack);
      EveryMessageSteps(w, stack[0]);
      var (w1, msgs) := Exec(w, stack[0]).value;
      StepKeeps(w, stack, w1, msgs);
      ExecLightens(w, stack[0]);
      StackWeightAppend(msgs, stack[1..]);
      RunKeeps(w1, msgs + stack[1..]);
    }
  }

  /** Between transactions: nothing parked, and any outside call may start. */
  lemma RestsAtNoAction(w: World)
    requires Inv(w, [])
    ensures w.vault.action == NoAction
    ensures forall m :: FromUser(w.c, m) ==> Inv(w, [m])
  {
    forall m | FromUser(w.c, m) ensures Inv(w, [m]) {
      forall p ensures Queue(w.c, p, [m]) == Promised(w.c, p, m) {
        QueueOfTwo(w.c, p, m, m);
      }
    }
  }

  lemma TransactKeeps(w: World, m: Msg)
    requires Inv(w, []) && FromUser(w.c, m)
    ensures Inv(Transact(w, m), []) && Transact(w, m).c == w.c && Transact(w, m).kind == w.kind
  {
    RestsAtNoAction(w);
    if Run(w, [m]).Ok? {
      RunKeeps(w, [m]);
    }
  }

  // ----- histories

  datatype Event =
    | Call(m: Msg)
    | Accrue(reward: nat)
    | Pass(block: Vesting.Block)
    | Elsewhere(op: Vesting.Op)

  /** Calls come from outside, and nobody delegates or undelegates in the converter's name. */
  predicate Permitted(c: Contracts, e: Event) {
    match e
    case Call(m) => FromUser(c, m)
    case Elsewhere(op) => !(op.OpDelegate? && op.from == c.converter) && !(op.OpUndelegate? && op.to == c.converter)
    case _ => true
  }

  function Happen(w: World, e: Event): (w1: World)
    requires w.Readable()
    ensures w1.Readable()
  {
    match e
    case Call(m) => Transact(w, m)
    case Accrue(reward) => w.(waiting := w.waiting + reward)
    case Pass(block) => w.(block := block)
    case Elsewhere(op) =>
      match Vesting.Apply(w.underlying, w.block, op)
      case Ok(u) => w.(underlying := u)
      case Err => w
  }

  function History(w: World, events: seq<Event>): (w1: World)
    requires w.Readable()
    ensures w1.Readable()
  {
    if events == [] then w else Happen(History(w, events[..|events| - 1]), events[|events| - 1])
  }

  /** The contracts as instantiated: an empty bToken ledger and nothing delegated. */
  ghost predicate Start(w: World) {
    && Distinct(w.c) && w.Readable()
    && w.token == BToken.State(map[], 0, w.c.converter) && w.burned == 0
    && w.vault == INITIAL && w.trace == []
    && Get(w.underlying.delegated, w.c.converter) == 0
  }

  lemma StartInv(w: World)
    requires Start(w)
    ensures Inv(w, [])
  {
  }

  lemma PaymentsKeepDelegation(u: Vesting.State, now: nat, from: Addr, to: Addr, amount: nat)
    requires u.Readable()
    ensures Vesting.Move(u, now, from, to, amount).Ok? ==> Vesting.Move(u, now, from, to, amount).value.delegated == u.delegated
    ensures Vesting.Destroy(u, now, from, amount).Ok? ==> Vesting.Destroy(u, now, from, amount).value.delegated == u.delegated
  {
  }

  lemma ElsewhereKeepsDelegation(c: Contracts, u: Vesting.State, b: Vesting.Block, op: Vesting.Op)
    requires u.Readable() && Permitted(c, Elsewhere(op)) && Vesting.Apply(u, b, op).Ok?
    ensures Get(Vesting.Apply(u, b, op).value.delegated, c.converter) == Get(u.delegated, c.converter)
  {
    match op
    case OpTransfer(from, to, amount) => PaymentsKeepDelegation(u, b.time, from, to, amount);
    case OpBurn(from, amount) => PaymentsKeepDelegation(u, b.time, from, from, amount);
    case OpTransferFrom(spender, from, to, amount) =>
      PaymentsKeepDelegation(Vesting.DeductAllowance(u, b, from, spender, amount).value, b.time, from, to, amount);
    case OpBurnFrom(spender, from, amount) =>
      PaymentsKeepDelegation(Vesting.DeductAllowance(u, b, from, spender, amount).value, b.time, from, from, amount);
    case _ =>
  }

  lemma HappenKeeps(w: World, e: Event)
    requires Inv(w, []) && Permitted(w.c, e)
    ensures Inv(Happen(w, e), []) && Happen(w, e).c == w.c && Happen(w, e).kind == w.kind
  {
    match e
    case Call(m) => TransactKeeps(w, m);
    case Elsewhere(op) =>
      if Vesting.Apply(w.underlying, w.block, op).Ok? {
        ElsewhereKeepsDelegation(w.c, w.underlying, w.block, op);
      }
    case _ =>
  }

  lemma {:induction false} HistoryKeeps(w: World, events: seq<Event>)
    requires Start(w) && forall e :: e in events ==> Permitted(w.c, e)
    ensures Inv(History(w, events), []) && History(w, events).c == w.c && History(w, events).kind == w.kind
  {
    if events == [] {
      StartInv(w);
    } else {
      HistoryKeeps(w, events[..|events| - 1]);
      HappenKeeps(History(w, events[..|events| - 1]), events[|events| - 1]);
    }
  }

  /**
   * Solvency. In every reachable state nothing is parked, the stakes add up to the recorded total,
   * no `power_diff` runs ahead, and the vault's balance covers stakes, fees and all unpaid rewards.
   */
  lemma VaultIsSolvent(w: World, events: seq<Event>)
    requires Start(w) && forall e :: e in events ==> Permitted(w.c, e)
    ensures var w1 := History(w, events);
            && w1.vault.action == NoAction
            && Consistent(w1.vault) && w1.vault.cfg == INITIAL_CONFIG
            && Liability(w1.vault) <= ONE * w1.Balance(w1.c.vault)
  {
    HistoryKeeps(w, events);
    RecordedIsConsistent(History(w, events).vault, History(w, events).trace);
  }

  /** The storage operations of every history never take a zero fallback, so the pro-rata bounds apply. */
  lemma EveryHistoryIsProRata(w: World, events: seq<Event>, a: Addr)
    requires Start(w) && forall e :: e in events ==> Permitted(w.c, e)
    ensures var ops := History(w, events).trace;
            && Clean(ops) && Replay(ops) == Ok(History(w, events).vault)
            && History(w, events).vault.StakeOf(a).stake == StakeIn(ops, a)
            && Upper(Held(ops, a), Entitled(ops, a))
            && (Unclipped(ops, a) ==> Lower(Held(ops, a), Entitled(ops, a), Slack(ops, a)))
  {
    HistoryKeeps(w, events);
    AccumulatorRefinesProRata(History(w, events).trace, a);
    StakesAreDeposits(History(w, events).trace, a);
  }

  /** Every bWYND ever issued is backed by WYND the converter has delegated. */
  lemma BwyndIsBacked(w: World, events: seq<Event>)
    requires Start(w) && w.kind.Bwynd? && forall e :: e in events ==> Permitted(w.c, e)
    ensures var w1 := History(w, events);
            w1.token.supply + w1.burned == Get(w1.underlying.delegated, w1.c.converter)
  {
    HistoryKeeps(w, events);
  }
}
