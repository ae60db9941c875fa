/**
 * What every run of the bToken contracts keeps. The invariant is stated for the middle of a
 * transaction, with the messages still on the stack counted as promises; between transactions
 * the stack is empty and the promises are gone.
 */
module ChainLaws {
  import opened Prelude
  import opened Decimals
  import opened Messages
  import opened Vault
  import opened VaultLedger
  import opened VaultHistory
  import opened Chain
  import BToken
  import Vesting

  // ----- promises on the stack

  datatype Promise = ToPay | ToMint | ToDelegate

  /** What a message on the stack still has to move. */
  function Promised(c: Contracts, p: Promise, m: Msg): nat {
    match p
    case ToPay =>
      if (m.TokenTransfer? && m.from == c.vault) || (m.VaultReceive? && m.from == c.token) then m.amount else 0
    case ToMint => if m.TokenMint? && m.from == c.converter then m.amount else 0
    case ToDelegate => if m.UnderlyingDelegate? && m.from == c.converter then m.amount else 0
  }

  function Queue(c: Contracts, p: Promise, stack: seq<Msg>): nat {
    if stack == [] then 0 else Promised(c, p, stack[0]) + Queue(c, p, stack[1..])
  }

  lemma {:induction false} QueueAppend(c: Contracts, p: Promise, a: seq<Msg>, b: seq<Msg>)
    ensures Queue(c, p, a + b) == Queue(c, p, a) + Queue(c, p, b)
  {
    if a == [] {
      assert a + b == b;
    } else {
      QueueAppend(c, p, a[1..], b);
      assert (a + b)[1..] == a[1..] + b;
    }
  }

  lemma QueueOfTwo(c: Contracts, p: Promise, a: Msg, b: Msg)
    ensures Queue(c, p, [a]) == Promised(c, p, a)
    ensures Queue(c, p, [a, b]) == Promised(c, p, a) + Promised(c, p, b)
  {
    assert [a][1..] == [] && [b][1..] == [] && [a, b][1..] == [b];
    assert Queue(c, p, [b]) == Promised(c, p, b);
  }

  /** A parked stake is already in the vault's balance but not yet among the stakes. */
  function Parked(a: Action): nat {
    if a.StakeFor? then a.amount else 0
  }

  // ----- who may be on the stack

  function ContractSet(c: Contracts): set<Addr> {
    {c.token, c.vault, c.converter, c.staking, c.underlying}
  }

  predicate Distinct(c: Contracts) {
    && c.token != c.vault && c.token != c.converter && c.token != c.staking && c.token != c.underlying
    && c.vault != c.converter && c.vault != c.staking && c.vault != c.underlying
    && c.converter != c.staking && c.converter != c.underlying && c.staking != c.underlying
  }

  /** A call made from outside the five contracts. */
  predicate FromUser(c: Contracts, m: Msg) {
    m.from !in ContractSet(c)
  }

  /** A message one of the contracts may have put on the stack. */
  predicate Internal(c: Contracts, m: Msg) {
    match m
    case TokenTransfer(from, _, _) => from == c.vault
    case TokenSend(from, to, _, hook) => from == c.converter && to == c.vault && hook.DistributeHook?
    case TokenMint(from, _, _) => from == c.converter
    case VaultReceive(from, _, _, _) => from == c.token
    case VaultDistribute(from, _) => from == c.converter
    case ConverterReceive(from, _, _, _) => from == c.token || from == c.underlying
    case ConverterWithdraw(from) => from == c.vault
    case UnderlyingDelegate(from, _) => from == c.converter
    case StakingWithdraw(from) => from == c.converter
    case StakingRestake(from) => from == c.converter
    case StakingStake(from, _) => from == c.converter
    case _ => false
  }

  /** A message that leads to the distribution which finishes a parked action. */
  predicate Collects(c: Contracts, m: Msg) {
    || (m.ConverterWithdraw? && m.from == c.vault)
    || (m.TokenSend? && m.from == c.converter && m.to == c.vault && m.hook.DistributeHook?)
    || (m.VaultReceive? && m.from == c.token && m.hook.DistributeHook?)
  }

  predicate Allowed(w: World, m: Msg) {
    Internal(w.c, m) || (FromUser(w.c, m) && w.vault.action == NoAction)
  }

  // ----- the invariant

  /** The vault's storage is what its recorded operations produce, none of them on a fallback. */
  ghost predicate Recorded(s: State, trace: seq<Op>) {
    Clean(trace) && Replay(trace).value == s.(action := NoAction)
  }

  predicate UnstakeBacked(s: State) {
    s.action.UnstakeFor? ==> s.action.amount <= s.StakeOf(s.action.user).stake
  }

  ghost predicate Core(w: World) {
    && Distinct(w.c) && w.token.minter == w.c.converter && w.Readable()
    && BToken.Conserved(w.token)
    && Recorded(w.vault, w.trace)
    && UnstakeBacked(w.vault)
  }

  /** What the vault owes and has parked, less what it holds. */
  ghost function Deficit(w: World): int {
    Liability(w.vault) + ONE * Parked(w.vault.action) - ONE * w.Balance(w.c.vault)
  }

  /** bWYND issued and not burned, less WYND delegated. */
  function Unbacked(w: World): int {
    w.token.supply + w.burned - Get(w.underlying.delegated, w.c.converter)
  }

  ghost predicate Collecting(w: World, stack: seq<Msg>) {
    w.vault.action != NoAction ==> exists m :: m in stack && Collects(w.c, m)
  }

  ghost predicate StackAllowed(w: World, stack: seq<Msg>) {
    || (forall m :: m in stack ==> Internal(w.c, m))
    || (|stack| == 1 && FromUser(w.c, stack[0]) && w.vault.action == NoAction)
  }

  ghost predicate Inv(w: World, stack: seq<Msg>) {
    && Core(w)
    && Deficit(w) + ONE * Queue(w.c, ToPay, stack) <= 0
    && (w.kind.Bwynd? ==> Unbacked(w) + Queue(w.c, ToMint, stack) == Queue(w.c, ToDelegate, stack))
    && Collecting(w, stack)
    && StackAllowed(w, stack)
  }

  // ----- one message keeps the invariant, whatever is below it on the stack

  /** What executing `m` may do to the sums of the invariant and to the stack. */
  ghost predicate Step(w: World, m: Msg, w1: World, msgs: seq<Msg>) {
    && Core(w1) && w1.c == w.c && w1.kind == w.kind
    && Deficit(w1) + ONE * Queue(w.c, ToPay, msgs) <= Deficit(w) + ONE * Promised(w.c, ToPay, m)
    && (w.kind.Bwynd? ==>
          Unbacked(w1) + Queue(w.c, ToMint, msgs) - Queue(w.c, ToDelegate, msgs)
            == Unbacked(w) + Promised(w.c, ToMint, m) - Promised(w.c, ToDelegate, m))
    && (forall n :: n in msgs ==> Internal(w.c, n))
    && (|| w1.vault.action == NoAction
        || (w1.vault.action == w.vault.action && !Collects(w.c, m))
        || (exists n :: n in msgs && Collects(w.c, n)))
  }

  lemma StepKeeps(w: World, stack: seq<Msg>, w1: World, msgs: seq<Msg>)
    requires stack != [] && Inv(w, stack) && Step(w, stack[0], w1, msgs)
    ensures Inv(w1, msgs + stack[1..])
  {
    var m, rest := stack[0], stack[1..];
    assert stack == [m] + rest;
    QueueAppend(w.c, ToPay, msgs, rest);
    QueueAppend(w.c, ToMint, msgs, rest);
    QueueAppend(w.c, ToDelegate, msgs, rest);
    assert forall n :: n in rest ==> Internal(w.c, n);
    if w1.vault.action != NoAction {
      if w1.vault.action == w.vault.action && !Collects(w.c, m) {
        var n :| n in stack && Collects(w.c, n);
        assert n in rest;
        assert n in msgs + rest;
      } else {
        var n :| n in msgs && Collects(w.c, n);
        assert n in msgs + rest;
      }
    }
  }

  // ----- the vault's answers

  lemma ApplyIgnoresAction(s: State, op: Op)
    ensures Apply(s, op).Ok? == Apply(s.(action := NoAction), op).Ok?
    ensures Apply(s, op).Ok? ==>
      (var r, t := Apply(s, op).value, Apply(s.(action := NoAction), op).value;
       t.0 == r.0.(action := NoAction) && t.1 == r.1 && r.0.action == s.action)
  {
  }

  lemma RecordedIsConsistent(s: State, trace: seq<Op>)
    requires Recorded(s, trace)
    ensures Consistent(s) && s.cfg == INITIAL_CONFIG
  {
    StakesAreDeposits(trace, 0);
    assert StakeMap(s) == StakeMap(s.(action := NoAction));
  }

  lemma ActionIsFree(s: State, action: Action)
    ensures Liability(s.(action := action)) == Liability(s)
  {
    var t := s.(action := action);
    forall a | a in s.stakes ensures EarnedMap(s)[a] == EarnedMap(t)[a] {
      assert s.StakeOf(a) == t.StakeOf(a);
    }
    assert EarnedMap(s) == EarnedMap(t);
  }

  lemma OpRecorded(s: State, trace: seq<Op>, op: Op)
    requires Recorded(s, trace) && Apply(s, op).Ok? && NoFallback(s, op)
    ensures var (s1, paid) := Apply(s, op).value;
            && Recorded(s1, trace + [op]) && s1.action == s.action
            && Liability(s1) + ONE * (paid + Outflow(op)) <= Liability(s) + ONE * Inflow(op)
  {
    RecordedIsConsistent(s, trace);
    OpKeepsBooks(s, op);
    ApplyIgnoresAction(s, op);
    var longer := trace + [op];
    assert longer[..|longer| - 1] == trace && longer[|longer| - 1] == op;
  }

  lemma {:induction false} PaymentsQueue(c: Contracts, msgs: seq<Msg>)
    requires Payments(c, msgs)
    ensures forall m :: m in msgs ==> Internal(c, m)
    ensures Queue(c, ToMint, msgs) == 0 == Queue(c, ToDelegate, msgs)
    ensures Queue(c, ToPay, msgs) == match |msgs| case 0 => 0 case 1 => msgs[0].amount case _ => msgs[0].amount + msgs[1].amount
  {
    if |msgs| == 1 {
      assert msgs == [msgs[0]];
      forall p ensures Queue(c, p, msgs) == Promised(c, p, msgs[0]) {
        QueueOfTwo(c, p, msgs[0], msgs[0]);
      }
    } else if |msgs| == 2 {
      assert msgs == [msgs[0], msgs[1]];
      forall p ensures Queue(c, p, msgs) == Promised(c, p, msgs[0]) + Promised(c, p, msgs[1]) {
        QueueOfTwo(c, p, msgs[0], msgs[1]);
      }
    }
  }

  /** A finished answer: recorded, paid for by `inflow`, and followed by payments only. */
  ghost predicate Settled(c: Contracts, s: State, trace: seq<Op>, r: Reply, inflow: nat) {
    && Recorded(r.state, trace + r.ops)
    && Payments(c, r.msgs)
    && Liability(r.state) + ONE * Queue(c, ToPay, r.msgs) <= Liability(s) + ONE * inflow
  }

  lemma SettleSettles(c: Contracts, s: State, trace: seq<Op>, user: Addr, r: Reply)
    requires Recorded(s, trace) && SettleNow(s, c, user) == Ok(r)
    ensures Settled(c, s, trace, r, 0) && r.state.action == s.action
  {
    OpRecorded(s, trace, Settle(user));
    PaymentsQueue(c, r.msgs);
  }

  lemma StakeSettles(c: Contracts, s: State, trace: seq<Op>, user: Addr, amount: nat, r: Reply)
    requires Recorded(s, trace) && s.staked + amount < U128 && StakeNow(s, c, user, amount) == Ok(r)
    ensures Settled(c, s, trace, r, amount) && r.state.action == s.action
  {
    OpRecorded(s, trace, Deposit(user, amount));
    PaymentsQueue(c, r.msgs);
  }

  lemma UnstakeSettles(c: Contracts, s: State, trace: seq<Op>, user: Addr, amount: nat, r: Reply)
    requires Recorded(s, trace) && amount <= s.StakeOf(user).stake && UnstakeNow(s, c, user, amount) == Ok(r)
    ensures Settled(c, s, trace, r, 0) && r.state.action == s.action
  {
    OpRecorded(s, trace, Redeem(user, amount));
    PaymentsQueue(c, r.msgs);
  }

  lemma FinishSettles(c: Contracts, s: State, trace: seq<Op>, from: Addr, action: Action, r: Reply)
    requires Recorded(s, trace) && from != c.converter && Finish(s, c, from, action) == Ok(r)
    requires s.staked + Parked(action) < U128
    requires action.UnstakeFor? ==> action.amount <= s.StakeOf(action.user).stake
    ensures Settled(c, s, trace, r, Parked(action)) && r.state.action == s.action
  {
    match action
    case RewardTo(a) => SettleSettles(c, s, trace, a, r);
    case StakeFor(a, k) => StakeSettles(c, s, trace, a, k, r);
    case UnstakeFor(a, k) => UnstakeSettles(c, s, trace, a, k, r);
    case NoAction => assert trace + [] == trace;
    case _ =>
  }

  /** A distribution is the fee split and accumulator step followed by the pending action. */
  lemma DistributeParts(c: Contracts, s: State, from: Addr, amount: nat, user: Option<Addr>, r: Reply) returns (s1: State, action: Action, r1: Reply)
    requires OnDistribute(s, c, from, amount, user) == Ok(r)
    ensures Apply(s, Distribute(amount)) == Ok((s1, 0)) && s1.stakes == s.stakes && s1.staked == s.staked
    ensures action == if user.Some? then RewardTo(user.value) else s.action
    ensures Finish(s1, c, from, action) == Ok(r1)
    ensures r == Reply(r1.state.(action := NoAction), r1.msgs, [Distribute(amount)] + r1.ops)
  {
    s1 := UpdateTotalRewards(s, amount).value;
    action := if user.Some? then RewardTo(user.value) else s.action;
    r1 := Finish(s1, c, from, action).value;
  }

  lemma SettledTwice(c: Contracts, s: State, s1: State, trace: seq<Op>, op: Op, r1: Reply, r: Reply, in1: nat, in2: nat)
    requires Settled(c, s1, trace + [op], r1, in2)
    requires Liability(s1) <= Liability(s) + ONE * in1
    requires r == Reply(r1.state.(action := NoAction), r1.msgs, [op] + r1.ops)
    ensures Settled(c, s, trace, r, in1 + in2)
  {
    ActionIsFree(r1.state, NoAction);
    assert trace + [op] + r1.ops == trace + r.ops;
  }

  lemma DistributeSettles(c: Contracts, s: State, trace: seq<Op>, from: Addr, amount: nat, user: Option<Addr>, r: Reply)
    requires Recorded(s, trace) && UnstakeBacked(s)
    requires s.staked + Parked(s.action) < U128
    requires from != c.converter && OnDistribute(s, c, from, amount, user) == Ok(r)
    ensures Settled(c, s, trace, r, amount + Parked(s.action)) && r.state.action == NoAction
  {
    var s1, action, r1 := DistributeParts(c, s, from, amount, user, r);
    OpRecorded(s, trace, Distribute(amount));
    FinishSettles(c, s1, trace + [Distribute(amount)], from, action, r1);
    SettledTwice(c, s, s1, trace, Distribute(amount), r1, r, amount, Parked(action));
  }
}
