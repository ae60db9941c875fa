/**
 * Whole runs of the vault, judged against a reference ledger: deposits added up one by one, and
 * at each distribution an exact share `net * own stake / total staked` for every staker. The
 * reference never looks at `power`.
 */
module VaultHistory {
  import opened Prelude
  import opened Decimals
  import opened Vault
  import opened VaultLedger

  function Replay(ops: seq<Op>): Result<State>
  {
    if ops == [] then Ok(INITIAL)
    else
      var s :- Replay(ops[..|ops| - 1]);
      var (s1, _) :- Apply(s, ops[|ops| - 1]);
      Ok(s1)
  }

  /** Every operation of the run succeeded without taking a zero fallback on a stake field. */
  predicate Clean(ops: seq<Op>) {
    Replay(ops).Ok? && (ops != [] ==>
      Clean(ops[..|ops| - 1]) && NoFallback(Replay(ops[..|ops| - 1]).value, ops[|ops| - 1]))
  }

  // ----- the reference ledger

  /** The tokens an operation adds to the stakes. */
  function Deposited(op: Op): nat {
    if op.Deposit? then op.amount else 0
  }

  function StakeIn(ops: seq<Op>, a: Addr): int {
    if ops == [] then 0
    else
      var moved: int := Deposited(ops[|ops| - 1]) - Outflow(ops[|ops| - 1]);
      StakeIn(ops[..|ops| - 1], a) + if Settles(ops[|ops| - 1], a) then moved else 0
  }

  function StakedIn(ops: seq<Op>): int {
    if ops == [] then 0
    else StakedIn(ops[..|ops| - 1]) + Deposited(ops[|ops| - 1]) - Outflow(ops[|ops| - 1])
  }

  /** `net * stake / staked`, exactly, in units of 10^-18 token */
  function ExactShare(net: int, stake: int, staked: int): real
    requires staked != 0
  {
    (ONE * net) as real * stake as real / staked as real
  }

  function Share(ops: seq<Op>, reward: nat, a: Addr): real {
    if StakedIn(ops) <= 0 then 0.0
    else ExactShare(Net(INITIAL_CONFIG, reward), StakeIn(ops, a), StakedIn(ops))
  }

  /** The exact entitlement of `a`, in the same units: one share for every distribution of the run. */
  function Entitled(ops: seq<Op>, a: Addr): real {
    if ops == [] then 0.0
    else Entitled(ops[..|ops| - 1], a) + match ops[|ops| - 1]
      case Distribute(reward) => Share(ops[..|ops| - 1], reward, a)
      case _ => 0.0
  }

  // ----- what the contract did

  predicate Settles(op: Op, a: Addr) {
    match op case Distribute(_) => false case _ => op.user == a
  }

  /** The rewards the contract released to `a`. */
  function Received(ops: seq<Op>, a: Addr): nat
    requires Replay(ops).Ok?
  {
    if ops == [] then 0
    else
      var before := ops[..|ops| - 1];
      var op := ops[|ops| - 1];
      Received(before, a) + if Settles(op, a) then Apply(Replay(before).value, op).value.1 else 0
  }

  function Settlements(ops: seq<Op>, a: Addr): nat {
    if ops == [] then 0
    else Settlements(ops[..|ops| - 1], a) + if Settles(ops[|ops| - 1], a) then 1 else 0
  }

  /** The stake of `a` added up over the distributions that raised `power`. */
  function Exposure(ops: seq<Op>, a: Addr): int {
    if ops == [] then 0
    else
      var before := ops[..|ops| - 1];
      Exposure(before, a) + if ops[|ops| - 1].Distribute? && StakedIn(before) > 0 then StakeIn(before, a) else 0
  }

  /** No settlement of `a` had its reward dropped by the overflow fallback of the multiplication. */
  predicate Unclipped(ops: seq<Op>, a: Addr)
    requires Replay(ops).Ok?
  {
    ops == [] ||
      var before := ops[..|ops| - 1];
      Unclipped(before, a) &&
      (Settles(ops[|ops| - 1], a) ==> Earned(Replay(before).value, a) < U128)
  }

  // ----- the contract follows the reference

  /** In a clean run the books hold at every point and the stake fields are the deposits added up. */
  lemma {:induction false} StakesAreDeposits(ops: seq<Op>, a: Addr)
    requires Clean(ops)
    ensures var s := Replay(ops).value;
            && Consistent(s) && s.cfg == INITIAL_CONFIG
            && s.StakeOf(a).stake == StakeIn(ops, a)
            && s.staked == StakedIn(ops)
  {
    if ops == [] {
      InitialConsistent();
    } else {
      var before, op := ops[..|ops| - 1], ops[|ops| - 1];
      StakesAreDeposits(before, a);
      var s := Replay(before).value;
      OpKeepsBooks(s, op);
      match op
      case Distribute(reward) => DistributionStep(s, reward);
      case Deposit(b, _) => StakeWithinTotal(s, b);
      case Redeem(b, _) => StakeWithinTotal(s, b);
      case Settle(_) =>
    }
  }

  /** The floor per staked token, times a stake, is below the exact share by less than the stake. */
  lemma ShareBounds(net: nat, stake: nat, staked: nat, inc: nat)
    requires 0 < staked && inc == net * ONE / staked
    ensures (inc * stake) as real <= ExactShare(net, stake, staked) <= (inc * stake + stake) as real
    ensures 0 < stake ==> ExactShare(net, stake, staked) < (inc * stake + stake) as real
  {
  }

  /** What `a` has received and still earns, and the rounding allowance, in units of 10^-18 token. */
  function Held(ops: seq<Op>, a: Addr): int
    requires Replay(ops).Ok?
  {
    ONE * Received(ops, a) + Earned(Replay(ops).value, a)
  }

  function Slack(ops: seq<Op>, a: Addr): int {
    ONE * Settlements(ops, a) + Exposure(ops, a)
  }

  predicate Upper(held: int, due: real) {
    held as real <= due
  }

  predicate Lower(held: int, due: real, slack: int) {
    due <= (held + slack) as real && (0 < slack ==> due < (held + slack) as real)
  }

  /** Adding a rounded share to one side and the exact share to the other keeps the bounds. */
  lemma BoundsAdvance(held: int, due: real, slack: int, gain: int, exact: real, stake: int)
    requires 0 <= slack && 0 <= stake
    requires gain as real <= exact <= (gain + stake) as real
    requires 0 < stake ==> exact < (gain + stake) as real
    ensures Upper(held, due) ==> Upper(held + gain, due + exact)
    ensures Lower(held, due, slack) ==> Lower(held + gain, due + exact, slack + stake)
  {
  }

  /** One distribution: earnings grow by the rounded share, entitlement by the exact one. */
  lemma DistributeGain(before: seq<Op>, ops: seq<Op>, reward: nat, a: Addr) returns (gain: int, exact: real, stake: nat)
    requires Clean(ops) && ops != [] && before == ops[..|ops| - 1] && ops[|ops| - 1] == Distribute(reward)
    ensures Held(ops, a) == Held(before, a) + gain
    ensures Entitled(ops, a) == Entitled(before, a) + exact
    ensures Slack(ops, a) == Slack(before, a) + stake
    ensures gain as real <= exact <= (gain + stake) as real
    ensures 0 < stake ==> exact < (gain + stake) as real
  {
    var s := Replay(before).value;
    StakesAreDeposits(before, a);
    var inc: nat;
    inc, gain, stake := EarningsGain(s, Replay(ops).value, reward, a);
    assert Received(ops, a) == Received(before, a);
    assert Settlements(ops, a) == Settlements(before, a);
    assert Exposure(ops, a) == Exposure(before, a) + stake;
    exact := Share(before, reward, a);
    if s.staked > 0 {
      ShareBounds(Net(s.cfg, reward), stake, s.staked, inc);
    }
  }

  lemma EarningsGain(s: State, s1: State, reward: nat, a: Addr) returns (inc: nat, gain: int, stake: nat)
    requires Consistent(s) && UpdateTotalRewards(s, reward) == Ok(s1)
    ensures 0 <= Net(s.cfg, reward)
    ensures Earned(s1, a) == Earned(s, a) + gain
    ensures stake == if s.staked == 0 then 0 else s.StakeOf(a).stake
    ensures gain == inc * stake
    ensures 0 < s.staked ==> inc == Net(s.cfg, reward) * ONE / s.staked
  {
    DistributionStep(s, reward);
    inc, gain, stake := 0, 0, 0;
    if s.staked > 0 {
      inc := Net(s.cfg, reward) * ONE / s.staked;
      stake := s.StakeOf(a).stake;
      gain := inc * stake;
      EarnedGain(s, s1, a, inc);
    }
  }

  lemma EarnedGain(s: State, s1: State, a: Addr, inc: nat)
    requires s1.stakes == s.stakes && s1.power == s.power + inc
    ensures Earned(s1, a) == Earned(s, a) + inc * s.StakeOf(a).stake
  {
  }

  /** One settlement of `a`: earnings become reward, losing less than one token. */
  lemma SettleGain(before: seq<Op>, ops: seq<Op>, a: Addr)
    requires Clean(ops) && ops != [] && before == ops[..|ops| - 1] && Settles(ops[|ops| - 1], a)
    ensures Entitled(ops, a) == Entitled(before, a)
    ensures Slack(ops, a) == Slack(before, a) + ONE
    ensures Held(ops, a) <= Held(before, a)
    ensures Unclipped(ops, a) ==> Held(before, a) < Held(ops, a) + ONE
  {
    var s, op := Replay(before).value, ops[|ops| - 1];
    StakesAreDeposits(before, a);
    SettledEntry(s, op, a);
  }

  /** A settlement turns the earnings of `a` into the reward it pays, down to the last whole token. */
  lemma {:induction false} SettledEntry(s: State, op: Op, a: Addr)
    requires Consistent(s) && Settles(op, a) && Apply(s, op).Ok?
    ensures var (s1, paid) := Apply(s, op).value;
            && Earned(s1, a) == 0 && ONE * paid <= Earned(s, a)
            && (Earned(s, a) < U128 ==> Earned(s, a) < ONE * paid + ONE)
  {
    SettlementStep(s, a);
    var s1 := Apply(s, op).value.0;
    assert s1.power - s1.StakeOf(a).powerDiff == 0;
  }

  /** An operation for somebody else changes nothing for `a`. */
  lemma OtherSettlement(before: seq<Op>, ops: seq<Op>, a: Addr)
    requires Clean(ops) && ops != [] && before == ops[..|ops| - 1]
    requires !ops[|ops| - 1].Distribute? && !Settles(ops[|ops| - 1], a)
    ensures Held(ops, a) == Held(before, a) && Entitled(ops, a) == Entitled(before, a) && Slack(ops, a) == Slack(before, a)
  {
    var s, op := Replay(before).value, ops[|ops| - 1];
    var (s1, paid) := Apply(s, op).value;
    assert s1.StakeOf(a) == s.StakeOf(a) && s1.power == s.power;
  }

  /**
   * The accumulator refines the pro-rata ledger. Over every run a staker's rewards received and
   * still earned never exceed the exact entitlement; and unless an overflow dropped a reward they
   * fall short by less than one token per settlement plus 10^-18 per staked token per distribution.
   */
  lemma {:induction false} AccumulatorRefinesProRata(ops: seq<Op>, a: Addr)
    requires Clean(ops)
    ensures 0 <= Exposure(ops, a)
    ensures Upper(Held(ops, a), Entitled(ops, a))
    ensures Unclipped(ops, a) ==> Lower(Held(ops, a), Entitled(ops, a), Slack(ops, a))
  {
    if ops == [] {
    } else {
      var before, op := ops[..|ops| - 1], ops[|ops| - 1];
      AccumulatorRefinesProRata(before, a);
      StakesAreDeposits(before, a);
      StakeWithinTotal(Replay(before).value, a);
      if op.Distribute? {
        var gain, exact, stake := DistributeGain(before, ops, op.reward, a);
        BoundsAdvance(Held(before, a), Entitled(before, a), Slack(before, a), gain, exact, stake);
      } else if Settles(op, a) {
        SettleGain(before, ops, a);
      } else {
        OtherSettlement(before, ops, a);
      }
    }
  }
}
