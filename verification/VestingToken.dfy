/** The cw20-vesting contract: storage fields updated in place, each call tied to Vesting's function. */
module VestingToken {
  import opened Prelude
  import opened Curves
  import opened Vesting

  class Token {
    var balances: map<Addr, nat>
    var delegated: map<Addr, nat>
    var vesting: map<Addr, Curve>
    var allowances: map<(Addr, Addr), Allowance>
    var supply: nat
    var mint: Option<Minter>
    var staking: Option<Addr>
    var allowlist: set<Addr>
    var maxComplexity: nat

    function Abs(): State
      reads this
    {
      State(balances, delegated, vesting, allowances, supply, mint, staking, allowlist, maxComplexity)
    }

    /** Storage before `instantiate`. */
    constructor ()
      ensures Abs() == State(map[], map[], map[], map[], 0, None, None, {}, 0)
    {
      balances, delegated, vesting, allowances := map[], map[], map[], map[];
      supply, mint, staking, allowlist, maxComplexity := 0, None, None, {}, 0;
    }

    /** The loop body of `create_accounts`. */
    method CreateAccount(now: nat, row: Account) returns (ok: bool)
      modifies this`balances, this`vesting, this`supply
      ensures ok <==> Vesting.CreateAccount(old(Abs()), now, row).Ok?
      ensures ok ==> Abs() == Vesting.CreateAccount(old(Abs()), now, row).value
    {
      if row.schedule.Some? {
        var schedule := row.schedule.value;
        if !SchedulesAmount(schedule, row.amount) {
          return false;
        }
        if Value(schedule, now) != 0 {
          if TooComplex(schedule, maxComplexity) {
            return false;
          }
          vesting := vesting[row.address := schedule];
        }
      }
      balances := balances[row.address := row.amount];
      ok := supply + row.amount < U128;
      if ok {
        supply := supply + row.amount;
      }
    }

    method CreateAccounts(now: nat, accounts: seq<Account>) returns (ok: bool)
      modifies this`balances, this`vesting, this`supply
      ensures ok <==> DistinctAddresses(accounts) && Vesting.CreateAccounts(old(Abs()), now, accounts).Ok?
      ensures ok ==> Abs() == Vesting.CreateAccounts(old(Abs()), now, accounts).value
    {
      if !DistinctAddresses(accounts) {
        return false;
      }
      var i := 0;
      while i < |accounts|
        invariant i <= |accounts|
        invariant Vesting.CreateAccounts(old(Abs()), now, accounts[..i]) == Ok(Abs())
      {
        AccountStep(old(Abs()), now, accounts, i);
        ok := CreateAccount(now, accounts[i]);
        if !ok {
          return false;
        }
        i := i + 1;
      }
      assert accounts[..i] == accounts;
      return true;
    }

    /** `instantiate`: check the cap curve, create the accounts, compare the supply with the cap. */
    method Instantiate(now: nat, accounts: seq<Account>, minter: Option<Minter>, allowed: set<Addr>, max: nat) returns (ok: bool)
      requires Abs() == State(map[], map[], map[], map[], 0, None, None, {}, 0)
      modifies this
      ensures ok <==> Vesting.Instantiate(now, accounts, minter, allowed, max).Ok?
      ensures ok ==> Abs() == Vesting.Instantiate(now, accounts, minter, allowed, max).value
    {
      var cap := if minter.Some? then minter.value.cap else None;
      if cap.Some? && !(Accepted(cap.value) && Growing(cap.value)) {
        return false;
      }
      allowlist, maxComplexity := allowed, max;
      ok := CreateAccounts(now, accounts);
      if !ok || (cap.Some? && supply > Value(cap.value, now)) {
        return false;
      }
      mint := minter;
    }

    /** Reduces `sender` by `amount` while enforcing its vesting schedule. */
    method DeductCoins(now: nat, sender: Addr, amount: nat) returns (ok: bool)
      requires Abs().Readable()
      modifies this`vesting, this`balances
      ensures ok <==> Vesting.DeductCoins(old(Abs()), now, sender, amount).Ok?
      ensures ok ==> Abs() == Vesting.DeductCoins(old(Abs()), now, sender, amount).value
    {
      var locked := if sender in vesting then Value(vesting[sender], now) else 0;
      if locked == 0 {
        vesting := vesting - {sender};
      }
      var balance, shares := Get(balances, sender), Get(delegated, sender);
      if balance + shares >= U128 || balance + shares < amount || locked > balance + shares - amount || balance < amount {
        return false;
      }
      balances := balances[sender := balance - amount];
      return true;
    }

    method AddTo(a: Addr, amount: nat) returns (ok: bool)
      modifies this`balances
      ensures ok <==> Credit(old(Abs()), a, amount).Ok?
      ensures ok ==> Abs() == Credit(old(Abs()), a, amount).value
    {
      if Get(balances, a) + amount >= U128 {
        return false;
      }
      balances := balances[a := Get(balances, a) + amount];
      return true;
    }

    method Transfer(b: Block, from: Addr, to: Addr, amount: nat) returns (ok: bool)
      requires Abs().Readable()
      modifies this`vesting, this`balances
      ensures ok <==> Apply(old(Abs()), b, OpTransfer(from, to, amount)).Ok?
      ensures ok ==> Abs() == Apply(old(Abs()), b, OpTransfer(from, to, amount)).value
    {
      if amount == 0 {
        return false;
      }
      ok := DeductCoins(b.time, from, amount);
      if ok {
        ok := AddTo(to, amount);
      }
    }

    method TransferVesting(b: Block, from: Addr, to: Addr, amount: nat, schedule: Curve) returns (ok: bool)
      requires Abs().Readable()
      modifies this`vesting, this`balances
      ensures ok <==> Apply(old(Abs()), b, OpTransferVesting(from, to, amount, schedule)).Ok?
      ensures ok ==> Abs() == Apply(old(Abs()), b, OpTransferVesting(from, to, amount, schedule)).value
    {
      if from !in allowlist || amount == 0 || !SchedulesAmount(schedule, amount) {
        return false;
      }
      if Value(schedule, b.time) != 0 {
        var sum := if to in vesting then Combine(vesting[to], schedule) else schedule;
        if TooComplex(sum, maxComplexity) {
          return false;
        }
        vesting := vesting[to := sum];
      }
      ok := DeductCoins(b.time, from, amount);
      if ok {
        ok := AddTo(to, amount);
      }
    }

    method Burn(b: Block, from: Addr, amount: nat) returns (ok: bool)
      requires Abs().Readable()
      modifies this`vesting, this`balances, this`supply
      ensures ok <==> Apply(old(Abs()), b, OpBurn(from, amount)).Ok?
      ensures ok ==> Abs() == Apply(old(Abs()), b, OpBurn(from, amount)).value
    {
      if amount == 0 {
        return false;
      }
      ok := DeductCoins(b.time, from, amount);
      if ok {
        ok := amount <= supply;
        if ok {
          supply := supply - amount;
        }
      }
    }

    method Mint(b: Block, from: Addr, to: Addr, amount: nat) returns (ok: bool)
      requires Abs().Readable()
      modifies this`balances, this`supply
      ensures ok <==> Apply(old(Abs()), b, OpMint(from, to, amount)).Ok?
      ensures ok ==> Abs() == Apply(old(Abs()), b, OpMint(from, to, amount)).value
    {
      if amount == 0 || mint.None? || mint.value.minter != from || supply + amount >= U128 {
        return false;
      }
      if mint.value.cap.Some? && supply + amount > Value(mint.value.cap.value, b.time) {
        return false;
      }
      supply := supply + amount;
      ok := AddTo(to, amount);
    }

    method UpdateStakingAddress(b: Block, from: Addr, address: Addr) returns (ok: bool)
      requires Abs().Readable()
      modifies this`staking
      ensures ok <==> Apply(old(Abs()), b, OpUpdateStaking(from, address)).Ok?
      ensures ok ==> Abs() == Apply(old(Abs()), b, OpUpdateStaking(from, address)).value
    {
      if staking.Some? || mint.None? || mint.value.minter != from {
        return false;
      }
      staking := Some(address);
      return true;
    }

    method Delegate(b: Block, from: Addr, amount: nat) returns (ok: bool)
      requires Abs().Readable()
      modifies this`balances, this`delegated
      ensures ok <==> Apply(old(Abs()), b, OpDelegate(from, amount)).Ok?
      ensures ok ==> Abs() == Apply(old(Abs()), b, OpDelegate(from, amount)).value
    {
      if amount == 0 || staking.None? || Get(balances, from) < amount {
        return false;
      }
      balances := balances[from := Get(balances, from) - amount];
      ok := AddTo(staking.value, amount);
      if ok {
        ok := Get(delegated, from) + amount < U128;
        if ok {
          delegated := delegated[from := Get(delegated, from) + amount];
        }
      }
    }

    method Undelegate(b: Block, from: Addr, to: Addr, amount: nat) returns (ok: bool)
      requires Abs().Readable()
      modifies this`vesting, this`balances, this`delegated
      ensures ok <==> Apply(old(Abs()), b, OpUndelegate(from, to, amount)).Ok?
      ensures ok ==> Abs() == Apply(old(Abs()), b, OpUndelegate(from, to, amount)).value
    {
      if amount == 0 || staking != Some(from) || to !in delegated || delegated[to] < amount {
        return false;
      }
      delegated := delegated[to := delegated[to] - amount];
      ok := DeductCoins(b.time, from, amount);
      if ok {
        ok := AddTo(to, amount);
      }
    }

    method DeductAllowance(b: Block, owner: Addr, spender: Addr, amount: nat) returns (ok: bool)
      modifies this`allowances
      ensures ok <==> Vesting.DeductAllowance(old(Abs()), b, owner, spender, amount).Ok?
      ensures ok ==> Abs() == Vesting.DeductAllowance(old(Abs()), b, owner, spender, amount).value
    {
      if (owner, spender) !in allowances {
        return false;
      }
      var a := allowances[(owner, spender)];
      if a.expires.IsExpired(b) || a.amount < amount {
        return false;
      }
      allowances := allowances[(owner, spender) := a.(amount := a.amount - amount)];
      return true;
    }

    method TransferFrom(b: Block, spender: Addr, from: Addr, to: Addr, amount: nat) returns (ok: bool)
      requires Abs().Readable()
      modifies this`allowances, this`vesting, this`balances
      ensures ok <==> Apply(old(Abs()), b, OpTransferFrom(spender, from, to, amount)).Ok?
      ensures ok ==> Abs() == Apply(old(Abs()), b, OpTransferFrom(spender, from, to, amount)).value
    {
      ok := DeductAllowance(b, from, spender, amount);
      if ok {
        ok := DeductCoins(b.time, from, amount);
      }
      if ok {
        ok := AddTo(to, amount);
      }
    }

    method BurnFrom(b: Block, spender: Addr, from: Addr, amount: nat) returns (ok: bool)
      requires Abs().Readable()
      modifies this`allowances, this`vesting, this`balances, this`supply
      ensures ok <==> Apply(old(Abs()), b, OpBurnFrom(spender, from, amount)).Ok?
      ensures ok ==> Abs() == Apply(old(Abs()), b, OpBurnFrom(spender, from, amount)).value
    {
      ok := DeductAllowance(b, from, spender, amount);
      if ok {
        ok := DeductCoins(b.time, from, amount);
      }
      if ok {
        ok := amount <= supply;
        if ok {
          supply := supply - amount;
        }
      }
    }
  }

  /** If creating all accounts succeeds, creating the first ones does. */
  lemma {:induction false} PrefixCreated(s: State, now: nat, accounts: seq<Account>, n: nat)
    requires n <= |accounts| && CreateAccounts(s, now, accounts).Ok?
    ensures CreateAccounts(s, now, accounts[..n]).Ok?
    decreases |accounts|
  {
    if n == |accounts| {
      assert accounts[..n] == accounts;
    } else {
      var before := accounts[..|accounts| - 1];
      PrefixCreated(s, now, before, n);
      assert before[..n] == accounts[..n];
    }
  }

  /** The next row, and that a failure there fails the whole. */
  lemma AccountStep(s: State, now: nat, accounts: seq<Account>, i: nat)
    requires i < |accounts| && CreateAccounts(s, now, accounts[..i]).Ok?
    ensures CreateAccounts(s, now, accounts[..i + 1])
         == CreateAccount(CreateAccounts(s, now, accounts[..i]).value, now, accounts[i])
    ensures CreateAccounts(s, now, accounts[..i + 1]).Err? ==> CreateAccounts(s, now, accounts).Err?
  {
    assert accounts[..i + 1][..i] == accounts[..i] && accounts[..i + 1][i] == accounts[i];
    if CreateAccounts(s, now, accounts).Ok? {
      PrefixCreated(s, now, accounts, i + 1);
    }
  }
}
