/** The bToken ledger (cw20-base, no cap; the converter is the minter). */
module BToken {
  import opened Prelude
  import opened MapSums

  datatype State = State(balances: map<Addr, nat>, supply: nat, minter: Addr)

  function Transfer(s: State, from: Addr, to: Addr, amount: nat): Result<State> {
    var left :- SubU128(Get(s.balances, from), amount);
    var balances := s.balances[from := left];
    var credited :- AddU128(Get(balances, to), amount);
    Ok(s.(balances := balances[to := credited]))
  }

  function Mint(s: State, from: Addr, to: Addr, amount: nat): Result<State> {
    if from != s.minter then Err
    else
      var supply :- AddU128(s.supply, amount);
      var credited :- AddU128(Get(s.balances, to), amount);
      Ok(s.(supply := supply, balances := s.balances[to := credited]))
  }

  function Burn(s: State, from: Addr, amount: nat): Result<State> {
    var left :- SubU128(Get(s.balances, from), amount);
    var supply :- SubU128(s.supply, amount);
    Ok(s.(balances := s.balances[from := left], supply := supply))
  }

  /** Balances add up to the supply, which fits a `Uint128`. */
  ghost predicate Conserved(s: State) {
    Total(s.balances) == s.supply < U128
  }

  lemma TransferConserves(s: State, from: Addr, to: Addr, amount: nat)
    requires Conserved(s)
    ensures Transfer(s, from, to, amount).Ok? <==> amount <= Get(s.balances, from)
    ensures Transfer(s, from, to, amount).Ok? ==>
      var s1 := Transfer(s, from, to, amount).value;
      && Conserved(s1) && s1.supply == s.supply && s1.minter == s.minter
      && forall a :: Get(s1.balances, a) ==
           Get(s.balances, a) - (if a == from then amount else 0) + (if a == to then amount else 0)
  {
    if amount <= Get(s.balances, from) {
      var left := Get(s.balances, from) - amount;
      TotalUpdate(s.balances, from, left);
      var b := s.balances[from := left];
      EntryWithinTotal(b, to);
      TotalUpdate(b, to, Get(b, to) + amount);
    }
  }

  lemma MintConserves(s: State, from: Addr, to: Addr, amount: nat)
    requires Conserved(s)
    ensures Mint(s, from, to, amount).Ok? <==> from == s.minter && s.supply + amount < U128
    ensures Mint(s, from, to, amount).Ok? ==>
      var s1 := Mint(s, from, to, amount).value;
      && Conserved(s1) && s1.supply == s.supply + amount && s1.minter == s.minter
      && forall a :: Get(s1.balances, a) == Get(s.balances, a) + (if a == to then amount else 0)
  {
    EntryWithinTotal(s.balances, to);
    TotalUpdate(s.balances, to, Get(s.balances, to) + amount);
  }

  lemma BurnConserves(s: State, from: Addr, amount: nat)
    requires Conserved(s)
    ensures Burn(s, from, amount).Ok? <==> amount <= Get(s.balances, from)
    ensures Burn(s, from, amount).Ok? ==>
      var s1 := Burn(s, from, amount).value;
      && Conserved(s1) && s1.supply + amount == s.supply && s1.minter == s.minter
      && forall a :: Get(s1.balances, a) == Get(s.balances, a) - (if a == from then amount else 0)
  {
    EntryWithinTotal(s.balances, from);
    if amount <= Get(s.balances, from) {
      TotalUpdate(s.balances, from, Get(s.balances, from) - amount);
    }
  }

  /** The contract: each call updates the stored map and supply in place. */
  class Token {
    var balances: map<Addr, nat>
    var supply: nat
    var minter: Addr

    function Abs(): State
      reads this
    {
      State(balances, supply, minter)
    }

    constructor (minter: Addr)
      ensures Abs() == State(map[], 0, minter)
    {
      this.balances, this.supply, this.minter := map[], 0, minter;
    }

    method ExecuteTransfer(from: Addr, to: Addr, amount: nat) returns (ok: bool)
      modifies this`balances
      ensures ok <==> Transfer(old(Abs()), from, to, amount).Ok?
      ensures ok ==> Abs() == Transfer(old(Abs()), from, to, amount).value
    {
      if Get(balances, from) < amount {
        return false;
      }
      balances := balances[from := Get(balances, from) - amount];
      if Get(balances, to) + amount >= U128 {
        return false;
      }
      balances := balances[to := Get(balances, to) + amount];
      return true;
    }

    method ExecuteMint(from: Addr, to: Addr, amount: nat) returns (ok: bool)
      modifies this`balances, this`supply
      ensures ok <==> Mint(old(Abs()), from, to, amount).Ok?
      ensures ok ==> Abs() == Mint(old(Abs()), from, to, amount).value
    {
      if from != minter || supply + amount >= U128 {
        return false;
      }
      supply := supply + amount;
      if Get(balances, to) + amount >= U128 {
        return false;
      }
      balances := balances[to := Get(balances, to) + amount];
      return true;
    }

    method ExecuteBurn(from: Addr, amount: nat) returns (ok: bool)
      modifies this`balances, this`supply
      ensures ok <==> Burn(old(Abs()), from, amount).Ok?
      ensures ok ==> Abs() == Burn(old(Abs()), from, amount).value
    {
      if Get(balances, from) < amount {
        return false;
      }
      balances := balances[from := Get(balances, from) - amount];
      if supply < amount {
        return false;
      }
      supply := supply - amount;
      return true;
    }
  }
}
