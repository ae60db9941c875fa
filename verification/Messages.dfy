/** The messages the bToken contracts exchange inside one transaction. */
module Messages {
  import opened Prelude

  /** The addresses fixed at instantiation. `underlying` is WYND or LOOP. */
  datatype Contracts = Contracts(
    token: Addr, vault: Addr, converter: Addr, staking: Addr, underlying: Addr)

  /** The payload of a cw20 `Send`. */
  datatype Hook =
    | StakeHook
    | DistributeHook(user: Option<Addr>)
    | ConvertHook

  /** `from` is the `info.sender` the receiving contract sees. */
  datatype Msg =
    | TokenTransfer(from: Addr, to: Addr, amount: nat)
    | TokenSend(from: Addr, to: Addr, amount: nat, hook: Hook)
    | TokenMint(from: Addr, to: Addr, amount: nat)
    | TokenBurn(from: Addr, amount: nat)
    | VaultReceive(from: Addr, user: Addr, amount: nat, hook: Hook)
    | VaultWithdraw(from: Addr, user: Addr)
    | VaultUnstake(from: Addr, amount: nat)
    | VaultDistribute(from: Addr, user: Addr)
    | VaultWithdrawTreasury(from: Addr, share: Option<nat>)
    | VaultWithdrawSyne(from: Addr, share: Option<nat>)
    | ConverterReceive(from: Addr, user: Addr, amount: nat, hook: Hook)
    | ConverterWithdraw(from: Addr)
    | UnderlyingTransfer(from: Addr, to: Addr, amount: nat)
    | UnderlyingSend(from: Addr, to: Addr, amount: nat, hook: Hook)
    | UnderlyingDelegate(from: Addr, amount: nat)
    | StakingWithdraw(from: Addr)
    | StakingRestake(from: Addr)
    | StakingStake(from: Addr, amount: nat)
}
