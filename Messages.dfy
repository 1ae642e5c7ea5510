/**
 * Contract-call descriptors. `createExecuteMessage` and
 * `createIncreaseAllowanceMessage` (util/messages) and `coin` (the chain
 * client library) are not part of this model: each is a plain record of the
 * arguments its call sites pass.
 */
module Messages {
  import opened Json

  /** `coin(amount, denom)`: funds attached to a call, amount in base units as a decimal string. */
  datatype Coin = Coin(denom: string, amount: string)

  datatype Call =
    | Execute(sender: string, contract: string, msg: Json, funds: seq<Coin>)
    | IncreaseAllowance(sender: string, token: string, spender: string, amount: string)
}
