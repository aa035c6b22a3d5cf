/** The host library's types that the ledger is written against: amounts,
    addresses, the transaction environment, responses and the address
    service. Only what the ledger uses is modelled. */
module Host {
  import opened Std

  /** One more than the largest `Uint128`. */
  const Uint128Limit: nat := 0x1_0000_0000_0000_0000_0000_0000_0000_0000

  type Uint128 = x: nat | x < Uint128Limit

  /** The canonical (binary) form of an account address, used as a storage key. */
  datatype CanonicalAddr = CanonicalAddr(bytes: seq<bv8>)

  /** The human-readable form of an account address. */
  type HumanAddr = string

  datatype Coin = Coin(denom: string, amount: Uint128)

  /** The part of the transaction environment the ledger reads: who sent the
      message and which funds were attached to it. */
  datatype Env = Env(sender: CanonicalAddr, sentFunds: seq<Coin>)

  /** One key/value attribute of a response's event log. */
  datatype LogAttr = LogAttr(key: string, value: string)

  /** An outbound message to another module; the ledger never emits one, so
      its payload is left opaque. */
  datatype CosmosMsg = CosmosMsg(payload: seq<bv8>)

  datatype InitResponse = InitResponse(messages: seq<CosmosMsg>, log: seq<LogAttr>)

  datatype HandleResponse =
    HandleResponse(messages: seq<CosmosMsg>, log: seq<LogAttr>, data: Option<seq<bv8>>)

  /** `InitResponse::default()`: no messages and no log. */
  const DefaultInitResponse: InitResponse := InitResponse([], [])

  /** Address services the model does not see into. `humanAddress` is the
      host's conversion of a canonical address to its display form and may
      fail. `canonicalText` is not a host call: it is the host library's
      `Display` for a canonical address, compiled into the contract, which
      gives the text the address is logged as. */
  datatype Api = Api(
    humanAddress: CanonicalAddr -> StdResult<HumanAddr>,
    canonicalText: CanonicalAddr -> string)
}
