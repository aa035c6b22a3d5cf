/** The closed sets of messages the ledger accepts and the one it answers
    queries with. */
module Msg {
  import opened Host

  /** Instantiation carries only a label. */
  datatype InitMsg = InitMsg(name: string)

  /** Lock has no amount field: what is locked is read from the attached
      funds. Unlock names an amount. */
  datatype HandleMsg = Lock | Unlock(amount: Uint128)

  /** The only query reads the configuration. */
  datatype QueryMsg = ConfigQuery

  datatype ConfigResponse = ConfigResponse(name: string, owner: HumanAddr)
}
