/** Concrete runs of the ledger from a fresh store: the storage unit test
    and the expected behaviours of Init, Lock and Query. */
module Scenarios {
  import opened Std
  import opened Host
  import opened Msg
  import opened State
  import opened Contract

  /** The total reads zero on a fresh store and 100 after one increase by 100. */
  lemma FreshTotalIncrease()
    ensures TotalAmountGet(Fresh) == 0
    ensures TotalAmountGet(TotalAmountIncrease(Fresh, 100).store) == 100
  {
  }

  /** Every address reads zero on a fresh store, and the configuration is
      missing. */
  lemma FreshReads(address: CanonicalAddr)
    ensures LockMapGet(Fresh, address) == 0
    ensures ConfigGet(Fresh) == Err(NotFound)
  {
  }

  /** Two Locks of 100 and then 50 by one sender add up in the total and in
      the sender's entry. */
  lemma LockTwice(api: Api, sender: CanonicalAddr)
    ensures
      var first := Handle(Fresh, api, Env(sender, [Coin("ukrw", 100)]), Lock);
      first.result.Ok? &&
      var second := Handle(first.store, api, Env(sender, [Coin("ukrw", 50)]), Lock);
      && second.result.Ok?
      && TotalAmountGet(second.store) == 150
      && LockMapGet(second.store, sender) == 150
  {
    var first := Handle(Fresh, api, Env(sender, [Coin("ukrw", 100)]), Lock);
    assert TotalAmountGet(first.store) == 100 && LockMapGet(first.store, sender) == 100;
  }

  /** A Lock paid in another denomination, or with no coin or two coins
      attached, is rejected. */
  lemma LockRejectsBadFunds(s: Storage, api: Api, sender: CanonicalAddr, amount: Uint128)
    ensures Handle(s, api, Env(sender, [Coin("uluna", amount)]), Lock) == Outcome(s, Err(GenericErr))
    ensures Handle(s, api, Env(sender, []), Lock) == Outcome(s, Err(GenericErr))
    ensures Handle(s, api, Env(sender, [Coin("ukrw", amount), Coin("ukrw", amount)]), Lock)
         == Outcome(s, Err(GenericErr))
  {
  }

  /** After Init, the query reports the label and the owner's display form. */
  lemma InitThenQuery(api: Api, sender: CanonicalAddr, name: string)
    ensures
      var o := Init(Fresh, Env(sender, []), InitMsg(name));
      o.result.Ok? &&
      match api.humanAddress(sender)
      case Ok(owner) => Query(o.store, api, ConfigQuery) == Ok(ConfigResponse(name, owner))
      case Err(e) => Query(o.store, api, ConfigQuery) == Err(e)
  {
  }

  /** Querying before Init fails because nothing is configured. */
  lemma QueryBeforeInit(api: Api)
    ensures Query(Fresh, api, ConfigQuery) == Err(NotFound)
  {
  }

  /** A Lock of a zero-amount coin is accepted and leaves a zero entry for
      the sender: entries are not always positive. */
  lemma LockZeroAmount(api: Api, sender: CanonicalAddr)
    ensures
      var o := Handle(Fresh, api, Env(sender, [Coin("ukrw", 0)]), Lock);
      && o.result.Ok?
      && sender in o.store.locks
      && o.store.locks[sender] == Decodes(0)
  {
  }
}
