/** The ledger's three entry points: `Init`, `Handle` (dispatching to
    `TryLock` and `TryUnlock`) and `Query`. Each takes the host store
    explicitly. Entry points that may write return the store as the call
    leaves it together with their result; committing or discarding those
    writes is the host's business. */
module Contract {
  import opened Std
  import opened Host
  import opened Msg
  import opened State
  import Decimal

  /** The only denomination Lock accepts. */
  const SupportedDenom: string := "ukrw"

  datatype Outcome<R> = Outcome(store: Storage, result: StdResult<R>)

  /** Exactly one coin is attached and it is of the supported denomination. */
  predicate ValidFunds(env: Env) {
    |env.sentFunds| == 1 && env.sentFunds[0].denom == SupportedDenom
  }

  /** The `Uint128` additions a Lock with these funds performs do not
      overflow. Nothing is demanded when the funds would be rejected. */
  predicate LockFits(s: Storage, env: Env) {
    ValidFunds(env) ==>
      && TotalAmountGet(s) + env.sentFunds[0].amount < Uint128Limit
      && LockMapGet(s, env.sender) + env.sentFunds[0].amount < Uint128Limit
  }

  /** Records the label and the sender as owner, replacing any configuration
      already present. The label is not checked. */
  function Init(s: Storage, env: Env, msg: InitMsg): (o: Outcome<InitResponse>)
    ensures o.result.Ok? <==> ConfigKey !in s.rejects
    ensures o.result.Ok? ==> o.result.value == InitResponse([], [])
    ensures o.result.Ok? ==> ConfigGet(o.store) == Ok(Config(msg.name, env.sender))
    ensures o.result.Err? ==> o.result.error == StorageErr && o.store == s
    ensures o.store.total == s.total && o.store.locks == s.locks && o.store.rejects == s.rejects
  {
    var w := ConfigSet(s, Config(msg.name, env.sender));
    match w.status
    case Err(e) => Outcome(w.store, Err(e))
    case Ok(_) => Outcome(w.store, Ok(DefaultInitResponse))
  }

  function Handle(s: Storage, api: Api, env: Env, msg: HandleMsg): (o: Outcome<HandleResponse>)
    requires msg.Lock? ==> LockFits(s, env)
    ensures o.result.Err? ==> o.store == s
    ensures msg.Unlock? ==> o.result.Ok? && o.store == s
    ensures msg.Lock? ==> (o.result.Ok? <==> ValidFunds(env))
  {
    match msg
    case Lock => TryLock(s, api, env)
    case Unlock(amount) => TryUnlock(s, env, amount)
  }

  /** Locks the single attached coin for the sender. The funds are checked
      before anything is written. Neither write's status is consulted, so
      once the funds pass, the call succeeds even if the host refused a
      save. */
  function TryLock(s: Storage, api: Api, env: Env): (o: Outcome<HandleResponse>)
    requires LockFits(s, env)
    ensures o.result.Ok? <==> ValidFunds(env)
    ensures !ValidFunds(env) ==> o.result == Err(GenericErr) && o.store == s
    ensures ValidFunds(env) ==>
      var amount := env.sentFunds[0].amount;
      && o.result.value.messages == []
      && o.result.value.log == [LogAttr("action", "lock"),
                                LogAttr("address", api.canonicalText(env.sender)),
                                LogAttr("amount", Decimal.Show(amount))]
      && (TotalAmountKey !in s.rejects ==> TotalAmountGet(o.store) == TotalAmountGet(s) + amount)
      && (TotalAmountKey in s.rejects ==> o.store.total == s.total)
      && (LockMapKey(env.sender) !in s.rejects ==>
            LockMapGet(o.store, env.sender) == LockMapGet(s, env.sender) + amount)
      && (LockMapKey(env.sender) in s.rejects ==> o.store.locks == s.locks)
    ensures forall other :: other != env.sender ==> LockMapGet(o.store, other) == LockMapGet(s, other)
    ensures o.store.config == s.config && o.store.rejects == s.rejects
  {
    if |env.sentFunds| != 1 || env.sentFunds[0].denom != SupportedDenom then
      Outcome(s, Err(GenericErr))
    else
      var amount := env.sentFunds[0].amount;
      var afterTotal := TotalAmountIncrease(s, amount).store;
      var newLockAmount := LockMapGet(afterTotal, env.sender) + amount;
      var afterLock := LockMapSet(afterTotal, env.sender, newLockAmount).store;
      var log := [LogAttr("action", "lock"),
                  LogAttr("address", api.canonicalText(env.sender)),
                  LogAttr("amount", Decimal.Show(amount))];
      Outcome(afterLock, Ok(HandleResponse([], log, None)))
  }

  /** Accepts any amount from any sender and only logs it: no balance is
      checked, nothing is debited and no funds are sent back. */
  function TryUnlock(s: Storage, env: Env, amount: Uint128): (o: Outcome<HandleResponse>)
    ensures o.store == s
    ensures o.result.Ok?
    ensures o.result.value.messages == []
    ensures o.result.value.log == [LogAttr("action", "unlock"), LogAttr("amount", Decimal.Show(amount))]
  {
    var log := [LogAttr("action", "unlock"), LogAttr("amount", Decimal.Show(amount))];
    Outcome(s, Ok(HandleResponse([], log, None)))
  }

  /** Answers the configuration query from a read-only store: the stored
      label and the display form of the stored owner. Fails when no readable
      configuration is stored or when the address service fails. */
  function Query(s: Storage, api: Api, msg: QueryMsg): (r: StdResult<ConfigResponse>)
    ensures s.config == None ==> r == Err(NotFound)
    ensures s.config == Some(Undecodable) ==> r == Err(ParseErr)
    ensures s.config.Some? && s.config.value.Decodes? &&
            api.humanAddress(s.config.value.value.owner).Err? ==>
              r == Err(api.humanAddress(s.config.value.value.owner).error)
    ensures r.Ok? <==>
      s.config.Some? && s.config.value.Decodes? &&
      api.humanAddress(s.config.value.value.owner).Ok?
    ensures r.Ok? ==>
      && r.value.name == s.config.value.value.name
      && Ok(r.value.owner) == api.humanAddress(s.config.value.value.owner)
  {
    match msg
    case ConfigQuery =>
      var config :- ConfigGet(s);
      var owner :- api.humanAddress(config.owner);
      Ok(ConfigResponse(config.name, owner))
  }

  /** Whatever the store held before, a successful Init is what the next
      query reports: the new label and the display form of the sender, or
      the address service's own error. */
  lemma QueryAfterInit(s: Storage, api: Api, env: Env, msg: InitMsg)
    requires ConfigKey !in s.rejects
    ensures
      var o := Init(s, env, msg);
      o.result.Ok? &&
      match api.humanAddress(env.sender)
      case Ok(owner) => Query(o.store, api, ConfigQuery) == Ok(ConfigResponse(msg.name, owner))
      case Err(e) => Query(o.store, api, ConfigQuery) == Err(e)
  {
  }
}
