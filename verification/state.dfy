/** The ledger's durable records and their typed accessors over the store
    the host supplies: the `config` singleton, the `total_amount` singleton
    and the `lock_map` bucket of per-address amounts. */
module State {
  import opened Std
  import opened Host

  datatype Config = Config(name: string, owner: CanonicalAddr)

  /** Where each record lives. The singletons sit under the keys "config"
      and "total_amount" and every lock entry under the "lock_map" namespace
      followed by the address bytes, so no two kinds of key ever collide. */
  datatype Key = ConfigKey | TotalAmountKey | LockMapKey(addr: CanonicalAddr)

  /** What a present key holds: a value that decodes as the record's type,
      or bytes that do not. */
  datatype Cell<T> = Decodes(value: T) | Undecodable

  /** The host store, one map per kind of key, together with the keys
      whose saves the host refuses. A refused save changes nothing. */
  datatype Storage = Storage(
    config: Option<Cell<Config>>,
    total: Option<Cell<Uint128>>,
    locks: map<CanonicalAddr, Cell<Uint128>>,
    rejects: set<Key>)

  /** The store of a ledger nobody has instantiated yet. */
  const Fresh: Storage := Storage(None, None, map[], {})

  /** A save as the accessors perform it: the store as the save leaves it,
      and the status it reports. */
  datatype Write = Write(store: Storage, status: StdResult<()>)

  /** The amount a slot reads as when reading is lenient: what it holds if
      that decodes, and zero if it is empty or does not decode. */
  function Amount(slot: Option<Cell<Uint128>>): (v: Uint128)
    ensures slot == None ==> v == 0
    ensures v != 0 ==> slot == Some(Decodes(v))
  {
    match slot
    case Some(Decodes(v)) => v
    case _ => 0
  }

  /** The slot of one address in the lock bucket. */
  function LockSlot(s: Storage, address: CanonicalAddr): Option<Cell<Uint128>> {
    if address in s.locks then Some(s.locks[address]) else None
  }

  /** Saves the configuration, replacing any earlier one. */
  function ConfigSet(s: Storage, config: Config): (w: Write)
    ensures w.status.Ok? <==> ConfigKey !in s.rejects
    ensures w.status.Err? ==> w.status.error == StorageErr && w.store == s
    ensures w.status.Ok? ==> ConfigGet(w.store) == Ok(config)
    ensures w.store.total == s.total && w.store.locks == s.locks && w.store.rejects == s.rejects
  {
    if ConfigKey in s.rejects then Write(s, Err(StorageErr))
    else Write(s.(config := Some(Decodes(config))), Ok(()))
  }

  /** Strict read of the configuration: an empty key is an error, not a
      default. */
  function ConfigGet(s: Storage): (r: StdResult<Config>)
    ensures s.config == None ==> r == Err(NotFound)
    ensures s.config == Some(Undecodable) ==> r == Err(ParseErr)
    ensures r.Ok? <==> s.config.Some? && s.config.value.Decodes?
    ensures r.Ok? ==> s.config == Some(Decodes(r.value))
  {
    match s.config
    case None => Err(NotFound)
    case Some(Undecodable) => Err(ParseErr)
    case Some(Decodes(c)) => Ok(c)
  }

  /** Lenient read of the total: zero until something readable is saved. */
  function TotalAmountGet(s: Storage): (v: Uint128)
    ensures s.total == None ==> v == 0
    ensures s.total.Some? && s.total.value.Decodes? ==> v == s.total.value.value
    ensures v != 0 ==> s.total == Some(Decodes(v))
  {
    Amount(s.total)
  }

  /** Adds to the total. The status of the underlying save is dropped, so the
      call reports success even when the host refused the save. The sum must
      stay within `Uint128`. */
  function TotalAmountIncrease(s: Storage, amount: Uint128): (w: Write)
    requires TotalAmountGet(s) + amount < Uint128Limit
    ensures w.status == Ok(())
    ensures TotalAmountKey !in s.rejects ==> TotalAmountGet(w.store) == TotalAmountGet(s) + amount
    ensures TotalAmountKey in s.rejects ==> w.store == s
    ensures w.store.config == s.config && w.store.locks == s.locks && w.store.rejects == s.rejects
  {
    var increased := TotalAmountGet(s) + amount;
    var saved := if TotalAmountKey in s.rejects then s else s.(total := Some(Decodes(increased)));
    Write(saved, Ok(()))
  }

  /** Lenient read of one address's locked amount: zero for an address
      with no entry or an entry that does not decode. */
  function LockMapGet(s: Storage, address: CanonicalAddr): (v: Uint128)
    ensures address !in s.locks ==> v == 0
    ensures address in s.locks && s.locks[address].Decodes? ==> v == s.locks[address].value
    ensures v != 0 ==> address in s.locks && s.locks[address] == Decodes(v)
  {
    Amount(LockSlot(s, address))
  }

  /** Saves one address's locked amount. */
  function LockMapSet(s: Storage, address: CanonicalAddr, amount: Uint128): (w: Write)
    ensures w.status.Ok? <==> LockMapKey(address) !in s.rejects
    ensures w.status.Err? ==> w.status.error == StorageErr && w.store == s
    ensures w.status.Ok? ==> LockMapGet(w.store, address) == amount
    ensures forall other :: other != address ==> LockMapGet(w.store, other) == LockMapGet(s, other)
    ensures w.store.config == s.config && w.store.total == s.total && w.store.rejects == s.rejects
  {
    if LockMapKey(address) in s.rejects then Write(s, Err(StorageErr))
    else Write(s.(locks := s.locks[address := Decodes(amount)]), Ok(()))
  }

  /** A second save of the configuration wins over the first. */
  lemma ConfigSetOverwrites(s: Storage, first: Config, second: Config)
    requires ConfigKey !in s.rejects
    ensures ConfigGet(ConfigSet(ConfigSet(s, first).store, second).store) == Ok(second)
  {
  }
}
