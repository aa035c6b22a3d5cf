# terra-zil custodial ledger, modelled in Dafny

The terra-zil contract is a small custodial ledger run by a blockchain host.
It keeps three records in the key-value store the host supplies:

- a `config` singleton holding a label and the owner's canonical address;
- a `total_amount` singleton counter;
- a `lock_map` bucket of per-address locked amounts.

It has three entry points. `init` records the configuration. `handle`
dispatches `Lock` and `Unlock`. `query` answers the `Config` query.

The model has one module per part of the program:

- `Std`: `StdResult` and a coarse `StdError`.
- `Host`: the host library types the code uses, such as `Uint128`,
  `CanonicalAddr`, `Env`, `Coin`, the responses and the address service.
- `Decimal`: how a `Uint128` is written into a log attribute.
- `Msg`: the message types, from `msg.rs`.
- `State`: the records and their accessors, from `state.rs`.
- `Contract`: the entry points, from `contract.rs`.
- `Ledger`: the accounting invariant.
- `Scenarios`: concrete runs from a fresh store.

The host store is a `Storage` value. It has one map per kind of key, so keys
of different kinds cannot collide. A present entry either decodes
(`Decodes(v)`) or does not (`Undecodable`). The store also holds the set of
keys whose saves the host refuses. A refused save changes nothing and
reports `StorageErr`.

Every accessor and entry point is a pure function of the store:

- Getters return only a value, so they cannot change the store.
- Repeated reads of an unchanged store give the same value.
- Setters and the entry points that write return the store as the Rust code
  leaves it through `&mut`, together with the status they report.
- `Query` takes the store read-only.

Committing or discarding writes after an error is the host's job and is not
modelled.

The message types are closed datatypes:

- `HandleMsg` has exactly the variants `Lock` and `Unlock(amount)`, so
  `Handle` is an exhaustive match.
- `Lock` has no amount field. The amount it locks can only come from the
  attached coin.
- `InitMsg` carries only a name. `Init` succeeds for every name.
- `QueryMsg` has the single variant `ConfigQuery`.
- `ConfigResponse` holds exactly `name` and the human-readable `owner`.

Behaviours of the code worth knowing:

- A `Lock` never reports a storage failure. The save status is dropped inside
  `total_amount_increase` and again in `try_lock`. If the host refuses exactly one
  of the two saves of a Lock of a non-zero amount, from a balanced store,
  `Lock` still succeeds and the total stops matching the sum of the entries (`Ledger.LockHidesRefusedSave`).
- Lock entries are not always positive. A `Lock` of a zero-amount `ukrw`
  coin writes a zero entry (`Scenarios.LockZeroAmount`).
- Bad funds produce the library's generic error (`GenericErr`), not a
  dedicated kind. A missing configuration produces the library's not-found
  error (`NotFound`), and an undecodable one produces `ParseErr`.
- `Unlock` changes nothing, whatever the amount or the sender's balance. It
  only logs the request.

## Model

| member | source | states |
|---|---|---|
| `State.ConfigSet` | terra-zil/src/state.rs:18-20 | The save succeeds exactly when the host accepts the config key. After a successful save, the strict read returns exactly the saved config. The total and the lock map are untouched. A refused save leaves the store as it was. |
| `State.ConfigGet` | terra-zil/src/state.rs:22-24 | The strict read fails with `NotFound` when no config was ever saved and with `ParseErr` when the stored value does not decode. It succeeds exactly when a decodable config is stored, and then returns that config. |
| `State.ConfigSetOverwrites` | terra-zil/src/state.rs:18-24 | Saving a second config replaces the first. The read then returns the second. |
| `State.TotalAmountGet` | terra-zil/src/state.rs:26-31 | The total reads zero when nothing is stored. A stored, decodable total reads as itself. Any non-zero reading is the stored, decodable value. |
| `State.TotalAmountIncrease` | terra-zil/src/state.rs:33-38 | Always reports success, even when the host refuses the save. When the save is accepted, the total afterwards is the old total plus the amount. When it is refused, the store is unchanged. Config and lock map are untouched either way. |
| `State.LockMapGet` | terra-zil/src/state.rs:40-45 | An address without an entry reads zero. A stored, decodable entry reads as itself. A non-zero reading is the address's stored, decodable value. The read never fails: an undecodable entry also reads zero. |
| `State.LockMapSet` | terra-zil/src/state.rs:47-53 | The save succeeds exactly when the host accepts that address's key. The address then reads the saved amount. Every other address, the total and the config are unchanged. A refused save reports `StorageErr` and changes nothing. |
| `Contract.Init` | terra-zil/src/contract.rs:11-25 | Succeeds for any name exactly when the config save is accepted. It then stores `Config(name, sender)` whatever config was there before, and returns the empty default response. It never touches the total or the lock map. |
| `Contract.Handle` | terra-zil/src/contract.rs:27-36 | Dispatches on the two variants. `Unlock` always succeeds and leaves the store unchanged. `Lock` succeeds exactly when the funds are valid. Any failure leaves the store exactly as it was. |
| `Contract.TryLock` | terra-zil/src/contract.rs:38-70 | Fails with the generic error, before any write, unless exactly one coin is attached and its denomination is `ukrw`. Otherwise it succeeds with no messages and the log `action=lock`, `address=<sender>`, `amount=<amount>`. Each accepted save adds the amount to the total and to the sender's entry. A refused save leaves its record unchanged. Other addresses and the config are never touched. |
| `Contract.TryUnlock` | terra-zil/src/contract.rs:72-84 | Always succeeds. The store is unchanged. No messages are sent, and the log is `action=unlock`, `amount=<amount>`. |
| `Contract.Query` | terra-zil/src/contract.rs:86-100 | Fails with `NotFound` before any init and with `ParseErr` when the stored config does not decode. When the address service fails on the owner, the query returns that same error. It succeeds exactly when a decodable config is stored and the address service converts its owner. It then answers with the stored name and the converted owner. |
| `Contract.QueryAfterInit` | terra-zil/src/contract.rs:11-25 | From any store that accepts the config save, a successful Init is followed by a query that returns the new name and the sender's display form, whatever config was there before. If the address service fails, the query returns its error. |
| `Decimal.ParseShow` | terra-zil/src/contract.rs:64 | The decimal text logged for an amount reads back as that amount. |
| `Decimal.ShowInjective` | terra-zil/src/contract.rs:79 | Different amounts are logged as different texts. |
| `Ledger.FreshBalanced` | terra-zil/src/state.rs:26-45 | On a fresh store, the total equals the sum of all lock entries, both being zero. |
| `Ledger.InitPreservesBalance` | terra-zil/src/contract.rs:16-22 | Init keeps the total equal to the sum of all lock entries. |
| `Ledger.LockPreservesBalance` | terra-zil/src/contract.rs:51-57 | A Lock whose two saves the host accepts keeps the total equal to the sum of all lock entries. |
| `Ledger.HandlePreservesBalance` | terra-zil/src/contract.rs:27-36 | Unlock preserves the balance invariant whatever saves the host refuses. Lock preserves it when the host accepts both of its saves. |
| `Ledger.LockHidesRefusedSave` | terra-zil/src/contract.rs:53-57 | For a Lock of a non-zero amount from a balanced store: if exactly one of its saves is refused, Lock still reports success, yet afterwards the total differs from the sum of the entries. |
| `Scenarios.FreshTotalIncrease` | terra-zil/src/state.rs:60-68 | The total reads 0 on fresh storage and 100 after increasing it by 100. |
| `Scenarios.FreshReads` | terra-zil/src/state.rs:22-45 | On fresh storage, every address reads zero and the strict config read fails with `NotFound`. |
| `Scenarios.LockTwice` | terra-zil/src/contract.rs:51-57 | Locks of 100 and then 50 by one sender from fresh storage both succeed. Afterwards the total is 150 and the sender's entry is 150. |
| `Scenarios.LockRejectsBadFunds` | terra-zil/src/contract.rs:46-49 | A coin of another denomination, no coin, or two coins are rejected, and the store is unchanged. |
| `Scenarios.LockZeroAmount` | terra-zil/src/contract.rs:51-57 | A zero-amount `ukrw` Lock succeeds and writes a zero entry for the sender. |
| `Scenarios.InitThenQuery` | terra-zil/src/contract.rs:86-100 | After Init from fresh storage, the query returns the name and the sender's display form. If the address service fails, the query returns its error. |
| `Scenarios.QueryBeforeInit` | terra-zil/src/contract.rs:90-92 | A query on fresh storage fails with `NotFound`. |

## Left out

- Serialization is not modelled. This covers JSON encoding of messages and stored values, and the `to_binary` step of `query`. `Query` returns the `ConfigResponse` value itself, and stored values are typed entries.
- The byte layout of keys is not modelled. The singleton keys and the `lock_map` namespace prefix are replaced by the disjoint maps of `Storage`.
- A stored JSON `null` is not modelled. `total_amount_get` loads its singleton as an optional amount, so `null` would read as zero. The code never stores `null`.
- The host's address conversion (`human_address`) is a parameter: `Api.humanAddress`, which may fail.
- The text a canonical address is logged as comes from the host library's `Display` and is a parameter: `Api.canonicalText`.
- Error texts (the `"dd"` message) and the library's full error types are not modelled. Only the kind of error is kept.
- The environment's block and contract fields are not modelled, because the code never reads them.
- Gas metering, signature checks, and the host's atomic commit or rollback are host concerns.
- The `lock_map` unit test in `state.rs` is `unimplemented!()` and asserts nothing.
- State.TotalAmountIncrease: requires that the new total fits in `Uint128`. The code's addition has no overflow check in these files, and its overflow behaviour lives in the host library.
- Contract.TryLock: requires `LockFits`: with valid funds, the new total and the sender's new entry both fit in `Uint128`. The reason is the same unchecked addition.
- Contract.Handle: requires `LockFits` for `Lock` messages, for the same reason.
