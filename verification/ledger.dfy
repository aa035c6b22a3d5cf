/** The accounting invariant of the ledger: the stored total equals the sum
    of all locked amounts, each read the way the accessors read it. It holds
    on a fresh store, survives Init and Unlock, and survives Lock whenever
    the host accepts both of Lock's saves. Because Lock ignores the status
    of its saves, a refused save breaks it without any error being
    reported. */
module Ledger {
  import opened Std
  import opened Host
  import opened Msg
  import opened State
  import opened Contract

  /** The sum, over every address with an entry, of the amount the entry
      reads as. */
  ghost function SumLocks(m: map<CanonicalAddr, Cell<Uint128>>): nat
    decreases |m|
  {
    if |m| == 0 then 0
    else
      var a :| a in m;
      Amount(Some(m[a])) + SumLocks(m - {a})
  }

  ghost predicate Balanced(s: Storage) {
    TotalAmountGet(s) == SumLocks(s.locks)
  }

  /** The sum can be taken apart at any address, not only the one the
      definition happens to pick. */
  lemma {:induction false} SumLocksRemove(m: map<CanonicalAddr, Cell<Uint128>>, k: CanonicalAddr)
    requires k in m
    ensures SumLocks(m) == Amount(Some(m[k])) + SumLocks(m - {k})
    decreases |m|
  {
    var a :| a in m && SumLocks(m) == Amount(Some(m[a])) + SumLocks(m - {a});
    if a != k {
      var rest := m - {a};
      assert k in rest;
      SumLocksRemove(rest, k);
      var both := rest - {k};
      assert both == (m - {k}) - {a};
      assert a in m - {k};
      SumLocksRemove(m - {k}, a);
    }
  }

  /** Replacing one entry changes the sum by the difference of what the old
      and the new entry read as. */
  lemma SumLocksUpdate(m: map<CanonicalAddr, Cell<Uint128>>, k: CanonicalAddr, c: Cell<Uint128>)
    ensures SumLocks(m[k := c]) + Amount(if k in m then Some(m[k]) else None)
         == SumLocks(m) + Amount(Some(c))
  {
    var m' := m[k := c];
    SumLocksRemove(m', k);
    assert m' - {k} == m - {k};
    if k in m {
      SumLocksRemove(m, k);
    } else {
      assert m - {k} == m;
    }
  }

  lemma FreshBalanced()
    ensures Balanced(Fresh)
  {
  }

  /** Init touches neither the total nor any lock entry. */
  lemma InitPreservesBalance(s: Storage, env: Env, msg: InitMsg)
    requires Balanced(s)
    ensures Balanced(Init(s, env, msg).store)
  {
  }

  /** A Lock whose saves the host accepts keeps the total equal to the sum. */
  lemma LockPreservesBalance(s: Storage, api: Api, env: Env)
    requires LockFits(s, env)
    requires TotalAmountKey !in s.rejects && LockMapKey(env.sender) !in s.rejects
    requires Balanced(s)
    ensures Balanced(TryLock(s, api, env).store)
  {
    if ValidFunds(env) {
      var o := TryLock(s, api, env);
      var amount := env.sentFunds[0].amount;
      var old_ := LockMapGet(s, env.sender);
      assert o.store.locks == s.locks[env.sender := Decodes(old_ + amount)];
      SumLocksUpdate(s.locks, env.sender, Decodes(old_ + amount));
    }
  }

  /** Every handled message keeps the invariant: Unlock whatever the host
      refuses, Lock provided the host accepts both of its saves. */
  lemma HandlePreservesBalance(s: Storage, api: Api, env: Env, msg: HandleMsg)
    requires msg.Lock? ==> LockFits(s, env)
    requires msg.Lock? ==> TotalAmountKey !in s.rejects && LockMapKey(env.sender) !in s.rejects
    requires Balanced(s)
    ensures Balanced(Handle(s, api, env, msg).store)
  {
    if msg.Lock? {
      LockPreservesBalance(s, api, env);
    }
  }

  /** When the host refuses exactly one of Lock's two saves, Lock still
      reports success, yet the total no longer equals the sum. */
  lemma LockHidesRefusedSave(s: Storage, api: Api, env: Env)
    requires ValidFunds(env) && LockFits(s, env) && env.sentFunds[0].amount > 0
    requires (TotalAmountKey in s.rejects) != (LockMapKey(env.sender) in s.rejects)
    requires Balanced(s)
    ensures TryLock(s, api, env).result.Ok?
    ensures !Balanced(TryLock(s, api, env).store)
  {
    var o := TryLock(s, api, env);
    var amount := env.sentFunds[0].amount;
    var old_ := LockMapGet(s, env.sender);
    if TotalAmountKey in s.rejects {
      assert TotalAmountGet(o.store) == TotalAmountGet(s);
      assert o.store.locks == s.locks[env.sender := Decodes(old_ + amount)];
      SumLocksUpdate(s.locks, env.sender, Decodes(old_ + amount));
    } else {
      assert o.store.locks == s.locks;
    }
  }
}
