/** The account/session store of `AppProvider` (App.tsx) as pure functions
    over one value holding its four pieces of state, with the properties the
    store promises. The class in module Store runs the same operations step
    by step and is proved equal to these functions. */
module Session {
  import opened Types
  import opened Phone

  /** The provider's React state (`user`, `transactions`) and the two kinds
      of local-storage entries: the `h3_active_user` slot and the account
      records, keyed by the full `h3_db_...` key. */
  datatype State = State(
    user: Option<Profile>,
    transactions: seq<Transaction>,
    active: Option<Profile>,
    db: map<string, Profile>)

  /** The four fixed transactions every session starts with (amounts in cents). */
  const MockTransactions: seq<Transaction> := [
    Transaction("1", Payment, -1250, Some("Downtown Cafe"), None, "2023-10-25", Completed, Some("Coffee & Snacks")),
    Transaction("2", Deposit, 450000, None, Some("Tech Solutions LLC"), "2023-10-24", Completed, Some("Monthly Salary")),
    Transaction("3", Transfer, -20000, Some("Family Support"), None, "2023-10-22", Completed, Some("Transfer to Mother")),
    Transaction("4", Zakat, -120000, Some("Global Relief Fund"), None, "2023-09-01", Completed, Some("Annual Zakat"))
  ]

  /** The seed: four completed entries, newest first, for -12.50, 4500.00,
      -200.00 and -1200.00, netting 3087.50. */
  lemma MockTransactionsSeed()
    ensures |MockTransactions| == 4
    ensures forall i :: 0 <= i < |MockTransactions| ==> MockTransactions[i].status == Completed
    ensures MockTransactions[0].id == "1" && MockTransactions[1].id == "2"
    ensures MockTransactions[2].id == "3" && MockTransactions[3].id == "4"
    ensures MockTransactions[0].amount == -1250 && MockTransactions[1].amount == 450000
    ensures MockTransactions[2].amount == -20000 && MockTransactions[3].amount == -120000
    ensures MockTransactions[0].kind == Payment && MockTransactions[1].kind == Deposit
    ensures MockTransactions[2].kind == Transfer && MockTransactions[3].kind == Zakat
    ensures MockTransactions[0].amount + MockTransactions[1].amount
      + MockTransactions[2].amount + MockTransactions[3].amount == 308750
  {
  }

  /** Balance of a newly created account: 24500.00. */
  const NewAccountBalance: int := 2450000

  /** The profile created when a phone has no account record yet. It keeps
      the phone exactly as typed, not its normal form. */
  function NewAccount(rawPhone: string): (p: Profile)
    ensures p.phoneNumber == rawPhone && DbKey(p.phoneNumber) == DbKey(rawPhone)
    ensures p.balance == NewAccountBalance && p.currency == "USD"
    ensures p.kycVerified && p.biometricEnabled && p.language.None?
  {
    Profile(None, None, None, "Amir Hassan", "amir.hassan@example.com", rawPhone,
            true, true, NewAccountBalance, "USD",
            None, None, None, None, None, None, None, None, None)
  }

  /** State before the mount-time effect: no user, no transactions, and
      whatever the browser storage already holds. */
  function Initial(storedActive: Option<Profile>, storedDb: map<string, Profile>): (r: State)
    ensures r.user.None? && r.transactions == []
    ensures r.active == storedActive && r.db == storedDb
  {
    State(None, [], storedActive, storedDb)
  }

  /** The mount-time effect: a stored active session becomes the user. */
  function Restore(s: State): (r: State)
    ensures r.active == s.active && r.db == s.db
    ensures s.active.Some? ==> r.user == s.active && r.transactions == MockTransactions
    ensures s.active.None? ==> r == s
  {
    if s.active.Some? then s.(user := s.active, transactions := MockTransactions) else s
  }

  /** `login`: the record under the phone's key, created if missing,
      becomes the user and the active slot. */
  function Login(s: State, rawPhone: string): (r: State)
    ensures r.user.Some? && r.active == r.user && r.transactions == MockTransactions
    ensures DbKey(rawPhone) in r.db && r.db[DbKey(rawPhone)] == r.user.value
    ensures forall k :: k in s.db ==> k in r.db && r.db[k] == s.db[k]
    ensures r.db.Keys == s.db.Keys + {DbKey(rawPhone)}
  {
    var key := DbKey(rawPhone);
    if key in s.db then
      s.(user := Some(s.db[key]), active := Some(s.db[key]), transactions := MockTransactions)
    else
      var p := NewAccount(rawPhone);
      State(Some(p), MockTransactions, Some(p), s.db[key := p])
  }

  function Logout(s: State): (r: State)
    ensures r.user.None? && r.active.None?
    ensures r.transactions == s.transactions && r.db == s.db
  {
    s.(user := None, active := None)
  }

  function AddTransaction(s: State, t: Transaction): (r: State)
    ensures |r.transactions| == |s.transactions| + 1
    ensures r.transactions[0] == t && r.transactions[1..] == s.transactions
    ensures r.user == s.user && r.active == s.active && r.db == s.db
  {
    s.(transactions := [t] + s.transactions)
  }

  /** `updateBalance`: the user's balance moves by `amount`, and the new
      profile is stored under the key of the user's phone. */
  function UpdateBalance(s: State, amount: int): (r: State)
    ensures s.user.None? ==> r == s
    ensures s.user.Some? ==>
      && r.user.Some? && r.active == r.user
      && r.user.value.balance == s.user.value.balance + amount
      && r.user.value.phoneNumber == s.user.value.phoneNumber
      && r.db.Keys == s.db.Keys + {DbKey(s.user.value.phoneNumber)}
      && r.db[DbKey(s.user.value.phoneNumber)] == r.user.value
    ensures r.transactions == s.transactions
  {
    if s.user.None? then s
    else
      var p := s.user.value.(balance := s.user.value.balance + amount);
      s.(user := Some(p), active := Some(p), db := s.db[DbKey(s.user.value.phoneNumber) := p])
  }

  /** `updateUser`: the patch is merged into the user, and the result is
      stored under the key of its (possibly new) phone. */
  function UpdateUser(s: State, patch: Patch): (r: State)
    ensures s.user.None? ==> r == s
    ensures s.user.Some? ==>
      && r.user.Some? && r.active == r.user
      && DbKey(r.user.value.phoneNumber) in r.db
      && r.db[DbKey(r.user.value.phoneNumber)] == r.user.value
      && r.db.Keys == s.db.Keys + {DbKey(r.user.value.phoneNumber)}
    ensures r.transactions == s.transactions
  {
    if s.user.None? then s
    else
      var p := Merge(s.user.value, patch);
      s.(user := Some(p), active := Some(p), db := s.db[DbKey(p.phoneNumber) := p])
  }

  /** Every account record sits under the key of its own phone number. */
  ghost predicate WellKeyed(db: map<string, Profile>)
  {
    forall k :: k in db ==> DbKey(db[k].phoneNumber) == k
  }

  /** The active slot is a copy of its account record. */
  ghost predicate ActivePersisted(s: State)
  {
    s.active.Some? ==>
      DbKey(s.active.value.phoneNumber) in s.db && s.db[DbKey(s.active.value.phoneNumber)] == s.active.value
  }

  /** The store's invariant: a signed-in user is exactly the active slot, and
      the storage is consistent. */
  ghost predicate Inv(s: State)
  {
    && (s.user.Some? ==> s.active == s.user)
    && WellKeyed(s.db)
    && ActivePersisted(s)
  }

  /** A browser with empty storage starts the provider in a consistent
      state, and restoring a session on mount keeps whatever consistency
      the storage had. */
  lemma InitialStateConsistent(storedActive: Option<Profile>, storedDb: map<string, Profile>)
    ensures Inv(Initial(None, map[]))
    ensures Inv(Initial(storedActive, storedDb)) <==> WellKeyed(storedDb) && ActivePersisted(Initial(storedActive, storedDb))
    ensures Inv(Initial(storedActive, storedDb)) ==> Inv(Restore(Initial(storedActive, storedDb)))
  {
  }

  /** Mount-time restore: a stored session comes back with the fixed
      transactions; without one nothing changes. Storage is only read. */
  lemma RestoreSession(s: State)
    ensures s.active.Some? ==> Restore(s).user == s.active && Restore(s).transactions == MockTransactions
    ensures s.active.None? ==> Restore(s) == s
    ensures Restore(s).active == s.active && Restore(s).db == s.db
  {
  }

  /** Login with an existing record: the record becomes the user and the
      active slot, the transactions the fixed four, and no record changes. */
  lemma LoginExistingAccount(s: State, rawPhone: string)
    requires DbKey(rawPhone) in s.db
    ensures Login(s, rawPhone).user == Some(s.db[DbKey(rawPhone)])
    ensures Login(s, rawPhone).active == Login(s, rawPhone).user
    ensures Login(s, rawPhone).transactions == MockTransactions
    ensures Login(s, rawPhone).db == s.db
  {
  }

  /** Login without a record: a default profile holding the raw phone is
      created and written both to the active slot and under the key. */
  lemma LoginNewAccount(s: State, rawPhone: string)
    requires DbKey(rawPhone) !in s.db
    ensures var r := Login(s, rawPhone);
      && r.user.Some?
      && r.user.value.phoneNumber == rawPhone
      && r.user.value.balance == NewAccountBalance
      && r.user.value.currency == "USD"
      && r.user.value.kycVerified && r.user.value.biometricEnabled
      && r.user.value.language.None?
      && r.active == r.user
      && r.db == s.db[DbKey(rawPhone) := r.user.value]
      && r.transactions == MockTransactions
  {
  }

  /** Whichever branch it takes, login ends with the session being the
      record stored under the login key, and that record's own phone leads
      back to the same key. */
  lemma LoginOpensAccountRecord(s: State, rawPhone: string)
    requires WellKeyed(s.db)
    ensures var r := Login(s, rawPhone);
      && r.user.Some?
      && DbKey(rawPhone) in r.db
      && r.db[DbKey(rawPhone)] == r.user.value
      && DbKey(r.user.value.phoneNumber) == DbKey(rawPhone)
      && Inv(r)
  {
    var r := Login(s, rawPhone);
    if DbKey(rawPhone) !in s.db {
      forall k | k in r.db
        ensures DbKey(r.db[k].phoneNumber) == k
      {
        if k != DbKey(rawPhone) {
          assert r.db[k] == s.db[k];
        }
      }
    }
  }

  /** Two raw phones with the same normal form reach the same account: after
      logging in with one and out again, logging in with the other brings
      back the same profile and creates no record. */
  lemma LoginSameAccount(s: State, p1: string, p2: string)
    requires Normalize(p1) == Normalize(p2)
    ensures Login(Logout(Login(s, p1)), p2).user == Login(s, p1).user
    ensures Login(Logout(Login(s, p1)), p2).db == Login(s, p1).db
  {
    SameKeyIffSameNormalForm(p1, p2);
  }

  /** Logout empties the user and the active slot and keeps every account
      record and the in-memory transactions. */
  lemma LogoutEndsSession(s: State)
    ensures Logout(s).user.None? && Logout(s).active.None?
    ensures Logout(s).db == s.db && Logout(s).transactions == s.transactions
  {
  }

  /** A new transaction goes in front; the old ones follow in order; nothing
      is checked or deduplicated, and nothing else changes. */
  lemma AddTransactionPrepends(s: State, t: Transaction)
    ensures var r := AddTransaction(s, t);
      && |r.transactions| == |s.transactions| + 1
      && r.transactions[0] == t
      && r.transactions[1..] == s.transactions
      && r.user == s.user && r.active == s.active && r.db == s.db
  {
  }

  /** Balance update: a no-op without a user; otherwise only the balance
      moves, by exactly the amount and with no floor, and the updated profile
      goes to the active slot and to the record of the user's phone. */
  lemma UpdateBalanceEffect(s: State, amount: int)
    ensures s.user.None? ==> UpdateBalance(s, amount) == s
    ensures s.user.Some? ==>
      var r := UpdateBalance(s, amount);
      && r.user == Some(s.user.value.(balance := s.user.value.balance + amount))
      && r.user.value.balance - s.user.value.balance == amount
      && r.active == r.user
      && r.db == s.db[DbKey(s.user.value.phoneNumber) := r.user.value]
      && r.transactions == s.transactions
  {
  }

  /** Two balance updates in a row are one update by their sum. */
  lemma UpdateBalanceAdditive(s: State, a: int, b: int)
    ensures UpdateBalance(UpdateBalance(s, a), b) == UpdateBalance(s, a + b)
  {
  }

  /** In a consistent store a balance update rewrites the user's existing
      record: no account is created or lost. */
  lemma UpdateBalanceKeepsAccounts(s: State, amount: int)
    requires Inv(s)
    ensures UpdateBalance(s, amount).db.Keys == s.db.Keys
  {
    if s.user.Some? {
      assert DbKey(s.user.value.phoneNumber) in s.db;
    }
  }

  /** Profile update: a no-op without a user; otherwise the shallow merge
      goes to the active slot and under the key of the merged phone, and the
      record under any other key, the old phone's included, is untouched. */
  lemma UpdateUserEffect(s: State, patch: Patch)
    ensures s.user.None? ==> UpdateUser(s, patch) == s
    ensures s.user.Some? ==>
      var r := UpdateUser(s, patch);
      var p := Merge(s.user.value, patch);
      && r.user == Some(p) && r.active == r.user
      && DbKey(p.phoneNumber) in r.db && r.db[DbKey(p.phoneNumber)] == p
      && (forall k :: k in s.db && k != DbKey(p.phoneNumber) ==> k in r.db && r.db[k] == s.db[k])
      && r.db.Keys == s.db.Keys + {DbKey(p.phoneNumber)}
      && r.transactions == s.transactions
  {
  }

  /** Changing the phone through a profile update leaves the old account
      record in place beside the new one. */
  lemma UpdateUserOrphansOldRecord(s: State, patch: Patch)
    requires Inv(s) && s.user.Some?
    requires Normalize(Merge(s.user.value, patch).phoneNumber) != Normalize(s.user.value.phoneNumber)
    ensures var r := UpdateUser(s, patch);
      var oldKey := DbKey(s.user.value.phoneNumber);
      && oldKey in r.db && r.db[oldKey] == s.user.value
      && |r.db.Keys| == |s.db.Keys| + 1 - (if DbKey(Merge(s.user.value, patch).phoneNumber) in s.db then 1 else 0)
  {
    var p := Merge(s.user.value, patch);
    SameKeyIffSameNormalForm(p.phoneNumber, s.user.value.phoneNumber);
    var r := UpdateUser(s, patch);
    assert r.db.Keys == s.db.Keys + {DbKey(p.phoneNumber)};
  }

  /** In a consistent store, `updateUser({})` rewrites the same values and so
      changes nothing. */
  lemma UpdateUserEmptyIsNoOp(s: State)
    requires Inv(s)
    ensures UpdateUser(s, EmptyPatch) == s
  {
    if s.user.Some? {
      MergeEmpty(s.user.value);
    }
  }

  /** The mount-time restore keeps the invariant. */
  lemma RestoreKeepsInv(s: State)
    requires Inv(s)
    ensures Inv(Restore(s))
  {
  }

  /** Login keeps the invariant, on both the existing-record and the
      new-account path. */
  lemma LoginKeepsInv(s: State, rawPhone: string)
    requires Inv(s)
    ensures Inv(Login(s, rawPhone))
  {
    LoginOpensAccountRecord(s, rawPhone);
  }

  lemma LogoutKeepsInv(s: State)
    requires Inv(s)
    ensures Inv(Logout(s))
  {
  }

  lemma AddTransactionKeepsInv(s: State, t: Transaction)
    requires Inv(s)
    ensures Inv(AddTransaction(s, t))
  {
  }

  /** A balance update rewrites the user's record under its own key, so the
      records stay well keyed. */
  lemma UpdateBalanceKeepsInv(s: State, amount: int)
    requires Inv(s)
    ensures Inv(UpdateBalance(s, amount))
  {
    if s.user.Some? {
      var key := DbKey(s.user.value.phoneNumber);
      var b := UpdateBalance(s, amount);
      forall k | k in b.db
        ensures DbKey(b.db[k].phoneNumber) == k
      {
        if k != key {
          assert b.db[k] == s.db[k];
        }
      }
    }
  }

  /** A user update stores the merged profile under the key of its own
      phone, so the records stay well keyed even when the phone changes. */
  lemma UpdateUserKeepsInv(s: State, patch: Patch)
    requires Inv(s)
    ensures Inv(UpdateUser(s, patch))
  {
    if s.user.Some? {
      var u := UpdateUser(s, patch);
      forall k | k in u.db
        ensures DbKey(u.db[k].phoneNumber) == k
      {
        if k != DbKey(Merge(s.user.value, patch).phoneNumber) {
          assert u.db[k] == s.db[k];
        }
      }
    }
  }

  /** Every operation of the store keeps its invariant. */
  lemma OperationsPreserveInvariant(s: State, rawPhone: string, t: Transaction, amount: int, patch: Patch)
    requires Inv(s)
    ensures Inv(Restore(s))
    ensures Inv(Login(s, rawPhone))
    ensures Inv(Logout(s))
    ensures Inv(AddTransaction(s, t))
    ensures Inv(UpdateBalance(s, amount))
    ensures Inv(UpdateUser(s, patch))
  {
    RestoreKeepsInv(s);
    LoginKeepsInv(s, rawPhone);
    LogoutKeepsInv(s);
    AddTransactionKeepsInv(s, t);
    UpdateBalanceKeepsInv(s, amount);
    UpdateUserKeepsInv(s, patch);
  }
}
