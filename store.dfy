/** `AppProvider` (App.tsx) as an object: its React state and the browser
    storage it writes are fields, and each handler updates them in the
    order the source does. Every method is proved to produce exactly the
    state the matching function of module Session describes, and to keep
    the store's invariant. */
module Store {
  import opened Types
  import opened Phone
  import Session

  class AccountStore {
    /** React state `user`. */
    var user: Option<Profile>
    /** React state `transactions`, newest first. */
    var transactions: seq<Transaction>
    /** Storage entry `h3_active_user`. */
    var active: Option<Profile>
    /** Storage entries `h3_db_<normalised phone>`, by full key. */
    var db: map<string, Profile>

    /** The abstract value of the store. */
    function State(): Session.State
      reads this
    {
      Session.State(user, transactions, active, db)
    }

    /** The provider as first rendered, over what storage already holds. */
    constructor (storedActive: Option<Profile>, storedDb: map<string, Profile>)
      ensures State() == Session.Initial(storedActive, storedDb)
      ensures storedActive.None? && storedDb == map[] ==> Session.Inv(State())
    {
      user := None;
      transactions := [];
      active := storedActive;
      db := storedDb;
    }

    /** The mount-time effect. */
    method RestoreOnMount()
      modifies this
      ensures State() == Session.Restore(old(State()))
      ensures old(Session.Inv(State())) ==> Session.Inv(State())
    {
      if Session.Inv(State()) {
        Session.RestoreKeepsInv(State());
      }
      if active.Some? {
        user := active;
        transactions := Session.MockTransactions;
      }
    }

    method Login(rawPhone: string)
      modifies this
      ensures State() == Session.Login(old(State()), rawPhone)
      ensures old(Session.Inv(State())) ==> Session.Inv(State())
    {
      if Session.Inv(State()) {
        Session.LoginKeepsInv(State(), rawPhone);
      }
      var phone := Normalize(rawPhone);
      var dbKey := DbPrefix + phone;
      if dbKey in db {
        var parsed := db[dbKey];
        user := Some(parsed);
        active := Some(parsed);
        transactions := Session.MockTransactions;
        return;
      }
      var newUser := Session.NewAccount(rawPhone);
      user := Some(newUser);
      active := Some(newUser);
      db := db[dbKey := newUser];
      transactions := Session.MockTransactions;
    }

    method Logout()
      modifies this
      ensures State() == Session.Logout(old(State()))
      ensures old(Session.Inv(State())) ==> Session.Inv(State())
    {
      if Session.Inv(State()) {
        Session.LogoutKeepsInv(State());
      }
      user := None;
      active := None;
    }

    method AddTransaction(t: Transaction)
      modifies this
      ensures State() == Session.AddTransaction(old(State()), t)
      ensures old(Session.Inv(State())) ==> Session.Inv(State())
    {
      if Session.Inv(State()) {
        Session.AddTransactionKeepsInv(State(), t);
      }
      transactions := [t] + transactions;
    }

    method UpdateBalance(amount: int)
      modifies this
      ensures State() == Session.UpdateBalance(old(State()), amount)
      ensures old(Session.Inv(State())) ==> Session.Inv(State())
    {
      if Session.Inv(State()) {
        Session.UpdateBalanceKeepsInv(State(), amount);
      }
      if user.Some? {
        var current := user.value;
        var updatedUser := current.(balance := current.balance + amount);
        user := Some(updatedUser);
        active := Some(updatedUser);
        var phoneKey := Normalize(current.phoneNumber);
        db := db[DbPrefix + phoneKey := updatedUser];
      }
    }

    method UpdateUser(updatedData: Patch)
      modifies this
      ensures State() == Session.UpdateUser(old(State()), updatedData)
      ensures old(Session.Inv(State())) ==> Session.Inv(State())
    {
      if Session.Inv(State()) {
        Session.UpdateUserKeepsInv(State(), updatedData);
      }
      if user.Some? {
        var newUser := Merge(user.value, updatedData);
        active := Some(newUser);
        var phoneKey := Normalize(newUser.phoneNumber);
        db := db[DbPrefix + phoneKey := newUser];
        user := Some(newUser);
      }
    }
  }

  /** A session as the app drives it: log in with a new phone, pay out,
      log out, and log in again with the phone written differently. */
  method Scenario(phone: string, sameAccount: string, payment: Transaction)
    requires Normalize(sameAccount) == Normalize(phone)
  {
    var store := new AccountStore(None, map[]);
    assert Session.Inv(store.State());
    store.RestoreOnMount();
    store.Login(phone);
    assert store.user.Some? && store.user.value.balance == Session.NewAccountBalance;
    store.AddTransaction(payment);
    store.UpdateBalance(-5000);
    assert store.user.value.balance == Session.NewAccountBalance - 5000;
    assert store.transactions == [payment] + Session.MockTransactions;
    store.Logout();
    assert store.user.None? && store.active.None?;
    SameKeyIffSameNormalForm(sameAccount, phone);
    store.Login(sameAccount);
    assert store.user.Some? && store.user.value.balance == Session.NewAccountBalance - 5000;
    assert store.user.value.phoneNumber == phone;
    assert Session.Inv(store.State());
  }
}
