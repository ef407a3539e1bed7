/** The user document and the user collection, as far as login touches them. */
module UserModel {

  /** A user document. `lastAttempt` is a time in milliseconds since the epoch;
      `password` is the stored hash, opaque here. */
  datatype Account = Account(
    id: string,
    name: string,
    email: string,
    password: string,
    attempts: int,
    lastAttempt: int)

  /** The two fields a login writes back. */
  datatype AttemptWrite = AttemptWrite(attempts: int, lastAttempt: int)

  /** The user collection, looked up by email. */
  type Store = map<string, Account>

  /** Every document is filed under its own email. */
  predicate WellFiled(store: Store) {
    forall e | e in store :: store[e].email == e
  }

  /** A newly created user: the schema defaults give no attempts and a last
      attempt at the epoch. */
  function NewAccount(id: string, name: string, email: string, password: string): (a: Account)
    ensures a.attempts == 0 && a.lastAttempt == 0
    ensures a.id == id && a.name == name && a.email == email && a.password == password
  {
    Account(id, name, email, password, 0, 0)
  }

  /** `$set` of `attempts` and `lastAttempt` on the document with this email.
      Nothing happens when no document matches. */
  function UpdateLoginAttempt(store: Store, email: string, w: AttemptWrite): (s: Store)
    ensures s.Keys == store.Keys
    ensures forall e | e in store && e != email :: s[e] == store[e]
    ensures email in store ==>
              && s[email].attempts == w.attempts
              && s[email].lastAttempt == w.lastAttempt
              && s[email].id == store[email].id
              && s[email].name == store[email].name
              && s[email].email == store[email].email
              && s[email].password == store[email].password
    ensures WellFiled(store) ==> WellFiled(s)
  {
    if email in store
    then store[email := store[email].(attempts := w.attempts, lastAttempt := w.lastAttempt)]
    else store
  }
}
