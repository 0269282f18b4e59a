/** The authentication context (src/contexts/AuthContext.tsx): a mock
    sign-in that accepts any non-empty credentials, keeps the signed-in
    user in memory and under the store key `user`, and restores it when
    the application starts. */
module AuthContext {
  import opened Wrappers
  import opened Storage

  const IdPrefix: string := "user_"

  /** email.split('@')[0]: the email up to its first `@`, or all of it when
      it has none. */
  function NameFromEmail(email: string): (name: string)
    ensures name <= email
    ensures '@' !in name
    ensures |name| < |email| ==> email[|name|] == '@'
  {
    if email == [] || email[0] == '@' then [] else [email[0]] + NameFromEmail(email[1..])
  }

  /** The three properties above pin the name down: any prefix without `@`
      that stops at an `@` or at the end is the derived name. */
  lemma NameFromEmailUnique(email: string, other: string)
    requires other <= email && '@' !in other
    requires |other| < |email| ==> email[|other|] == '@'
    ensures other == NameFromEmail(email)
  {
  }

  /** The record a successful sign-in creates. */
  function MakeUser(idSuffix: string, email: string, name: string): (u: User)
    ensures IdPrefix <= u.id && u.email == email && u.name == name
  {
    User(IdPrefix + idSuffix, email, name)
  }

  class AuthProvider {
    var user: Option<User>
    var isLoading: bool
    const store: LocalStorage

    /** A signed-in user is the one stored under `user`. */
    ghost predicate Valid()
      reads this, store
    {
      user.Some? ==> store.GetItem(UserKey) == Some(UserEntry(user.value))
    }

    /** Mounting: no user yet, and loading until the stored session has been
        looked up. */
    constructor (store: LocalStorage)
      ensures Valid()
      ensures this.store == store && user == None && isLoading
    {
      this.store := store;
      user := None;
      isLoading := true;
    }

    /** The mount effect: restores the user stored under `user`, if any, and
        ends loading. */
    method RestoreSession()
      requires Valid()
      modifies this
      ensures Valid()
      ensures !isLoading
      ensures store.GetItem(UserKey).Some? && store.GetItem(UserKey).value.UserEntry? ==>
        user == Some(store.GetItem(UserKey).value.user)
      ensures !(store.GetItem(UserKey).Some? && store.GetItem(UserKey).value.UserEntry?) ==>
        user == old(user) == None
    {
      var saved := store.GetItem(UserKey);
      if saved.Some? && saved.value.UserEntry? {
        user := Some(saved.value.user);
      }
      isLoading := false;
    }

    /** login: succeeds exactly when email and password are both non-empty
        and the browser store accepts the write; then the user, named after
        the email, is stored and signed in. `writeFails` is the store's
        `setItem` throwing (a full or disabled store): the catch branch then
        reports failure with no user set and nothing written. Loading has
        ended when it returns, either way. */
    method Login(email: string, password: string, idSuffix: string, writeFails: bool) returns (ok: bool)
      requires Valid()
      modifies this, store
      ensures Valid()
      ensures !isLoading
      ensures ok <==> email != [] && password != [] && !writeFails
      ensures ok ==>
        && user == Some(MakeUser(idSuffix, email, NameFromEmail(email)))
        && store.items == old(store.items)[UserKey := UserEntry(user.value)]
      ensures !ok ==> user == old(user) && store.items == old(store.items)
    {
      isLoading := true;
      if email != [] && password != [] && !writeFails {
        var u := MakeUser(idSuffix, email, NameFromEmail(email));
        store.SetItem(UserKey, UserEntry(u));
        user := Some(u);
        ok := true;
      } else {
        ok := false;
      }
      isLoading := false;
    }

    /** signup: succeeds exactly when name, email and password are all
        non-empty and the browser store accepts the write; then the user with
        the given name and email is stored and signed in. `writeFails` is the
        store's `setItem` throwing, as in `Login`. Loading has ended when it
        returns, either way. */
    method Signup(name: string, email: string, password: string, idSuffix: string, writeFails: bool) returns (ok: bool)
      requires Valid()
      modifies this, store
      ensures Valid()
      ensures !isLoading
      ensures ok <==> name != [] && email != [] && password != [] && !writeFails
      ensures ok ==>
        && user == Some(MakeUser(idSuffix, email, name))
        && store.items == old(store.items)[UserKey := UserEntry(user.value)]
      ensures !ok ==> user == old(user) && store.items == old(store.items)
    {
      isLoading := true;
      if name != [] && email != [] && password != [] && !writeFails {
        var u := MakeUser(idSuffix, email, name);
        store.SetItem(UserKey, UserEntry(u));
        user := Some(u);
        ok := true;
      } else {
        ok := false;
      }
      isLoading := false;
    }

    /** logout: forgets the stored session and signs the user out. */
    method Logout()
      modifies this, store
      ensures Valid()
      ensures user == None && isLoading == old(isLoading)
      ensures store.items == old(store.items) - {UserKey}
      ensures store.GetItem(UserKey) == None
    {
      store.RemoveItem(UserKey);
      user := None;
    }
  }
}
