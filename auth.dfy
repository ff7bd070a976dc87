/**
 * The user registry: a list of users under the `users` key, the logged-in
 * user in memory and under `currentUser`, and a session token under `authToken`.
 */
module Auth {
  import opened Wrappers
  import opened Seqs
  import opened UserModel
  import opened Store

  const USER_STORAGE_KEY := "currentUser"
  const TOKEN_STORAGE_KEY := "authToken"
  const USERS_STORAGE_KEY := "users"

  /** Some user in `users` already has this email. */
  predicate EmailTaken(users: seq<User>, email: string) {
    exists i :: 0 <= i < |users| && users[i].email == email
  }

  /** The registry's invariant: no two users share an email. */
  ghost predicate EmailsDistinct(users: seq<User>) {
    forall i, j :: 0 <= i < j < |users| ==> users[i].email != users[j].email
  }

  /** `users.find(u => u.email === email && u.password === password)`, as a position. */
  function IndexOfCredentials(users: seq<User>, email: string, password: string): (r: Option<nat>)
    ensures r.Some? ==> r.value < |users| && users[r.value].email == email && users[r.value].password == Some(password)
    ensures r.Some? ==> forall j :: 0 <= j < r.value ==> !(users[j].email == email && users[j].password == Some(password))
    ensures r.None? <==> forall j :: 0 <= j < |users| ==> !(users[j].email == email && users[j].password == Some(password))
  {
    FirstIndex(users, (u: User) => u.email == email && u.password == Some(password))
  }

  /** `users.findIndex(u => u.id === id)`; two absent ids are equal, as in the source. */
  function IndexOfId(users: seq<User>, id: Option<string>): (r: Option<nat>)
    ensures r.Some? ==> r.value < |users| && users[r.value].id == id
    ensures r.Some? ==> forall j :: 0 <= j < r.value ==> users[j].id != id
    ensures r.None? <==> forall j :: 0 <= j < |users| ==> users[j].id != id
  {
    FirstIndex(users, (u: User) => u.id == id)
  }

  /** `users[index] = user` for the first user with the same id; unchanged when there is none. */
  function ReplaceById(users: seq<User>, user: User): (r: seq<User>)
    ensures |r| == |users|
    ensures IndexOfId(users, user.id).None? ==> r == users
    ensures IndexOfId(users, user.id).Some? ==>
              && r[IndexOfId(users, user.id).value] == user
              && forall j :: 0 <= j < |users| && j != IndexOfId(users, user.id).value ==> r[j] == users[j]
  {
    match IndexOfId(users, user.id)
    case None => users
    case Some(i) => users[i := user]
  }

  /** `users.filter(u => u.id !== userId)`. */
  function WithoutId(users: seq<User>, userId: string): (r: seq<User>)
    ensures IsSubsequence(r, users)
    ensures forall i :: 0 <= i < |r| ==> r[i].id != Some(userId)
    ensures forall u: User :: u.id != Some(userId) ==> multiset(r)[u] == multiset(users)[u]
  {
    Filter(users, (u: User) => u.id != Some(userId))
  }

  /** The record register stores: the input with a fresh id, a creation instant and `isActive`. */
  function Registered(user: User, newId: string, now: int): (r: User)
    ensures r.email == user.email && r.name == user.name && r.password == user.password
    ensures r.id == Some(newId) && r.createdAt == Some(now) && r.isActive == Some(true)
    ensures r.lastLogin == user.lastLogin
  {
    user.(id := Some(newId), createdAt := Some(now), isActive := Some(true))
  }

  /** The user echoed back by a failed login: `{ email, name: '', password }`. */
  function RejectedLogin(email: string, password: string): (r: User)
    ensures r.email == email && r.password == Some(password) && r.name == ""
    ensures r.id.None? && r.createdAt.None? && r.lastLogin.None? && r.isActive.None?
  {
    User(None, "", email, Some(password), None, None, None)
  }

  /** Appending a user whose email is not taken keeps emails distinct. */
  lemma RegisterKeepsEmailsDistinct(users: seq<User>, added: User)
    requires EmailsDistinct(users) && !EmailTaken(users, added.email)
    ensures EmailsDistinct(users + [added])
  {
  }

  /** Dropping users from a registry with distinct emails keeps them distinct. */
  lemma {:induction false} SubsequenceKeepsEmailsDistinct(xs: seq<User>, ys: seq<User>)
    requires IsSubsequence(xs, ys) && EmailsDistinct(ys)
    ensures EmailsDistinct(xs)
    decreases |ys|
  {
    if xs != [] {
      if xs[0] == ys[0] && IsSubsequence(xs[1..], ys[1..]) {
        SubsequenceKeepsEmailsDistinct(xs[1..], ys[1..]);
        forall k | 1 <= k < |xs| ensures xs[0].email != xs[k].email {
          SubsequenceMember(xs[1..], ys[1..], k - 1);
          assert xs[k] == xs[1..][k - 1];
          var m :| 0 <= m < |ys[1..]| && ys[1..][m] == xs[k];
          assert ys[m + 1] == xs[k];
        }
        forall i, j | 0 <= i < j < |xs| ensures xs[i].email != xs[j].email {
          if i > 0 {
            assert xs[i] == xs[1..][i - 1] && xs[j] == xs[1..][j - 1];
          }
        }
      } else {
        SubsequenceKeepsEmailsDistinct(xs, ys[1..]);
      }
    }
  }

  lemma DeleteKeepsEmailsDistinct(users: seq<User>, userId: string)
    requires EmailsDistinct(users)
    ensures EmailsDistinct(WithoutId(users, userId))
  {
    SubsequenceKeepsEmailsDistinct(WithoutId(users, userId), users);
  }

  class AuthService {
    const storage: Storage
    /** The published current user (`currentUserSubject.value`, read by `currentUserValue`). */
    var currentUser: Option<User>

    constructor (storage: Storage)
      ensures this.storage == storage && currentUser == None
    {
      this.storage := storage;
      currentUser := None;
    }

    /** Publishes whatever is stored under `currentUser`. */
    method InitializeCurrentUser()
      modifies this
      ensures USER_STORAGE_KEY in storage.data && storage.data[USER_STORAGE_KEY].UserValue? ==>
                currentUser == Some(storage.data[USER_STORAGE_KEY].user)
      ensures !(USER_STORAGE_KEY in storage.data && storage.data[USER_STORAGE_KEY].UserValue?) ==>
                currentUser == None
    {
      if USER_STORAGE_KEY in storage.data && storage.data[USER_STORAGE_KEY].UserValue? {
        currentUser := Some(storage.data[USER_STORAGE_KEY].user);
      } else {
        currentUser := None;
      }
    }

    /** `this.currentUserValue?.id`: absent when nobody is logged in or the user has no id. */
    function CurrentId(): (id: Option<string>)
      reads this
      ensures id.Some? ==> currentUser.Some? && currentUser.value.id == id
      ensures currentUser.Some? ==> id == currentUser.value.id
      ensures currentUser.None? ==> id.None?
    {
      match currentUser
      case None => None
      case Some(u) => u.id
    }

    /** `getAllUsers`: the stored list, or the empty list when nothing is stored. */
    function GetAllUsers(): (users: seq<User>)
      reads this, storage
      ensures USERS_STORAGE_KEY !in storage.data ==> users == []
      ensures USERS_STORAGE_KEY in storage.data && storage.data[USERS_STORAGE_KEY].UsersValue? ==>
                users == storage.data[USERS_STORAGE_KEY].users
    {
      if USERS_STORAGE_KEY in storage.data && storage.data[USERS_STORAGE_KEY].UsersValue?
      then storage.data[USERS_STORAGE_KEY].users
      else []
    }

    /** `isAuthenticated`: `!!token`. */
    function IsAuthenticated(): (b: bool)
      reads this, storage
      ensures b <==> TOKEN_STORAGE_KEY in storage.data && Truthy(storage.data[TOKEN_STORAGE_KEY])
    {
      TOKEN_STORAGE_KEY in storage.data && Truthy(storage.data[TOKEN_STORAGE_KEY])
    }

    /**
     * `register`: a taken email is refused and nothing is written; otherwise the
     * new record is appended. `token` stands for `generateToken()`.
     */
    method Register(user: User, newId: string, now: int, token: string) returns (res: AuthResponse)
      modifies storage`data
      ensures EmailTaken(old(GetAllUsers()), user.email) ==>
                res == AuthResponse(user, "", false, EmailJaCadastrado) && storage.data == old(storage.data)
      ensures !EmailTaken(old(GetAllUsers()), user.email) && !storage.writable ==>
                res == AuthResponse(user, "", false, ErroAoRegistrar) && storage.data == old(storage.data)
      ensures !EmailTaken(old(GetAllUsers()), user.email) && storage.writable ==>
                && res == AuthResponse(Registered(user, newId, now), token, true, RegistroRealizado)
                && storage.data == old(storage.data)[USERS_STORAGE_KEY := UsersValue(old(GetAllUsers()) + [res.user])]
      ensures EmailsDistinct(old(GetAllUsers())) ==> EmailsDistinct(GetAllUsers())
    {
      var users := GetAllUsers();
      if EmailTaken(users, user.email) {
        return AuthResponse(user, "", false, EmailJaCadastrado);
      }
      var newUser := Registered(user, newId, now);
      var written := storage.Set(USERS_STORAGE_KEY, UsersValue(users + [newUser]));
      if !written {
        return AuthResponse(user, "", false, ErroAoRegistrar);
      }
      if EmailsDistinct(users) {
        RegisterKeepsEmailsDistinct(users, newUser);
      }
      return AuthResponse(newUser, token, true, RegistroRealizado);
    }

    /**
     * `login`: the first user matching both email and password gets a new
     * `lastLogin`, is written back through `updateUser`, stored as the current
     * user together with the token, and published.
     */
    method Login(email: string, password: string, now: int, token: string) returns (res: AuthResponse)
      modifies this, storage`data
      ensures IndexOfCredentials(old(GetAllUsers()), email, password).None? ==>
                && res == AuthResponse(RejectedLogin(email, password), "", false, CredenciaisInvalidas)
                && currentUser == old(currentUser) && storage.data == old(storage.data)
      ensures IndexOfCredentials(old(GetAllUsers()), email, password).Some? && !storage.writable ==>
                && res == AuthResponse(RejectedLogin(email, password), "", false, ErroAoLogar)
                && currentUser == old(currentUser) && storage.data == old(storage.data)
      ensures IndexOfCredentials(old(GetAllUsers()), email, password).Some? && storage.writable ==>
                var users := old(GetAllUsers());
                var user := users[IndexOfCredentials(users, email, password).value].(lastLogin := Some(now));
                && res == AuthResponse(user, token, true, LoginRealizado)
                && currentUser == Some(user)
                && storage.data == old(storage.data)[USERS_STORAGE_KEY := UsersValue(ReplaceById(users, user))]
                                                    [USER_STORAGE_KEY := UserValue(user)]
                                                    [TOKEN_STORAGE_KEY := TokenValue(token)]
      ensures res.success ==> (IsAuthenticated() <==> token != "")
    {
      var users := GetAllUsers();
      var found := IndexOfCredentials(users, email, password);
      if found.None? {
        return AuthResponse(RejectedLogin(email, password), "", false, CredenciaisInvalidas);
      }
      var user := users[found.value].(lastLogin := Some(now));
      var updated := UpdateUser(user);
      var written := storage.Set(USER_STORAGE_KEY, UserValue(user));
      if !written {
        return AuthResponse(RejectedLogin(email, password), "", false, ErroAoLogar);
      }
      written := storage.Set(TOKEN_STORAGE_KEY, TokenValue(token));
      currentUser := Some(user);
      return AuthResponse(user, token, true, LoginRealizado);
    }

    /** `logout`: removes the user and token keys and publishes no user. */
    method Logout()
      modifies this, storage`data
      ensures currentUser == None
      ensures storage.data == old(storage.data) - {USER_STORAGE_KEY, TOKEN_STORAGE_KEY}
      ensures !IsAuthenticated()
    {
      storage.Remove(USER_STORAGE_KEY);
      storage.Remove(TOKEN_STORAGE_KEY);
      currentUser := None;
    }

    /**
     * `updateUser`: replaces the first user with the same id; when that id is
     * the current user's, the stored and published current user follow.
     */
    method UpdateUser(user: User) returns (ok: bool)
      modifies this, storage`data
      ensures ok <==> IndexOfId(old(GetAllUsers()), user.id).Some? && storage.writable
      ensures !ok ==> currentUser == old(currentUser) && storage.data == old(storage.data)
      ensures ok && old(CurrentId()) == user.id ==>
                && currentUser == Some(user)
                && storage.data == old(storage.data)[USERS_STORAGE_KEY := UsersValue(ReplaceById(old(GetAllUsers()), user))]
                                                    [USER_STORAGE_KEY := UserValue(user)]
      ensures ok && old(CurrentId()) != user.id ==>
                && currentUser == old(currentUser)
                && storage.data == old(storage.data)[USERS_STORAGE_KEY := UsersValue(ReplaceById(old(GetAllUsers()), user))]
    {
      var users := GetAllUsers();
      var index := IndexOfId(users, user.id);
      if index.None? {
        return false;
      }
      users := users[index.value := user];
      var written := storage.Set(USERS_STORAGE_KEY, UsersValue(users));
      if !written {
        return false;
      }
      if CurrentId() == user.id {
        written := storage.Set(USER_STORAGE_KEY, UserValue(user));
        currentUser := Some(user);
      }
      return true;
    }

    /**
     * `deleteUser`: removes every user with that id (succeeding also when there
     * is none) and logs out when the current user has that id.
     */
    method DeleteUser(userId: string) returns (ok: bool)
      modifies this, storage`data
      ensures ok == storage.writable
      ensures !ok ==> currentUser == old(currentUser) && storage.data == old(storage.data)
      ensures ok && old(CurrentId()) == Some(userId) ==>
                && currentUser == None
                && storage.data == old(storage.data)[USERS_STORAGE_KEY := UsersValue(WithoutId(old(GetAllUsers()), userId))]
                                   - {USER_STORAGE_KEY, TOKEN_STORAGE_KEY}
      ensures ok && old(CurrentId()) != Some(userId) ==>
                && currentUser == old(currentUser)
                && storage.data == old(storage.data)[USERS_STORAGE_KEY := UsersValue(WithoutId(old(GetAllUsers()), userId))]
      ensures ok && EmailsDistinct(old(GetAllUsers())) ==> EmailsDistinct(GetAllUsers())
    {
      var users := GetAllUsers();
      var filtered := WithoutId(users, userId);
      var written := storage.Set(USERS_STORAGE_KEY, UsersValue(filtered));
      if !written {
        return false;
      }
      if EmailsDistinct(users) {
        DeleteKeepsEmailsDistinct(users, userId);
      }
      if CurrentId() == Some(userId) {
        Logout();
      }
      return true;
    }
  }
}
