/** The account routes of the server: registration and login over an in-memory user table
    (backend/routes/auth.js). Hashing, password checks and token signing are parameters. */
module AuthRoutes {
  import opened Common

  /** A stored account; `password` holds the hash, never the plaintext. */
  datatype User = User(id: nat, username: string, password: string, createdAt: int)

  /** A route's answer: the `{ user: { id, username, token } }` body, or an error status. */
  datatype AuthResponse =
    | Authenticated(id: nat, username: string, token: string)
    | BadRequest      // 400
    | Unauthorized    // 401
    | ServerError     // 500: the handler threw

  /** The `users` map: id to account. `order` lists the keys in insertion order, the order in which
      `users.values()` visits them. */
  class UserTable {
    /** `bcrypt.hash(password, 10)`. */
    const hash: string -> string
    /** `bcrypt.compare(password, hash)`. */
    const compare: (string, string) -> bool
    /** `jwt.sign({ userId }, ...)`. */
    const sign: nat -> string
    var order: seq<nat>
    var users: map<nat, User>

    ghost predicate Valid()
      reads this
    {
      && (forall i, j :: 0 <= i < j < |order| ==> order[i] != order[j])
      && (forall k :: k in users <==> k in order)
      && (forall k :: k in users ==> users[k].id == k && users[k].username != "")
      && (forall k, l :: k in users && l in users && users[k].username == users[l].username ==> k == l)
    }

    /** Some stored account has that username. */
    ghost predicate Taken(name: string)
      reads this
    {
      exists k :: k in users && users[k].username == name
    }

    constructor (hash: string -> string, compare: (string, string) -> bool, sign: nat -> string)
      ensures Valid()
      ensures this.hash == hash && this.compare == compare && this.sign == sign
      ensures order == [] && users == map[]
    {
      this.hash, this.compare, this.sign := hash, compare, sign;
      order, users := [], map[];
    }

    /** `Array.from(users.values()).find(u => u.username === name)`: the id of the first account in
        insertion order with that username. */
    method FindByName(name: string) returns (found: Option<nat>)
      requires Valid()
      ensures found.None? <==> !Taken(name)
      ensures found.Some? ==> found.value in users && users[found.value].username == name
    {
      var i := 0;
      while i < |order|
        invariant 0 <= i <= |order|
        invariant forall j :: 0 <= j < i ==> users[order[j]].username != name
      {
        if users[order[i]].username == name {
          return Some(order[i]);
        }
        i := i + 1;
      }
      assert forall k :: k in users ==> users[k].username != name by {
        forall k | k in users ensures users[k].username != name {
          var j :| 0 <= j < |order| && order[j] == k;
        }
      }
      return None;
    }

    /** POST `/register`. A missing or empty username or password, or a username already taken, is a
        400 and changes nothing. Otherwise the account is stored under the clock reading `now` with the
        password's hash; a reading that is already a key replaces that account in its place. */
    method Register(username: Option<string>, password: Option<string>, now: nat, createdAt: int)
      returns (r: AuthResponse)
      requires Valid()
      modifies this
      ensures Valid()
      ensures r.BadRequest? || r.Authenticated?
      ensures r.BadRequest? <==> !Truthy(username) || !Truthy(password) || old(Taken(username.value))
      ensures r.BadRequest? ==> users == old(users) && order == old(order)
      ensures r.Authenticated? ==>
        && r == Authenticated(now, username.value, sign(now))
        && users == old(users)[now := User(now, username.value, hash(password.value), createdAt)]
        && order == if now in old(users) then old(order) else old(order) + [now]
    {
      if !Truthy(username) || !Truthy(password) {
        return BadRequest;
      }
      var existing := FindByName(username.value);
      if existing.Some? {
        return BadRequest;
      }
      if now !in users {
        order := order + [now];
      }
      users := users[now := User(now, username.value, hash(password.value), createdAt)];
      r := Authenticated(now, username.value, sign(now));
    }

    /** POST `/login`: 401 when no account has that username or the password does not match its hash;
        an account found with no password in the request makes the hash check throw, hence 500. */
    method Login(username: Option<string>, password: Option<string>) returns (r: AuthResponse)
      requires Valid()
      ensures r.BadRequest? == false
      ensures username.None? || !Taken(username.value) ==> r == Unauthorized
      ensures r.ServerError? <==> username.Some? && Taken(username.value) && password.None?
      ensures r.Authenticated? ==>
        && r.id in users && users[r.id].username == username.value
        && compare(password.value, users[r.id].password)
        && r.username == username.value && r.token == sign(r.id)
      ensures username.Some? && password.Some? && Taken(username.value) ==>
        (r.Authenticated? <==> exists k :: k in users && users[k].username == username.value && compare(password.value, users[k].password))
    {
      if username.None? {
        return Unauthorized;
      }
      var found := FindByName(username.value);
      if found.None? {
        return Unauthorized;
      }
      var user := users[found.value];
      if password.None? {
        return ServerError;
      }
      if !compare(password.value, user.password) {
        return Unauthorized;
      }
      r := Authenticated(user.id, user.username, sign(user.id));
    }
  }

  /** Registering and then logging in with the same credentials yields the new account, provided the
      hash check accepts a password against its own hash. */
  method RegisterThenLogin(table: UserTable, name: string, password: string, now: nat, createdAt: int)
    returns (registered: AuthResponse, loggedIn: AuthResponse)
    requires table.Valid()
    requires table.compare(password, table.hash(password))
    modifies table
    ensures table.Valid()
    ensures registered.Authenticated? ==> loggedIn == registered
  {
    registered := table.Register(Some(name), Some(password), now, createdAt);
    loggedIn := table.Login(Some(name), Some(password));
    if registered.Authenticated? {
      assert table.users[now].username == name;
    }
  }
}
