/** The client-side user registry: a list of registered users and an optional
    session, changed only by registration, login and logout. The browser's
    local storage is replaced by this explicit state. */
module Auth {

  import opened Optional
  import opened Text

  /** A stored user; the creation timestamp is not modelled, the id is supplied by the caller. */
  datatype User = User(id: string, name: string, email: string, password: string)

  /** What the session keeps of the logged-in user. */
  datatype Session = Session(name: string, email: string)

  datatype Store = Store(users: seq<User>, session: Option<Session>)

  /** Nothing stored yet: the user list reads as empty and there is no session. */
  const EmptyStore := Store([], None)

  const AlreadyRegisteredMessage := "Este correo ya está registrado"
  const RegisteredMessage := "Usuario registrado exitosamente. Revisa tu correo para el mensaje de bienvenida."
  const RegistrationErrorMessage := "Error al registrar usuario. Inténtalo de nuevo."
  const LoginSucceededMessage := "Inicio de sesión exitoso"
  const LoginFailedMessage := "Correo o contraseña incorrectos"

  datatype Reply = Reply(success: bool, message: string)

  datatype Registration = Registration(store: Store, reply: Reply)

  datatype LoginReply = LoginReply(success: bool, message: string, user: Option<User>)

  datatype Login = Login(store: Store, reply: LoginReply)

  // ---------------------------------------------------------------------------
  // Queries

  /** Some stored user has this e-mail address, ignoring case. */
  function IsEmailRegistered(users: seq<User>, email: string): (b: bool)
    ensures b <==> exists i :: 0 <= i < |users| && SameIgnoringCase(users[i].email, email)
  {
    if |users| == 0 then false
    else if SameIgnoringCase(users[0].email, email) then true
    else
      var b := IsEmailRegistered(users[1..], email);
      assert b ==> exists i :: 0 <= i < |users| && SameIgnoringCase(users[i].email, email) by {
        if b {
          var i :| 0 <= i < |users[1..]| && SameIgnoringCase(users[1..][i].email, email);
          assert users[i + 1] == users[1..][i];
        }
      }
      assert users == [users[0]] + users[1..];
      b
  }

  /** The login condition: e-mail equal ignoring case, password exactly equal. */
  predicate Matches(u: User, email: string, password: string) {
    SameIgnoringCase(u.email, email) && u.password == password
  }

  /** `users.find(...)` for the login condition: the position of the first matching user. */
  function FindUser(users: seq<User>, email: string, password: string): (r: Option<nat>)
    ensures r.Some? ==> r.value < |users| && Matches(users[r.value], email, password)
    ensures r.Some? ==> forall j :: 0 <= j < r.value ==> !Matches(users[j], email, password)
    ensures r.None? ==> forall j :: 0 <= j < |users| ==> !Matches(users[j], email, password)
  {
    if |users| == 0 then None
    else if Matches(users[0], email, password) then Some(0)
    else
      match FindUser(users[1..], email, password)
      case None => None
      case Some(k) => Some(k + 1)
  }

  /** The stored session, if any. */
  function GetCurrentUser(st: Store): Option<Session> {
    st.session
  }

  // ---------------------------------------------------------------------------
  // Operations

  /** Registration: a duplicate address (ignoring case) is refused; otherwise the
      user is appended with the address lowercased. A storage failure while saving
      is reported as the generic error and saves nothing. Whether the welcome mail
      is delivered does not matter: its failure is swallowed. */
  function RegisterUser(st: Store, name: string, email: string, password: string, id: string,
                        storageFails: bool, mailDelivered: bool): (out: Registration)
    ensures out.reply.success ==>
      && !IsEmailRegistered(st.users, email)
      && out.store.users == st.users + [User(id, name, Lower(email), password)]
      && out.store.session == st.session
      && out.reply.message == RegisteredMessage
      && IsEmailRegistered(out.store.users, email)
    ensures !out.reply.success ==> out.store == st
    ensures IsEmailRegistered(st.users, email) ==> out.reply == Reply(false, AlreadyRegisteredMessage)
    ensures !IsEmailRegistered(st.users, email) ==>
      out.reply == (if storageFails then Reply(false, RegistrationErrorMessage) else Reply(true, RegisteredMessage))
  {
    if IsEmailRegistered(st.users, email) then
      Registration(st, Reply(false, AlreadyRegisteredMessage))
    else if storageFails then
      Registration(st, Reply(false, RegistrationErrorMessage))
    else
      var user := User(id, name, Lower(email), password);
      var users := st.users + [user];
      LowerIdempotent(email);
      assert users[|st.users|] == user;
      Registration(Store(users, st.session), Reply(true, RegisteredMessage))
  }

  /** Login: succeeds exactly when some user has this address (ignoring case) and
      this password; the session then holds the first such user's name and stored
      address. A failed login changes nothing. */
  function LoginUser(st: Store, email: string, password: string): (out: Login)
    ensures out.store.users == st.users
    ensures out.reply.success <==> exists i :: 0 <= i < |st.users| && Matches(st.users[i], email, password)
    ensures !out.reply.success ==> out.store == st && out.reply == LoginReply(false, LoginFailedMessage, None)
    ensures out.reply.success ==>
      exists i :: 0 <= i < |st.users| && Matches(st.users[i], email, password)
        && (forall j :: 0 <= j < i ==> !Matches(st.users[j], email, password))
        && out.store.session == Some(Session(st.users[i].name, st.users[i].email))
        && out.reply == LoginReply(true, LoginSucceededMessage, Some(st.users[i]))
  {
    match FindUser(st.users, email, password)
    case None => Login(st, LoginReply(false, LoginFailedMessage, None))
    case Some(i) =>
      var u := st.users[i];
      Login(Store(st.users, Some(Session(u.name, u.email))), LoginReply(true, LoginSucceededMessage, Some(u)))
  }

  /** Logout removes the session and keeps the users. */
  function LogoutUser(st: Store): (out: Store)
    ensures out.users == st.users
    ensures GetCurrentUser(out) == None
  {
    Store(st.users, None)
  }

  // ---------------------------------------------------------------------------
  // The registry invariant

  /** No two stored users have addresses that are equal ignoring case. */
  predicate DistinctEmails(users: seq<User>) {
    forall i, j :: 0 <= i < j < |users| ==> !SameIgnoringCase(users[i].email, users[j].email)
  }

  /** Every stored address is already lowercase. */
  predicate LoweredEmails(users: seq<User>) {
    forall i :: 0 <= i < |users| ==> IsLowered(users[i].email)
  }

  predicate Valid(st: Store) {
    DistinctEmails(st.users) && LoweredEmails(st.users)
  }

  /** Registration keeps the stored addresses lowercase and pairwise distinct. */
  lemma RegisterKeepsValid(st: Store, name: string, email: string, password: string, id: string,
                           storageFails: bool, mailDelivered: bool)
    requires Valid(st)
    ensures Valid(RegisterUser(st, name, email, password, id, storageFails, mailDelivered).store)
  {
    var out := RegisterUser(st, name, email, password, id, storageFails, mailDelivered);
    if out.reply.success {
      var users := out.store.users;
      var n := |st.users|;
      LowerIsLowered(email);
      LowerIdempotent(email);
      assert users[n].email == Lower(email);
      forall i | 0 <= i < n
        ensures !SameIgnoringCase(users[i].email, users[n].email)
      {
        assert users[i] == st.users[i];
      }
      assert DistinctEmails(users) by {
        forall i, j | 0 <= i < j < |users|
          ensures !SameIgnoringCase(users[i].email, users[j].email)
        {
          if j < n {
            assert users[i] == st.users[i] && users[j] == st.users[j];
          }
        }
      }
      assert LoweredEmails(users) by {
        forall i | 0 <= i < |users| ensures IsLowered(users[i].email) {
          if i < n {
            assert users[i] == st.users[i];
          }
        }
      }
    }
  }

  /** The address check depends on the address only up to case. */
  lemma RegisteredIgnoresCase(users: seq<User>, a: string, b: string)
    requires SameIgnoringCase(a, b)
    ensures IsEmailRegistered(users, a) == IsEmailRegistered(users, b)
  {
  }

  /** After registering, the same address in any case is refused and nothing changes. */
  lemma SecondRegistrationRefused(st: Store, name: string, email: string, password: string, id: string,
                                  mailDelivered: bool,
                                  name2: string, email2: string, password2: string, id2: string,
                                  storageFails2: bool, mailDelivered2: bool)
    requires SameIgnoringCase(email, email2)
    requires RegisterUser(st, name, email, password, id, false, mailDelivered).reply.success
    ensures var st1 := RegisterUser(st, name, email, password, id, false, mailDelivered).store;
      RegisterUser(st1, name2, email2, password2, id2, storageFails2, mailDelivered2) == Registration(st1, Reply(false, AlreadyRegisteredMessage))
  {
    var st1 := RegisterUser(st, name, email, password, id, false, mailDelivered).store;
    RegisteredIgnoresCase(st1.users, email, email2);
  }

  /** The outcome of registration does not depend on the welcome mail. */
  lemma RegistrationIgnoresMail(st: Store, name: string, email: string, password: string, id: string, storageFails: bool)
    ensures RegisterUser(st, name, email, password, id, storageFails, true)
         == RegisterUser(st, name, email, password, id, storageFails, false)
  {
  }

  /** A fresh registration followed by a login with the same password and the
      address in any case succeeds, and the session shows the new user's name and
      the lowercased address. */
  lemma RegisterThenLogin(st: Store, name: string, email: string, password: string, id: string,
                          mailDelivered: bool, loginEmail: string)
    requires !IsEmailRegistered(st.users, email)
    requires SameIgnoringCase(loginEmail, email)
    ensures var st1 := RegisterUser(st, name, email, password, id, false, mailDelivered).store;
      && LoginUser(st1, loginEmail, password).reply.success
      && GetCurrentUser(LoginUser(st1, loginEmail, password).store) == Some(Session(name, Lower(email)))
  {
    var st1 := RegisterUser(st, name, email, password, id, false, mailDelivered).store;
    var n := |st.users|;
    assert st1.users[n] == User(id, name, Lower(email), password);
    LowerIdempotent(email);
    assert Matches(st1.users[n], loginEmail, password);
    var out := LoginUser(st1, loginEmail, password);
    var i :| 0 <= i < |st1.users| && Matches(st1.users[i], loginEmail, password)
        && (forall j :: 0 <= j < i ==> !Matches(st1.users[j], loginEmail, password))
        && out.store.session == Some(Session(st1.users[i].name, st1.users[i].email));
    if i < n {
      assert false;
    }
  }

  // ---------------------------------------------------------------------------
  // Sequences of operations

  datatype Action =
    | Register(name: string, email: string, password: string, id: string, storageFails: bool, mailDelivered: bool)
    | LogIn(loginEmail: string, loginPassword: string)
    | LogOut

  function Apply(st: Store, a: Action): Store {
    match a
    case Register(name, email, password, id, storageFails, mailDelivered) =>
      RegisterUser(st, name, email, password, id, storageFails, mailDelivered).store
    case LogIn(email, password) => LoginUser(st, email, password).store
    case LogOut => LogoutUser(st)
  }

  function Run(st: Store, actions: seq<Action>): Store
    decreases |actions|
  {
    if |actions| == 0 then st else Run(Apply(st, actions[0]), actions[1..])
  }

  /** Only registration adds users, and only at the end. */
  lemma {:induction false} RunOnlyAppends(st: Store, actions: seq<Action>)
    ensures |st.users| <= |Run(st, actions).users|
    ensures Run(st, actions).users[..|st.users|] == st.users
    decreases |actions|
  {
    if |actions| > 0 {
      var st1 := Apply(st, actions[0]);
      assert st1.users[..|st.users|] == st.users;
      RunOnlyAppends(st1, actions[1..]);
    }
  }

  /** Starting from an empty store, whatever sequence of registrations, logins and
      logouts happens, no two users share an address ignoring case. */
  lemma {:induction false} RunKeepsValid(st: Store, actions: seq<Action>)
    requires Valid(st)
    ensures Valid(Run(st, actions))
    decreases |actions|
  {
    if |actions| > 0 {
      if actions[0].Register? {
        var a := actions[0];
        RegisterKeepsValid(st, a.name, a.email, a.password, a.id, a.storageFails, a.mailDelivered);
      }
      RunKeepsValid(Apply(st, actions[0]), actions[1..]);
    }
  }

  /** The session, when there is one, names a stored user: login copies it from
      a stored user, registration only appends, and logout clears it. */
  predicate SessionStored(st: Store) {
    st.session.Some? ==>
      exists i :: 0 <= i < |st.users| && Session(st.users[i].name, st.users[i].email) == st.session.value
  }

  lemma ApplyKeepsSessionStored(st: Store, a: Action)
    requires SessionStored(st)
    ensures SessionStored(Apply(st, a))
  {
    var st1 := Apply(st, a);
    if st1.session.Some? && a.Register? && st1 != st {
      var i :| 0 <= i < |st.users| && Session(st.users[i].name, st.users[i].email) == st.session.value;
      assert st1.users[i] == st.users[i];
    }
  }

  lemma {:induction false} RunKeepsSessionStored(st: Store, actions: seq<Action>)
    requires SessionStored(st)
    ensures SessionStored(Run(st, actions))
    decreases |actions|
  {
    if |actions| > 0 {
      ApplyKeepsSessionStored(st, actions[0]);
      RunKeepsSessionStored(Apply(st, actions[0]), actions[1..]);
    }
  }

  /** Whatever sequence of operations ran, the current user is either absent or
      the name and address of a stored user. */
  lemma CurrentUserIsStored(actions: seq<Action>)
    ensures var st := Run(EmptyStore, actions);
      GetCurrentUser(st).Some? ==>
        exists i :: 0 <= i < |st.users| && GetCurrentUser(st) == Some(Session(st.users[i].name, st.users[i].email))
  {
    RunKeepsSessionStored(EmptyStore, actions);
  }

  lemma ReachableStoresValid(actions: seq<Action>)
    ensures DistinctEmails(Run(EmptyStore, actions).users)
  {
    RunKeepsValid(EmptyStore, actions);
  }
}
