/** The login page: the backend attempt, the local fallback with its two demo
    accounts and the registered clients, and the role dispatch that writes the
    session into `localStorage`. */
module LoginClientes {
  import opened Wrappers
  import opened JsValue
  import opened Seqs
  import opened Storage
  import opened LocalAccounts
  import Routes

  /** What the backend login request produced: a network or parse error, or the reply
      body's `success` and `user` fields, `user` being an object when present. */
  datatype LoginReply = Thrown | Body(success: Option<Json>, user: Option<Obj>)

  /** `loginConBackend`: it authenticates only when the body has a truthy `success` and a
      `user`; a thrown request authenticates nobody. */
  function BackendUser(reply: LoginReply): (u: Option<Obj>)
    ensures u.Some? <==> reply.Body? && Truthy(reply.success) && reply.user.Some?
    ensures u.Some? ==> u == reply.user
  {
    if reply.Body? && Truthy(reply.success) && reply.user.Some? then reply.user else None
  }

  const AdminEmail: string := "admin@infoser.cl"
  const TecnicoEmail: string := "juan.alvarez@infoser.cl"

  /** The demo administrator. */
  const AdminDemo: Obj :=
    map["id" := Num(1), "email" := Str(AdminEmail), "nombre" := Str("Administrador INFOSER"), "rol" := Str("admin")]

  /** The demo technician. */
  const TecnicoDemo: Obj :=
    map["id" := Num(2), "email" := Str(TecnicoEmail), "nombre" := Str("Juan Alvarez"), "rol" := Str("tecnico")]

  /** `usarLoginLocal`: the two demo emails log in whatever the password; any other email
      logs in exactly when a stored client has both that email and that password, and then
      as the first such client, with role `cliente` set over its own fields. */
  function LocalUser(clientes: seq<Obj>, email: string, password: string): (u: Option<Obj>)
    ensures email == AdminEmail ==> u == Some(AdminDemo)
    ensures email == TecnicoEmail ==> u == Some(TecnicoDemo)
    ensures email != AdminEmail && email != TecnicoEmail ==>
      (u.Some? <==> exists i :: 0 <= i < |clientes| && Credentials(email, password)(clientes[i]))
    ensures email != AdminEmail && email != TecnicoEmail && u.Some? ==>
      Get(u.value, "rol") == Some(Str("cliente")) && Get(u.value, "email") == Some(Str(email)) &&
      Get(u.value, "password") == Some(Str(password))
    ensures email != AdminEmail && email != TecnicoEmail && u.Some? ==>
      exists i :: 0 <= i < |clientes| && Credentials(email, password)(clientes[i]) &&
        (forall j :: 0 <= j < i ==> !Credentials(email, password)(clientes[j])) &&
        u.value == clientes[i]["rol" := Str("cliente")]
  {
    if email == AdminEmail then Some(AdminDemo)
    else if email == TecnicoEmail then Some(TecnicoDemo)
    else
      var k := FirstIndex(Credentials(email, password), clientes);
      if k.Some? then Some(clientes[k.value]["rol" := Str("cliente")]) else None
  }

  /** The user `handleSubmit` dispatches: the backend's when it authenticated, otherwise the
      local fallback's. */
  function LoggedInUser(store: Store, email: string, password: string, reply: LoginReply): Option<Obj>
  {
    if BackendUser(reply).Some? then BackendUser(reply)
    else LocalUser(ListAt(store, "clientesRegistrados"), email, password)
  }

  /** The keys the dispatch writes for a role: none for any role other than `admin`,
      `tecnico` and `cliente`. */
  function SessionKeys(rol: Option<Json>): set<string>
  {
    if rol == Some(Str("admin")) then {"adminLoggedIn", "userData"}
    else if rol == Some(Str("tecnico")) then {"tecnicoLoggedIn", "userData"}
    else if rol == Some(Str("cliente")) then {"clienteActual", "clienteLoggedIn"}
    else {}
  }

  /** Where the dispatch navigates for a role. */
  function Destino(rol: Option<Json>): Option<string>
  {
    if rol == Some(Str("admin")) then Some("/admin/menu")
    else if rol == Some(Str("tecnico")) then Some("/tecnico/panel")
    else if rol == Some(Str("cliente")) then Some("/")
    else None
  }

  /** `manejarLoginExitoso`'s storage writes: the role's flag and the user, under
      `userData` for staff and `clienteActual` for clients; every other key is kept. */
  function AfterLogin(store: Store, user: Obj): (s: Store)
    ensures s.Keys == store.Keys + SessionKeys(Get(user, "rol"))
    ensures forall k :: k in store && k !in SessionKeys(Get(user, "rol")) ==> s[k] == store[k]
    ensures Get(user, "rol") == Some(Str("admin")) ==>
      s["adminLoggedIn"] == Text("true") && s["userData"] == Record(user)
    ensures Get(user, "rol") == Some(Str("tecnico")) ==>
      s["tecnicoLoggedIn"] == Text("true") && s["userData"] == Record(user)
    ensures Get(user, "rol") == Some(Str("cliente")) ==>
      s["clienteActual"] == Record(user) && s["clienteLoggedIn"] == Text("true")
  {
    var rol := Get(user, "rol");
    if rol == Some(Str("admin")) then store["adminLoggedIn" := Text("true")]["userData" := Record(user)]
    else if rol == Some(Str("tecnico")) then store["tecnicoLoggedIn" := Text("true")]["userData" := Record(user)]
    else if rol == Some(Str("cliente")) then store["clienteActual" := Record(user)]["clienteLoggedIn" := Text("true")]
    else store
  }

  /** A role the dispatch does not know, such as the backend's `administrador`, writes
      nothing and goes nowhere. */
  lemma OtherRolesWriteNothing(store: Store, user: Obj)
    requires Get(user, "rol") != Some(Str("admin")) && Get(user, "rol") != Some(Str("tecnico")) &&
             Get(user, "rol") != Some(Str("cliente"))
    ensures AfterLogin(store, user) == store && Destino(Get(user, "rol")) == None
  {
  }

  /** An `administrador` the backend authenticates stays on the login page with nothing
      stored: the fallback does not run, since the backend did authenticate. */
  lemma BackendAdministradorIsStuck(store: Store, email: string, password: string, reply: LoginReply)
    requires BackendUser(reply).Some? && Get(BackendUser(reply).value, "rol") == Some(Str("administrador"))
    ensures LoggedInUser(store, email, password, reply) == BackendUser(reply)
    ensures AfterLogin(store, LoggedInUser(store, email, password, reply).value) == store
  {
    OtherRolesWriteNothing(store, BackendUser(reply).value);
  }

  /** The dispatch never stores a token, so a session written without one already present is
      still sent to the login page by every guarded route. */
  lemma LoginLeavesGuardClosed(store: Store, user: Obj, roles: Option<seq<string>>)
    requires !TextSet(store, "authToken")
    ensures Routes.RequireAuth(AfterLogin(store, user), roles) == Routes.ToLogin
  {
    assert "authToken" !in SessionKeys(Get(user, "rol"));
  }

  /** The login form and what the page has written and where it went. */
  class LoginPage {
    var store: Store
    var email: string
    var password: string
    var cargando: bool
    var destino: Option<string>

    constructor (store: Store)
      ensures this.store == store && email == "" && password == "" && !cargando && destino == None
    {
      this.store := store;
      email, password := "", "";
      cargando := false;
      destino := None;
    }

    /** `manejarLoginExitoso`: the role's writes and navigation; a client also has the
        credentials cleared. */
    method ManejarLoginExitoso(user: Obj)
      modifies this`store, this`destino, this`email, this`password
      ensures store == AfterLogin(old(store), user)
      ensures destino == if Destino(Get(user, "rol")).Some? then Destino(Get(user, "rol")) else old(destino)
      ensures Get(user, "rol") == Some(Str("cliente")) ==> email == "" && password == ""
      ensures Get(user, "rol") != Some(Str("cliente")) ==> email == old(email) && password == old(password)
    {
      var rol := Get(user, "rol");
      if rol == Some(Str("admin")) {
        store := store["adminLoggedIn" := Text("true")];
        store := store["userData" := Record(user)];
        destino := Some("/admin/menu");
      } else if rol == Some(Str("tecnico")) {
        store := store["tecnicoLoggedIn" := Text("true")];
        store := store["userData" := Record(user)];
        destino := Some("/tecnico/panel");
      } else if rol == Some(Str("cliente")) {
        store := store["clienteActual" := Record(user)];
        store := store["clienteLoggedIn" := Text("true")];
        email, password := "", "";
        destino := Some("/");
      }
    }

    /** `handleSubmit`: the backend attempt, the local fallback only when it failed, and the
        dispatch of whichever user resulted; with no user nothing is written, and only a
        client's login clears the credentials. */
    method HandleSubmit(reply: LoginReply)
      modifies this`store, this`destino, this`email, this`password, this`cargando
      ensures var u := LoggedInUser(old(store), old(email), old(password), reply);
        (u.None? ==> store == old(store) && destino == old(destino) && email == old(email) &&
                     password == old(password)) &&
        (u.Some? ==> store == AfterLogin(old(store), u.value) &&
                     destino == (if Destino(Get(u.value, "rol")).Some? then Destino(Get(u.value, "rol")) else old(destino)))
      ensures var u := LoggedInUser(old(store), old(email), old(password), reply);
        u.Some? && Get(u.value, "rol") == Some(Str("cliente")) ==> email == "" && password == ""
      ensures var u := LoggedInUser(old(store), old(email), old(password), reply);
        u.Some? && Get(u.value, "rol") != Some(Str("cliente")) ==> email == old(email) && password == old(password)
      ensures !cargando
    {
      cargando := true;
      var u := BackendUser(reply);
      if u.None? {
        u := LocalUser(ListAt(store, "clientesRegistrados"), email, password);
      }
      if u.Some? {
        ManejarLoginExitoso(u.value);
      }
      cargando := false;
    }
  }
}
