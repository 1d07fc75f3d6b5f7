/** The registration page: the health check that picks the backend, the backend
    registration with its fall back to the local list, and the local registration. */
module RegisterClientes {
  import opened Wrappers
  import opened JsValue
  import opened Storage
  import opened LocalAccounts
  import LoginClientes

  /** What the health request produced: a thrown request, or the body's `success`. */
  datatype Health = HealthThrown | HealthBody(success: Option<Json>)

  /** What the backend registration produced: a thrown request, or the body's `success`. */
  datatype RegisterReply = RegisterThrown | RegisterBody(success: Option<Json>)

  /** The client list a local registration leaves in the store: the appended list, or the
      store untouched when the email is taken. */
  function StoreAfterLocal(store: Store, d: Registro, id: int, fecha: string): (s: Store)
    ensures Registrar(ListAt(store, "clientesRegistrados"), d, id, fecha).None? ==> s == store
    ensures Registrar(ListAt(store, "clientesRegistrados"), d, id, fecha).Some? ==>
      s.Keys == store.Keys + {"clientesRegistrados"} &&
      (forall k :: k in store && k != "clientesRegistrados" ==> s[k] == store[k]) &&
      s["clientesRegistrados"] == Records(Registrar(ListAt(store, "clientesRegistrados"), d, id, fecha).value)
  {
    var r := Registrar(ListAt(store, "clientesRegistrados"), d, id, fecha);
    if r.Some? then store["clientesRegistrados" := Records(r.value)] else store
  }

  /** A client registered locally, with an email other than the two demo ones, then logs in
      locally with the same email and password, as a `cliente`. */
  lemma RegisteredClientLogsIn(store: Store, d: Registro, id: int, fecha: string)
    requires Registrar(ListAt(store, "clientesRegistrados"), d, id, fecha).Some?
    requires d.email != LoginClientes.AdminEmail && d.email != LoginClientes.TecnicoEmail
    ensures var u := LoginClientes.LocalUser(ListAt(StoreAfterLocal(store, d, id, fecha), "clientesRegistrados"),
                                              d.email, d.password);
      u.Some? && Get(u.value, "rol") == Some(Str("cliente")) &&
      Get(u.value, "nombre") == Some(Str(d.nombre))
  {
    var r := Registrar(ListAt(store, "clientesRegistrados"), d, id, fecha).value;
    assert ListAt(StoreAfterLocal(store, d, id, fecha), "clientesRegistrados") == r;
    RegisteredClientCanLogIn(ListAt(store, "clientesRegistrados"), d, id, fecha);
  }

  /** The registration form and what the page has stored and where it went. */
  class RegisterPage {
    var store: Store
    var datos: Registro
    var cargando: bool
    var backendDisponible: bool
    var destino: Option<string>

    constructor (store: Store)
      ensures this.store == store && datos == EmptyRegistro && !cargando && !backendDisponible && destino == None
    {
      this.store := store;
      datos := EmptyRegistro;
      cargando, backendDisponible := false, false;
      destino := None;
    }

    /** `verificarBackend`: a reply with `success` marks the backend available, a thrown
        request marks it unavailable, and any other reply leaves the flag as it was. */
    method VerificarBackend(h: Health)
      modifies this`backendDisponible
      ensures h.HealthBody? && Truthy(h.success) ==> backendDisponible
      ensures h.HealthThrown? ==> !backendDisponible
      ensures h.HealthBody? && !Truthy(h.success) ==> backendDisponible == old(backendDisponible)
    {
      if h.HealthThrown? {
        backendDisponible := false;
      } else if Truthy(h.success) {
        backendDisponible := true;
      }
    }

    /** `registrarEnLocalStorage`: a taken email changes nothing; otherwise the list grows by
        the new client, the form is reset and the page goes to the login. */
    method RegistrarEnLocalStorage(id: int, fecha: string)
      modifies this`store, this`datos, this`destino
      ensures store == StoreAfterLocal(old(store), old(datos), id, fecha)
      ensures Registrar(ListAt(old(store), "clientesRegistrados"), old(datos), id, fecha).None? ==>
        datos == old(datos) && destino == old(destino)
      ensures Registrar(ListAt(old(store), "clientesRegistrados"), old(datos), id, fecha).Some? ==>
        datos == EmptyRegistro && destino == Some("/login")
    {
      var clientes := ListAt(store, "clientesRegistrados");
      if Registrar(clientes, datos, id, fecha).None? {
        return;
      }
      clientes := clientes + [NuevoCliente(datos, id, fecha)];
      store := store["clientesRegistrados" := Records(clientes)];
      datos := EmptyRegistro;
      destino := Some("/login");
    }

    /** `registrarConBackend`: success resets the form and goes to the login with the store
        untouched; a refusal changes nothing; a thrown request registers locally instead. */
    method RegistrarConBackend(reply: RegisterReply, id: int, fecha: string)
      modifies this`store, this`datos, this`destino
      ensures reply.RegisterThrown? ==> store == StoreAfterLocal(old(store), old(datos), id, fecha)
      ensures reply.RegisterThrown? && Registrar(ListAt(old(store), "clientesRegistrados"), old(datos), id, fecha).None? ==>
        datos == old(datos) && destino == old(destino)
      ensures reply.RegisterThrown? && Registrar(ListAt(old(store), "clientesRegistrados"), old(datos), id, fecha).Some? ==>
        datos == EmptyRegistro && destino == Some("/login")
      ensures reply.RegisterBody? ==> store == old(store)
      ensures reply.RegisterBody? && Truthy(reply.success) ==> datos == EmptyRegistro && destino == Some("/login")
      ensures reply.RegisterBody? && !Truthy(reply.success) ==> datos == old(datos) && destino == old(destino)
    {
      if reply.RegisterThrown? {
        RegistrarEnLocalStorage(id, fecha);
      } else if Truthy(reply.success) {
        datos := EmptyRegistro;
        destino := Some("/login");
      }
    }

    /** `handleSubmit`: the backend exactly when the health check found it, the local list
        otherwise (and after a thrown backend request); a refusal or a taken email leaves
        the form and the destination as they were. */
    method HandleSubmit(reply: RegisterReply, id: int, fecha: string)
      modifies this`store, this`datos, this`destino, this`cargando
      ensures !old(backendDisponible) || reply.RegisterThrown? ==>
        store == StoreAfterLocal(old(store), old(datos), id, fecha)
      ensures old(backendDisponible) && reply.RegisterBody? ==> store == old(store)
      ensures old(backendDisponible) && reply.RegisterBody? && Truthy(reply.success) ==>
        datos == EmptyRegistro && destino == Some("/login")
      ensures old(backendDisponible) && reply.RegisterBody? && !Truthy(reply.success) ==>
        datos == old(datos) && destino == old(destino)
      ensures ((!old(backendDisponible) || reply.RegisterThrown?) &&
               Registrar(ListAt(old(store), "clientesRegistrados"), old(datos), id, fecha).None?) ==>
        datos == old(datos) && destino == old(destino)
      ensures ((!old(backendDisponible) || reply.RegisterThrown?) &&
               Registrar(ListAt(old(store), "clientesRegistrados"), old(datos), id, fecha).Some?) ==>
        datos == EmptyRegistro && destino == Some("/login")
      ensures !cargando
    {
      cargando := true;
      if backendDisponible {
        RegistrarConBackend(reply, id, fecha);
      } else {
        RegistrarEnLocalStorage(id, fecha);
      }
      cargando := false;
    }
  }
}
