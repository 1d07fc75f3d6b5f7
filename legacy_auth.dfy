/** The earlier login and registration pages, which work on the local client
    list only. */
module LegacyAuth {
  import opened Wrappers
  import opened JsValue
  import opened Seqs
  import opened Storage
  import opened LocalAccounts

  /** The stored client the login accepts: only when both fields are non-empty, the first
      one whose email and password are the entered ones. */
  function ClienteEncontrado(clientes: seq<Obj>, email: string, password: string): (c: Option<Obj>)
    ensures c.Some? <==> email != "" && password != "" &&
                         exists i :: 0 <= i < |clientes| && Credentials(email, password)(clientes[i])
    ensures c.Some? ==> c.value in clientes && Credentials(email, password)(c.value)
    ensures c.Some? ==>
      exists i :: 0 <= i < |clientes| && c.value == clientes[i] &&
        Credentials(email, password)(clientes[i]) &&
        forall j :: 0 <= j < i ==> !Credentials(email, password)(clientes[j])
  {
    if email != "" && password != "" then Find(Credentials(email, password), clientes) else None
  }

  /** A wrong password for every stored client with the email finds nobody. */
  lemma WrongPasswordFindsNobody(clientes: seq<Obj>, email: string, password: string)
    requires forall i :: 0 <= i < |clientes| && Get(clientes[i], "email") == Some(Str(email)) ==>
      Get(clientes[i], "password") != Some(Str(password))
    ensures ClienteEncontrado(clientes, email, password) == None
  {
    forall i | 0 <= i < |clientes| ensures !Credentials(email, password)(clientes[i]) {
    }
  }

  /** The login form and what the page has written and where it went. */
  class LoginPage {
    var store: Store
    var email: string
    var password: string
    var destino: Option<string>

    constructor (store: Store)
      ensures this.store == store && email == "" && password == "" && destino == None
    {
      this.store := store;
      email, password := "", "";
      destino := None;
    }

    /** `handleSubmit`: the demo administrator and technician emails set their flag whatever
        the password and skip the client lookup; otherwise a matching stored client is written
        as the session, the form cleared and the page sent home; anything else writes nothing. */
    method HandleSubmit()
      modifies this`store, this`email, this`password, this`destino
      ensures old(email) == "admin@infoser.cl" ==>
        store == old(store)["adminLoggedIn" := Text("true")] && destino == Some("/admin/menu") &&
        email == old(email) && password == old(password)
      ensures old(email) == "juan.alvarez@infoser.cl" ==>
        store == old(store)["tecnicoLoggedIn" := Text("true")] && destino == Some("/tecnico/panel") &&
        email == old(email) && password == old(password)
      ensures old(email) != "admin@infoser.cl" && old(email) != "juan.alvarez@infoser.cl" ==>
        var c := ClienteEncontrado(ListAt(old(store), "clientesRegistrados"), old(email), old(password));
        (c.None? ==> store == old(store) && destino == old(destino) && email == old(email) && password == old(password)) &&
        (c.Some? ==> store == old(store)["clienteActual" := Record(c.value)]["clienteLoggedIn" := Text("true")] &&
                     email == "" && password == "" && destino == Some("/"))
    {
      if email == "admin@infoser.cl" {
        store := store["adminLoggedIn" := Text("true")];
        destino := Some("/admin/menu");
        return;
      }
      if email == "juan.alvarez@infoser.cl" {
        store := store["tecnicoLoggedIn" := Text("true")];
        destino := Some("/tecnico/panel");
        return;
      }
      if email != "" && password != "" {
        var c := Find(Credentials(email, password), ListAt(store, "clientesRegistrados"));
        if c.Some? {
          IniciarSesion(c.value);
        }
      }
    }

    /** The client found is written as the session, the form cleared and the page sent home. */
    method IniciarSesion(cliente: Obj)
      modifies this`store, this`email, this`password, this`destino
      ensures store == old(store)["clienteActual" := Record(cliente)]["clienteLoggedIn" := Text("true")]
      ensures email == "" && password == "" && destino == Some("/")
    {
      store := store["clienteActual" := Record(cliente)];
      store := store["clienteLoggedIn" := Text("true")];
      email, password := "", "";
      destino := Some("/");
    }
  }

  /** The registration form and what the page has stored and where it went. */
  class RegisterPage {
    var store: Store
    var datos: Registro
    var destino: Option<string>

    constructor (store: Store)
      ensures this.store == store && datos == EmptyRegistro && destino == None
    {
      this.store := store;
      datos := EmptyRegistro;
      destino := None;
    }

    /** `handleSubmit`: a taken email returns early with nothing changed; otherwise the new
        client is pushed onto the stored list, the form reset and the page sent to the login. */
    method HandleSubmit(id: int, fecha: string)
      modifies this`store, this`datos, this`destino
      ensures var r := Registrar(ListAt(old(store), "clientesRegistrados"), old(datos), id, fecha);
        (r.None? ==> store == old(store) && datos == old(datos) && destino == old(destino)) &&
        (r.Some? ==> store == old(store)["clientesRegistrados" := Records(r.value)] &&
                     datos == EmptyRegistro && destino == Some("/login"))
    {
      var clientes := ListAt(store, "clientesRegistrados");
      if exists i :: 0 <= i < |clientes| && Get(clientes[i], "email") == Some(Str(datos.email)) {
        return;
      }
      clientes := clientes + [NuevoCliente(datos, id, fecha)];
      store := store["clientesRegistrados" := Records(clientes)];
      datos := EmptyRegistro;
      destino := Some("/login");
    }
  }
}
