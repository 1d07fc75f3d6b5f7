/** The home page served by the API: the client resolved from the stored
    session, the list of that client's requests loaded from the server, the
    request sent to create a new one, and logout. */
module Home {
  import opened Wrappers
  import opened JsValue
  import opened Storage
  import opened Api
  import opened HomeForm
  import Routes
  import Server

  /** The client of the mount effect: `clienteActual` when stored, else `userData` when its
      role is `cliente`, else nobody. */
  function ClienteDeSesion(store: Store): (c: Option<Obj>)
    ensures ObjectAt(store, "clienteActual").Some? ==> c == ObjectAt(store, "clienteActual")
    ensures ObjectAt(store, "clienteActual").None? ==>
      (c.Some? <==> ObjectAt(store, "userData").Some? && Get(ObjectAt(store, "userData").value, "rol") == Some(Str("cliente")))
    ensures ObjectAt(store, "clienteActual").None? && c.Some? ==> c == ObjectAt(store, "userData")
  {
    var userData := ObjectAt(store, "userData");
    var clienteActual := ObjectAt(store, "clienteActual");
    var isCliente := (userData.Some? && Get(userData.value, "rol") == Some(Str("cliente"))) || clienteActual.Some?;
    if clienteActual.Some? then clienteActual
    else if isCliente then userData
    else None
  }

  /** What the creation request produced. */
  datatype PostReply = PostThrown | PostBody(success: Option<Json>)

  /** The body sent to create a request: the form with the client's id, name and email. */
  function DatosSolicitud(form: Obj, cliente: Obj): (d: Obj)
    ensures Get(d, "cliente_id") == Get(cliente, "id")
    ensures Get(d, "cliente_nombre") == Get(cliente, "nombre")
    ensures Get(d, "cliente_email") == Get(cliente, "email")
  {
    (form - {"cliente_id", "cliente_nombre", "cliente_email"}) + ClienteCampos(cliente)
  }

  /** Every other field of the body is the form's own. */
  lemma DatosSolicitudKeepsForm(form: Obj, cliente: Obj, k: string)
    requires k != "cliente_id" && k != "cliente_nombre" && k != "cliente_email"
    ensures Get(DatosSolicitud(form, cliente), k) == Get(form, k)
  {
    GetMerge(form - {"cliente_id", "cliente_nombre", "cliente_email"}, ClienteCampos(cliente), k);
    GetMinus(form, {"cliente_id", "cliente_nombre", "cliente_email"}, k);
  }

  /** The client's id, name and email under the keys the request carries them, each only
      when the client has it. */
  function ClienteCampos(cliente: Obj): (m: Obj)
    ensures Get(m, "cliente_id") == Get(cliente, "id")
    ensures Get(m, "cliente_nombre") == Get(cliente, "nombre")
    ensures Get(m, "cliente_email") == Get(cliente, "email")
    ensures m.Keys <= {"cliente_id", "cliente_nombre", "cliente_email"}
  {
    Single("cliente_id", Get(cliente, "id")) + Single("cliente_nombre", Get(cliente, "nombre")) +
    Single("cliente_email", Get(cliente, "email"))
  }

  /** A form complete for the page that also has a region and a service type passes the
      server's own required-field check. */
  lemma CompleteFormPassesServer(form: Obj, cliente: Obj)
    requires Completo(form) && Truthy(Get(form, "region")) && Truthy(Get(form, "tipo_servicio"))
    ensures Server.HasRequiredFields(DatosSolicitud(form, cliente))
  {
    DatosSolicitudKeepsForm(form, cliente, "titulo");
    DatosSolicitudKeepsForm(form, cliente, "descripcion");
    DatosSolicitudKeepsForm(form, cliente, "direccion_servicio");
    DatosSolicitudKeepsForm(form, cliente, "comuna");
    DatosSolicitudKeepsForm(form, cliente, "region");
    DatosSolicitudKeepsForm(form, cliente, "tipo_servicio");
  }

  /** The keys logout removes. */
  const SesionKeys: set<string> := {"clienteActual", "clienteLoggedIn", "authToken", "userData"}

  /** After logout no guarded page opens: the guard finds neither user nor token. */
  lemma LogoutClosesGuard(store: Store, roles: Option<seq<string>>)
    ensures Routes.RequireAuth(store - SesionKeys, roles) == Routes.ToLogin
    ensures ClienteDeSesion(store - SesionKeys) == None
  {
    assert "userData" !in store - SesionKeys;
    assert "clienteActual" !in store - SesionKeys;
  }

  /** The list after `cargarSolicitudes`: a reply's `solicitudes` (`[]` when it has none);
      a thrown request keeps the list. */
  function ListaTrasCarga(prev: seq<Obj>, reply: ListReply): seq<Obj>
  {
    if reply.ListThrown? then prev
    else if reply.solicitudes.Some? then reply.solicitudes.value else []
  }

  /** The error after `cargarSolicitudes`: cleared by a reply, the thrown message (or the
      default text) otherwise. */
  function ErrorTrasCarga(reply: ListReply): string
  {
    if reply.ListBody? then ""
    else if reply.message != "" then reply.message else "No se pudieron cargar las solicitudes"
  }

  /** The page's state. */
  class Home {
    var store: Store
    var cliente: Option<Obj>
    var solicitudes: seq<Obj>
    var form: Obj
    var mostrarFormulario: bool
    var cargando: bool
    var error: string
    var destino: Option<string>

    constructor (store: Store)
      ensures this.store == store && cliente == None && solicitudes == [] && form == FormularioInicial
      ensures !mostrarFormulario && !cargando && error == "" && destino == None
    {
      this.store := store;
      cliente := None;
      solicitudes := [];
      form := FormularioInicial;
      mostrarFormulario, cargando := false, false;
      error := "";
      destino := None;
    }

    /** `cargarSolicitudes`: one GET of the client's list; a reply replaces the list
        (`[]` when it has none), a thrown request keeps it and shows the error. */
    method CargarSolicitudes(clienteId: Option<Json>, reply: ListReply) returns (sent: Request)
      modifies this`solicitudes, this`error
      ensures sent == Request("GET", "/api/solicitudes/cliente/" + JsString(clienteId), map[])
      ensures reply.ListBody? ==>
        error == "" && solicitudes == (if reply.solicitudes.Some? then reply.solicitudes.value else [])
      ensures reply.ListThrown? ==>
        solicitudes == old(solicitudes) &&
        error == (if reply.message != "" then reply.message else "No se pudieron cargar las solicitudes")
    {
      error := "";
      sent := Request("GET", "/api/solicitudes/cliente/" + JsString(clienteId), map[]);
      if reply.ListBody? {
        solicitudes := if reply.solicitudes.Some? then reply.solicitudes.value else [];
      } else {
        error := if reply.message != "" then reply.message else "No se pudieron cargar las solicitudes";
      }
    }

    /** The mount effect: with no client nothing is loaded; otherwise the client is set and its
        list requested, the reply deciding the list and the error. */
    method Montar(reply: ListReply) returns (sent: Option<Request>)
      modifies this`cliente, this`solicitudes, this`error
      ensures ClienteDeSesion(store).None? ==>
        sent == None && cliente == old(cliente) && solicitudes == old(solicitudes) && error == old(error)
      ensures ClienteDeSesion(store).Some? ==>
        cliente == ClienteDeSesion(store) &&
        sent == Some(Request("GET", "/api/solicitudes/cliente/" + JsString(Get(cliente.value, "id")), map[])) &&
        solicitudes == ListaTrasCarga(old(solicitudes), reply) && error == ErrorTrasCarga(reply)
    {
      var c := ClienteDeSesion(store);
      if c.None? {
        return None;
      }
      cliente := c;
      var r := CargarSolicitudes(Get(c.value, "id"), reply);
      sent := Some(r);
    }

    /** `handleLogout`: exactly the four session keys are removed and the page emptied. */
    method HandleLogout()
      modifies this`store, this`cliente, this`solicitudes, this`mostrarFormulario
      ensures store == old(store) - SesionKeys
      ensures cliente == None && solicitudes == [] && !mostrarFormulario
    {
      store := store - SesionKeys;
      cliente, solicitudes := None, [];
      mostrarFormulario := false;
    }

    /** `handleSolicitarServicio`: a visitor goes to the login, a client gets the form. */
    method HandleSolicitarServicio()
      modifies this`destino, this`mostrarFormulario
      ensures cliente.None? ==> destino == Some("/login") && mostrarFormulario == old(mostrarFormulario)
      ensures cliente.Some? ==> mostrarFormulario && destino == old(destino)
    {
      if cliente.None? {
        destino := Some("/login");
      } else {
        mostrarFormulario := true;
      }
    }

    /** `resetearFormulario`: the initial values, and the form closed. */
    method ResetearFormulario()
      modifies this`form, this`mostrarFormulario
      ensures form == FormularioInicial && !mostrarFormulario
    {
      form := FormularioInicial;
      mostrarFormulario := false;
    }

    /** `crearSolicitud`, reachable only from the form a client sees: the error is cleared; an
        incomplete form sends nothing; otherwise one POST of the form with the client's fields,
        and only a reply with `success` resets the form and reloads the list. */
    method CrearSolicitud(post: PostReply, reload: ListReply) returns (sent: seq<Request>)
      requires cliente.Some?
      modifies this`form, this`mostrarFormulario, this`solicitudes, this`error, this`cargando
      ensures !cargando
      ensures !Completo(old(form)) ==>
        sent == [] && form == old(form) && solicitudes == old(solicitudes) && mostrarFormulario == old(mostrarFormulario) &&
        error == ""
      ensures Completo(old(form)) ==> |sent| >= 1 && sent[0] == Request("POST", "/api/solicitudes", DatosSolicitud(old(form), cliente.value))
      ensures Completo(old(form)) && !(post.PostBody? && Truthy(post.success)) ==>
        |sent| == 1 && form == old(form) && solicitudes == old(solicitudes) && mostrarFormulario == old(mostrarFormulario) &&
        error == ""
      ensures Completo(old(form)) && post.PostBody? && Truthy(post.success) ==>
        |sent| == 2 && sent[1] == Request("GET", "/api/solicitudes/cliente/" + JsString(Get(cliente.value, "id")), map[]) &&
        form == FormularioInicial && !mostrarFormulario &&
        solicitudes == ListaTrasCarga(old(solicitudes), reload) && error == ErrorTrasCarga(reload)
    {
      cargando := true;
      error := "";
      if !Completo(form) {
        cargando := false;
        return [];
      }
      sent := Publicar(DatosSolicitud(form, cliente.value), Get(cliente.value, "id"), post, reload);
      cargando := false;
    }

    /** The POST of a complete form and what its reply leads to: a reply with `success`
        resets the form and reloads the client's list, any other leaves the page as it was. */
    method Publicar(datos: Obj, clienteId: Option<Json>, post: PostReply, reload: ListReply) returns (sent: seq<Request>)
      modifies this`form, this`mostrarFormulario, this`solicitudes, this`error
      ensures |sent| >= 1 && sent[0] == Request("POST", "/api/solicitudes", datos)
      ensures !(post.PostBody? && Truthy(post.success)) ==>
        |sent| == 1 && form == old(form) && solicitudes == old(solicitudes) && mostrarFormulario == old(mostrarFormulario) &&
        error == old(error)
      ensures post.PostBody? && Truthy(post.success) ==>
        |sent| == 2 && sent[1] == Request("GET", "/api/solicitudes/cliente/" + JsString(clienteId), map[]) &&
        form == FormularioInicial && !mostrarFormulario &&
        solicitudes == ListaTrasCarga(old(solicitudes), reload) && error == ErrorTrasCarga(reload)
    {
      sent := [Request("POST", "/api/solicitudes", datos)];
      if post.PostBody? && Truthy(post.success) {
        ResetearFormulario();
        var r := CargarSolicitudes(clienteId, reload);
        sent := sent + [r];
      }
    }
  }
}
