/** The Express backend (backend/src/server.js): login, client registration,
    creating and listing service requests ("solicitudes"), the unchecked
    update of a request's state and technician, and the route table with its
    404 fallback. The PostgreSQL tables are sequences of rows held by a
    `Database` object; bcrypt's comparison is the opaque predicate `check`,
    its hash and the database clock are parameters. */
module Server {
  import opened Wrappers
  import opened Text
  import opened JsValue
  import opened Seqs
  import opened Sorting

  /** A row of `usuarios` (administrators and technicians). */
  datatype Usuario = Usuario(id: int, email: string, passwordHash: string, nombre: string,
                             rol: string, telefono: Json, especialidad: Json, activo: bool)

  /** A row of `clientes`. */
  datatype Cliente = Cliente(id: int, email: string, passwordHash: string, nombre: string,
                             telefono: Json, activo: bool, fechaRegistro: Json)

  /** The payload signed into the JWT. */
  datatype Claims = Claims(id: int, email: string, rol: string, tipo: string, nombre: string)

  /** The `user` object of an authentication reply; `None` marks a key the reply leaves out. */
  datatype UserView = UserView(id: int, email: string, nombre: string, rol: string, telefono: Json,
                               especialidad: Option<Json>, fechaRegistro: Option<Json>)

  /** What the login and registration routes answer. `Thrown` is an exception raised
      before the handler's `try`, for which the handler sends no reply. */
  datatype AuthReply =
    | Fail(status: int, message: string)
    | Authenticated(user: UserView, token: Claims, message: string)
    | Thrown

  /** What the request routes answer. `RoleRefused` is the 403 of `requireRole` for a
      role outside its list; backend/src/middleware/auth.js is not part of this model, so
      its body is not given. */
  datatype ApiReply =
    | Error(status: int, message: string)
    | One(message: string, solicitud: Obj)
    | Many(solicitudes: seq<Obj>)
    | RoleRefused

  /** The roles `requireRole('administrador', 'tecnico')` admits to the update route. */
  const UpdateRoles: seq<string> := ["administrador", "tecnico"]

  /** `req.user`: the id and role taken from the verified token. */
  datatype Caller = Caller(id: int, rol: string)

  const MissingCredentials := "Email y contraseña son obligatorios"
  const BadCredentials := "Credenciales incorrectas"
  const MissingFields := "Todos los campos son obligatorios"
  const DuplicateCliente := "Este email ya está registrado como cliente"
  const DuplicateUsuario := "Este email pertenece a un usuario interno del sistema"
  const InternalError := "Error interno del servidor"
  const MissingSolicitudFields := "Faltan campos obligatorios"
  const NoPermission := "Sin permisos"
  const SolicitudNotFound := "Solicitud no encontrada"

  /** `normEmail`: a string is trimmed and lower-cased, anything else becomes `''`. */
  function NormEmail(e: Option<Json>): (r: string)
    ensures AsString(e).None? ==> r == ""
    ensures AsString(e).Some? ==> var s := AsString(e).value;
      exists a :: SpaceAround(s, a, |r|) && r == Lower(s[a..a + |r|])
    ensures IsTrimmed(r) && Lower(r) == r
  {
    match AsString(e)
    case None => ""
    case Some(s) =>
      LowerTrimSpan(s);
      LowerTrimShape(s);
      Lower(Trim(s))
  }

  /** Normalising an address twice gives the same address as normalising it once. */
  lemma NormEmailIdempotent(e: Option<Json>)
    ensures NormEmail(Some(Str(NormEmail(e)))) == NormEmail(e)
  {
    TrimmedIsFixed(NormEmail(e));
  }

  /** An address typed with surrounding white space and capitals is stored as the
      lower-cased address alone. */
  lemma {:induction false} NormEmailOfPadded(pre: string, email: string, post: string)
    requires AllSpace(pre) && AllSpace(post)
    requires email != "" && IsTrimmed(email)
    ensures NormEmail(Some(Str(pre + email + post))) == Lower(email)
  {
    var typed := pre + email + post;
    TrimPadded(pre, email, post);
    assert AsString(Some(Str(typed))) == Some(typed);
    assert NormEmail(Some(Str(typed))) == Lower(Trim(typed));
  }

  /** The login body has a non-empty normalised email and a non-empty string password. */
  predicate LoginInputOk(body: Obj)
  {
    NormEmail(Get(body, "email")) != "" && AsString(Get(body, "password")).Some? &&
    AsString(Get(body, "password")).value != ""
  }

  /** `SELECT ... FROM usuarios WHERE email = $1 AND activo = true`, in table order. */
  function ActiveUsuarios(usuarios: seq<Usuario>, email: string): seq<Usuario>
  {
    Filter((u: Usuario) => u.activo && u.email == email, usuarios)
  }

  /** `SELECT ... FROM clientes WHERE email = $1 AND activo = true`, in table order. */
  function ActiveClientes(clientes: seq<Cliente>, email: string): seq<Cliente>
  {
    Filter((c: Cliente) => c.activo && c.email == email, clientes)
  }

  /** The reply for an internal user whose password matched. */
  function UsuarioLogin(u: Usuario): AuthReply
  {
    Authenticated(UserView(u.id, u.email, u.nombre, u.rol, u.telefono, Some(u.especialidad), None),
                  Claims(u.id, u.email, u.rol, "usuario", u.nombre),
                  "Login " + u.rol + " exitoso")
  }

  /** The reply for a client whose password matched. */
  function ClienteLogin(c: Cliente): AuthReply
  {
    Authenticated(UserView(c.id, c.email, c.nombre, "cliente", c.telefono, None, None),
                  Claims(c.id, c.email, "cliente", "cliente", c.nombre),
                  "Login cliente exitoso")
  }

  /** `(req.body?.f || '').trim()`: `None` when a truthy non-string makes `trim` throw. */
  function TrimmedField(body: Obj, f: string): Option<string>
  {
    var v := Or(Get(body, f), Some(Str("")));
    if v.Some? && v.value.Str? then Some(Trim(v.value.s)) else None
  }

  /** Some row of the table has this email. */
  predicate ClienteEmailTaken(clientes: seq<Cliente>, email: string)
  {
    exists i :: 0 <= i < |clientes| && clientes[i].email == email
  }

  predicate UsuarioEmailTaken(usuarios: seq<Usuario>, email: string)
  {
    exists i :: 0 <= i < |usuarios| && usuarios[i].email == email
  }

  /** The six fields `POST /api/solicitudes` demands, each truthy. */
  predicate HasRequiredFields(body: Obj)
  {
    Truthy(Get(body, "titulo")) && Truthy(Get(body, "descripcion")) &&
    Truthy(Get(body, "direccion_servicio")) && Truthy(Get(body, "comuna")) &&
    Truthy(Get(body, "region")) && Truthy(Get(body, "tipo_servicio"))
  }

  /** The `cliente_id` stored for a new request: a client always gets its own id;
      any other caller the body's value when truthy, else `null`. */
  function ClienteIdFor(caller: Caller, body: Obj): (r: Json)
    ensures caller.rol == "cliente" ==> r == Num(caller.id)
    ensures caller.rol != "cliente" && Truthy(Get(body, "cliente_id")) ==> r == body["cliente_id"]
    ensures caller.rol != "cliente" && !Truthy(Get(body, "cliente_id")) ==> r == Null
  {
    if caller.rol == "cliente" then Num(caller.id) else OrNull(Or(Get(body, "cliente_id"), Some(Null)))
  }

  /** The ten columns the insert names, in its order; the first is `cliente_id`. */
  const InsertedColumns: seq<string> := ["direccion_servicio", "comuna", "region", "titulo", "descripcion",
                                          "tipo_servicio", "prioridad", "equipos_solicitados", "comentarios_finales"]

  /** The id and the client are not among the body columns. */
  lemma KeysNotInserted()
    ensures "id" !in InsertedColumns && "cliente_id" !in InsertedColumns
  {
  }

  /** The row `INSERT INTO solicitudes ... RETURNING *` produces: the table defaults,
      the new id, `cliente_id`, and the nine body columns with `undefined` stored as `NULL`. */
  function NewSolicitudRow(defaults: Obj, id: int, clienteId: Json, body: Obj): (row: Obj)
    ensures "id" in row && row["id"] == Num(id) && "cliente_id" in row && row["cliente_id"] == clienteId
    ensures forall c :: c in InsertedColumns ==> c in row && row[c] == OrNull(Get(body, c))
    ensures forall k :: k in defaults && k != "id" && k != "cliente_id" && k !in InsertedColumns ==>
              k in row && row[k] == defaults[k]
  {
    KeysNotInserted();
    var given := map c | c in InsertedColumns :: OrNull(Get(body, c));
    defaults + map["id" := Num(id), "cliente_id" := clienteId] + given
  }

  /** PostgreSQL's reading of a text parameter as an `integer`: optional spaces and
      sign, decimal digits, and the 32-bit range; anything else is an SQL error. */
  function PgInt4(s: string): (r: Option<int>)
    ensures r.Some? ==> -0x8000_0000 <= r.value < 0x8000_0000
  {
    var t := ParseSignedDecimal(Trim(s));
    if t.Some? && -0x8000_0000 <= t.value < 0x8000_0000 then t else None
  }

  /** An integer id written in decimal is read back as itself. */
  lemma PgInt4OfDecimal(n: int)
    requires -0x8000_0000 <= n < 0x8000_0000
    ensures PgInt4(IntToString(n)) == Some(n)
  {
    DecimalIsTrimmed(n);
    TrimmedIsFixed(IntToString(n));
    IntToStringRoundTrip(n);
  }

  /** A client may list only its own requests: the path id must spell its id. */
  predicate MayList(caller: Caller, clienteId: string)
  {
    caller.rol != "cliente" || IntToString(caller.id) == clienteId
  }

  /** `WHERE cliente_id = n`. */
  function OwnedBy(n: int): Obj -> bool
  {
    row => Get(row, "cliente_id") == Some(Num(n))
  }

  /** `WHERE id = n`. */
  function IdIs(n: int): Obj -> bool
  {
    row => Get(row, "id") == Some(Num(n))
  }

  /** The update applied to one matching row. */
  function Updater(body: Obj, now: Json): Obj -> Obj
  {
    row => UpdatedRow(row, body, now)
  }

  /** The form fields of a registration: `Thrown` when `nombre` or `telefono` is a
      truthy non-string, `Fail(400)` when one of the four is empty. */
  predicate RegisterThrows(body: Obj)
  {
    TrimmedField(body, "nombre").None? || TrimmedField(body, "telefono").None?
  }

  predicate RegisterFieldsPresent(body: Obj)
    requires !RegisterThrows(body)
  {
    TrimmedField(body, "nombre").value != "" && NormEmail(Get(body, "email")) != "" &&
    Truthy(Get(body, "password")) && TrimmedField(body, "telefono").value != ""
  }

  /** The client row a successful registration inserts. */
  function NewCliente(id: int, body: Obj, hash: string, now: Json): Cliente
    requires !RegisterThrows(body)
  {
    Cliente(id, NormEmail(Get(body, "email")), hash, TrimmedField(body, "nombre").value,
            Str(TrimmedField(body, "telefono").value), true, now)
  }

  /** The reply to a successful registration. */
  function Registered(cli: Cliente): AuthReply
  {
    Authenticated(UserView(cli.id, cli.email, cli.nombre, "cliente", cli.telefono, None, Some(cli.fechaRegistro)),
                  Claims(cli.id, cli.email, "cliente", "cliente", cli.nombre),
                  "Registro exitoso")
  }

  /** `SET estado_actual = $1, tecnico_id = $2, fecha_actualizacion = CURRENT_TIMESTAMP`. */
  function UpdatedRow(row: Obj, body: Obj, now: Json): (r: Obj)
    ensures r.Keys == row.Keys + {"estado_actual", "tecnico_id", "fecha_actualizacion"}
    ensures r["estado_actual"] == OrNull(Get(body, "estado_actual"))
    ensures r["tecnico_id"] == OrNull(Get(body, "tecnico_id"))
    ensures r["fecha_actualizacion"] == now
    ensures forall k :: k in row && k != "estado_actual" && k != "tecnico_id" && k != "fecha_actualizacion" ==>
              r[k] == row[k]
  {
    row["estado_actual" := OrNull(Get(body, "estado_actual"))]
       ["tecnico_id" := OrNull(Get(body, "tecnico_id"))]
       ["fecha_actualizacion" := now]
  }

  /** The update applies whatever state the body names, from any state: there is no
      transition rule, so a completed request can be sent back to `pendiente`. */
  lemma UpdateHasNoTransitionCheck(row: Obj, estado: string, now: Json)
    ensures UpdatedRow(row, map["estado_actual" := Str(estado)], now)["estado_actual"] == Str(estado)
  {
  }

  /** A body without `estado_actual` clears the stored state to `NULL`. */
  lemma UpdateWithoutEstadoClearsIt(row: Obj, body: Obj, now: Json)
    requires "estado_actual" !in body
    ensures UpdatedRow(row, body, now)["estado_actual"] == Null
  {
  }

  /** The PostgreSQL tables and the id sequences of `clientes` and `solicitudes`. */
  class Database {
    var usuarios: seq<Usuario>
    var clientes: seq<Cliente>
    var solicitudes: seq<Obj>
    var nextClienteId: int
    var nextSolicitudId: int

    constructor (usuarios: seq<Usuario>, clientes: seq<Cliente>, solicitudes: seq<Obj>,
                 nextClienteId: int, nextSolicitudId: int)
      ensures this.usuarios == usuarios && this.clientes == clientes && this.solicitudes == solicitudes
      ensures this.nextClienteId == nextClienteId && this.nextSolicitudId == nextSolicitudId
    {
      this.usuarios := usuarios;
      this.clientes := clientes;
      this.solicitudes := solicitudes;
      this.nextClienteId := nextClienteId;
      this.nextSolicitudId := nextSolicitudId;
    }

    /** `POST /api/auth/login`. Input is checked first; active internal users are looked
        up before clients, and the first matching row decides: a wrong password there is
        401 without trying clients. */
    method Login(body: Obj, check: (string, string) -> bool) returns (r: AuthReply)
      ensures !LoginInputOk(body) <==> r == Fail(400, MissingCredentials)
      ensures LoginInputOk(body) ==>
        var email, password := NormEmail(Get(body, "email")), AsString(Get(body, "password")).value;
        var us, cs := ActiveUsuarios(usuarios, email), ActiveClientes(clientes, email);
        if us != [] then
          r == (if check(password, us[0].passwordHash) then UsuarioLogin(us[0]) else Fail(401, BadCredentials))
        else if cs != [] then
          r == (if check(password, cs[0].passwordHash) then ClienteLogin(cs[0]) else Fail(401, BadCredentials))
        else r == Fail(401, BadCredentials)
      ensures r != Thrown
      ensures r.Authenticated? ==> r.token.email == NormEmail(Get(body, "email"))
      ensures r.Authenticated? && r.token.tipo == "cliente" ==>
        ActiveUsuarios(usuarios, NormEmail(Get(body, "email"))) == []
    {
      var email := NormEmail(Get(body, "email"));
      var password := Get(body, "password");
      if email == "" || AsString(password).None? || AsString(password).value == "" {
        return Fail(400, MissingCredentials);
      }
      var pw := AsString(password).value;
      var u := ActiveUsuarios(usuarios, email);
      if |u| > 0 {
        var usuario := u[0];
        if !check(pw, usuario.passwordHash) {
          return Fail(401, BadCredentials);
        }
        return UsuarioLogin(usuario);
      }
      var c := ActiveClientes(clientes, email);
      if |c| > 0 {
        var cliente := c[0];
        if !check(pw, cliente.passwordHash) {
          return Fail(401, BadCredentials);
        }
        return ClienteLogin(cliente);
      }
      return Fail(401, BadCredentials);
    }

    /** `POST /api/auth/register`. `hash` is bcrypt's output for the password and `now`
        the database's `fecha_registro` default. The duplicate checks look at every
        row, active or not. */
    method Register(body: Obj, hash: string, now: Json) returns (r: AuthReply)
      modifies this`clientes, this`nextClienteId
      ensures RegisterThrows(body) ==> r == Thrown
      ensures !RegisterThrows(body) && !RegisterFieldsPresent(body) ==> r == Fail(400, MissingFields)
      ensures !RegisterThrows(body) && RegisterFieldsPresent(body) ==>
        var email := NormEmail(Get(body, "email"));
        if ClienteEmailTaken(old(clientes), email) then r == Fail(400, DuplicateCliente)
        else if UsuarioEmailTaken(old(usuarios), email) then r == Fail(400, DuplicateUsuario)
        else if AsString(Get(body, "password")).None? then r == Fail(500, InternalError)
        else r == Registered(NewCliente(old(nextClienteId), body, hash, now))
      ensures r.Authenticated? ==>
        clientes == old(clientes) + [NewCliente(old(nextClienteId), body, hash, now)] &&
        nextClienteId == old(nextClienteId) + 1
      ensures !r.Authenticated? ==> clientes == old(clientes) && nextClienteId == old(nextClienteId)
    {
      if RegisterThrows(body) {
        return Thrown;
      }
      if !RegisterFieldsPresent(body) {
        return Fail(400, MissingFields);
      }
      var email := NormEmail(Get(body, "email"));
      if ClienteEmailTaken(clientes, email) {
        return Fail(400, DuplicateCliente);
      }
      if UsuarioEmailTaken(usuarios, email) {
        return Fail(400, DuplicateUsuario);
      }
      if AsString(Get(body, "password")).None? {
        return Fail(500, InternalError);
      }
      var cli := NewCliente(nextClienteId, body, hash, now);
      AddCliente(cli);
      return Registered(cli);
    }

    /** `INSERT INTO clientes`: the row is appended and the id sequence advances. */
    method AddCliente(cli: Cliente)
      modifies this`clientes, this`nextClienteId
      ensures clientes == old(clientes) + [cli] && nextClienteId == old(nextClienteId) + 1
    {
      clientes := clientes + [cli];
      nextClienteId := nextClienteId + 1;
    }

    /** `POST /api/solicitudes`. `defaults` are the column defaults of the table
        (state, technician, timestamps). */
    method CreateSolicitud(caller: Caller, body: Obj, defaults: Obj) returns (r: ApiReply)
      modifies this`solicitudes, this`nextSolicitudId
      ensures !HasRequiredFields(body) ==>
        r == Error(400, MissingSolicitudFields) &&
        solicitudes == old(solicitudes) && nextSolicitudId == old(nextSolicitudId)
      ensures HasRequiredFields(body) ==>
        var row := NewSolicitudRow(defaults, old(nextSolicitudId), ClienteIdFor(caller, body), body);
        solicitudes == old(solicitudes) + [row] && nextSolicitudId == old(nextSolicitudId) + 1 &&
        r == One("Solicitud creada exitosamente", row)
    {
      if !HasRequiredFields(body) {
        return Error(400, MissingSolicitudFields);
      }
      var clienteId := ClienteIdFor(caller, body);
      var row := NewSolicitudRow(defaults, nextSolicitudId, clienteId, body);
      solicitudes := solicitudes + [row];
      nextSolicitudId := nextSolicitudId + 1;
      return One("Solicitud creada exitosamente", row);
    }

    /** `GET /api/solicitudes/cliente/:clienteId`. `stamp` is the database's ordering
        key of a row's `fecha_solicitud`; rows come back newest first. */
    method ListByCliente(caller: Caller, clienteId: string, stamp: Obj -> int) returns (r: ApiReply)
      ensures !MayList(caller, clienteId) <==> r == Error(403, NoPermission)
      ensures MayList(caller, clienteId) && PgInt4(clienteId).None? ==> r == Error(500, InternalError)
      ensures MayList(caller, clienteId) && PgInt4(clienteId).Some? ==>
        r.Many? &&
        multiset(r.solicitudes) == multiset(Filter(OwnedBy(PgInt4(clienteId).value), solicitudes)) &&
        SortedBy(r.solicitudes, (a: Obj, b: Obj) => stamp(a) >= stamp(b))
    {
      if caller.rol == "cliente" && IntToString(caller.id) != clienteId {
        return Error(403, NoPermission);
      }
      var n := PgInt4(clienteId);
      if n.None? {
        return Error(500, InternalError);
      }
      var id := n.value;
      var rows := Filter(OwnedBy(id), solicitudes);
      var newestFirst := (a: Obj, b: Obj) => stamp(a) >= stamp(b);
      SortIsSorted(rows, newestFirst);
      SortPermutes(rows, newestFirst);
      return Many(InsertionSort(rows, newestFirst));
    }

    /** `PUT /api/solicitudes/:id`: a caller outside the two roles is refused by
        `requireRole` and nothing changes; otherwise every row with that id gets the body's
        state and technician (absent ones as `NULL`) with no check of any kind, and no such
        row is 404. */
    method UpdateSolicitud(caller: Caller, id: string, body: Obj, now: Json) returns (r: ApiReply)
      modifies this`solicitudes
      ensures caller.rol !in UpdateRoles ==> r == RoleRefused && solicitudes == old(solicitudes)
      ensures caller.rol in UpdateRoles && PgInt4(id).None? ==>
        r == Error(500, InternalError) && solicitudes == old(solicitudes)
      ensures caller.rol in UpdateRoles && PgInt4(id).Some? ==>
        solicitudes == MapWhere(IdIs(PgInt4(id).value), Updater(body, now), old(solicitudes))
      ensures caller.rol in UpdateRoles && PgInt4(id).Some? ==>
        var k := FirstIndex(IdIs(PgInt4(id).value), old(solicitudes));
        if k.None? then r == Error(404, SolicitudNotFound)
        else r == One("Solicitud actualizada exitosamente", solicitudes[k.value])
    {
      if caller.rol !in UpdateRoles {
        return RoleRefused;
      }
      var p := PgInt4(id);
      if p.None? {
        return Error(500, InternalError);
      }
      var k := FirstIndex(IdIs(p.value), solicitudes);
      solicitudes := MapWhere(IdIs(p.value), Updater(body, now), solicitudes);
      if k.None? {
        return Error(404, SolicitudNotFound);
      }
      return One("Solicitud actualizada exitosamente", solicitudes[k.value]);
    }
  }

  /** The routes the server registers, detected from the method and the path.
      `Preflight` is the 204 that `cors()` sends to every `OPTIONS` request before any
      route is tried. */
  datatype Route =
    | Preflight
    | Health | LoginRoute | Me | RegisterRoute | CreateRoute | ListByClienteRoute(clienteId: string)
    | ListAllRoute | TecnicosRoute | UpdateRoute(id: string) | NotFound

  /** The path split at `/`, with the one optional trailing slash Express's non-strict
      routes accept dropped. */
  function Segments(path: string): (r: seq<string>)
    ensures |r| >= 1
  {
    var seg := Split(path, '/');
    if |seg| > 2 && seg[|seg| - 1] == "" then seg[..|seg| - 1] else seg
  }

  /** Literal segments compared as Express's case-insensitive route expressions compare them. */
  predicate SegmentsMatch(p: seq<string>, literal: seq<string>)
  {
    |p| == |literal| && forall i :: 0 <= i < |p| ==> EqualFold(p[i], literal[i])
  }

  /** Express matching: `cors()` answers `OPTIONS`; `HEAD` is served by the `GET` handlers;
      the literal segments ignore letter case and one trailing slash is allowed. Any other
      request reaches the `Ruta no encontrada` handler. */
  function RouteOf(verb: string, path: string): (r: Route)
    ensures r == Preflight <==> verb == "OPTIONS"
    ensures verb !in {"OPTIONS", "GET", "HEAD", "POST", "PUT"} ==> r == NotFound
  {
    if verb == "OPTIONS" then Preflight
    else
      var v := if verb == "HEAD" then "GET" else verb;
      var seg := Segments(path);
      if |seg| < 2 || seg[0] != "" then NotFound
      else
        var p := seg[1..];
        if v == "GET" && SegmentsMatch(p, ["api", "health"]) then Health
        else if v == "POST" && SegmentsMatch(p, ["api", "auth", "login"]) then LoginRoute
        else if v == "GET" && SegmentsMatch(p, ["api", "auth", "me"]) then Me
        else if v == "POST" && SegmentsMatch(p, ["api", "auth", "register"]) then RegisterRoute
        else if v == "POST" && SegmentsMatch(p, ["api", "solicitudes"]) then CreateRoute
        else if v == "GET" && |p| == 4 && SegmentsMatch(p[..3], ["api", "solicitudes", "cliente"]) && p[3] != "" then
          ListByClienteRoute(p[3])
        else if v == "GET" && SegmentsMatch(p, ["api", "solicitudes"]) then ListAllRoute
        else if v == "GET" && SegmentsMatch(p, ["api", "tecnicos"]) then TecnicosRoute
        else if v == "PUT" && |p| == 3 && SegmentsMatch(p[..2], ["api", "solicitudes"]) && p[2] != "" then
          UpdateRoute(p[2])
        else NotFound
  }

  /** A `HEAD` request reaches exactly the handler a `GET` of the same path reaches. */
  lemma HeadIsServedAsGet(path: string)
    ensures RouteOf("HEAD", path) == RouteOf("GET", path)
  {
  }

  /** The admin page's "send to technician" call,
      `PATCH /api/solicitudes/:id/enviar-a-tecnico`, has no handler and gets the 404 reply. */
  lemma EnviarATecnicoNotRouted(id: string)
    ensures RouteOf("PATCH", "/api/solicitudes/" + id + "/enviar-a-tecnico") == NotFound
  {
  }

  /** The prefix of the request paths, separator by separator. */
  lemma SolicitudesPrefix()
    ensures "/api/solicitudes/" == ['/'] + "api" + ['/'] + "solicitudes" + ['/']
  {
  }

  /** A path of one segment under `/api/solicitudes` splits into that segment after
      `api` and `solicitudes`. */
  lemma SolicitudesSegments(x: string)
    requires '/' !in x && x != ""
    ensures Segments("/api/solicitudes/" + x) == ["", "api", "solicitudes", x]
  {
    SolicitudesPrefix();
    SplitThree("api", "solicitudes", x, '/');
  }

  /** A GET of a single segment under `/api/solicitudes`, such as the technician panel's
      `/api/solicitudes/mias`, has no handler: three segments match neither the client
      list nor the full list. (An empty segment is the full list's trailing slash.) */
  lemma SolicitudesSubpathNotRouted(x: string)
    requires '/' !in x && x != ""
    ensures RouteOf("GET", "/api/solicitudes/" + x) == NotFound
  {
    SolicitudesSegments(x);
    var p := Segments("/api/solicitudes/" + x)[1..];
    assert p == ["api", "solicitudes", x];
    assert !EqualFold(p[1], "auth");
    assert !SegmentsMatch(p, ["api", "auth", "me"]);
  }

  /** `PUT /<a>/<b>/<id>` with `a` and `b` spelling `api` and `solicitudes` in any letter
      case, and with or without a trailing slash, reaches the update handler with the id
      segment. */
  lemma UpdatePathRouted(a: string, b: string, id: string, trailing: bool)
    requires EqualFold(a, "api") && EqualFold(b, "solicitudes")
    requires '/' !in a && '/' !in b && '/' !in id && id != ""
    ensures RouteOf("PUT", "/" + a + "/" + b + "/" + id + (if trailing then "/" else "")) == UpdateRoute(id)
  {
    var path := "/" + a + "/" + b + "/" + id + (if trailing then "/" else "");
    if trailing {
      SplitThreeThenSeparator(a, b, id, '/');
      assert path == ['/'] + a + ['/'] + b + ['/'] + id + ['/'];
      assert Segments(path) == ["", a, b, id];
    } else {
      SplitThree(a, b, id, '/');
      assert path == ['/'] + a + ['/'] + b + ['/'] + id;
    }
    var p := Segments(path)[1..];
    assert p[..2] == [a, b];
  }
}
