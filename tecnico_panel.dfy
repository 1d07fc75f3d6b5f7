/** The technician's panel: the filtered and sorted view of the assigned
    requests, the state update it sends and merges back, and the counters
    shown in its sidebar. */
module TecnicoPanel {
  import opened Wrappers
  import opened Text
  import opened JsValue
  import opened Seqs
  import opened Sorting
  import opened Api
  import opened Storage
  import Routes

  /** `s.estado_actual || 'pendiente'`: a missing or falsy state reads as pending. */
  function EstadoVista(s: Obj): Option<Json>
  {
    Or(Get(s, "estado_actual"), Some(Str("pendiente")))
  }

  /** The string form of an integer never names a state. */
  lemma NumeralIsNoEstado(n: int)
    ensures IntToString(n) != "pendiente" && IntToString(n) != "en_proceso" && IntToString(n) != "completada"
  {
    var t := IntToString(n);
    NatToStringShape(if n < 0 then -n else n);
    assert forall i :: 0 <= i < |t| ==> t[i] == '-' || IsDigit(t[i]);
    if |t| > 0 {
      assert t[0] != 'p' && t[0] != 'e' && t[0] != 'c';
    }
  }

  /** A state value and its string form name the same state. */
  lemma KeyNamesEstado(v: Option<Json>)
    requires v.Some? && v.value != Null
    ensures forall e :: e in {"pendiente", "en_proceso", "completada"} ==> (JsString(v) == e <==> v == Some(Str(e)))
  {
    if v.value.Num? {
      NumeralIsNoEstado(v.value.n);
    }
  }

  /** `ESTADO_RANK[s.estado_actual || 'pendiente'] ?? 0`, the object being indexed by the
      string form of the state: pending 0, in progress 1, completed 2, anything else 0. */
  function Rank(s: Obj): (r: int)
    ensures 0 <= r <= 2
    ensures r == 1 <==> EstadoVista(s) == Some(Str("en_proceso"))
    ensures r == 2 <==> EstadoVista(s) == Some(Str("completada"))
  {
    var v := EstadoVista(s);
    KeyNamesEstado(v);
    var k := JsString(v);
    if k == "pendiente" then 0
    else if k == "en_proceso" then 1
    else if k == "completada" then 2
    else 0
  }

  /** `fechaClave`: the timestamp of `fecha_actualizacion || fecha_solicitud`, or 0 when
      neither is set or the chosen one does not parse. `time(v)` is
      `new Date(v).getTime()`, with `None` for `NaN`. */
  function FechaClave(s: Obj, time: Json -> Option<int>): (t: int)
    ensures !Truthy(Get(s, "fecha_actualizacion")) && !Truthy(Get(s, "fecha_solicitud")) ==> t == 0
    ensures Truthy(Get(s, "fecha_actualizacion")) ==>
      t == if time(s["fecha_actualizacion"]).Some? then time(s["fecha_actualizacion"]).value else 0
    ensures !Truthy(Get(s, "fecha_actualizacion")) && Truthy(Get(s, "fecha_solicitud")) ==>
      t == if time(s["fecha_solicitud"]).Some? then time(s["fecha_solicitud"]).value else 0
  {
    var iso := Or(Get(s, "fecha_actualizacion"), Get(s, "fecha_solicitud"));
    if !Truthy(iso) then 0
    else
      var t := time(iso.value);
      if t.Some? then t.value else 0
  }

  /** The number the comparator subtracts for sort key `sortKey`. */
  function SortValue(s: Obj, sortKey: string, time: Json -> Option<int>): int
  {
    if sortKey == "fecha" then FechaClave(s, time)
    else if sortKey == "estado" then Rank(s)
    else 0
  }

  /** The comparator of `solicitudesVista`: the difference of the sort values, negated
      unless the direction is `asc`. */
  function Compare(a: Obj, b: Obj, sortKey: string, sortDir: string, time: Json -> Option<int>): int
  {
    var cmp := SortValue(a, sortKey, time) - SortValue(b, sortKey, time);
    if sortDir == "asc" then cmp else -cmp
  }

  /** "`a` does not sort after `b`". */
  function Le(sortKey: string, sortDir: string, time: Json -> Option<int>): (Obj, Obj) -> bool
  {
    (a, b) => Compare(a, b, sortKey, sortDir, time) <= 0
  }

  /** The comparator orders by a numeric key, so it is a total preorder. */
  lemma LeIsPreorder(sortKey: string, sortDir: string, time: Json -> Option<int>)
    ensures TotalPreorder(Le(sortKey, sortDir, time))
  {
    var le := Le(sortKey, sortDir, time);
    forall a, b ensures le(a, b) || le(b, a) {
    }
    forall a, b, c | le(a, b) && le(b, c) ensures le(a, c) {
    }
  }

  /** `asc` orders by increasing sort value. */
  lemma AscendingByValue(a: Obj, b: Obj, sortKey: string, time: Json -> Option<int>)
    ensures Le(sortKey, "asc", time)(a, b) <==> SortValue(a, sortKey, time) <= SortValue(b, sortKey, time)
  {
  }

  /** Any other direction reverses it: `desc` negates the comparison. */
  lemma DescendingReverses(a: Obj, b: Obj, sortKey: string, sortDir: string, time: Json -> Option<int>)
    requires sortDir != "asc"
    ensures Le(sortKey, sortDir, time)(a, b) <==> Le(sortKey, "asc", time)(b, a)
  {
  }

  /** The rows the state filter keeps: all of them for `todas`, otherwise every occurrence
      of a row whose state (missing meaning pending) is the filter, in list order. */
  function Visible(sols: seq<Obj>, filtro: string): (r: seq<Obj>)
    ensures filtro == "todas" ==> r == sols
    ensures Sublist(r, sols)
    ensures forall x :: x in r <==> x in sols && (filtro == "todas" || EstadoVista(x) == Some(Str(filtro)))
    ensures forall x ::
      multiset(r)[x] == (if filtro == "todas" || EstadoVista(x) == Some(Str(filtro)) then multiset(sols)[x] else 0)
  {
    var p := (s: Obj) => EstadoVista(s) == Some(Str(filtro));
    if filtro == "todas" then
      FilterAll((s: Obj) => true, sols);
      FilterIsSublist((s: Obj) => true, sols);
      sols
    else
      FilterIsSublist(p, sols);
      FilterMultiset(p, sols);
      Filter(p, sols)
  }

  /** `solicitudesVista`: copy (or filter) the list, then sort the copy in place. The view
      is a permutation of the kept rows, ordered by the comparator, ties in list order. */
  method SolicitudesVista(sols: seq<Obj>, filtro: string, sortKey: string, sortDir: string,
                          time: Json -> Option<int>) returns (view: seq<Obj>)
    ensures view == InsertionSort(Visible(sols, filtro), Le(sortKey, sortDir, time))
    ensures multiset(view) == multiset(Visible(sols, filtro))
    ensures SortedBy(view, Le(sortKey, sortDir, time))
  {
    var arr := Visible(sols, filtro);
    var a := new Obj[|arr|](i requires 0 <= i < |arr| => arr[i]);
    assert a[..] == arr;
    SortInPlace(a, Le(sortKey, sortDir, time));
    view := a[..];
    LeIsPreorder(sortKey, sortDir, time);
    SortIsSorted(arr, Le(sortKey, sortDir, time));
    SortPermutes(arr, Le(sortKey, sortDir, time));
  }

  /** Rows that compare equal keep the order they had in the list. */
  lemma VistaIsStable(sols: seq<Obj>, filtro: string, sortKey: string, sortDir: string,
                      time: Json -> Option<int>, y: Obj)
    ensures
      var le := Le(sortKey, sortDir, time);
      Filter(EquivTo(le, y), InsertionSort(Visible(sols, filtro), le)) == Filter(EquivTo(le, y), Visible(sols, filtro))
  {
    LeIsPreorder(sortKey, sortDir, time);
    SortIsStable(Visible(sols, filtro), Le(sortKey, sortDir, time), y);
  }

  /** A sort key other than `fecha` or `estado` compares everything equal and leaves the
      filtered list as it is. */
  lemma UnknownSortKeyKeepsOrder(sols: seq<Obj>, filtro: string, sortKey: string, sortDir: string,
                                 time: Json -> Option<int>)
    requires sortKey != "fecha" && sortKey != "estado"
    ensures InsertionSort(Visible(sols, filtro), Le(sortKey, sortDir, time)) == Visible(sols, filtro)
  {
    SortAllTies(Visible(sols, filtro), Le(sortKey, sortDir, time));
  }

  /** The body of the state update: the new state, and the row's technician, else the
      signed-in user's id, else `null`. */
  function EstadoPayload(sol: Obj, nuevo: string, user: Option<Obj>): (body: Obj)
    ensures body.Keys == {"estado_actual", "tecnico_id"}
    ensures body["estado_actual"] == Str(nuevo)
    ensures !IsNullish(Get(sol, "tecnico_id")) ==> body["tecnico_id"] == sol["tecnico_id"]
    ensures IsNullish(Get(sol, "tecnico_id")) && user.Some? && !IsNullish(Get(user.value, "id")) ==>
      body["tecnico_id"] == user.value["id"]
    ensures IsNullish(Get(sol, "tecnico_id")) && (user.None? || IsNullish(Get(user.value, "id"))) ==>
      body["tecnico_id"] == Null
  {
    var userId := if user.Some? then Get(user.value, "id") else None;
    var t := Coalesce(Coalesce(Get(sol, "tecnico_id"), userId), Some(Null));
    map["estado_actual" := Str(nuevo), "tecnico_id" := t.value]
  }

  /** The sidebar counters: all assigned requests, those in progress, those completed. */
  datatype Counters = Counters(asignadas: nat, enProceso: nat, completadas: nat)

  /** The rows whose raw state is `e` (here no default applies). */
  function EstadoIs(e: string): Obj -> bool
  {
    s => Get(s, "estado_actual") == Some(Str(e))
  }

  /** The counters: in-progress and completed requests together never exceed the assigned ones. */
  function Counts(sols: seq<Obj>): (c: Counters)
    ensures c.asignadas == |sols|
    ensures c.enProceso + c.completadas <= c.asignadas
    ensures c.enProceso == |Filter(EstadoIs("en_proceso"), sols)|
    ensures c.completadas == |Filter(EstadoIs("completada"), sols)|
  {
    CountDisjoint(EstadoIs("en_proceso"), EstadoIs("completada"), sols);
    Counters(|sols|, Count(EstadoIs("en_proceso"), sols), Count(EstadoIs("completada"), sols))
  }

  /** The mount effect's user: the stored `userData` when its role is `tecnico`; anyone
      else is sent to the login page. Unlike the route guard, no token is asked for. */
  function PanelUser(store: Store): (u: Option<Obj>)
    ensures u.Some? <==> ObjectAt(store, "userData").Some? && Get(ObjectAt(store, "userData").value, "rol") == Some(Str("tecnico"))
    ensures u.Some? ==> u == ObjectAt(store, "userData")
  {
    var u := ObjectAt(store, "userData");
    if u.None? || Get(u.value, "rol") != Some(Str("tecnico")) then None else u
  }

  /** Whoever the route guard lets onto the panel is also accepted by the panel itself. */
  lemma GuardedPanelHasUser(store: Store)
    requires Routes.RequireAuth(store, Some(["tecnico"])) == Routes.Render
    ensures PanelUser(store).Some?
  {
    var r :| r in ["tecnico"] && Get(ObjectAt(store, "userData").value, "rol") == Some(Str(r));
  }

  /** The keys `logout` removes. */
  const PanelSessionKeys: set<string> := {"authToken", "userData", "tecnicoLoggedIn"}

  /** `logout`: exactly the panel's three session keys are removed. */
  function Logout(store: Store): (s: Store)
    ensures s.Keys == store.Keys - PanelSessionKeys
    ensures forall k :: k in s ==> s[k] == store[k]
  {
    store - PanelSessionKeys
  }

  /** After `logout` neither the route guard nor the panel admits anyone. */
  lemma LogoutClosesPanel(store: Store, roles: Option<seq<string>>)
    ensures Routes.RequireAuth(Logout(store), roles) == Routes.ToLogin
    ensures PanelUser(Logout(store)) == None
  {
    assert "userData" !in Logout(store);
  }

  /** The panel's state: the assigned requests, the signed-in user and the id being saved. */
  class Panel {
    var solicitudes: seq<Obj>
    var user: Option<Obj>
    var guardandoId: Json
    var error: string
    var cargando: bool

    constructor (solicitudes: seq<Obj>, user: Option<Obj>)
      ensures this.solicitudes == solicitudes && this.user == user && guardandoId == Null
      ensures error == "" && cargando
    {
      this.solicitudes := solicitudes;
      this.user := user;
      guardandoId := Null;
      error := "";
      cargando := true;
    }

    /** `cargarAsignadas`: one GET of `/api/solicitudes/mias`; a reply replaces the list
        (`[]` when it has none), a thrown request keeps it and shows the error. */
    method CargarAsignadas(reply: ListReply) returns (sent: Request)
      modifies this`solicitudes, this`error, this`cargando
      ensures sent == Request("GET", "/api/solicitudes/mias", map[])
      ensures !cargando
      ensures reply.ListBody? ==>
        error == "" && solicitudes == (if reply.solicitudes.Some? then reply.solicitudes.value else [])
      ensures reply.ListThrown? ==>
        solicitudes == old(solicitudes) &&
        error == (if reply.message != "" then reply.message else "No se pudieron cargar las solicitudes asignadas")
    {
      cargando := true;
      error := "";
      sent := Request("GET", "/api/solicitudes/mias", map[]);
      if reply.ListBody? {
        solicitudes := if reply.solicitudes.Some? then reply.solicitudes.value else [];
      } else {
        error := if reply.message != "" then reply.message else "No se pudieron cargar las solicitudes asignadas";
      }
      cargando := false;
    }

    /** `actualizarEstado`: nothing is sent when the state is unchanged; otherwise one PUT to
        the request's path, the reply merged into the list by id, and the saving flag cleared. */
    method ActualizarEstado(sol: Obj, nuevo: string, reply: Reply) returns (sent: Option<Request>)
      modifies this`solicitudes, this`guardandoId
      ensures Get(sol, "estado_actual") == Some(Str(nuevo)) ==>
        sent == None && solicitudes == old(solicitudes) && guardandoId == old(guardandoId)
      ensures Get(sol, "estado_actual") != Some(Str(nuevo)) ==>
        sent == Some(Request("PUT", "/api/solicitudes/" + JsString(Get(sol, "id")), EstadoPayload(sol, nuevo, user))) &&
        guardandoId == Null &&
        solicitudes == if reply.Answered? then Merged(old(solicitudes), Get(sol, "id"), reply.solicitud)
                       else old(solicitudes)
    {
      if Get(sol, "estado_actual") == Some(Str(nuevo)) {
        return None;
      }
      guardandoId := OrNull(Get(sol, "id"));
      sent := Some(Request("PUT", "/api/solicitudes/" + JsString(Get(sol, "id")), EstadoPayload(sol, nuevo, user)));
      if reply.Answered? {
        solicitudes := Merged(solicitudes, Get(sol, "id"), reply.solicitud);
      }
      guardandoId := Null;
    }
  }
}
