/** The earlier home page: the client session restored from `localStorage`,
    and new requests appended to a locally stored list. */
module LegacyHome {
  import opened Wrappers
  import opened Text
  import opened JsValue
  import opened Storage
  import opened HomeForm

  /** `'SOL-' + Date.now().toString().slice(-6)`. */
  function NumeroSolicitud(now: nat): string
  {
    "SOL-" + LastN(NatToString(now), 6)
  }

  /** The request number is `SOL-` and the last digits of the timestamp: six of them once
      the timestamp has six digits, all of them before. */
  lemma NumeroSolicitudShape(now: nat)
    ensures var r := NumeroSolicitud(now);
      |r| >= 5 && r[..4] == "SOL-" && AllDigits(r[4..]) &&
      |r| <= 10 && (now >= 100000 ==> |r| == 10) &&
      |r| - 4 <= |NatToString(now)| &&
      r[4..] == NatToString(now)[|NatToString(now)| - (|r| - 4)..]
  {
    NatToStringShape(now);
    NumeroShape(NatToString(now));
    NatToStringLong(now);
  }

  /** The shape of `SOL-` followed by the last six characters of a digit string. */
  lemma NumeroShape(digits: string)
    requires digits != [] && AllDigits(digits)
    ensures var r := "SOL-" + LastN(digits, 6);
      |r| >= 5 && r[..4] == "SOL-" && AllDigits(r[4..]) &&
      |r| <= 10 && (|digits| >= 6 ==> |r| == 10) &&
      |r| - 4 <= |digits| && r[4..] == digits[|digits| - (|r| - 4)..]
  {
    var tail := LastN(digits, 6);
    var r := "SOL-" + tail;
    assert r[4..] == tail;
    assert r[..4] == "SOL-";
    forall i | 0 <= i < |tail| ensures IsDigit(tail[i]) {
      assert tail[i] == digits[|digits| - |tail| + i];
    }
  }

  /** Numbers of six digits or more print with at least six characters. */
  lemma NatToStringLong(n: nat)
    ensures n >= 100000 ==> |NatToString(n)| >= 6
  {
    if n >= 100000 {
      NatToStringAtLeast(n, 5);
    }
  }

  /** `n >= 10^k` prints with more than `k` characters. */
  lemma {:induction false} NatToStringAtLeast(n: nat, k: nat)
    requires n >= Pow10(k)
    ensures |NatToString(n)| > k
    decreases k
  {
    if k > 0 {
      assert n >= 10;
      assert n / 10 >= Pow10(k - 1);
      NatToStringAtLeast(n / 10, k - 1);
    }
  }

  function Pow10(k: nat): (p: nat)
    ensures p >= 1
  {
    if k == 0 then 1 else 10 * Pow10(k - 1)
  }

  /** The keys of a new request that do not come from the form. */
  const Added: set<string> :=
    {"cliente_id", "cliente_nombre", "cliente_email", "cliente_telefono", "estado_actual",
     "fecha_solicitud", "fecha_actualizacion", "numeroSolicitud"}

  /** The stored request: the form's fields, the client's identity, state `pendiente`, both
      dates set to now and the request number. */
  function NuevaSolicitud(form: Obj, cliente: Obj, now: nat, fecha: string): Obj
  {
    ((map["id" := Num(now)] + form) - Added) + DatosCliente(cliente) + Sello(now, fecha)
  }

  /** The client's id, name, email and phone under the keys the request carries them, each
      only when the client has it. */
  function DatosCliente(cliente: Obj): (m: Obj)
    ensures Get(m, "cliente_id") == Get(cliente, "id") && Get(m, "cliente_email") == Get(cliente, "email")
    ensures m.Keys <= {"cliente_id", "cliente_nombre", "cliente_email", "cliente_telefono"}
  {
    Single("cliente_id", Get(cliente, "id")) + Single("cliente_nombre", Get(cliente, "nombre")) +
    Single("cliente_email", Get(cliente, "email")) + Single("cliente_telefono", Get(cliente, "telefono"))
  }

  /** The state, the two dates and the request number of a new request. */
  function Sello(now: nat, fecha: string): (m: Obj)
    ensures Get(m, "estado_actual") == Some(Str("pendiente"))
    ensures Get(m, "numeroSolicitud") == Some(Str(NumeroSolicitud(now)))
    ensures Get(m, "fecha_solicitud") == Some(Str(fecha)) && Get(m, "fecha_actualizacion") == Some(Str(fecha))
    ensures m.Keys <= {"estado_actual", "fecha_solicitud", "fecha_actualizacion", "numeroSolicitud"}
  {
    map["estado_actual" := Str("pendiente"), "fecha_solicitud" := Str(fecha), "fecha_actualizacion" := Str(fecha),
        "numeroSolicitud" := Str(NumeroSolicitud(now))]
  }

  /** The stored request is `pendiente`, belongs to the signed-in client, carries both
      dates and the request number. */
  lemma NuevaSolicitudFields(form: Obj, cliente: Obj, now: nat, fecha: string)
    ensures var s := NuevaSolicitud(form, cliente, now, fecha);
      Get(s, "estado_actual") == Some(Str("pendiente")) &&
      Get(s, "cliente_id") == Get(cliente, "id") && Get(s, "cliente_email") == Get(cliente, "email") &&
      Get(s, "numeroSolicitud") == Some(Str(NumeroSolicitud(now))) &&
      Get(s, "fecha_solicitud") == Some(Str(fecha)) && Get(s, "fecha_actualizacion") == Some(Str(fecha))
  {
    SelloKeys(now, fecha);
    NuevaGet(form, cliente, now, fecha, "estado_actual");
    NuevaGet(form, cliente, now, fecha, "numeroSolicitud");
    NuevaGet(form, cliente, now, fecha, "fecha_solicitud");
    NuevaGet(form, cliente, now, fecha, "fecha_actualizacion");
    NuevaGet(form, cliente, now, fecha, "cliente_id");
    NuevaGet(form, cliente, now, fecha, "cliente_email");
  }

  /** The stamp and the client's fields are all among the keys the form cannot set, and the
      stamp carries none of the client's. */
  lemma SelloKeys(now: nat, fecha: string)
    ensures "cliente_id" !in Sello(now, fecha) && "cliente_email" !in Sello(now, fecha)
  {
  }

  /** The stamp and the client's fields only use keys the form's own are dropped for. */
  lemma CapasEnAdded(cliente: Obj, now: nat, fecha: string)
    ensures DatosCliente(cliente).Keys <= Added && Sello(now, fecha).Keys <= Added
  {
  }

  /** A field of the stored request, read through the three layers that make it. */
  lemma NuevaGet(form: Obj, cliente: Obj, now: nat, fecha: string, k: string)
    ensures Get(NuevaSolicitud(form, cliente, now, fecha), k) ==
      if k in Sello(now, fecha) then Get(Sello(now, fecha), k)
      else if k in DatosCliente(cliente) then Get(DatosCliente(cliente), k)
      else if k in Added then None
      else Get(map["id" := Num(now)] + form, k)
  {
    var base := (map["id" := Num(now)] + form) - Added;
    GetMerge(base + DatosCliente(cliente), Sello(now, fecha), k);
    GetMerge(base, DatosCliente(cliente), k);
    GetMinus(map["id" := Num(now)] + form, Added, k);
  }

  /** Every other field of the stored request is the form's, and its id is the timestamp
      unless the form brings one. */
  lemma NuevaSolicitudKeepsForm(form: Obj, cliente: Obj, now: nat, fecha: string)
    ensures var s := NuevaSolicitud(form, cliente, now, fecha);
      (forall k :: k !in Added && k != "id" ==> Get(s, k) == Get(form, k)) &&
      ("id" !in form ==> Get(s, "id") == Some(Num(now)))
  {
    CapasEnAdded(cliente, now, fecha);
    forall k | k !in Added && k != "id" ensures Get(NuevaSolicitud(form, cliente, now, fecha), k) == Get(form, k) {
      NuevaGet(form, cliente, now, fecha, k);
      GetMerge(map["id" := Num(now)], form, k);
    }
    NuevaGet(form, cliente, now, fecha, "id");
    GetMerge(map["id" := Num(now)], form, "id");
  }

  /** The page's state. */
  class Home {
    var store: Store
    var cliente: Option<Obj>
    var solicitudes: seq<Obj>
    var form: Obj
    var mostrarFormulario: bool
    var destino: Option<string>

    constructor (store: Store)
      ensures this.store == store && cliente == None && solicitudes == [] && form == FormularioInicial
      ensures !mostrarFormulario && destino == None
    {
      this.store := store;
      cliente := None;
      solicitudes := [];
      form := FormularioInicial;
      mostrarFormulario := false;
      destino := None;
    }

    /** The mount effect: the session and the stored requests are restored only when both
        `clienteActual` and `clienteLoggedIn` are present. */
    method Restore()
      modifies this`cliente, this`solicitudes
      ensures ObjectAt(store, "clienteActual").Some? && TextSet(store, "clienteLoggedIn") ==>
        cliente == ObjectAt(store, "clienteActual") && solicitudes == ListAt(store, "solicitudesCliente")
      ensures !(ObjectAt(store, "clienteActual").Some? && TextSet(store, "clienteLoggedIn")) ==>
        cliente == old(cliente) && solicitudes == old(solicitudes)
    {
      var c := ObjectAt(store, "clienteActual");
      if c.Some? && TextSet(store, "clienteLoggedIn") {
        cliente := c;
        solicitudes := ListAt(store, "solicitudesCliente");
      }
    }

    /** `handleLogout`: the two client keys are removed and the page emptied. */
    method HandleLogout()
      modifies this`store, this`cliente, this`solicitudes, this`mostrarFormulario
      ensures store == old(store) - {"clienteActual", "clienteLoggedIn"}
      ensures cliente == None && solicitudes == [] && !mostrarFormulario
    {
      store := store - {"clienteActual"};
      store := store - {"clienteLoggedIn"};
      cliente, solicitudes := None, [];
      mostrarFormulario := false;
    }

    /** `handleSolicitarServicio`: a visitor goes to the login, a client gets the form. */
    method HandleSolicitarServicio()
      modifies this`destino, this`mostrarFormulario
      ensures cliente.None? ==> destino == Some("/login") && mostrarFormulario == old(mostrarFormulario)
      ensures cliente.Some? ==> mostrarFormulario && destino == old(destino)
    {
      if cliente.None? {
        destino := Some("/login");
      } else {
        mostrarFormulario := true;
      }
    }

    /** `crearSolicitud`, reachable only from the form a client sees: an incomplete form
        changes nothing; otherwise exactly one request is appended and stored, and the form
        is reset and closed. */
    method CrearSolicitud(now: nat, fecha: string)
      requires cliente.Some?
      modifies this`store, this`solicitudes, this`form, this`mostrarFormulario
      ensures !Completo(old(form)) ==>
        store == old(store) && solicitudes == old(solicitudes) && form == old(form) &&
        mostrarFormulario == old(mostrarFormulario)
      ensures Completo(old(form)) ==>
        solicitudes == old(solicitudes) + [NuevaSolicitud(old(form), old(cliente).value, now, fecha)] &&
        store == old(store)["solicitudesCliente" := Records(solicitudes)] &&
        form == FormularioInicial && !mostrarFormulario
    {
      if Completo(form) {
        Agregar(NuevaSolicitud(form, cliente.value, now, fecha));
        CerrarFormulario();
      }
    }

    /** Resets the form and hides it. */
    method CerrarFormulario()
      modifies this`form, this`mostrarFormulario
      ensures form == FormularioInicial && !mostrarFormulario
    {
      form, mostrarFormulario := FormularioInicial, false;
    }

    /** Appends one request to the client's list and writes the list back to the store. */
    method Agregar(nueva: Obj)
      modifies this`store, this`solicitudes
      ensures solicitudes == old(solicitudes) + [nueva]
      ensures store == old(store)["solicitudesCliente" := Records(solicitudes)]
    {
      solicitudes := solicitudes + [nueva];
      store := store["solicitudesCliente" := Records(solicitudes)];
    }
  }
}
