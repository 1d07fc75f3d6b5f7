/** The administrator's request list: the free-text search, and the state and
    technician changes it sends to the API and merges back by id. */
module AdminSolicitudes {
  import opened Wrappers
  import opened Text
  import opened JsValue
  import opened Seqs
  import opened Api

  /** The fields the search looks in, in the order they are joined. */
  const SearchFields: seq<string> :=
    ["titulo", "descripcion", "comuna", "region", "tipo_servicio", "estado_actual",
     "cliente_nombre", "cliente_email", "tecnico_nombre"]

  /** `[s.f, ...].filter(Boolean)`, each kept value as `join` writes it: at most one text
      per field (TruthyTextsFrom and TruthyTextsHas say which). */
  function TruthyTexts(s: Obj, fields: seq<string>): (r: seq<string>)
    ensures |r| <= |fields|
  {
    if fields == [] then []
    else (if Truthy(Get(s, fields[0])) then [JsString(Get(s, fields[0]))] else []) + TruthyTexts(s, fields[1..])
  }

  /** Every text kept is the text of a field with a truthy value. */
  lemma {:induction false} TruthyTextsFrom(s: Obj, fields: seq<string>, t: string)
    requires t in TruthyTexts(s, fields)
    ensures exists f :: f in fields && Truthy(Get(s, f)) && t == JsString(Get(s, f))
  {
    var head := if Truthy(Get(s, fields[0])) then [JsString(Get(s, fields[0]))] else [];
    assert TruthyTexts(s, fields) == head + TruthyTexts(s, fields[1..]);
    if t !in head {
      TruthyTextsFrom(s, fields[1..], t);
      var f :| f in fields[1..] && Truthy(Get(s, f)) && t == JsString(Get(s, f));
      assert f in fields;
    }
  }

  /** Every field with a truthy value contributes its text. */
  lemma {:induction false} TruthyTextsHas(s: Obj, fields: seq<string>, f: string)
    requires f in fields && Truthy(Get(s, f))
    ensures JsString(Get(s, f)) in TruthyTexts(s, fields)
  {
    if fields[0] != f {
      TruthyTextsHas(s, fields[1..], f);
    }
  }

  /** The lower-cased text a row is searched in. */
  function SearchText(s: Obj): string
  {
    Lower(Join(TruthyTexts(s, SearchFields), " "))
  }

  /** `filtro.trim().toLowerCase()`. */
  function Query(filtro: string): (q: string)
    ensures q == "" <==> Trim(filtro) == ""
  {
    Lower(Trim(filtro))
  }

  /** The rows whose search text contains `q`. */
  function Matches(q: string): Obj -> bool
  {
    s => Includes(SearchText(s), q)
  }

  /** `solicitudesFiltradas`: an empty or blank query shows the whole list; otherwise exactly
      the rows whose joined, lower-cased fields contain the query, in list order and with
      their repetitions. */
  function SolicitudesFiltradas(sols: seq<Obj>, filtro: string): (r: seq<Obj>)
    ensures Trim(filtro) == "" ==> r == sols
    ensures Sublist(r, sols)
    ensures Trim(filtro) != "" ==> forall x :: x in r <==> x in sols && Includes(SearchText(x), Query(filtro))
    ensures Trim(filtro) != "" ==> forall x ::
      multiset(r)[x] == (if Includes(SearchText(x), Query(filtro)) then multiset(sols)[x] else 0)
  {
    var q := Query(filtro);
    if q == "" then
      FilterAll((s: Obj) => true, sols);
      FilterIsSublist((s: Obj) => true, sols);
      sols
    else
      FilterIsSublist(Matches(q), sols);
      FilterMultiset(Matches(q), sols);
      Filter(Matches(q), sols)
  }

  /** A row is found when one of its searched fields, lower-cased, contains the query. */
  lemma FieldMatchIsFound(sols: seq<Obj>, filtro: string, x: Obj, f: string)
    requires x in sols && f in SearchFields && Truthy(Get(x, f))
    requires Includes(Lower(JsString(Get(x, f))), Query(filtro))
    ensures x in SolicitudesFiltradas(sols, filtro)
  {
    if Trim(filtro) != "" {
      FieldInSearchText(x, f, Query(filtro));
    }
  }

  /** A searched field that contains `q` once lower-cased puts `q` in the row's search text. */
  lemma FieldInSearchText(x: Obj, f: string, q: string)
    requires f in SearchFields && Truthy(Get(x, f)) && Includes(Lower(JsString(Get(x, f))), q)
    ensures Includes(SearchText(x), q)
  {
    var parts := TruthyTexts(x, SearchFields);
    var part := JsString(Get(x, f));
    TruthyTextsHas(x, SearchFields, f);
    var k :| 0 <= k < |parts| && parts[k] == part;
    var joined := Join(parts, " ");
    JoinHasPart(parts, " ", k);
    var i :| OccursAt(joined, part, i);
    LowerOccurs(joined, part, i);
    IncludesAt(Lower(part), q);
    var j :| OccursAt(Lower(part), q, j);
    OccursWithin(Lower(joined), Lower(part), i, q, j);
    IncludesAt(SearchText(x), q);
  }

  lemma QueryOfPlainText()
    ensures Trim("a b") == "a b" && Query("a b") == "a b"
  {
    TrimmedIsFixed("a b");
    assert Lower("a b") == "a b";
  }

  /** The fields are searched as one text, so a query can match across two of them:
      "a b" finds a row whose only searched values are "a" and "b". */
  lemma SearchSpansFields(row: Obj)
    requires TruthyTexts(row, SearchFields) == ["a", "b"]
    ensures row in SolicitudesFiltradas([row], "a b")
    ensures forall t :: t in TruthyTexts(row, SearchFields) ==> !Includes(t, "a b")
  {
    QueryOfPlainText();
    assert Join(["a", "b"], " ") == "a b";
    assert SearchText(row) == Lower("a b") == "a b";
    assert IsPrefix("a b", SearchText(row));
    IncludesLonger("a", "a b");
    IncludesLonger("b", "a b");
  }

  /** `!id || Number.isNaN(Number(id))`: the update is abandoned with an alert. */
  predicate IdInvalid(id: Option<Json>)
  {
    !Truthy(id) || ToNumber(id).None?
  }

  /** The technician sent in the body: `''` and `undefined` become `null`, anything else
      `Number(value)`, which a JSON body carries as `null` when it is `NaN`. The result is
      always `null` or a number, and a number only when it is what `Number` reads. */
  function TecnicoIdBody(v: Option<Json>): (r: Json)
    ensures r.Null? || r.Num?
    ensures r == Null <==> v == None || v == Some(Str("")) || ToNumber(v).None?
    ensures r.Num? ==> ToNumber(v) == Some(r.n)
  {
    if v == Some(Str("")) || v == None then Null else NumberJson(ToNumber(v))
  }

  /** A technician id as the select option holds it (its decimal text) is sent as that number. */
  lemma SelectedTecnicoIsSentAsNumber(n: int)
    ensures TecnicoIdBody(Some(Str(JsString(Some(Num(n)))))) == Num(n)
  {
    NumberOfString(n);
    IntToStringRoundTrip(n);
  }

  /** `Number(null)` is 0: a `null` technician is sent as technician 0, not as `null`. */
  lemma NullTecnicoIsSentAsZero()
    ensures TecnicoIdBody(Some(Null)) == Num(0)
  {
  }

  /** `{ ...payload, tecnico_id: ... }`. */
  function UpdateBody(payload: Obj): (body: Obj)
    ensures body.Keys == payload.Keys + {"tecnico_id"}
    ensures forall k :: k in payload && k != "tecnico_id" ==> body[k] == payload[k]
    ensures body["tecnico_id"] == TecnicoIdBody(Get(payload, "tecnico_id"))
  {
    payload["tecnico_id" := TecnicoIdBody(Get(payload, "tecnico_id"))]
  }

  /** The payload of `handleCambioEstado`: the new state and `sol.tecnico_id ?? null`. */
  function CambioEstadoPayload(sol: Obj, nuevo: string): (p: Obj)
    ensures p.Keys == {"estado_actual", "tecnico_id"} && p["estado_actual"] == Str(nuevo)
    ensures IsNullish(Get(sol, "tecnico_id")) <==> p["tecnico_id"] == Null
    ensures !IsNullish(Get(sol, "tecnico_id")) ==> Some(p["tecnico_id"]) == Get(sol, "tecnico_id")
  {
    map["estado_actual" := Str(nuevo), "tecnico_id" := OrNull(Coalesce(Get(sol, "tecnico_id"), Some(Null)))]
  }

  /** Changing the state of an unassigned request sends it to technician 0. */
  lemma UnassignedStateChangeSendsZero(sol: Obj, nuevo: string)
    requires IsNullish(Get(sol, "tecnico_id"))
    ensures UpdateBody(CambioEstadoPayload(sol, nuevo)) == map["estado_actual" := Str(nuevo), "tecnico_id" := Num(0)]
  {
  }

  /** Clearing the technician select sends `{ tecnico_id: 0 }` with no state; the update
      handler then stores technician 0 and a `NULL` state. */
  lemma ClearingTecnicoSendsZeroWithoutEstado()
    ensures UpdateBody(map["tecnico_id" := Null]) == map["tecnico_id" := Num(0)]
    ensures "estado_actual" !in UpdateBody(map["tecnico_id" := Null])
  {
  }

  /** The page's state: the list of requests and the id being saved. */
  class Admin {
    var solicitudes: seq<Obj>
    var guardando: Json

    constructor (solicitudes: seq<Obj>)
      ensures this.solicitudes == solicitudes && guardando == Null
    {
      this.solicitudes := solicitudes;
      guardando := Null;
    }

    /** `actualizarSolicitud`: a bad id sends nothing; otherwise one PUT with the normalised
        body, the reply merged by id; the saving flag always ends cleared. */
    method ActualizarSolicitud(id: Option<Json>, payload: Obj, reply: Reply) returns (sent: Option<Request>)
      modifies this`solicitudes, this`guardando
      ensures guardando == Null
      ensures IdInvalid(id) ==> sent == None && solicitudes == old(solicitudes)
      ensures !IdInvalid(id) ==>
        sent == Some(Request("PUT", "/api/solicitudes/" + JsString(id), UpdateBody(payload))) &&
        solicitudes == if reply.Answered? then Merged(old(solicitudes), id, reply.solicitud) else old(solicitudes)
    {
      if IdInvalid(id) {
        guardando := Null;
        return None;
      }
      var body := UpdateBody(payload);
      guardando := OrNull(id);
      sent := Some(Request("PUT", "/api/solicitudes/" + JsString(id), body));
      if reply.Answered? {
        solicitudes := Merged(solicitudes, id, reply.solicitud);
      }
      guardando := Null;
    }

    /** `handleCambioEstado`: nothing happens when the state is unchanged; otherwise the
        update is sent with the new state and the current technician. */
    method HandleCambioEstado(sol: Obj, nuevo: string, reply: Reply) returns (sent: Option<Request>)
      modifies this`solicitudes, this`guardando
      ensures Get(sol, "estado_actual") == Some(Str(nuevo)) ==>
        sent == None && solicitudes == old(solicitudes) && guardando == old(guardando)
      ensures Get(sol, "estado_actual") != Some(Str(nuevo)) ==> guardando == Null
      ensures Get(sol, "estado_actual") != Some(Str(nuevo)) && IdInvalid(Get(sol, "id")) ==>
        sent == None && solicitudes == old(solicitudes)
      ensures Get(sol, "estado_actual") != Some(Str(nuevo)) && !IdInvalid(Get(sol, "id")) ==>
        sent == Some(Request("PUT", "/api/solicitudes/" + JsString(Get(sol, "id")), UpdateBody(CambioEstadoPayload(sol, nuevo)))) &&
        solicitudes == if reply.Answered? then Merged(old(solicitudes), Get(sol, "id"), reply.solicitud) else old(solicitudes)
    {
      if Get(sol, "estado_actual") == Some(Str(nuevo)) {
        return None;
      }
      sent := ActualizarSolicitud(Get(sol, "id"), CambioEstadoPayload(sol, nuevo), reply);
    }

    /** `enviarATecnico`: the call goes through `api.patch`, which the helper does not have
        (it offers `get`, `post`, `put` and `del`), so calling it throws before any request
        leaves the page; the list is unchanged and the flag ends cleared. */
    method EnviarATecnico(solicitudId: Option<Json>, tecnicoId: string) returns (sent: Option<Request>)
      modifies this`guardando
      ensures sent == None && guardando == Null
    {
      guardando := OrNull(solicitudId);
      sent := None;
      guardando := Null;
    }

    /** `handleAsignarTecnico`: an empty selection sends the update with `tecnico_id: null`
        (normalised to 0); any other selection goes to `enviarATecnico`. */
    method HandleAsignarTecnico(sol: Obj, tecnicoId: string, reply: Reply) returns (sent: Option<Request>)
      modifies this`solicitudes, this`guardando
      ensures guardando == Null
      ensures tecnicoId != "" ==> sent == None && solicitudes == old(solicitudes)
      ensures tecnicoId == "" && IdInvalid(Get(sol, "id")) ==> sent == None && solicitudes == old(solicitudes)
      ensures tecnicoId == "" && !IdInvalid(Get(sol, "id")) ==>
        sent == Some(Request("PUT", "/api/solicitudes/" + JsString(Get(sol, "id")), map["tecnico_id" := Num(0)])) &&
        solicitudes == if reply.Answered? then Merged(old(solicitudes), Get(sol, "id"), reply.solicitud) else old(solicitudes)
    {
      if tecnicoId == "" {
        ClearingTecnicoSendsZeroWithoutEstado();
        sent := ActualizarSolicitud(Get(sol, "id"), map["tecnico_id" := Null], reply);
        return;
      }
      sent := EnviarATecnico(Get(sol, "id"), tecnicoId);
    }
  }
}
