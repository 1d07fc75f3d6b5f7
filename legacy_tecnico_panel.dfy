/** The earlier technician panel: a local list of assigned requests whose
    `estado` moves through the buttons each card offers. */
module LegacyTecnicoPanel {
  import opened Wrappers
  import opened JsValue
  import opened Seqs

  /** The states a card's buttons move a request to, by its current `estado`:
      start work from pending; complete or pause from in progress; nothing otherwise
      (a completed card only offers its report). */
  function Transitions(estado: Option<Json>): (r: seq<string>)
    ensures estado == Some(Str("pendiente")) ==> r == ["en_proceso"]
    ensures estado == Some(Str("en_proceso")) ==> r == ["completada", "pendiente"]
    ensures estado != Some(Str("pendiente")) && estado != Some(Str("en_proceso")) ==> r == []
  {
    if estado == Some(Str("pendiente")) then ["en_proceso"]
    else if estado == Some(Str("en_proceso")) then ["completada", "pendiente"]
    else []
  }

  /** The badge text: pending, in progress, and "Completada" for every other value. */
  function EstadoLabel(estado: Option<Json>): (r: string)
    ensures r == "Pendiente" <==> estado == Some(Str("pendiente"))
    ensures r == "En Proceso" <==> estado == Some(Str("en_proceso"))
    ensures r == "Completada" <==> estado != Some(Str("pendiente")) && estado != Some(Str("en_proceso"))
  {
    if estado == Some(Str("pendiente")) then "Pendiente"
    else if estado == Some(Str("en_proceso")) then "En Proceso"
    else "Completada"
  }

  /** A sequence of states where each step is a button offered by the one before. */
  ghost predicate ValidRun(states: seq<string>)
  {
    forall i :: 0 <= i < |states| - 1 ==> states[i + 1] in Transitions(Some(Str(states[i])))
  }

  /** Every state reached by the buttons is one of the three the panel knows. */
  lemma RunStaysKnown(states: seq<string>)
    requires ValidRun(states)
    ensures forall i :: 0 < i < |states| ==> states[i] in {"pendiente", "en_proceso", "completada"}
  {
    forall i | 0 < i < |states| ensures states[i] in {"pendiente", "en_proceso", "completada"} {
      assert states[i] in Transitions(Some(Str(states[i - 1])));
    }
  }

  /** Completion is final: a run that reaches `completada` ends there. */
  lemma CompletadaIsFinal(states: seq<string>)
    requires ValidRun(states)
    ensures forall i :: 0 <= i < |states| - 1 ==> states[i] != "completada"
  {
    forall i | 0 <= i < |states| - 1 ensures states[i] != "completada" {
      assert states[i + 1] in Transitions(Some(Str(states[i])));
    }
  }

  /** Pending can only be left for in progress; completion needs in progress first. */
  lemma CompletadaNeedsEnProceso(states: seq<string>, i: nat)
    requires ValidRun(states) && 0 < i < |states| && states[i] == "completada"
    ensures states[i - 1] == "en_proceso"
  {
    assert states[i] in Transitions(Some(Str(states[i - 1])));
  }

  /** The rows whose `id` is `id`. */
  function HasId(id: Json): Obj -> bool
  {
    s => Get(s, "id") == Some(id)
  }

  /** `{ ...sol, estado: nuevo }`. */
  function SetEstado(nuevo: string): Obj -> Obj
  {
    s => s["estado" := Str(nuevo)]
  }

  /** `actualizarEstado`: only the row with the matching id changes, and in it only `estado`;
      the other rows and the length stay as they were. */
  function ActualizarEstado(sols: seq<Obj>, id: Json, nuevo: string): (r: seq<Obj>)
    ensures |r| == |sols|
    ensures forall i :: 0 <= i < |sols| && Get(sols[i], "id") != Some(id) ==> r[i] == sols[i]
    ensures forall i :: 0 <= i < |sols| && Get(sols[i], "id") == Some(id) ==>
      r[i].Keys == sols[i].Keys + {"estado"} && r[i]["estado"] == Str(nuevo) &&
      forall k :: k in sols[i] && k != "estado" ==> r[i][k] == sols[i][k]
  {
    MapWhere(HasId(id), SetEstado(nuevo), sols)
  }

  /** Pressing the same button twice changes nothing more. */
  lemma ActualizarEstadoIdempotent(sols: seq<Obj>, id: Json, nuevo: string)
    ensures ActualizarEstado(ActualizarEstado(sols, id, nuevo), id, nuevo) == ActualizarEstado(sols, id, nuevo)
  {
    var r := ActualizarEstado(sols, id, nuevo);
    var rr := ActualizarEstado(r, id, nuevo);
    forall i | 0 <= i < |sols| ensures rr[i] == r[i] {
      if Get(sols[i], "id") == Some(id) {
        assert Get(r[i], "id") == Some(id);
        assert rr[i] == r[i]["estado" := Str(nuevo)];
      } else {
        assert Get(r[i], "id") != Some(id);
      }
    }
  }

  /** The panel's list of requests. */
  class Panel {
    var solicitudes: seq<Obj>

    constructor (solicitudes: seq<Obj>)
      ensures this.solicitudes == solicitudes
    {
      this.solicitudes := solicitudes;
    }

    /** A card's button: the list is replaced by its id-matched update. */
    method Press(id: Json, nuevo: string)
      modifies this
      ensures solicitudes == ActualizarEstado(old(solicitudes), id, nuevo)
    {
      solicitudes := ActualizarEstado(solicitudes, id, nuevo);
    }
  }
}
