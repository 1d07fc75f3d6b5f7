/** The front end's `api` helper: the requests the pages send, the replies they
    get back, and the id-matched merge they apply to their list afterwards. */
module Api {
  import opened Wrappers
  import opened JsValue
  import opened Seqs

  /** A request sent to the back end, with its JSON body. */
  datatype Request = Request(verb: string, path: string, body: Obj)

  /** The outcome of a call: it threw (a network error or a non-2xx status, reported
      with an alert), or it answered with an optional `solicitud`. */
  datatype Reply = Failed | Answered(solicitud: Option<Obj>)

  /** What a list request produced: the parsed body with its optional `solicitudes`, or
      the error it threw with its message. */
  datatype ListReply = ListThrown(message: string) | ListBody(solicitudes: Option<seq<Obj>>)

  /** The rows `s.id === id`. */
  function HasId(id: Option<Json>): Obj -> bool
  {
    s => Get(s, "id") == id
  }

  /** `s => ({ ...s, ...patch })`; spreading `undefined` adds nothing. */
  function Spread(patch: Option<Obj>): Obj -> Obj
  {
    s => if patch.Some? then s + patch.value else s
  }

  /** `prev.map(s => s.id === id ? { ...s, ...patch } : s)`: the row with that id takes
      the returned fields over its own; every other row, and the length, stay as they were. */
  function Merged(sols: seq<Obj>, id: Option<Json>, patch: Option<Obj>): (r: seq<Obj>)
    ensures |r| == |sols|
    ensures forall i :: 0 <= i < |sols| && Get(sols[i], "id") != id ==> r[i] == sols[i]
    ensures forall i :: 0 <= i < |sols| && Get(sols[i], "id") == id ==>
      r[i].Keys == sols[i].Keys + (if patch.Some? then patch.value.Keys else {}) &&
      (forall k :: k in r[i] ==> r[i][k] == if patch.Some? && k in patch.value then patch.value[k] else sols[i][k])
  {
    MapWhere(HasId(id), Spread(patch), sols)
  }

  /** Merging the same reply twice changes nothing more, when the reply does not move the
      row to another id (the update route answers the row itself, with its own id). */
  lemma MergedIdempotent(sols: seq<Obj>, id: Option<Json>, patch: Option<Obj>)
    requires patch.Some? && "id" in patch.value ==> Some(patch.value["id"]) == id
    ensures Merged(Merged(sols, id, patch), id, patch) == Merged(sols, id, patch)
  {
    var r := Merged(sols, id, patch);
    var rr := Merged(r, id, patch);
    forall i | 0 <= i < |sols| ensures rr[i] == r[i] {
      if Get(sols[i], "id") == id {
        assert Get(r[i], "id") == id;
      } else {
        assert Get(r[i], "id") != id;
      }
    }
  }
}
