/** The new-request form both versions of the home page share: its initial
    values, the required-field check and the way a client's fields are
    added to it. */
module HomeForm {
  import opened Wrappers
  import opened JsValue
  import opened Seqs

  /** The form as first shown and after every reset. */
  const FormularioInicial: Obj :=
    map["titulo" := Str(""), "descripcion" := Str(""), "direccion_servicio" := Str(""), "comuna" := Str(""),
        "region" := Str("Región Metropolitana"), "tipo_servicio" := Str("instalacion"), "prioridad" := Str("media"),
        "equipos_solicitados" := Str(""), "comentarios_finales" := Str("")]

  /** The required fields, title, description, address and commune, are all truthy. */
  predicate Completo(form: Obj)
  {
    Truthy(Get(form, "titulo")) && Truthy(Get(form, "descripcion")) &&
    Truthy(Get(form, "direccion_servicio")) && Truthy(Get(form, "comuna"))
  }

  /** A freshly reset form cannot be submitted: its title is empty. */
  lemma ResetFormIsIncomplete()
    ensures !Completo(FormularioInicial)
    ensures Get(FormularioInicial, "region") == Some(Str("Región Metropolitana"))
    ensures Get(FormularioInicial, "tipo_servicio") == Some(Str("instalacion"))
    ensures Get(FormularioInicial, "prioridad") == Some(Str("media"))
  {
  }

  /** `{ ...o, [k]: v }` as it is serialised: an undefined value drops the key. */
  function WithField(o: Obj, k: string, v: Option<Json>): (r: Obj)
    ensures Get(r, k) == v
    ensures forall j :: j != k ==> Get(r, j) == Get(o, j)
  {
    (o - {k}) + Single(k, v)
  }

  function Single(k: string, v: Option<Json>): (m: Obj)
    ensures m.Keys <= {k}
    ensures v.Some? <==> k in m
    ensures v.Some? ==> m[k] == v.value
  {
    if v.Some? then map[k := v.value] else map[]
  }

  /** The first three requests, the ones the home page lists as recent. */
  function Recientes(sols: seq<Obj>): (r: seq<Obj>)
    ensures |r| == if |sols| < 3 then |sols| else 3
    ensures r == sols[..|r|]
  {
    if |sols| <= 3 then sols else sols[..3]
  }

  /** The "and N more" count, shown only past three requests. */
  function Mas(sols: seq<Obj>): Option<nat>
  {
    if |sols| > 3 then Some(|sols| - 3) else None
  }

  /** The recent list and the "more" count together account for every request. */
  lemma RecientesAndMasCoverAll(sols: seq<Obj>)
    ensures |Recientes(sols)| + (if Mas(sols).Some? then Mas(sols).value else 0) == |sols|
    ensures Mas(sols).Some? <==> |Recientes(sols)| < |sols|
  {
  }
}
