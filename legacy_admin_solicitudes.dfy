/** The earlier administrator page: a fixed list of requests filtered by state,
    with a counter per state and a badge naming each card's state. */
module LegacyAdminSolicitudes {
  import opened Wrappers
  import opened Text
  import opened JsValue
  import opened Seqs

  /** The rows `s.estado === e`. */
  function EstadoIs(e: string): Obj -> bool
  {
    s => Get(s, "estado") == Some(Str(e))
  }

  /** `solicitudesFiltradas`: `todos` shows the list as it is; any other filter shows exactly
      the rows in that state, in list order, each as many times as it occurs. */
  function Filtradas(sols: seq<Obj>, filtro: string): (r: seq<Obj>)
    ensures filtro == "todos" ==> r == sols
    ensures Sublist(r, sols)
    ensures filtro != "todos" ==> forall x :: x in r <==> x in sols && Get(x, "estado") == Some(Str(filtro))
    ensures filtro != "todos" ==> forall x ::
      multiset(r)[x] == (if Get(x, "estado") == Some(Str(filtro)) then multiset(sols)[x] else 0)
  {
    if filtro == "todos" then
      FilterAll((s: Obj) => true, sols);
      FilterIsSublist((s: Obj) => true, sols);
      sols
    else
      FilterIsSublist(EstadoIs(filtro), sols);
      FilterMultiset(EstadoIs(filtro), sols);
      Filter(EstadoIs(filtro), sols)
  }

  /** The four stat cards. */
  datatype Stats = Stats(total: nat, pendientes: nat, enProgreso: nat, completadas: nat)

  /** The stat cards: the list length and the rows in each of three states; a row is in at
      most one state, so the three together never exceed the total. */
  function Counts(sols: seq<Obj>): (c: Stats)
    ensures c.total == |sols|
    ensures c.pendientes == |Filter(EstadoIs("pendiente"), sols)|
    ensures c.enProgreso == |Filter(EstadoIs("en_progreso"), sols)|
    ensures c.completadas == |Filter(EstadoIs("completada"), sols)|
    ensures c.pendientes + c.enProgreso + c.completadas <= c.total
  {
    CountDisjoint3(EstadoIs("pendiente"), EstadoIs("en_progreso"), EstadoIs("completada"), sols);
    Stats(|sols|, Count(EstadoIs("pendiente"), sols), Count(EstadoIs("en_progreso"), sols),
          Count(EstadoIs("completada"), sols))
  }

  /** Each card's number is the number of rows its state's filter shows. */
  lemma CountsMatchFilter(sols: seq<Obj>)
    ensures Counts(sols).pendientes == |Filtradas(sols, "pendiente")|
    ensures Counts(sols).enProgreso == |Filtradas(sols, "en_progreso")|
    ensures Counts(sols).completadas == |Filtradas(sols, "completada")|
    ensures Counts(sols).total == |Filtradas(sols, "todos")|
  {
  }

  /** The badge: `estado.replace('_', ' ')`, which changes only the first underscore. */
  function BadgeText(estado: string): (r: string)
    ensures |r| == |estado|
    ensures '_' !in estado ==> r == estado
    ensures forall k :: 0 <= k < |estado| && estado[k] == '_' && '_' !in estado[..k] ==>
      r == estado[..k] + " " + estado[k + 1..]
  {
    if '_' !in estado then
      NoUnderscoreKept(estado);
      ReplaceFirst(estado, '_', ' ')
    else
      forall k | 0 <= k < |estado| && estado[k] == '_' && '_' !in estado[..k]
        ensures ReplaceFirst(estado, '_', ' ') == estado[..k] + " " + estado[k + 1..]
      {
        ReplaceFirstSpec(estado, '_', ' ', k);
      }
      ReplaceFirst(estado, '_', ' ')
  }

  lemma {:induction false} NoUnderscoreKept(s: string)
    requires '_' !in s
    ensures ReplaceFirst(s, '_', ' ') == s
  {
    if s != [] {
      assert '_' !in s[1..];
      NoUnderscoreKept(s[1..]);
    }
  }

  /** A state with two underscores keeps the second one. */
  lemma BadgeKeepsLaterUnderscores()
    ensures BadgeText("a_b_c") == "a b_c"
  {
    assert "a_b_c"[1] == '_' && '_' !in "a_b_c"[..1];
  }
}
