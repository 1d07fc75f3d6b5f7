/** The analytics page (frontend/src/pages/adminMetricas.js): the client-side
    filter over the raw rows, the KPI counters, the per-day series and the
    values shown on the cards. */
module Metricas {
  import opened Wrappers
  import opened Text
  import opened JsValue
  import opened Seqs
  import opened Sorting
  import opened Assoc

  /** The comuna the rows are compared with: `''` for `todas`, otherwise the selection lowercased. */
  function ComunaFilter(filtroComuna: string): string
  {
    if filtroComuna == "todas" then "" else Lower(filtroComuna)
  }

  /** The service type the rows are compared with: `''` for `todos`. */
  function ServicioFilter(filtroServicio: string): string
  {
    if filtroServicio == "todos" then "" else filtroServicio
  }

  /** `(c ? r.comuna === c : true) && (s ? r.tipo_servicio === s : true)`. */
  function Matches(c: string, s: string): Obj -> bool
  {
    r => (c != "" ==> Get(r, "comuna") == Some(Str(c))) && (s != "" ==> Get(r, "tipo_servicio") == Some(Str(s)))
  }

  /** `filtradas`: the raw rows that match both selections, in their order, each as many
      times as it occurs. */
  function Filtradas(raw: seq<Obj>, filtroComuna: string, filtroServicio: string): (r: seq<Obj>)
    ensures Sublist(r, raw)
    ensures forall x :: x in r <==> x in raw && Matches(ComunaFilter(filtroComuna), ServicioFilter(filtroServicio))(x)
    ensures forall x ::
      multiset(r)[x] == (if Matches(ComunaFilter(filtroComuna), ServicioFilter(filtroServicio))(x) then multiset(raw)[x] else 0)
    ensures filtroComuna == "todas" && filtroServicio == "todos" ==> r == raw
  {
    var p := Matches(ComunaFilter(filtroComuna), ServicioFilter(filtroServicio));
    FilterIsSublist(p, raw);
    FilterMultiset(p, raw);
    if filtroComuna == "todas" && filtroServicio == "todos" then
      FilterAll(p, raw);
      Filter(p, raw)
    else Filter(p, raw)
  }

  /** Selections that differ only in letter case keep the same rows. */
  lemma ComunaSelectionIgnoresCase(raw: seq<Obj>, a: string, b: string, filtroServicio: string)
    requires a != "todas" && b != "todas" && Lower(a) == Lower(b)
    ensures Filtradas(raw, a, filtroServicio) == Filtradas(raw, b, filtroServicio)
  {
  }

  /** A row whose comuna has an upper-case letter is dropped by every comuna selection:
      the selection is lowercased, the row's comuna is compared as stored. */
  lemma UpperCaseComunaNeverMatches(r: Obj, filtroComuna: string, s: string)
    requires ComunaFilter(filtroComuna) != ""
    requires Get(r, "comuna").Some? && Get(r, "comuna").value.Str?
    requires Lower(Get(r, "comuna").value.s) != Get(r, "comuna").value.s
    ensures !Matches(ComunaFilter(filtroComuna), s)(r)
  {
    LowerIdempotent(filtroComuna);
  }

  /** The property key `acc[r.estado]` looks up: `String(r.estado)`. */
  function EstadoKey(): Obj -> string
  {
    r => JsString(Get(r, "estado"))
  }

  /** The counter object before the loop, over counter names `keys`. */
  function InitialAcc<K>(keys: set<K>): (acc: map<K, int>)
    ensures acc.Keys == keys
    ensures forall k :: k in acc ==> acc[k] == 0
  {
    map k | k in keys :: 0
  }

  /** The rows whose key is `k`. */
  function KeyIs<K(==)>(key: Obj -> K, k: K): Obj -> bool
  {
    r => key(r) == k
  }

  /** What counter `k` holds after the rows `f`. */
  ghost function Expected<K>(f: seq<Obj>, key: Obj -> K, total: K, k: K): int
  {
    (if k == total then |f| else 0) + Count(KeyIs(key, k), f)
  }

  lemma ExpectedStep<K>(f: seq<Obj>, key: Obj -> K, total: K, i: nat, k: K)
    requires i < |f|
    ensures Expected(f[..i + 1], key, total, k) == Expected(f[..i], key, total, k) + (if k == total then 1 else 0) + (if key(f[i]) == k then 1 else 0)
  {
    assert f[..i + 1] == f[..i] + [f[i]];
    CountAppend(KeyIs(key, k), f[..i], f[i]);
  }

  /** One turn of the `kpisFiltrados` loop takes counters that match the rows before `i`
      to counters that match the rows up to `i`. */
  lemma TallyStep<K>(f: seq<Obj>, key: Obj -> K, keys: set<K>, total: K, i: nat, a0: map<K, int>, a1: map<K, int>)
    requires i < |f| && total in keys && a0.Keys == keys
    requires forall k :: k in keys ==> a0[k] == Expected(f[..i], key, total, k)
    requires a1 == (var b := a0[total := a0[total] + 1]; if key(f[i]) in b then b[key(f[i]) := b[key(f[i])] + 1] else b)
    ensures a1.Keys == keys
    ensures forall k :: k in keys ==> a1[k] == Expected(f[..i + 1], key, total, k)
  {
    forall k | k in keys ensures a1[k] == Expected(f[..i + 1], key, total, k) {
      assert a1[k] == a0[k] + (if k == total then 1 else 0) + (if key(f[i]) == k then 1 else 0);
      ExpectedStep(f, key, total, i, k);
    }
  }

  /** The `kpisFiltrados` loop, for a row-to-key conversion `key`, counter names `keys`
      and the name `total`: `acc.total++`, then `acc[key]++` when the object has that key. */
  method CountByKey<K(==)>(f: seq<Obj>, key: Obj -> K, keys: set<K>, total: K) returns (acc: map<K, int>)
    requires total in keys
    ensures acc.Keys == keys
    ensures acc[total] == |f| + Count(KeyIs(key, total), f)
    ensures forall k :: k in acc && k != total ==> acc[k] == Count(KeyIs(key, k), f)
  {
    acc := InitialAcc(keys);
    var i := 0;
    while i < |f|
      invariant 0 <= i <= |f|
      invariant acc.Keys == keys
      invariant forall k :: k in keys ==> acc[k] == Expected(f[..i], key, total, k)
    {
      var e := key(f[i]);
      ghost var before := acc;
      acc := acc[total := acc[total] + 1];
      if e in acc {
        acc := acc[e := acc[e] + 1];
      }
      TallyStep(f, key, keys, total, i, before, acc);
      i := i + 1;
    }
    assert f[..i] == f;
  }

  /** The counters of `kpisFiltrados`. */
  const KpiKeySet: set<string> := {"total", "pendientes", "en_revision", "asignadas", "en_progreso", "completadas", "canceladas"}

  /** `kpisFiltrados`: `total` counts every row, and a counter also counts the rows whose
      estado names it. A row whose estado is `total` is therefore counted twice. */
  method KpisFiltrados(f: seq<Obj>) returns (acc: map<string, int>)
    ensures acc.Keys == KpiKeySet
    ensures acc["total"] == |f| + Count(KeyIs(EstadoKey(), "total"), f)
    ensures forall k :: k in acc && k != "total" ==> acc[k] == Count(KeyIs(EstadoKey(), k), f)
  {
    acc := CountByKey(f, EstadoKey(), KpiKeySet, "total");
  }

  /** The six named counters together never exceed the number of rows. */
  lemma {:induction false} NamedCountsWithinTotal(f: seq<Obj>)
    ensures Count(KeyIs(EstadoKey(), "pendientes"), f) + Count(KeyIs(EstadoKey(), "en_revision"), f)
          + Count(KeyIs(EstadoKey(), "asignadas"), f) + Count(KeyIs(EstadoKey(), "en_progreso"), f)
          + Count(KeyIs(EstadoKey(), "completadas"), f) + Count(KeyIs(EstadoKey(), "canceladas"), f) <= |f|
  {
    if f != [] {
      NamedCountsWithinTotal(f[..|f| - 1]);
      assert f == f[..|f| - 1] + [f[|f| - 1]];
      CountAppend(KeyIs(EstadoKey(), "pendientes"), f[..|f| - 1], f[|f| - 1]);
      CountAppend(KeyIs(EstadoKey(), "en_revision"), f[..|f| - 1], f[|f| - 1]);
      CountAppend(KeyIs(EstadoKey(), "asignadas"), f[..|f| - 1], f[|f| - 1]);
      CountAppend(KeyIs(EstadoKey(), "en_progreso"), f[..|f| - 1], f[|f| - 1]);
      CountAppend(KeyIs(EstadoKey(), "completadas"), f[..|f| - 1], f[|f| - 1]);
      CountAppend(KeyIs(EstadoKey(), "canceladas"), f[..|f| - 1], f[|f| - 1]);
    }
  }

  /** A row in state `completada` moves only `total`: no counter is named that. */
  lemma CompletadaCountsOnlyTotal(f: seq<Obj>, r: Obj, k: string)
    requires Get(r, "estado") == Some(Str("completada")) && k in KpiKeySet
    ensures Count(KeyIs(EstadoKey(), k), f + [r]) == Count(KeyIs(EstadoKey(), k), f)
  {
    CountAppend(KeyIs(EstadoKey(), k), f, r);
  }

  /** One entry of `porDiaFiltrado`. */
  datatype DaySummary = DaySummary(fecha: string, totalSolicitudes: int, completadas: int)

  /** The row's `fecha`, which the series assumes is a string. */
  predicate HasFecha(r: Obj)
  {
    AsString(Get(r, "fecha")).Some?
  }

  function Fecha(r: Obj): string
    requires HasFecha(r)
  {
    AsString(Get(r, "fecha")).value
  }

  predicate IsCompletada(r: Obj)
  {
    Get(r, "estado") == Some(Str("completada"))
  }

  /** `o.total_solicitudes++; if (r.estado === 'completada') o.completadas++`. */
  function Bump(completed: bool): DaySummary -> DaySummary
  {
    (o: DaySummary) => o.(totalSolicitudes := o.totalSolicitudes + 1, completadas := o.completadas + if completed then 1 else 0)
  }

  /** The `Map` from fecha to its entry after the loop has seen `f`. */
  function Grouped(f: seq<Obj>): Entries<DaySummary>
    requires forall i :: 0 <= i < |f| ==> HasFecha(f[i])
  {
    if f == [] then []
    else
      var r := f[|f| - 1];
      Upsert(Grouped(f[..|f| - 1]), Fecha(r), DaySummary(Fecha(r), 0, 0), Bump(IsCompletada(r)))
  }

  /** `a.fecha.localeCompare(b.fecha) <= 0`, as code-unit order. */
  function FechaLe(): (DaySummary, DaySummary) -> bool
  {
    (a: DaySummary, b: DaySummary) => StrLe(a.fecha, b.fecha)
  }

  /** `porDiaFiltrado`: the map's values sorted by fecha. */
  function PorDia(f: seq<Obj>): seq<DaySummary>
    requires forall i :: 0 <= i < |f| ==> HasFecha(f[i])
  {
    InsertionSort(Values(Grouped(f)), FechaLe())
  }

  /** The series computation: the grouping loop over a `Map`, then `Array.from(...).sort(...)`. */
  method PorDiaFiltrado(f: seq<Obj>) returns (days: seq<DaySummary>)
    requires forall i :: 0 <= i < |f| ==> HasFecha(f[i])
    ensures days == PorDia(f)
  {
    var m := GroupByFecha(f);
    var vals := Values(m);
    var a := new DaySummary[|vals|](k requires 0 <= k < |vals| => vals[k]);
    assert a[..] == vals;
    SortInPlace(a, FechaLe());
    days := a[..];
  }

  /** The grouping loop: one `Map` entry per fecha, bumped once per row. */
  method GroupByFecha(f: seq<Obj>) returns (m: Entries<DaySummary>)
    requires forall i :: 0 <= i < |f| ==> HasFecha(f[i])
    ensures m == Grouped(f)
  {
    m := [];
    var i := 0;
    while i < |f|
      invariant 0 <= i <= |f|
      invariant m == Grouped(f[..i])
    {
      var r := f[i];
      assert f[..i + 1][..i] == f[..i];
      m := Upsert(m, Fecha(r), DaySummary(Fecha(r), 0, 0), Bump(IsCompletada(r)));
      i := i + 1;
    }
    assert f[..i] == f;
  }

  /** An entry of the map: stored under its own fecha, with 0 <= completadas <= total. */
  predicate WellFormedDay(k: string, v: DaySummary)
  {
    v.fecha == k && 0 <= v.completadas <= v.totalSolicitudes
  }

  function WellFormed(): (string, DaySummary) -> bool
  {
    (k: string, v: DaySummary) => WellFormedDay(k, v)
  }

  function TotalOf(): DaySummary -> int
  {
    (v: DaySummary) => v.totalSolicitudes
  }

  /** The fechas of the rows. */
  ghost function Fechas(f: seq<Obj>): set<string>
    requires forall i :: 0 <= i < |f| ==> HasFecha(f[i])
  {
    set i | 0 <= i < |f| :: Fecha(f[i])
  }

  lemma FechasAppend(f: seq<Obj>)
    requires f != [] && forall i :: 0 <= i < |f| ==> HasFecha(f[i])
    ensures Fechas(f) == Fechas(f[..|f| - 1]) + {Fecha(f[|f| - 1])}
  {
    var init := f[..|f| - 1];
    forall x | x in Fechas(f) ensures x in Fechas(init) + {Fecha(f[|f| - 1])} {
      var i :| 0 <= i < |f| && Fecha(f[i]) == x;
      if i < |init| {
        assert init[i] == f[i];
      }
    }
    forall x | x in Fechas(init) ensures x in Fechas(f) {
      var i :| 0 <= i < |init| && Fecha(init[i]) == x;
      assert f[i] == init[i];
    }
  }

  /** Each entry of the map is stored under its own fecha, keys are distinct, and the
      keys are exactly the fechas of the rows. */
  lemma {:induction false} GroupedKeys(f: seq<Obj>)
    requires forall i :: 0 <= i < |f| ==> HasFecha(f[i])
    ensures DistinctKeys(Grouped(f))
    ensures forall i :: 0 <= i < |Grouped(f)| ==> WellFormedDay(Grouped(f)[i].0, Grouped(f)[i].1)
    ensures KeySet(Grouped(f)) == Fechas(f)
  {
    if f != [] {
      var init, r := f[..|f| - 1], f[|f| - 1];
      GroupedKeys(init);
      UpsertDistinct(Grouped(init), Fecha(r), DaySummary(Fecha(r), 0, 0), Bump(IsCompletada(r)));
      UpsertAll(WellFormed(), Grouped(init), Fecha(r), DaySummary(Fecha(r), 0, 0), Bump(IsCompletada(r)));
      FechasAppend(f);
    }
  }

  /** The day totals add up to the number of rows. */
  lemma {:induction false} GroupedSum(f: seq<Obj>)
    requires forall i :: 0 <= i < |f| ==> HasFecha(f[i])
    ensures SumOf(TotalOf(), Values(Grouped(f))) == |f|
  {
    if f != [] {
      var init, r := f[..|f| - 1], f[|f| - 1];
      GroupedSum(init);
      UpsertSumOf(TotalOf(), Grouped(init), Fecha(r), DaySummary(Fecha(r), 0, 0), Bump(IsCompletada(r)), 1);
    }
  }

  lemma FechaLeIsPreorder()
    ensures TotalPreorder(FechaLe())
  {
    forall a: DaySummary, b: DaySummary ensures FechaLe()(a, b) || FechaLe()(b, a) {
      StrLeTotal(a.fecha, b.fecha);
    }
    forall a: DaySummary, b: DaySummary, c: DaySummary | FechaLe()(a, b) && FechaLe()(b, c)
      ensures FechaLe()(a, c)
    {
      StrLeTrans(a.fecha, b.fecha, c.fecha);
    }
  }

  function FechaKey(): DaySummary -> string
  {
    (v: DaySummary) => v.fecha
  }

  /** The series is strictly ascending by fecha: one entry per day, in order. */
  lemma PorDiaAscending(f: seq<Obj>)
    requires forall i :: 0 <= i < |f| ==> HasFecha(f[i])
    ensures forall i, j :: 0 <= i < j < |PorDia(f)| ==>
      StrLe(PorDia(f)[i].fecha, PorDia(f)[j].fecha) && PorDia(f)[i].fecha != PorDia(f)[j].fecha
  {
    GroupedKeys(f);
    var g := Grouped(f);
    var vals := Values(g);
    forall i, j | 0 <= i < j < |vals| ensures FechaKey()(vals[i]) != FechaKey()(vals[j]) {
      assert WellFormedDay(g[i].0, g[i].1) && WellFormedDay(g[j].0, g[j].1);
    }
    SortPermutes(vals, FechaLe());
    PermutationKeepsDistinct(FechaKey(), vals, PorDia(f));
    FechaLeIsPreorder();
    SortIsSorted(vals, FechaLe());
  }

  /** The days are exactly the fechas of the rows. */
  lemma PorDiaCoversFechas(f: seq<Obj>, x: string)
    requires forall i :: 0 <= i < |f| ==> HasFecha(f[i])
    ensures (exists i :: 0 <= i < |PorDia(f)| && PorDia(f)[i].fecha == x) <==> (exists k :: 0 <= k < |f| && Fecha(f[k]) == x)
  {
    GroupedKeys(f);
    var g := Grouped(f);
    var vals := Values(g);
    var days := PorDia(f);
    SortPermutes(vals, FechaLe());
    if exists i :: 0 <= i < |days| && days[i].fecha == x {
      var i :| 0 <= i < |days| && days[i].fecha == x;
      assert days[i] in multiset(vals);
      var j :| 0 <= j < |vals| && vals[j] == days[i];
      assert WellFormedDay(g[j].0, g[j].1);
      assert x in KeySet(g);
    }
    if exists k :: 0 <= k < |f| && Fecha(f[k]) == x {
      assert x in KeySet(g);
      var j :| 0 <= j < |g| && g[j].0 == x;
      assert WellFormedDay(g[j].0, g[j].1);
      assert vals[j] in multiset(days);
    }
  }

  /** The day totals add up to the number of filtered rows, and no day has more
      completed requests than requests. */
  lemma PorDiaTotals(f: seq<Obj>)
    requires forall i :: 0 <= i < |f| ==> HasFecha(f[i])
    ensures SumOf(TotalOf(), PorDia(f)) == |f|
    ensures forall i :: 0 <= i < |PorDia(f)| ==> 0 <= PorDia(f)[i].completadas <= PorDia(f)[i].totalSolicitudes
  {
    GroupedKeys(f);
    GroupedSum(f);
    var g := Grouped(f);
    var vals := Values(g);
    SortSumOf(TotalOf(), vals, FechaLe());
    SortPermutes(vals, FechaLe());
    forall i | 0 <= i < |PorDia(f)| ensures 0 <= PorDia(f)[i].completadas <= PorDia(f)[i].totalSolicitudes {
      assert PorDia(f)[i] in multiset(vals);
      var j :| 0 <= j < |vals| && vals[j] == PorDia(f)[i];
      assert WellFormedDay(g[j].0, g[j].1);
    }
  }

  /** `a + b` on two JSON values: concatenation when either is a string, otherwise
      numeric addition with `null` as 0 and booleans as 0 or 1. */
  function JsAdd(a: Json, b: Json): (r: Json)
    ensures a.Num? && b.Num? ==> r == Num(a.n + b.n)
    ensures a.Str? || b.Str? ==> r == Str(JsString(Some(a)) + JsString(Some(b)))
  {
    if a.Str? || b.Str? then Str(JsString(Some(a)) + JsString(Some(b)))
    else
      Num(ToNumber(Some(a)).value + ToNumber(Some(b)).value)
  }

  /** The KPI cards, read from `dataDash.dashboard` with `|| 0` on each field. */
  datatype Kpis = Kpis(totalSolicitudes: Json, completadas: Json, pendientes: Json, enProgreso: Json)

  /** `x || 0`. */
  function OrZero(v: Option<Json>): (r: Json)
    ensures Truthy(v) ==> Some(r) == v
    ensures !Truthy(v) ==> r == Num(0)
  {
    OrNull(Or(v, Some(Num(0))))
  }

  /** A KPI card's value: the dashboard's field when it is truthy, 0 otherwise (and 0 for
      every card without a dashboard). */
  predicate ShowsField(card: Json, dashboard: Option<Obj>, field: string)
  {
    if dashboard.Some? && Truthy(Get(dashboard.value, field)) then Some(card) == Get(dashboard.value, field)
    else card == Num(0)
  }

  /** The `setKpis` call: `dashboard` is `dataDash.dashboard || {}` (`None` when falsy). */
  function KpisFromDashboard(dashboard: Option<Obj>): (k: Kpis)
    ensures dashboard.None? ==> k == Kpis(Num(0), Num(0), Num(0), Num(0))
    ensures ShowsField(k.totalSolicitudes, dashboard, "total_solicitudes")
    ensures ShowsField(k.completadas, dashboard, "completadas")
    ensures ShowsField(k.pendientes, dashboard, "pendientes")
    ensures ShowsField(k.enProgreso, dashboard, "en_progreso")
  {
    var d := if dashboard.Some? then dashboard.value else map[];
    Kpis(OrZero(Get(d, "total_solicitudes")), OrZero(Get(d, "completadas")),
         OrZero(Get(d, "pendientes")), OrZero(Get(d, "en_progreso")))
  }

  /** `solicitudesAbiertas = kpis.pendientes + kpis.enProgreso`. */
  function SolicitudesAbiertas(k: Kpis): Json
  {
    JsAdd(k.pendientes, k.enProgreso)
  }

  /** With numeric counters the open count is their sum. */
  lemma AbiertasIsSum(dashboard: Obj, p: int, e: int)
    requires Get(dashboard, "pendientes") == Some(Num(p)) && Get(dashboard, "en_progreso") == Some(Num(e))
    ensures SolicitudesAbiertas(KpisFromDashboard(Some(dashboard))) == Num(p + e)
  {
  }

  /** Counters delivered as strings are glued together instead: "3" and "2" show as "32". */
  lemma AbiertasOfStrings(dashboard: Obj)
    requires Get(dashboard, "pendientes") == Some(Str("3")) && Get(dashboard, "en_progreso") == Some(Str("2"))
    ensures SolicitudesAbiertas(KpisFromDashboard(Some(dashboard))) == Str("32")
  {
  }

  /** The width of a recent request's progress bar, in percent. */
  function ProgressWidth(estadoActual: Option<Json>): (w: int)
    ensures w == 100 <==> estadoActual == Some(Str("completada"))
    ensures w == 70 <==> estadoActual == Some(Str("en_proceso"))
    ensures w == 50 <==> estadoActual == Some(Str("asignada"))
    ensures w == 30 <==> estadoActual !in {Some(Str("completada")), Some(Str("en_proceso")), Some(Str("asignada"))}
  {
    if estadoActual == Some(Str("completada")) then 100
    else if estadoActual == Some(Str("en_proceso")) then 70
    else if estadoActual == Some(Str("asignada")) then 50
    else 30
  }
}
