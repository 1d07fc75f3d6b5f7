/** The forecast page: an editable table of history rows, its validation, and
    the payload it sends to the forecasting service. Row ids (random in the page)
    and today's date are supplied by the caller. */
module ModeloPredictivo {
  import opened Wrappers
  import opened Text
  import opened JsValue
  import opened Seqs
  import Forecast

  /** One history row of the table. `count` always holds a number: the page stores
      `Number(value) || 0` for it. */
  datatype Row = Row(id: string, date: string, comuna: string, tipoServicio: string, count: int)

  /** The columns `updateRow` can change. */
  datatype Field = DateField | ComunaField | TipoField | CountField

  /** `Number.isInteger(Number(horizon))` and `1 <= horizon <= 30`, the comparisons
      converting the value the same way. */
  predicate HorizonOk(horizon: Json)
  {
    var n := ToNumber(Some(horizon));
    n.Some? && 1 <= n.value <= 30
  }

  /** The row checks, in the order the loop makes them. */
  datatype Check = MissingDate | MissingComuna | MissingTipo | NegativeCount

  /** The first check a row fails, if any. */
  function RowCheck(r: Row): Option<Check>
  {
    if r.date == "" then Some(MissingDate)
    else if Trim(r.comuna) == "" then Some(MissingComuna)
    else if Trim(r.tipoServicio) == "" then Some(MissingTipo)
    else if r.count < 0 then Some(NegativeCount)
    else None
  }

  function Invalid(): Row -> bool
  {
    (r: Row) => RowCheck(r).Some?
  }

  const HorizonMsg := "El horizonte debe estar entre 1 y 30 días."
  const NoRowsMsg := "Debes ingresar al menos una fila de historial."

  /** The message for row `i` (0-based) failing check `c`; rows are numbered from 1. */
  function RowMessage(i: nat, c: Check): string
  {
    "Fila " + NatToString(i + 1) + ": " +
    match c
    case MissingDate => "fecha requerida."
    case MissingComuna => "comuna requerida."
    case MissingTipo => "tipo de servicio requerido."
    case NegativeCount => "count debe ser ≥ 0."
  }

  datatype Verdict = Verdict(ok: bool, msg: string)

  /** The row part of `validation`: the first failing row with its first failing check. */
  function RowsVerdict(rows: seq<Row>): (v: Verdict)
    ensures v.ok <==> forall i :: 0 <= i < |rows| ==> RowCheck(rows[i]) == None
    ensures v.ok ==> v.msg == ""
    ensures !v.ok ==>
      exists k :: 0 <= k < |rows| && RowCheck(rows[k]).Some? &&
        (forall j :: 0 <= j < k ==> RowCheck(rows[j]) == None) &&
        v.msg == RowMessage(k, RowCheck(rows[k]).value)
  {
    var k := FirstIndex(Invalid(), rows);
    if k.None? then Verdict(true, "")
    else Verdict(false, RowMessage(k.value, RowCheck(rows[k.value]).value))
  }

  /** What `validation` reports: the horizon first, then an empty table, then the first
      failing row with its first failing check. */
  function Validation(horizon: Json, rows: seq<Row>): (v: Verdict)
    ensures v.ok <==> HorizonOk(horizon) && rows != [] && forall i :: 0 <= i < |rows| ==> RowCheck(rows[i]) == None
    ensures v.ok <==> v.msg == ""
    ensures !HorizonOk(horizon) ==> v.msg == HorizonMsg
    ensures HorizonOk(horizon) && rows == [] ==> v.msg == NoRowsMsg
    ensures HorizonOk(horizon) && !v.ok && rows != [] ==>
      exists k :: 0 <= k < |rows| && RowCheck(rows[k]).Some? &&
        (forall j :: 0 <= j < k ==> RowCheck(rows[j]) == None) &&
        v.msg == RowMessage(k, RowCheck(rows[k]).value)
  {
    if !HorizonOk(horizon) then Verdict(false, HorizonMsg)
    else if rows == [] then Verdict(false, NoRowsMsg)
    else RowsVerdict(rows)
  }

  /** The loop of `validation`: each check that fails sets the message and leaves the loop. */
  method Validate(horizon: Json, rows: seq<Row>) returns (v: Verdict)
    ensures v == Validation(horizon, rows)
  {
    if !HorizonOk(horizon) {
      v := Verdict(false, HorizonMsg);
      return;
    }
    if |rows| == 0 {
      v := Verdict(false, NoRowsMsg);
      return;
    }
    v := CheckRows(rows);
  }

  /** The row loop of `validation`. */
  method CheckRows(rows: seq<Row>) returns (v: Verdict)
    ensures v == RowsVerdict(rows)
  {
    v := Verdict(true, "");
    var i := 0;
    while i < |rows|
      invariant 0 <= i <= |rows|
      invariant v == Verdict(true, "")
      invariant forall j :: 0 <= j < i ==> RowCheck(rows[j]) == None
    {
      var r := rows[i];
      if r.date == "" {
        FailsAt(rows, i);
        v := Verdict(false, RowMessage(i, MissingDate));
        break;
      }
      if Trim(r.comuna) == "" {
        FailsAt(rows, i);
        v := Verdict(false, RowMessage(i, MissingComuna));
        break;
      }
      if Trim(r.tipoServicio) == "" {
        FailsAt(rows, i);
        v := Verdict(false, RowMessage(i, MissingTipo));
        break;
      }
      if !(r.count >= 0) {
        FailsAt(rows, i);
        v := Verdict(false, RowMessage(i, NegativeCount));
        break;
      }
      i := i + 1;
    }
    if v.ok {
      PassesAll(rows);
    }
  }

  /** The verdict when row `i` is the first to fail a check. */
  lemma FailsAt(rows: seq<Row>, i: nat)
    requires i < |rows| && RowCheck(rows[i]).Some?
    requires forall j :: 0 <= j < i ==> RowCheck(rows[j]) == None
    ensures RowsVerdict(rows) == Verdict(false, RowMessage(i, RowCheck(rows[i]).value))
  {
    FirstIndexAt(Invalid(), rows, i);
  }

  /** The verdict when every row passes. */
  lemma PassesAll(rows: seq<Row>)
    requires forall j :: 0 <= j < |rows| ==> RowCheck(rows[j]) == None
    ensures RowsVerdict(rows) == Verdict(true, "")
  {
    FirstIndexNone(Invalid(), rows);
  }

  /** One history item of the payload: the date as typed, comuna and tipo trimmed and
      lower-cased, and the count as a number. */
  function HistoryItem(r: Row): (item: Obj)
    ensures item.Keys == {"date", "comuna", "tipo_servicio", "count"}
  {
    map["date" := Str(r.date), "comuna" := Str(Lower(Trim(r.comuna))),
        "tipo_servicio" := Str(Lower(Trim(r.tipoServicio))), "count" := Num(r.count)]
  }

  /** The request body `{ horizon_days, history }`. */
  datatype Payload = Payload(horizonDays: int, history: seq<Obj>)

  /** The payload of a valid table: one item per row, in row order. */
  function PredictPayload(horizon: Json, rows: seq<Row>): (p: Payload)
    requires HorizonOk(horizon)
    ensures 1 <= p.horizonDays <= 30 && Some(p.horizonDays) == ToNumber(Some(horizon))
    ensures |p.history| == |rows|
    ensures forall i :: 0 <= i < |rows| ==> p.history[i] == HistoryItem(rows[i])
  {
    Payload(ToNumber(Some(horizon)).value, seq(|rows|, i requires 0 <= i < |rows| => HistoryItem(rows[i])))
  }

  /** Lower-casing a lower-cased text again, as the service does, changes nothing. */
  lemma LowerReadsBack(item: Obj, f: string, t: string)
    requires Get(item, f) == Some(Str(Lower(t)))
    ensures Forecast.LowerOr(item, f) == Some(Lower(t))
  {
    LowerIdempotent(t);
    if t == "" {
      assert Lower(t) == "";
    }
  }

  /** The service reads the payload back as sent: its comuna and tipo as they are, and
      the count as its number (`Number(count) || 0` is the count itself, 0 included). */
  lemma PayloadReadsBack(r: Row)
    ensures Forecast.LowerOr(HistoryItem(r), "comuna") == Some(Lower(Trim(r.comuna)))
    ensures Forecast.LowerOr(HistoryItem(r), "tipo_servicio") == Some(Lower(Trim(r.tipoServicio)))
    ensures NumberOr(Get(HistoryItem(r), "count"), 0) == r.count
  {
    var item := HistoryItem(r);
    HistoryItemFields(r);
    LowerReadsBack(item, "comuna", Trim(r.comuna));
    LowerReadsBack(item, "tipo_servicio", Trim(r.tipoServicio));
    NumberOfNum(Get(item, "count"), r.count);
  }

  /** `Number(n) || 0` of a number is the number, 0 included. */
  lemma NumberOfNum(v: Option<Json>, n: int)
    requires v == Some(Num(n))
    ensures NumberOr(v, 0) == n
  {
  }

  /** The four values of a history item, as the service looks them up: the date as typed,
      comuna and tipo trimmed and lower-cased, the count as a number. */
  lemma HistoryItemFields(r: Row)
    ensures Get(HistoryItem(r), "date") == Some(Str(r.date))
    ensures Get(HistoryItem(r), "comuna") == Some(Str(Lower(Trim(r.comuna))))
    ensures Get(HistoryItem(r), "tipo_servicio") == Some(Str(Lower(Trim(r.tipoServicio))))
    ensures Get(HistoryItem(r), "count") == Some(Num(r.count))
  {
  }

  /** A valid row's comuna and tipo reach the service non-empty and trimmed. */
  lemma ValidRowSendsTrimmed(r: Row)
    requires RowCheck(r) == None
    ensures Lower(Trim(r.comuna)) != "" && IsTrimmed(Lower(Trim(r.comuna)))
    ensures Lower(Trim(r.tipoServicio)) != "" && IsTrimmed(Lower(Trim(r.tipoServicio)))
  {
    TrimLower(Trim(r.comuna));
    TrimIdempotent(r.comuna);
    TrimLower(Trim(r.tipoServicio));
    TrimIdempotent(r.tipoServicio);
  }

  /** The stored value of a field: `count` takes `Number(value) || 0`, the others the text. */
  function SetField(field: Field, value: string): Row -> Row
  {
    (r: Row) => match field
         case DateField => r.(date := value)
         case ComunaField => r.(comuna := value)
         case TipoField => r.(tipoServicio := value)
         case CountField => r.(count := NumberOr(Some(Str(value)), 0))
  }

  /** `SetField` changes the named column and nothing else. */
  lemma SetFieldChangesOne(field: Field, value: string)
    ensures forall r: Row ::
      var u := SetField(field, value)(r);
      u.id == r.id &&
      u.date == (if field == DateField then value else r.date) &&
      u.comuna == (if field == ComunaField then value else r.comuna) &&
      u.tipoServicio == (if field == TipoField then value else r.tipoServicio) &&
      u.count == (if field == CountField then NumberOr(Some(Str(value)), 0) else r.count)
  {
  }

  function RowIdIs(id: string): Row -> bool
  {
    (r: Row) => r.id == id
  }

  function RowIdIsNot(id: string): Row -> bool
  {
    (r: Row) => r.id != id
  }

  /** `updateRow`: only the named field of the rows with that id changes. */
  function UpdatedRows(rows: seq<Row>, id: string, field: Field, value: string): (r: seq<Row>)
    ensures |r| == |rows|
    ensures forall i :: 0 <= i < |rows| && rows[i].id != id ==> r[i] == rows[i]
    ensures forall i :: 0 <= i < |rows| && rows[i].id == id ==>
      r[i].id == id &&
      r[i].date == (if field == DateField then value else rows[i].date) &&
      r[i].comuna == (if field == ComunaField then value else rows[i].comuna) &&
      r[i].tipoServicio == (if field == TipoField then value else rows[i].tipoServicio) &&
      r[i].count == (if field == CountField then NumberOr(Some(Str(value)), 0) else rows[i].count)
  {
    SetFieldChangesOne(field, value);
    MapWhere(RowIdIs(id), SetField(field, value), rows)
  }

  /** A count typed as a decimal numeral is stored as that number; an empty or
      unreadable one is stored as 0. */
  lemma CountFieldReadsNumber(n: int)
    ensures NumberOr(Some(Str(JsString(Some(Num(n))))), 0) == n
    ensures NumberOr(Some(Str("")), 0) == 0
  {
    NumberOfString(n);
  }

  /** `removeRow`: exactly the rows with that id go, the others stay in order. */
  function RemovedRows(rows: seq<Row>, id: string): (r: seq<Row>)
    ensures Sublist(r, rows)
    ensures forall x :: x in r <==> x in rows && x.id != id
    ensures |r| == |rows| - Count(RowIdIs(id), rows)
  {
    FilterIsSublist(RowIdIsNot(id), rows);
    FilterSplit(RowIdIs(id), RowIdIsNot(id), rows);
    Filter(RowIdIsNot(id), rows)
  }

  /** A blank row dated today. */
  function BlankRow(id: string, today: string): Row
  {
    Row(id, today, "", "", 0)
  }

  /** The page's state: the horizon field, the table, the error text and whether an
      attempt was made. */
  class Page {
    var horizon: Json
    var rows: seq<Row>
    var error: string
    var touched: bool

    constructor (rows: seq<Row>)
      ensures horizon == Num(14) && this.rows == rows && error == "" && !touched
    {
      horizon := Num(14);
      this.rows := rows;
      error := "";
      touched := false;
    }

    /** `addRow`: one blank row at the end. */
    method AddRow(id: string, today: string)
      modifies this`rows
      ensures rows == old(rows) + [BlankRow(id, today)]
    {
      rows := rows + [BlankRow(id, today)];
    }

    method RemoveRow(id: string)
      modifies this`rows
      ensures rows == RemovedRows(old(rows), id)
    {
      rows := RemovedRows(rows, id);
    }

    /** `clearAll`: exactly one blank row, no error, not yet attempted. */
    method ClearAll(id: string, today: string)
      modifies this`rows, this`error, this`touched
      ensures rows == [BlankRow(id, today)] && error == "" && !touched
    {
      rows := [BlankRow(id, today)];
      error := "";
      touched := false;
    }

    method UpdateRow(id: string, field: Field, value: string)
      modifies this`rows
      ensures rows == UpdatedRows(old(rows), id, field, value)
    {
      rows := UpdatedRows(rows, id, field, value);
    }

    /** `predict`: an invalid table shows its message and calls nothing; a valid one
        sends the payload built from the rows. */
    method Predict() returns (sent: Option<Payload>)
      modifies this`error, this`touched
      ensures touched
      ensures !Validation(horizon, rows).ok ==> sent == None && error == Validation(horizon, rows).msg
      ensures Validation(horizon, rows).ok ==> HorizonOk(horizon) && sent == Some(PredictPayload(horizon, rows)) && error == ""
    {
      touched := true;
      error := "";
      var v := Validate(horizon, rows);
      if !v.ok {
        error := v.msg;
        return None;
      }
      sent := Some(PredictPayload(horizon, rows));
    }
  }
}
