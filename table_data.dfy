/**
 * Ingestion of the fetched snapshot and the state of a fetch. The snapshot maps each category to its rows;
 * every array-valued entry has each row extended with `amountStx`, the amount in STX (10^6 micro-STX), and
 * every other entry is kept as it is. A fetch ends with `loading` false, and either new `data` or an `error`.
 */
module TableData {
  import opened Wrappers

  /** A JavaScript value as parsed JSON holds it, plus `NaN`, which arithmetic on a non-number produces. */
  datatype Value =
    | Null
    | Bool(b: bool)
    | Num(x: real)
    | Str(s: string)
    | Arr(items: seq<Value>)
    | Obj(fields: map<string, Value>)
    | NaN

  /** The parsed response body: category name to entry. */
  type Snapshot = map<string, Value>

  /** `10 ** 6`: micro-STX per STX. */
  const MICRO_STX_PER_STX: real := 1000000.0

  /** JavaScript truthiness, as the `!data[activeTab]` test uses it: false exactly for the falsy values. */
  predicate Truthy(v: Value)
    ensures Truthy(v) <==> v !in {Null, Bool(false), Num(0.0), Str(""), NaN}
  {
    match v
    case Null => false
    case Bool(b) => b
    case Num(x) => x != 0.0
    case Str(s) => s != ""
    case Arr(_) => true
    case Obj(_) => true
    case NaN => false
  }

  /** Truthiness of a row field that may be missing; a missing field reads as `undefined`, which is falsy. */
  predicate FieldTruthy(v: Option<Value>)
    ensures FieldTruthy(v) <==> v.Some? && v.value !in {Null, Bool(false), Num(0.0), Str(""), NaN}
  {
    v.Some? && Truthy(v.value)
  }

  /** The own fields `{...row}` copies: those of an object, none for a number, boolean or null. */
  function OwnFields(row: Value): map<string, Value> {
    if row.Obj? then row.fields else map[]
  }

  /** The number a value turns into under `/`: numbers as they are, `null` as 0, booleans as 0 or 1. */
  function ToNumber(v: Value): Option<real> {
    match v
    case Num(x) => Some(x)
    case Null => Some(0.0)
    case Bool(b) => Some(if b then 1.0 else 0.0)
    case _ => None
  }

  /** `row.amountUstx / 10 ** 6` for a row that is not `null`; a missing field reads as `undefined`, giving NaN. */
  function AmountStx(row: Value): (r: Value)
    ensures r.Num? || r == NaN
    ensures r.Num? <==> "amountUstx" in OwnFields(row) && ToNumber(OwnFields(row)["amountUstx"]).Some?
    ensures r.Num? ==> r.x * MICRO_STX_PER_STX == ToNumber(OwnFields(row)["amountUstx"]).value
  {
    var fields := OwnFields(row);
    if "amountUstx" in fields && ToNumber(fields["amountUstx"]).Some? then
      Num(ToNumber(fields["amountUstx"]).value / MICRO_STX_PER_STX)
    else
      NaN
  }

  /**
   * `({...row, amountStx: row.amountUstx / 10 ** 6})`. Reading a property of `null` throws a TypeError, so
   * a `null` row has no result; any other row keeps its fields and gains (or overwrites) `amountStx`.
   */
  function TransformRow(row: Value): (r: Option<Value>)
    ensures r.None? <==> row == Null
    ensures r.Some? ==> r.value.Obj?
    ensures r.Some? ==> r.value.fields.Keys == OwnFields(row).Keys + {"amountStx"}
    ensures r.Some? ==> forall k :: k in OwnFields(row) && k != "amountStx" ==> r.value.fields[k] == OwnFields(row)[k]
    ensures r.Some? ==> r.value.fields["amountStx"] == AmountStx(row)
  {
    if row == Null then None else Some(Obj(OwnFields(row)["amountStx" := AmountStx(row)]))
  }

  /** `rows.map(...)`: all rows transformed in order, or no result as soon as one row throws. */
  function TransformRows(rows: seq<Value>): (r: Option<seq<Value>>)
    ensures r.None? <==> Null in rows
    ensures r.Some? ==> |r.value| == |rows|
    ensures r.Some? ==> forall i :: 0 <= i < |rows| ==> TransformRow(rows[i]) == Some(r.value[i])
  {
    if rows == [] then Some([])
    else
      match (TransformRow(rows[0]), TransformRows(rows[1..]))
      case (Some(first), Some(rest)) => Some([first] + rest)
      case _ => None
  }

  /** The entry stored under one key: arrays are mapped row by row, anything else is copied unchanged. */
  function TransformEntry(v: Value): (r: Option<Value>)
    ensures !v.Arr? ==> r == Some(v)
    ensures v.Arr? ==> (r.None? <==> Null in v.items)
    ensures v.Arr? && r.Some? ==> r.value.Arr? && |r.value.items| == |v.items|
    ensures v.Arr? && r.Some? ==> forall i :: 0 <= i < |v.items| ==> TransformRow(v.items[i]) == Some(r.value.items[i])
  {
    if v.Arr? then
      match TransformRows(v.items)
      case Some(rows) => Some(Arr(rows))
      case None => None
    else
      Some(v)
  }

  /** Whether every entry of `body` can be transformed, i.e. no array entry holds a `null` row. */
  predicate Transformable(body: Snapshot) {
    forall k :: k in body ==> TransformEntry(body[k]).Some?
  }

  /** The transformed snapshot: the same keys, each entry transformed; none if some row throws. */
  function Transformed(body: Snapshot): (r: Option<Snapshot>)
    ensures r.Some? <==> Transformable(body)
    ensures r.Some? ==> r.value.Keys == body.Keys
    ensures r.Some? ==> forall k :: k in body ==> TransformEntry(body[k]) == Some(r.value[k])
  {
    if Transformable(body) then Some(map k | k in body :: TransformEntry(body[k]).value) else None
  }

  /** The `for (const key in response.data)` loop that fills `transformedData`. */
  method TransformSnapshot(body: Snapshot) returns (result: Option<Snapshot>)
    ensures result == Transformed(body)
  {
    var transformedData: Snapshot := map[];
    var pending := body.Keys;
    while pending != {}
      invariant pending <= body.Keys
      invariant transformedData.Keys == body.Keys - pending
      invariant forall k :: k in transformedData ==> TransformEntry(body[k]) == Some(transformedData[k])
      decreases pending
    {
      var key :| key in pending;
      var entry := TransformEntry(body[key]);
      if entry.None? {
        assert !Transformable(body);
        return None;
      }
      transformedData := transformedData[key := entry.value];
      pending := pending - {key};
    }
    assert Transformable(body);
    result := Some(transformedData);
    assert result.value == Transformed(body).value;
  }

  /** Ingestion keeps every key, and an entry's rows keep their number and order. */
  lemma IngestionKeepsShape(body: Snapshot, key: string, i: nat)
    requires Transformed(body).Some? && key in body
    ensures key in Transformed(body).value
    ensures body[key].Arr? ==>
      Transformed(body).value[key].Arr? && |Transformed(body).value[key].items| == |body[key].items|
    ensures body[key].Arr? && i < |body[key].items| ==>
      Some(Transformed(body).value[key].items[i]) == TransformRow(body[key].items[i])
    ensures !body[key].Arr? ==> Transformed(body).value[key] == body[key]
  {
  }

  /** A row whose `amountUstx` is a number `u` gets `amountStx` = `u` / 10^6 and keeps every other field. */
  lemma RowGainsAmountStx(row: map<string, Value>, u: real)
    requires "amountUstx" in row && row["amountUstx"] == Num(u)
    ensures TransformRow(Obj(row)) == Some(Obj(row["amountStx" := Num(u / MICRO_STX_PER_STX)]))
  {
  }

  /** A `null` row anywhere in an array entry makes the whole ingestion throw. */
  lemma NullRowFailsIngestion(body: Snapshot, key: string)
    requires key in body && body[key].Arr? && Null in body[key].items
    ensures Transformed(body) == None
  {
    assert TransformEntry(body[key]).None?;
  }

  /** How the request ended: a response body, or the message of the error `axios.get` threw. */
  datatype Response = Received(body: Snapshot) | RequestFailed(message: string)

  /** The message of the TypeError thrown when a row is `null`. */
  const NULL_ROW_MESSAGE: string := "Cannot read properties of null (reading 'amountUstx')"

  /** The `data`, `loading` and `error` state of a fetch; `error` holds the error's message. */
  class FetchState {
    var data: Option<Snapshot>
    var loading: bool
    var error: Option<string>

    /** `useState(null)`, `useState(true)`, `useState(null)`. */
    constructor ()
      ensures data == None && loading && error == None
    {
      data, loading, error := None, true, None;
    }

    /**
     * The body of the fetch after its request has settled: on success `data` becomes the transformed
     * snapshot, on failure `error` records the message and `data` stays; `loading` ends false either way.
     * A success does not clear an earlier error.
     */
    method Settle(response: Response)
      modifies this
      ensures !loading
      ensures response.Received? && Transformed(response.body).Some? ==>
        data == Transformed(response.body) && error == old(error)
      ensures response.Received? && Transformed(response.body).None? ==>
        data == old(data) && error == Some(NULL_ROW_MESSAGE)
      ensures response.RequestFailed? ==> data == old(data) && error == Some(response.message)
    {
      match response {
        case Received(body) =>
          var transformedData := TransformSnapshot(body);
          if transformedData.Some? {
            data := transformedData;
          } else {
            error := Some(NULL_ROW_MESSAGE);
          }
        case RequestFailed(message) =>
          error := Some(message);
      }
      loading := false;
    }
  }
}
