/**
 * Record-level helpers over upstream JSON records: `Array.prototype.find`
 * on a field, and the two ways the source reads a nested list field.
 */
module Records {
  import opened Wrappers
  import opened JsValue

  /** The position `records.findIndex(r => r[field] === target)` finds. */
  function FindIndex(records: seq<Value>, field: string, target: Value): (r: Option<nat>)
    ensures r.None? <==> forall i :: 0 <= i < |records| ==> Get(records[i], field) != target
    ensures r.Some? ==> r.value < |records| && Get(records[r.value], field) == target
    ensures r.Some? ==> forall j :: 0 <= j < r.value ==> Get(records[j], field) != target
  {
    if |records| == 0 then None
    else if Get(records[0], field) == target then Some(0)
    else
      match FindIndex(records[1..], field, target)
      case None => None
      case Some(i) => Some(i + 1)
  }

  /** `records.find(r => r[field] === target)`: the first matching record. */
  function FindBy(records: seq<Value>, field: string, target: Value): (r: Option<Value>)
    ensures r.None? <==> forall i :: 0 <= i < |records| ==> Get(records[i], field) != target
    ensures r.Some? ==> exists i :: 0 <= i < |records| && records[i] == r.value
                           && Get(records[i], field) == target
                           && forall j :: 0 <= j < i ==> Get(records[j], field) != target
  {
    match FindIndex(records, field, target)
    case None => None
    case Some(i) => Some(records[i])
  }

  /** A nested list field read through `x?.forEach(...)` or `(x || []).filter(...)`:
      the elements of an array, and nothing for any other value. */
  function ListOr(v: Value): seq<Value> {
    if v.Arr? then v.items else []
  }

  /** What `flatMap(r => r.field || [])` contributes for one record:
      an array is flattened, any other truthy value is kept as one element,
      a falsy value contributes nothing. */
  function FlatItems(v: Value): (r: seq<Value>)
    ensures v.Arr? ==> r == v.items
    ensures !v.Arr? && Truthy(v) ==> r == [v]
    ensures !Truthy(v) ==> r == []
  {
    if v.Arr? then v.items else if Truthy(v) then [v] else []
  }
}
