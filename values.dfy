// Raw shop attributes as the scoring engine receives them: a sparse record of
// optional scalars plus the parsed weekly-hours object.

module Values {

  datatype Option<+T> = None | Some(value: T)

  /** A value as it can sit in a shop record or inside the parsed hours JSON.
      `NaN` is the float NaN that pandas uses for a missing CSV cell; `List`
      and `Dict` are the JSON array and object (a dict keeps its insertion
      order, which is the order `dict.values()` walks). */
  datatype Value =
    | Null
    | NaN
    | Num(x: real)
    | Bool(b: bool)
    | List(items: seq<Value>)
    | Dict(entries: seq<(string, Value)>)
  {
    /** Values that `float()` and the numeric comparisons accept. */
    predicate IsScalar() {
      Null? || NaN? || Num? || Bool?
    }
  }

  /** A shop record: attribute name to value. A key that is absent is
      different from a key that is present and `Null`. */
  type Shop = map<string, Value>

  /** `r.get(k)`: an absent key reads as `None`. */
  function Get(r: Shop, k: string): Value
  {
    if k in r then r[k] else Null
  }

  /** `r.get(k, fallback)`: the fallback is used only when the key is absent,
      never when it is present and `Null`. */
  function GetOr(r: Shop, k: string, fallback: Value): Value
  {
    if k in r then r[k] else fallback
  }

  /** `_nz(v) is None`: absence is `None` or a float NaN. */
  predicate Absent(v: Value) {
    v.Null? || v.NaN?
  }

  /** `float(v)` of a present scalar (`float(True) == 1.0`). */
  function ToReal(v: Value): real
    requires v.IsScalar() && !Absent(v)
  {
    match v
    case Num(x) => x
    case Bool(b) => if b then 1.0 else 0.0
  }

  /** `_nz(v, None)` followed by `float`: a present scalar as a number. */
  function Present(v: Value): Option<real>
    requires v.IsScalar()
  {
    if Absent(v) then None else Some(ToReal(v))
  }

  /** The record holds a scalar (or nothing) at key `k`. */
  predicate ScalarAt(r: Shop, k: string) {
    Get(r, k).IsScalar()
  }

  /** `_nz(o, d)` on the result of a normalizer, which is never NaN. */
  function Nz(o: Option<real>, d: real): real
  {
    match o
    case Some(v) => v
    case None => d
  }

  /** Python's `o or d` on an optional float: `None` and `0.0` are both
      falsy, so a present strength of exactly 0 is replaced by the default. */
  function Or(o: Option<real>, d: real): real
  {
    if o.Some? && o.value != 0.0 then o.value else d
  }

  /** Python truthiness of an optional float used in `if x and x >= t`. */
  predicate Truthy(o: Option<real>) {
    o.Some? && o.value != 0.0
  }
}
