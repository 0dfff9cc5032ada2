/**
 * The decoded JSON of the GitHub releases endpoint, as PHP holds it after
 * decoding into arrays: scalars, lists, and ordered key/value arrays.
 */
module RawData {

  /**
   * One decoded JSON value. `Obj` keeps its entries in order, as a PHP array
   * does; decoding never gives it two entries with the same key, though the
   * type does not rule that out.
   */
  datatype Value =
    | Null
    | Bool(b: bool)
    | Int(i: int)
    | Str(s: string)
    | List(items: seq<Value>)
    | Obj(entries: seq<(string, Value)>)

  /** One raw release record: field name to value (an absent key is an unset field). */
  type Record = map<string, Value>

  /** PHP's `isset($record[key])`: the key is present and its value is not null. */
  predicate IsSet(record: Record, key: string)
  {
    key in record && !record[key].Null?
  }

  /**
   * The values PHP's `foreach` visits, in order: the items of a list, the values
   * of a keyed array; a scalar is not iterable, so `foreach` runs no iteration.
   */
  function ForeachValues(v: Value): seq<Value>
  {
    match v
    case List(items) => items
    case Obj(entries) => seq(|entries|, i requires 0 <= i < |entries| => entries[i].1)
    case _ => []
  }
}
