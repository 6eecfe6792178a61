/**
 JSON values with the lenient accessors of `serde_json::Value`.
 */
module Json {
  import opened Wrappers

  datatype Json =
    | Null
    | Bool(flag: bool)
    | Int(number: int)
    | Float(literal: string)
    | Str(text: string)
    | Arr(items: seq<Json>)
    | Obj(fields: map<string, Json>)
  {
    /** `value.get(key)`: absent for anything that is not an object holding the key. */
    function Get(key: string): Option<Json> {
      if Obj? && key in fields then Some(fields[key]) else None
    }

    /** `value[key]`: like `Get`, with `null` for an absent entry. */
    function At(key: string): Json {
      Get(key).GetOr(Null)
    }

    function AsStr(): Option<string> {
      if Str? then Some(text) else None
    }

    function AsArray(): Option<seq<Json>> {
      if Arr? then Some(items) else None
    }

    function AsU64(): Option<nat> {
      if Int? && 0 <= number <= USIZE_MAX then Some(number) else None
    }

    predicate IsNonEmptyString() {
      Str? && text != ""
    }
  }
}
