/**
 * Android's `Bundle` (and the extras of an `Intent`): a string-keyed map whose
 * values may be strings, ints or null. The client reads it with
 * `getString` / `getIntExtra` and writes it with `putString`.
 */
module Bundles {
  import opened Wrappers

  datatype Value = Str(s: string) | Int(i: int) | Null

  /** The contents of a Bundle. */
  type Extras = map<string, Value>

  /** `getString(key)` / `getStringExtra(key)`: null when the key is absent
      or holds a value of another type. */
  function GetString(m: Extras, key: string): (r: Option<string>)
    ensures r.Some? <==> key in m && m[key].Str?
    ensures r.Some? ==> m[key] == Str(r.value)
  {
    if key in m && m[key].Str? then Some(m[key].s) else None
  }

  /** `getIntExtra(key, default)`. */
  function GetIntExtra(m: Extras, key: string, default: int): (r: int)
    ensures key in m && m[key].Int? ==> r == m[key].i
    ensures !(key in m && m[key].Int?) ==> r == default
  {
    if key in m && m[key].Int? then m[key].i else default
  }

  /** The stored form of `putString(key, value)`: a null string is stored as null. */
  function StringValue(v: Option<string>): (r: Value) {
    match v
    case Some(s) => Str(s)
    case None => Null
  }

  /** A Bundle object that callers share: `request` and `dialog` write into the
      caller's own instance. */
  class Bundle {
    var entries: Extras

    constructor ()
      ensures entries == map[]
    {
      entries := map[];
    }

    method PutString(key: string, value: Option<string>)
      modifies this
      ensures entries == old(entries)[key := StringValue(value)]
    {
      entries := entries[key := StringValue(value)];
    }
  }
}
