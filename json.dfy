/**
  The configuration document `blockstatus.json` after Gson has parsed it.
  Only the shapes the client reads are represented: booleans, strings,
  arrays of strings and nested objects.
 */
module Json {

  datatype Value =
    | Bool(b: bool)
    | Str(s: string)
    | StrArray(items: seq<string>)
    | Obj(members: map<string, Value>)

  /** A Gson `JsonObject`: its members by key. */
  type JsonObject = map<string, Value>

  /** `key` is absent, or it holds a boolean. */
  predicate BoolIfPresent(o: JsonObject, key: string) {
    key in o ==> o[key].Bool?
  }

  /** `key` is absent, or it holds a string. */
  predicate StrIfPresent(o: JsonObject, key: string) {
    key in o ==> o[key].Str?
  }

  /** `key` is absent, or it holds an array of strings. */
  predicate StrArrayIfPresent(o: JsonObject, key: string) {
    key in o ==> o[key].StrArray?
  }

  /** The boolean stored under `key`, or `default` when `o` has no such key. */
  function BoolOr(o: JsonObject, key: string, default: bool): bool
    requires BoolIfPresent(o, key)
  {
    if key in o then o[key].b else default
  }

  /** The string stored under `key`, or `default` (the field's previous value) when `o` has no such key. */
  function StrOr(o: JsonObject, key: string, default: string): string
    requires StrIfPresent(o, key)
  {
    if key in o then o[key].s else default
  }
}
