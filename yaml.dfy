/**
 * The values a YAML document parses into: Python's None, booleans, integers,
 * strings, lists and string-keyed dictionaries. The configuration loader sees
 * nothing but such a value; the parser itself is not part of this model.
 */
module Yaml {

  datatype YamlValue =
    | YNull
    | YBool(b: bool)
    | YInt(i: int)
    | YStr(s: string)
    | YList(items: seq<YamlValue>)
    | YMap(entries: map<string, YamlValue>)

  /** Python's truth value of a parsed value, as used by a bare `if v:`. */
  predicate Truthy(v: YamlValue)
  {
    match v
    case YNull => false
    case YBool(b) => b
    case YInt(i) => i != 0
    case YStr(s) => s != ""
    case YList(items) => items != []
    case YMap(entries) => entries != map[]
  }

  /** Python's falsy values are exactly None, False, 0, the empty string, list and dict. */
  lemma FalsyValues(v: YamlValue)
    ensures !Truthy(v) <==> v in {YNull, YBool(false), YInt(0), YStr(""), YList([]), YMap(map[])}
  {
  }

  /** Python's `dict.get(key, default)`. */
  function Get(entries: map<string, YamlValue>, key: string, default: YamlValue): (r: YamlValue)
    ensures key in entries ==> r == entries[key]
    ensures key !in entries ==> r == default
  {
    if key in entries then entries[key] else default
  }
}
