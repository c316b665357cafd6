/**
  A document as `yaml.safe_load` returns it when it is made of None,
  booleans, numbers, strings, lists and mappings with string keys, with
  Python's truthiness, `dict.get` with a default, and `len`. Dates,
  `!!binary`, `!!set`, `!!omap` and `!!pairs` values have no form here.
 */
module YamlValue {
  import opened Wrappers
  import opened PyBuiltins

  /** A parsed YAML value: None, a scalar, a list or a mapping with string keys. */
  datatype Yaml =
    | YNull
    | YBool(b: bool)
    | YInt(i: int)
    | YFloat(f: real)
    | YStr(s: string)
    | YList(items: seq<Yaml>)
    | YMap(entries: map<string, Yaml>)

  /** Python's `bool(v)`: None, False, zero and empty containers are false. */
  predicate Truthy(v: Yaml) {
    match v
    case YNull => false
    case YBool(b) => b
    case YInt(i) => i != 0
    case YFloat(f) => f != 0.0
    case YStr(s) => s != ""
    case YList(items) => items != []
    case YMap(entries) => entries != map[]
  }

  /** `d.get(key, default)` on a dict. */
  function Get(d: map<string, Yaml>, key: string, default: Yaml): Yaml {
    if key in d then d[key] else default
  }

  /** `len(v)`: strings, lists and dicts have a length; anything else raises TypeError. */
  function Len(v: Yaml): Result<nat, Fault> {
    match v
    case YStr(s) => Success(|s|)
    case YList(items) => Success(|items|)
    case YMap(entries) => Success(|entries|)
    case _ => Failure(TypeError)
  }
}
