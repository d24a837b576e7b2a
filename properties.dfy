/**
  The loaded properties file, seen as a key/value lookup, and the two
  accessors of the properties library that the loader calls.
 */
module Properties {
  import opened Strconv

  /** The key=value pairs of a loaded properties file. */
  type Properties = map<string, string>

  /** `GetString(key, def)`: the value stored under `key`, or `def`. */
  function GetString(p: Properties, key: string, def: string): string
  {
    if key in p then p[key] else def
  }

  /** `GetInt(key, def)`: the value under `key` read with
      `strconv.ParseInt(v, 10, 64)`; `def` when the key is missing or its
      value does not read as a 64-bit integer. */
  function GetInt(p: Properties, key: string, def: int): int
  {
    if key in p then
      match ParseInt(p[key])
      case Parsed(n) => n
      case Rejected(_) => def
    else def
  }

  /** The key is present and its value is a decimal integer that fits in
      64 bits. */
  predicate HoldsInt(p: Properties, key: string)
  {
    key in p && IsDecimal(p[key]) && InInt64(DecimalValue(p[key]))
  }

  /** The file's value is used exactly when the key is present and holds a
      decimal integer that fits in 64 bits; otherwise the default. */
  lemma GetIntSpec(p: Properties, key: string, def: int)
    ensures HoldsInt(p, key) ==> GetInt(p, key, def) == DecimalValue(p[key])
    ensures !HoldsInt(p, key) ==> GetInt(p, key, def) == def
  {
    if key in p {
      ParseIntSpec(p[key]);
    }
  }

  /** A value written with `strconv.Itoa` reads back as that value. */
  lemma GetIntFormatted(p: Properties, key: string, n: int, def: int)
    requires InInt64(n) && key in p && p[key] == FormatInt(n)
    ensures GetInt(p, key, def) == n
  {
    AtoiFormatInt(n);
  }
}
