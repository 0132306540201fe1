/**
 * The structured payload of a session and the two foreign library calls made on it:
 * the JSON parser (com.mongodb.util.JSON.parse) and the content checksum.
 * Neither is part of this model; both are taken as parameters of the types below.
 */
module Json {
  import opened Wrappers

  /** A parsed JSON document; `Null` is the Java `null` the parser returns for `null`. */
  datatype Doc =
    | Null
    | Bool(b: bool)
    | Num(n: real)  // integers and decimals such as 1.5 or 1e3 alike
    | Str(s: string)
    | Arr(items: seq<Doc>)
    | Obj(fields: seq<(string, Doc)>)

  /** The parser: `None` when it throws a parse exception. */
  type Parser = string -> Option<Doc>

  /** The deterministic content checksum used as the dedup key. */
  type Checksum = Doc -> string

  /** A compiled ad-hoc query: which payloads it selects. */
  type DocFilter = Doc -> bool
}
