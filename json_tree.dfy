/**
 * The generic tree a JSON decoder produces. Decoding itself is an external
 * capability (see `Decoder`); only the shape of its result is modelled.
 */
module JsonTree {
  import opened Wrappers

  /**
   * A decoded JSON value. `Absent` is the sentinel a wrapper holds when no
   * value could be produced (a rejected content type or an undecodable body);
   * Go uses nil for it, the same nil it uses for JSON `null`.
   * `Absent` only ever appears at the top level, as the whole value a
   * wrapper holds: no decoder result contains it, inside an array or an
   * object or otherwise.
   * Numbers are kept as reals: float64 rounding is not modelled.
   */
  datatype Json =
    | Null
    | Bool(b: bool)
    | Number(n: real)
    | Str(s: string)
    | Arr(items: seq<Json>)
    | Obj(fields: map<string, Json>)
    | Absent

  /** A JSON decoder: the tree a text decodes to, or None on a decode error. */
  type Decoder = string -> Option<Json>
}
