/**
 * Request bodies built from named fields, in the order they are appended:
 * the browser's `FormData` and `URLSearchParams`.
 */
module Forms {
  import opened Wrappers

  datatype Field<V> = Field(name: string, value: V)

  /** `get(name)`: the value of the first field with that name, if any. */
  function Get<V>(fields: seq<Field<V>>, name: string): (r: Option<V>)
    ensures r.None? <==> forall k :: 0 <= k < |fields| ==> fields[k].name != name
    ensures r.Some? ==> exists k :: 0 <= k < |fields| && fields[k] == Field(name, r.value) && forall i :: 0 <= i < k ==> fields[i].name != name
  {
    if fields == [] then None
    else if fields[0].name == name then Some(fields[0].value)
    else Get(fields[1..], name)
  }

  /** The field names in order. */
  function Names<V>(fields: seq<Field<V>>): (names: seq<string>)
    ensures |names| == |fields|
    ensures forall k :: 0 <= k < |fields| ==> names[k] == fields[k].name
  {
    seq(|fields|, k requires 0 <= k < |fields| => fields[k].name)
  }
}
