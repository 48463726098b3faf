/**
  The JSON values that the generator hands to `json.dumps`: `None` becomes
  null, a `str` a string, a `list` an array and a `dict` an object. Only the
  structure is modelled; the text that `json.dumps` writes is not.
 */
module JsonValue {
  import opened Wrappers

  datatype Json =
    | Null
    | Str(s: string)
    | Arr(items: seq<Json>)
    | Obj(fields: map<string, Json>)

  /** How a value that may be `None` is written: null, or the string itself. */
  function OfOption(o: Option<string>): (j: Json)
    ensures j.Null? <==> o.None?
    ensures o.Some? ==> j == Str(o.value)
  {
    match o
    case None => Null
    case Some(s) => Str(s)
  }

  /** Reading back a value written by `OfOption`; anything else is not one. */
  predicate IsStrOrNull(j: Json) {
    j.Null? || j.Str?
  }

  function AsOption(j: Json): (o: Option<string>)
    requires IsStrOrNull(j)
  {
    if j.Str? then Some(j.s) else None
  }

  lemma AsOptionOfOption(o: Option<string>)
    ensures IsStrOrNull(OfOption(o)) && AsOption(OfOption(o)) == o
  {
  }
}
