/**
 * Documents as the offline store sees them: a JSON-like object with an optional `_id`.
 * Field values are flat (no nested objects), which is all the cache layer inspects.
 */
module Documents {
  import opened Wrappers

  /** A field value. `Date` carries milliseconds since the epoch. */
  datatype Value = Str(s: string) | Num(n: int) | Bool(b: bool) | Date(ms: int) | Null

  /** JavaScript truthiness of a value. */
  predicate Truthy(v: Value) {
    match v
    case Str(s) => s != ""
    case Num(n) => n != 0
    case Bool(b) => b
    case Date(_) => true
    case Null => false
  }

  /** A document: its `_id` (absent = undefined) and its other fields. */
  datatype Doc = Doc(id: Option<string>, fields: map<string, Value>)

  const EmptyDoc: Doc := Doc(None, map[])

  /** `Object.keys(doc).length === 0`. */
  predicate IsEmpty(d: Doc) {
    d.id.None? && d.fields == map[]
  }

  /** `!!doc[key]`: the field is present and truthy. */
  predicate Flag(d: Doc, key: string) {
    key in d.fields && Truthy(d.fields[key])
  }

  /** The object spread `{...a, ...b}`: every key of `b` wins over the same key of `a`. */
  function Spread(a: Doc, b: Doc): (r: Doc)
    ensures r.id == (if b.id.Some? then b.id else a.id)
    ensures r.fields.Keys == a.fields.Keys + b.fields.Keys
    ensures forall k :: k in b.fields ==> r.fields[k] == b.fields[k]
    ensures forall k :: k in a.fields && k !in b.fields ==> r.fields[k] == a.fields[k]
  {
    Doc(if b.id.Some? then b.id else a.id, a.fields + b.fields)
  }

  /** `doc.lastupdate = new Date()`, with the clock reading `now` as a parameter. */
  function Stamped(d: Doc, now: int): (r: Doc)
    ensures r.id == d.id && r.fields.Keys == d.fields.Keys + {"lastupdate"}
    ensures r.fields["lastupdate"] == Date(now)
    ensures forall k :: k in d.fields && k != "lastupdate" ==> r.fields[k] == d.fields[k]
  {
    d.(fields := d.fields["lastupdate" := Date(now)])
  }
}
