/**
 * The to-do record and the small Mongo-style query language the to-do code builds: field
 * conditions, a `$or` of field maps and an `$and` of nested filters. A filter object is
 * combined with JavaScript object spread, so a later `$or` replaces an earlier one.
 */
module ToDos {
  import opened Wrappers

  datatype Status = NotConcluded | Concluded

  /** `concludedAt`: absent, explicitly `null`, or a time in milliseconds. */
  datatype Stamp = Unset | NullDate | At(ms: int)

  /** `IToDo`; `kind` is the `type` field ('personal' or 'shared', or anything a client sends). */
  datatype ToDo = ToDo(
    id: Option<string>,
    title: string,
    description: string,
    status: Option<Status>,
    kind: Option<string>,
    ownerId: Option<string>,
    assigneeId: Option<string>,
    date: Option<int>,
    concludedAt: Stamp)

  datatype FieldValue = Text(s: string) | StatusValue(st: Status) | Time(ms: int)

  function TextOf(v: Option<string>): Option<FieldValue> {
    match v
    case None => None
    case Some(s) => Some(Text(s))
  }

  lemma TextOfInjective(a: Option<string>, b: Option<string>)
    ensures TextOf(a) == TextOf(b) <==> a == b
  {
  }

  /** The document keys a to-do query can name. */
  datatype Key = IdKey | TitleKey | DescriptionKey | StatusKey | TypeKey | OwnerKey | AssigneeKey | DateKey | ConcludedAtKey

  /** The value a query sees under `key`; `null` and absent look the same to an equality test. */
  function FieldOf(t: ToDo, key: Key): Option<FieldValue> {
    match key
    case IdKey => TextOf(t.id)
    case TitleKey => Some(Text(t.title))
    case DescriptionKey => Some(Text(t.description))
    case StatusKey => if t.status.Some? then Some(StatusValue(t.status.value)) else None
    case TypeKey => TextOf(t.kind)
    case OwnerKey => TextOf(t.ownerId)
    case AssigneeKey => TextOf(t.assigneeId)
    case DateKey => if t.date.Some? then Some(Time(t.date.value)) else None
    case ConcludedAtKey => if t.concludedAt.At? then Some(Time(t.concludedAt.ms)) else None
  }

  /** One field condition: equality, `$ne`, a case-insensitive `$regex`, or `$gte` on a date. */
  datatype Cond = Is(v: Option<FieldValue>) | IsNot(v: Option<FieldValue>) | Like(pattern: string) | AtLeast(ms: int)

  /**
   * Whether a field value satisfies a condition. Regular-expression matching is a parameter:
   * `like(text, pattern)` says whether `pattern`, case-insensitively, matches somewhere in `text`.
   */
  predicate CondHolds(c: Cond, fv: Option<FieldValue>, like: (string, string) -> bool) {
    match c
    case Is(v) => fv == v
    case IsNot(v) => fv != v
    case Like(p) => fv.Some? && fv.value.Text? && like(fv.value.s, p)
    case AtLeast(ms) => fv.Some? && fv.value.Time? && fv.value.ms >= ms
  }

  predicate Holds(fields: map<Key, Cond>, t: ToDo, like: (string, string) -> bool) {
    forall k :: k in fields ==> CondHolds(fields[k], FieldOf(t, k), like)
  }

  /**
   * A selector object: plain field conditions plus `$or` and `$and` keys. An empty `anyOf` or
   * `allOf` stands for an absent key (Mongo rejects an empty `$or` or `$and` anyway).
   */
  datatype Filter = Filter(fields: map<Key, Cond>, anyOf: seq<map<Key, Cond>>, allOf: seq<Filter>)

  const Everything := Filter(map[], [], [])

  predicate Matches(f: Filter, t: ToDo, like: (string, string) -> bool)
    decreases f
  {
    && Holds(f.fields, t, like)
    && (f.anyOf != [] ==> exists i :: 0 <= i < |f.anyOf| && Holds(f.anyOf[i], t, like))
    && (forall i :: 0 <= i < |f.allOf| ==> Matches(f.allOf[i], t, like))
  }

  /** `{...a, ...b}`: every key of `b` replaces the same key of `a`, `$or` and `$and` included. */
  function Spread(a: Filter, b: Filter): (r: Filter)
    ensures forall k :: k in r.fields <==> k in a.fields || k in b.fields
    ensures forall k :: k in b.fields ==> r.fields[k] == b.fields[k]
    ensures forall k :: k in a.fields && k !in b.fields ==> r.fields[k] == a.fields[k]
    ensures r.anyOf == (if b.anyOf != [] then b.anyOf else a.anyOf)
    ensures r.allOf == (if b.allOf != [] then b.allOf else a.allOf)
  {
    Filter(a.fields + b.fields,
           if b.anyOf != [] then b.anyOf else a.anyOf,
           if b.allOf != [] then b.allOf else a.allOf)
  }

  /** `{$and: parts}`. */
  function AllOf(parts: seq<Filter>): Filter {
    Filter(map[], [], parts)
  }

  lemma EverythingMatches(t: ToDo, like: (string, string) -> bool)
    ensures Matches(Everything, t, like)
  {
  }

  /** Conditions on disjoint keys, merged into one object, must all hold. */
  lemma HoldsUnion(a: map<Key, Cond>, b: map<Key, Cond>, t: ToDo, like: (string, string) -> bool)
    requires a.Keys !! b.Keys
    ensures Holds(a + b, t, like) <==> Holds(a, t, like) && Holds(b, t, like)
  {
    var u := a + b;
    assert forall k :: k in a ==> k in u && u[k] == a[k];
    assert forall k :: k in b ==> k in u && u[k] == b[k];
  }

  /**
   * A spread loses nothing when the two selectors share no field, at most one has an `$or`
   * and neither has an `$and`: it selects what both select.
   */
  lemma SpreadWithoutClash(a: Filter, b: Filter, t: ToDo, like: (string, string) -> bool)
    requires a.fields.Keys !! b.fields.Keys
    requires a.anyOf == [] || b.anyOf == []
    requires a.allOf == [] && b.allOf == []
    ensures Matches(Spread(a, b), t, like) <==> Matches(a, t, like) && Matches(b, t, like)
  {
    HoldsUnion(a.fields, b.fields, t, like);
  }

  /** A selector with one plain field condition. */
  lemma OneCondHolds(k: Key, c: Cond, t: ToDo, like: (string, string) -> bool)
    ensures Matches(Filter(map[k := c], [], []), t, like) <==> CondHolds(c, FieldOf(t, k), like)
  {
    assert k in map[k := c];
  }

  /** A selector with two plain field conditions on different keys. */
  lemma TwoCondsHold(k1: Key, c1: Cond, k2: Key, c2: Cond, t: ToDo, like: (string, string) -> bool)
    requires k1 != k2
    ensures Matches(Filter(map[k1 := c1, k2 := c2], [], []), t, like) <==>
      CondHolds(c1, FieldOf(t, k1), like) && CondHolds(c2, FieldOf(t, k2), like)
  {
    var m := map[k1 := c1, k2 := c2];
    assert k1 in m && m[k1] == c1;
    assert k2 in m && m[k2] == c2;
  }

  /** `$and` is a conjunction of its parts. */
  lemma AllOfMatches(parts: seq<Filter>, t: ToDo, like: (string, string) -> bool)
    ensures Matches(AllOf(parts), t, like) <==> forall i :: 0 <= i < |parts| ==> Matches(parts[i], t, like)
  {
  }
}
