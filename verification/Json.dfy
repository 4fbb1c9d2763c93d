/** JSON values and the accessors the graph parser uses. */
module Json {
  import opened Graphs

  const U32: nat := 0x1_0000_0000
  const U64: nat := 0x1_0000_0000_0000_0000

  /** Whole numbers and other numbers are told apart, as the parser's accessors do. */
  datatype Json =
    | Null
    | Bool(flag: bool)
    | Whole(n: nat)
    | Real(r: real)
    | Text(s: string)
    | List(items: seq<Json>)
    | Object(fields: map<string, Json>)

  function Get(j: Json, key: string): Option<Json> {
    if j.Object? && key in j.fields then Some(j.fields[key]) else None
  }

  function AsText(j: Option<Json>): Option<string> {
    if j.Some? && j.value.Text? then Some(j.value.s) else None
  }

  function AsU64(j: Option<Json>): Option<nat> {
    if j.Some? && j.value.Whole? && j.value.n < U64 then Some(j.value.n) else None
  }

  function AsReal(j: Option<Json>): Option<real> {
    if j.Some? && j.value.Real? then Some(j.value.r)
    else if j.Some? && j.value.Whole? then Some(j.value.n as real)
    else None
  }

  function AsBool(j: Option<Json>): Option<bool> {
    if j.Some? && j.value.Bool? then Some(j.value.flag) else None
  }

  function Or<T>(o: Option<T>, default: T): T {
    if o.Some? then o.value else default
  }

  /** An optional string as a field: null when absent. */
  function TextOrNull(o: Option<string>): Json {
    if o.Some? then Text(o.value) else Null
  }

  function RealOrNull(o: Option<real>): Json {
    if o.Some? then Real(o.value) else Null
  }

  function AtMost(n: nat, cap: nat): nat {
    if n < cap then n else cap
  }

  function Between(n: nat, low: nat, high: nat): nat
    requires low <= high
  {
    if n > high then high else if n < low then low else n
  }

  function UnitInterval(r: real): real {
    if r < 0.0 then 0.0 else if r > 1.0 then 1.0 else r
  }

  /** Printing and parsing of identifiers. */
  datatype Uuids = Uuids(print_: nat -> string, parse: string -> Option<nat>)

  const NIL: nat := 0

  ghost predicate Lawful(c: Uuids) {
    forall u: nat :: c.parse(c.print_(u)) == Some(u)
  }

  function AsUuid(c: Uuids, j: Option<Json>): Option<nat> {
    var text := AsText(j);
    if text.Some? then c.parse(text.value) else None
  }

  function UuidOrNull(c: Uuids, o: Option<nat>): Json {
    if o.Some? then Text(c.print_(o.value)) else Null
  }
}
