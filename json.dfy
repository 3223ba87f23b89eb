/**
 * JSON-shaped data as the backend exchanges it: the payload `analyze` returns, the
 * body `export_pdf` receives, and the `output` mapping a session record stores.
 * An object is an ordered sequence of fields, as a Python `dict` keeps insertion
 * order; the top-level mapping a handler works on is a `Dict`, whose keys are
 * pairwise distinct. A JSON number is an `Int` or a `Float`, as `json.loads` makes
 * one or the other and `str` shows them differently.
 */
module Json {
  import opened Wrappers

  datatype Value =
    | Null
    | Bool(b: bool)
    | Int(i: int)
    | Float(x: real)
    | Str(s: string)
    | Array(items: seq<Value>)
    | Object(fields: seq<Field>)

  datatype Field = Field(key: string, val: Value)

  /** The keys of an object, in order. */
  function Keys(fields: seq<Field>): seq<string> {
    seq(|fields|, i requires 0 <= i < |fields| => fields[i].key)
  }

  predicate UniqueKeys(fields: seq<Field>) {
    forall i, j :: 0 <= i < j < |fields| ==> fields[i].key != fields[j].key
  }

  /** A Python `dict` with string keys. */
  type Dict = fields: seq<Field> | UniqueKeys(fields) witness []

  /** A list of strings as a JSON array. */
  function StrArray(xs: seq<string>): (a: seq<Value>)
    ensures |a| == |xs|
  {
    seq(|xs|, i requires 0 <= i < |xs| => Str(xs[i]))
  }

  /**
   * `d.get(key)`: the value bound to `key`, or `None` when `key` is absent.
   * The first binding is taken; a `Dict` has only one.
   */
  function Get(fields: seq<Field>, key: string): (r: Option<Value>)
    ensures r.None? <==> key !in Keys(fields)
  {
    if fields == [] then None
    else if fields[0].key == key then
      assert Keys(fields)[0] == key;
      Some(fields[0].val)
    else
      assert Keys(fields) == [fields[0].key] + Keys(fields[1..]);
      Get(fields[1..], key)
  }

  /** In a dict, looking up the key of any entry gives exactly that entry's value. */
  lemma {:induction false} GetEntry(d: Dict, i: nat)
    requires i < |d|
    ensures Get(d, d[i].key) == Some(d[i].val)
  {
    if i > 0 {
      var tail: Dict := d[1..];
      GetEntry(tail, i - 1);
    }
  }
}
