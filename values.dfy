/** Python values as they cross the tool boundary: JSON-shaped data and dictionaries.
    A Python dict is an ordered list of entries (insertion order is iteration order). */
module Values {

  datatype Option<+T> = None | Some(value: T) {
    function GetOr(default: T): T {
      match this
      case Some(v) => v
      case None => default
    }
  }

  /** JSON-shaped Python values (floating-point numbers are not modelled). */
  datatype Value =
    | Null
    | Bool(b: bool)
    | Int(i: int)
    | Str(s: string)
    | Arr(items: seq<Value>)
    | Obj(fields: seq<(string, Value)>)

  /** A dictionary with string keys, in iteration order. */
  type Entries = seq<(string, Value)>

  /** Python truthiness: None, False, 0, "", [] and {} are false. */
  predicate Truthy(v: Value) {
    match v
    case Null => false
    case Bool(b) => b
    case Int(i) => i != 0
    case Str(s) => s != ""
    case Arr(items) => items != []
    case Obj(fields) => fields != []
  }

  /** `key in d` */
  predicate HasKey(d: Entries, key: string) {
    exists i | 0 <= i < |d| :: d[i].0 == key
  }

  /** `d.get(key)`: the value of the first entry with that key. */
  function Lookup(d: Entries, key: string): (r: Option<Value>)
    ensures r.Some? <==> HasKey(d, key)
  {
    if |d| == 0 then None
    else if d[0].0 == key then Some(d[0].1)
    else
      assert HasKey(d, key) <==> HasKey(d[1..], key) by {
        if HasKey(d, key) && d[0].0 != key {
          var i :| 0 <= i < |d| && d[i].0 == key;
          assert d[1..][i - 1].0 == key;
        }
        if HasKey(d[1..], key) {
          var i :| 0 <= i < |d[1..]| && d[1..][i].0 == key;
          assert d[i + 1].0 == key;
        }
      }
      Lookup(d[1..], key)
  }

  /** The second entry answers a lookup that the first one does not. */
  lemma LookupSecond(d: Entries, key: string)
    requires |d| >= 2 && d[0].0 != key && d[1].0 == key
    ensures Lookup(d, key) == Some(d[1].1)
  {
    assert d[1..][0] == d[1];
  }

  /** `d.get(key, default)` */
  function Get(d: Entries, key: string, default: Value): Value {
    Lookup(d, key).GetOr(default)
  }

  /** The keys of a dictionary, in order (`list(d.keys())`). */
  function Keys(d: Entries): (r: seq<string>)
    ensures |r| == |d| && forall i | 0 <= i < |d| :: r[i] == d[i].0
  {
    seq(|d|, i requires 0 <= i < |d| => d[i].0)
  }
}
