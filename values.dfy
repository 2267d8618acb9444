/** The dynamic values that the YAML configuration and the log payloads are
    made of (Python `None`, `bool`, `int`, `str`, `list`, `dict`), with the
    few Python operations on them that the modelled code relies on. */
module Values {
  import opened Common

  datatype Value =
    | Null
    | Bool(b: bool)
    | Int(i: int)
    | Str(s: string)
    | List(items: seq<Value>)
    | Dict(entries: seq<Entry>)

  /** One `key: value` pair of a dict, in insertion order. */
  datatype Entry = Entry(key: string, val: Value)

  function Keys(es: seq<Entry>): (ks: seq<string>)
    ensures |ks| == |es| && forall i :: 0 <= i < |es| ==> ks[i] == es[i].key
  {
    seq(|es|, i requires 0 <= i < |es| => es[i].key)
  }

  /** Python truthiness (`if value:` / `not value`). */
  predicate Truthy(v: Value) {
    match v
    case Null => false
    case Bool(b) => b
    case Int(i) => i != 0
    case Str(s) => |s| > 0
    case List(items) => |items| > 0
    case Dict(es) => |es| > 0
  }

  /** The value under `key`, searching the entries in order. A dict loaded
      from YAML has distinct keys, so the first match is the only one. */
  function Lookup(es: seq<Entry>, key: string): Option<Value>
    decreases |es|
  {
    if es == [] then None
    else if es[0].key == key then Some(es[0].val)
    else Lookup(es[1..], key)
  }

  /** `key in d` */
  predicate HasKey(es: seq<Entry>, key: string) {
    Lookup(es, key).Some?
  }

  /** `d[key]` */
  function Find(es: seq<Entry>, key: string): Value
    requires HasKey(es, key)
  {
    Lookup(es, key).value
  }

  /** `i` is the position of the first entry with `key`. */
  predicate FirstAt(es: seq<Entry>, key: string, i: int) {
    0 <= i < |es| && es[i].key == key && forall j :: 0 <= j < i ==> es[j].key != key
  }

  /** A key is found iff it is among the keys, and then the value found is
      the one stored under its first occurrence. */
  lemma {:induction false} LookupSpec(es: seq<Entry>, key: string)
    ensures HasKey(es, key) <==> key in Keys(es)
    ensures HasKey(es, key) ==> exists i :: FirstAt(es, key, i) && es[i].val == Find(es, key)
    decreases |es|
  {
    if es != [] && es[0].key != key {
      LookupSpec(es[1..], key);
      assert Keys(es) == [es[0].key] + Keys(es[1..]);
      if HasKey(es, key) {
        var i :| FirstAt(es[1..], key, i) && es[1..][i].val == Find(es[1..], key);
        assert es[i + 1].key == key && es[i + 1].val == Find(es, key);
        assert FirstAt(es, key, i + 1) by {
          forall j | 0 <= j < i + 1 ensures es[j].key != key {
            if j > 0 { assert es[j] == es[1..][j - 1]; }
          }
        }
      }
    } else if es != [] {
      assert Keys(es)[0] == key;
      assert FirstAt(es, key, 0);
    }
  }

  /** `d.get(key, default)` on a value that must be a dict; on anything else
      Python raises AttributeError (`'NoneType' object has no attribute 'get'`). */
  function Get(d: Value, key: string, default: Value): (r: Result<Value>)
    ensures r.Ok? <==> d.Dict?
    ensures r.Err? ==> r.error.kind == AttributeError
    ensures d.Dict? && !HasKey(d.entries, key) ==> r == Ok(default)
    ensures d.Dict? && HasKey(d.entries, key) ==>
      r.Ok? && exists i :: FirstAt(d.entries, key, i) && r.value == d.entries[i].val
  {
    match d
    case Dict(es) =>
      LookupSpec(es, key);
      if HasKey(es, key) then Ok(Find(es, key)) else Ok(default)
    case _ => Err(Error(AttributeError, "object has no attribute 'get'"))
  }

  /** `len(v)`: defined for strings, lists and dicts; a TypeError otherwise. */
  function Len(v: Value): (r: Result<nat>)
    ensures r.Ok? <==> (v.Str? || v.List? || v.Dict?)
    ensures r.Err? ==> r.error.kind == TypeError
    ensures r.Ok? ==> (r.value == 0 <==> !Truthy(v))
  {
    match v
    case Str(s) => Ok(|s|)
    case List(items) => Ok(|items|)
    case Dict(es) => Ok(|es|)
    case _ => Err(Error(TypeError, "object has no len()"))
  }

  /** `v < bound` for an integer bound; `bool` compares as 0/1 and every
      other kind raises TypeError. */
  function LessThan(v: Value, bound: int): (r: Result<bool>)
    ensures r.Ok? <==> (v.Int? || v.Bool?)
    ensures r.Err? ==> r.error.kind == TypeError
    ensures v.Int? ==> r == Ok(v.i < bound)
    ensures v.Bool? ==> r == Ok((if v.b then 1 else 0) < bound)
  {
    match v
    case Int(i) => Ok(i < bound)
    case Bool(b) => Ok((if b then 1 else 0) < bound)
    case _ => Err(Error(TypeError, "'<' not supported between instances"))
  }
}
