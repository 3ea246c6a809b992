/** Python runtime values as the modelled code handles them: the nested
    dictionaries of the dialog session, the parsed YAML configuration and the
    results of dictionary lookups, together with the Python exceptions that
    those lookups raise. A dictionary is an association list, so that the
    insertion order Python keeps (and that `dict.items()` reports) is kept. */
module Values {

  datatype Option<+T> = None | Some(value: T) {
    function GetOr(default: T): T {
      match this
      case Some(v) => v
      case None => default
    }
  }

  /** The Python exceptions that the modelled code can raise. */
  datatype PyError =
    | KeyError(key: string)      // `d[k]` on a dict without `k`
    | TypeError                  // subscript or item assignment on a non-dict, unhashable key, `in` on None
    | AttributeError             // `.get`, `.items`, `.update` on a value that is not a dict
    | IndexError                 // a list index past the end
    | UnboundLocalError          // a local variable read before it was assigned
    | ValidationError            // a pydantic model rejected its input

  datatype Result<+T> = Ok(value: T) | Err(error: PyError) {
    predicate IsFailure() { Err? }
    function PropagateFailure<U>(): Result<U> requires Err? { Err(error) }
    function Extract(): T requires Ok? { value }
  }

  datatype Value =
    | Nil
    | Bool(b: bool)
    | Num(n: int)
    | Str(s: string)
    | List(items: seq<Value>)
    | Obj(fields: seq<(string, Value)>)

  type Dict = seq<(string, Value)>

  /** Python truthiness: None, False, 0, "", [] and {} are false. */
  predicate Truthy(v: Value) {
    match v
    case Nil => false
    case Bool(b) => b
    case Num(n) => n != 0
    case Str(s) => s != ""
    case List(items) => items != []
    case Obj(fields) => fields != []
  }

  /** The keys of a dictionary, in insertion order. */
  function Keys(d: Dict): (ks: seq<string>)
    ensures |ks| == |d|
    ensures forall i :: 0 <= i < |d| ==> ks[i] == d[i].0
  {
    if d == [] then [] else [d[0].0] + Keys(d[1..])
  }

  /** The value stored under `k`, if any. */
  function Find(d: Dict, k: string): (r: Option<Value>)
  {
    if d == [] then None
    else if d[0].0 == k then Some(d[0].1)
    else Find(d[1..], k)
  }

  /** `k in d`. */
  predicate HasKey(d: Dict, k: string) {
    Find(d, k).Some?
  }

  /** `k in d` holds exactly for the keys `d.keys()` lists. */
  lemma {:induction false} HasKeyIffListed(d: Dict, k: string)
    ensures HasKey(d, k) <==> k in Keys(d)
  {
    if d != [] {
      HasKeyIffListed(d[1..], k);
      assert Keys(d) == [d[0].0] + Keys(d[1..]);
    }
  }

  /** `d.get(k, default)` on a dict. */
  function GetOr(d: Dict, k: string, default: Value): Value {
    Find(d, k).GetOr(default)
  }

  /** `d[k] = v`: `k` maps to `v` and every other key keeps its value. */
  function Put(d: Dict, k: string, v: Value): (r: Dict)
    ensures Find(r, k) == Some(v)
    ensures forall k' :: k' != k ==> Find(r, k') == Find(d, k')
  {
    if d == [] then [(k, v)]
    else if d[0].0 == k then
      var r := [(k, v)] + d[1..];
      assert r[1..] == d[1..];
      r
    else
      var rest := Put(d[1..], k, v);
      var r := [d[0]] + rest;
      assert r[1..] == rest;
      r
  }

  /** A key stored at no position is not found. */
  lemma {:induction false} FindAbsent(d: Dict, k: string)
    requires forall i :: 0 <= i < |d| ==> d[i].0 != k
    ensures Find(d, k) == None
  {
    if d != [] {
      assert forall i :: 0 <= i < |d[1..]| ==> d[1..][i] == d[i + 1];
      FindAbsent(d[1..], k);
    }
  }

  /** A key `Find` finds is stored at some position with that value. */
  lemma {:induction false} FindListed(d: Dict, k: string)
    requires Find(d, k).Some?
    ensures exists i :: 0 <= i < |d| && d[i] == (k, Find(d, k).value)
  {
    if d[0].0 != k {
      FindListed(d[1..], k);
      var i :| 0 <= i < |d[1..]| && d[1..][i] == (k, Find(d, k).value);
      assert d[i + 1] == d[1..][i];
    }
  }

  /** Writing back the value a key already holds changes nothing. */
  lemma {:induction false} PutSame(d: Dict, k: string, v: Value)
    requires Find(d, k) == Some(v)
    ensures Put(d, k, v) == d
  {
    if d[0].0 != k {
      PutSame(d[1..], k, v);
    }
  }

  /** An existing key keeps its position, a new key is appended. */
  lemma {:induction false} PutKeys(d: Dict, k: string, v: Value)
    ensures Keys(Put(d, k, v)) == if HasKey(d, k) then Keys(d) else Keys(d) + [k]
  {
    if d != [] && d[0].0 != k {
      PutKeys(d[1..], k, v);
      var rest := Put(d[1..], k, v);
      assert Put(d, k, v)[1..] == rest;
      assert Keys(Put(d, k, v)) == [d[0].0] + Keys(rest);
      assert Keys(d) == [d[0].0] + Keys(d[1..]);
    }
  }

  /** `v.get(k, default)` for any value `v`: only a dict has `.get`. */
  function Get(v: Value, k: string, default: Value): (r: Result<Value>)
    ensures r.Err? <==> !v.Obj?
    ensures r.Err? ==> r.error == AttributeError
  {
    if v.Obj? then Ok(GetOr(v.fields, k, default)) else Err(AttributeError)
  }

  /** Lists and dicts are unhashable; every other value can be a key. */
  predicate Hashable(key: Value) {
    !key.List? && !key.Obj?
  }

  /** What `d.get(key, default)` finds under a hashable runtime key: a key
      that is not a string matches no key of the string-keyed dictionaries
      modelled here. */
  function Lookup(d: Dict, key: Value, default: Value): Value {
    if key.Str? then GetOr(d, key.s, default) else default
  }

  /** `v.get(key, default)` where the key is itself a runtime value. */
  function GetBy(v: Value, key: Value, default: Value): (r: Result<Value>)
    ensures r.Ok? <==> v.Obj? && Hashable(key)
    ensures r.Ok? ==> r.value == Lookup(v.fields, key, default)
    ensures r.Err? ==> r.error == if v.Obj? then TypeError else AttributeError
  {
    if !v.Obj? then Err(AttributeError)
    else match key
      case Str(s) => Ok(GetOr(v.fields, s, default))
      case List(_) => Err(TypeError)
      case Obj(_) => Err(TypeError)
      case _ => Ok(default)
  }

  /** `v[k]` with a string key. */
  function Index(v: Value, k: string): (r: Result<Value>)
    ensures r.Ok? <==> v.Obj? && HasKey(v.fields, k)
    ensures r.Ok? ==> Find(v.fields, k) == Some(r.value)
    ensures r.Err? ==> r.error == if v.Obj? then KeyError(k) else TypeError
  {
    if !v.Obj? then Err(TypeError)
    else match Find(v.fields, k)
      case Some(x) => Ok(x)
      case None => Err(KeyError(k))
  }

  /** `v[k] = x` with a string key: only a dict supports item assignment by string. */
  function SetItem(v: Value, k: string, x: Value): (r: Result<Value>)
    ensures r.Ok? <==> v.Obj?
    ensures r.Ok? ==> r.value == Obj(Put(v.fields, k, x))
    ensures r.Err? ==> r.error == TypeError
  {
    if v.Obj? then Ok(Obj(Put(v.fields, k, x))) else Err(TypeError)
  }

  /** `d.update(pairs)`: the pairs are assigned one after the other. */
  function Update(d: Dict, pairs: seq<(string, Value)>): (r: Dict)
    decreases |pairs|
  {
    if pairs == [] then d else Update(Put(d, pairs[0].0, pairs[0].1), pairs[1..])
  }

  /** After `d.update(pairs)` every key not among the pairs' keys maps to
      what it mapped to before. */
  lemma {:induction false} UpdateKeepsOtherKeys(d: Dict, pairs: seq<(string, Value)>, k: string)
    requires k !in Keys(pairs)
    ensures Find(Update(d, pairs), k) == Find(d, k)
    decreases |pairs|
  {
    if pairs != [] {
      assert Keys(pairs) == [pairs[0].0] + Keys(pairs[1..]);
      UpdateKeepsOtherKeys(Put(d, pairs[0].0, pairs[0].1), pairs[1..], k);
    }
  }

  /** After `d.update(pairs)` a key among the pairs' keys maps to the value
      of its last occurrence; pairs with distinct keys give each key its own. */
  lemma {:induction false} UpdateSetsKey(d: Dict, pairs: seq<(string, Value)>, i: nat)
    requires i < |pairs|
    requires forall j :: i < j < |pairs| ==> pairs[j].0 != pairs[i].0
    ensures Find(Update(d, pairs), pairs[i].0) == Some(pairs[i].1)
    decreases |pairs|
  {
    if i == 0 {
      var d' := Put(d, pairs[0].0, pairs[0].1);
      assert pairs[0].0 !in Keys(pairs[1..]) by {
        forall j | 0 <= j < |pairs[1..]| ensures Keys(pairs[1..])[j] != pairs[0].0 {
          assert pairs[1..][j] == pairs[j + 1];
        }
      }
      UpdateKeepsOtherKeys(d', pairs[1..], pairs[0].0);
    } else {
      forall j | i - 1 < j < |pairs[1..]| ensures pairs[1..][j].0 != pairs[1..][i - 1].0 {
        assert pairs[1..][j] == pairs[j + 1];
      }
      UpdateSetsKey(Put(d, pairs[0].0, pairs[0].1), pairs[1..], i - 1);
    }
  }
}
