/** The Python values the wrapper works on: what xmltodict builds from a
    response document (text, None, ordered mappings and lists) and what a
    caller passes in (text, numbers). Subscripting a value with a key and
    iterating over a value follow Python 2's rules, with the exceptions
    Python raises turned into error values. */
module PyValues {

  datatype Option<+T> = None | Some(value: T)

  datatype Result<+T, +E> = Ok(value: T) | Err(error: E)

  /** A mapping keeps its items in insertion order, as an OrderedDict does.
      Nothing here stops a key from occurring twice, which no Python mapping
      allows; iterating such a value would visit that key twice. Lookup uses
      the first occurrence. */
  datatype Value =
    | Str(s: string)
    | Int(i: int)
    | Null
    | Dict(items: seq<(string, Value)>)
    | List(elements: seq<Value>)

  /** Why `v[key]` raised: KeyError on a mapping without the key, TypeError
      on a value that is not a mapping. */
  datatype LookupError = KeyMissing(key: string) | NotSubscriptable(key: string)

  /** The keys of a mapping, in order. */
  function Keys(items: seq<(string, Value)>): (ks: seq<string>)
    ensures |ks| == |items|
    ensures forall i :: 0 <= i < |items| ==> ks[i] == items[i].0
  {
    if items == [] then [] else [items[0].0] + Keys(items[1..])
  }

  /** The keys of all items are the keys of all but the last, then the last's. */
  lemma KeysLast(items: seq<(string, Value)>)
    requires items != []
    ensures Keys(items) == Keys(items[..|items| - 1]) + [items[|items| - 1].0]
  {
  }

  /** The value stored under `key`: that of the first item with this key. */
  function Lookup(items: seq<(string, Value)>, key: string): (r: Option<Value>)
    ensures r.None? <==> key !in Keys(items)
  {
    if items == [] then None
    else if items[0].0 == key then Some(items[0].1)
    else
      assert Keys(items) == [items[0].0] + Keys(items[1..]);
      Lookup(items[1..], key)
  }

  /** The first item with a key is the one lookup finds. */
  lemma {:induction false} LookupFirst(items: seq<(string, Value)>, i: nat)
    requires i < |items| && items[i].0 !in Keys(items[..i])
    ensures Lookup(items, items[i].0) == Some(items[i].1)
  {
    if i > 0 {
      assert Keys(items[..i])[0] == items[0].0;
      assert items[1..][..i - 1] == items[..i][1..];
      assert Keys(items[1..][..i - 1]) == Keys(items[..i])[1..];
      LookupFirst(items[1..], i - 1);
    }
  }

  /** No key occurs twice. */
  predicate DistinctKeys(items: seq<(string, Value)>) {
    forall j, k :: 0 <= j < k < |items| ==> items[j].0 != items[k].0
  }

  /** In a mapping whose keys are distinct, lookup finds each item's value. */
  lemma {:induction false} LookupDistinct(items: seq<(string, Value)>, i: nat)
    requires i < |items| && DistinctKeys(items)
    ensures Lookup(items, items[i].0) == Some(items[i].1)
  {
    if i > 0 {
      assert items[0].0 != items[i].0;
      assert items[1..][i - 1] == items[i];
      LookupDistinct(items[1..], i - 1);
    }
  }

  /** Python's `v[key]`. */
  function Get(v: Value, key: string): (r: Result<Value, LookupError>)
    ensures r.Ok? <==> v.Dict? && key in Keys(v.items)
    ensures r.Err? ==> r.error == (if v.Dict? then KeyMissing(key) else NotSubscriptable(key))
  {
    match v
    case Dict(items) =>
      (match Lookup(items, key)
       case Some(x) => Ok(x)
       case None => Err(KeyMissing(key)))
    case _ => Err(NotSubscriptable(key))
  }

  /** `v[keys[0]][keys[1]]...`: the first failing step decides the error. */
  function Path(v: Value, keys: seq<string>): (r: Result<Value, LookupError>)
    ensures keys == [] ==> r == Ok(v)
    ensures r.Err? ==> r.error.key in keys
    decreases |keys|
  {
    if keys == [] then Ok(v)
    else
      match Get(v, keys[0])
      case Err(e) => Err(e)
      case Ok(child) => Path(child, keys[1..])
  }

  /** Following `a + b` is following `a`, then `b` from where `a` ended. */
  lemma {:induction false} PathConcat(v: Value, a: seq<string>, b: seq<string>)
    ensures Path(v, a + b) == match Path(v, a)
                              case Err(e) => Err(e)
                              case Ok(w) => Path(w, b)
    decreases |a|
  {
    if a == [] {
      assert a + b == b;
    } else {
      assert (a + b)[0] == a[0] && (a + b)[1..] == a[1..] + b;
      match Get(v, a[0])
      case Err(e) =>
      case Ok(child) => PathConcat(child, a[1..], b);
    }
  }

  /** The smallest document holding `leaf` under `keys`: one mapping per key,
      each with a single item. */
  function Nest(keys: seq<string>, leaf: Value): (v: Value)
    ensures keys != [] ==> v.Dict? && Keys(v.items) == [keys[0]]
    decreases |keys|
  {
    if keys == [] then leaf else Dict([(keys[0], Nest(keys[1..], leaf))])
  }

  /** Following a path through the document nested along it finds the leaf. */
  lemma {:induction false} PathNest(keys: seq<string>, leaf: Value)
    ensures Path(Nest(keys, leaf), keys) == Ok(leaf)
    decreases |keys|
  {
    if keys != [] {
      PathNest(keys[1..], leaf);
    }
  }

  /** What `for x in v` visits: the elements of a list, the keys of a
      mapping, the one-character strings of a text; None and numbers are not
      iterable (TypeError). */
  function Iterate(v: Value): (r: Option<seq<Value>>)
    ensures r.None? <==> v.Null? || v.Int?
    ensures v.List? ==> r == Some(v.elements)
    ensures v.Dict? ==> r.Some? && |r.value| == |v.items|
                        && forall i :: 0 <= i < |v.items| ==> r.value[i] == Str(v.items[i].0)
    ensures v.Str? ==> r.Some? && |r.value| == |v.s|
                       && forall i :: 0 <= i < |v.s| ==> r.value[i] == Str([v.s[i]])
  {
    match v
    case List(es) => Some(es)
    case Dict(items) => Some(seq(|items|, i requires 0 <= i < |items| => Str(items[i].0)))
    case Str(s) => Some(seq(|s|, i requires 0 <= i < |s| => Str([s[i]])))
    case _ => None
  }
}
