/** JSON values as the client sees them after `orjson.loads`, and the few
    Python operations the client applies to them (truthiness, `d.get`, `d[k]`,
    `list(x)`, `x[-1]`). Every operation that can raise in Python returns a
    `Result` naming the exception. */
module Json {

  /** The Python exceptions raised on the paths the client takes. */
  datatype PyError =
    | TypeError        // a value of the wrong kind is indexed or iterated
    | KeyError         // `d[k]` on a dict without `k`
    | AttributeError   // `.get` on a non-dict, or a class attribute that does not exist
    | ValueError       // `ask` refuses its arguments
    | JsonDecodeError  // `orjson.loads` refuses its input
    | ValidationError  // a record field of the wrong type

  datatype Option<+T> = None | Some(value: T)

  datatype Result<+T> = Ok(value: T) | Err(error: PyError)

  /** A decoded JSON value. Objects keep their keys in insertion order, as
      Python dicts do; numbers are carried as reals. */
  datatype Json =
    | JNull
    | JBool(b: bool)
    | JNum(n: real)
    | JStr(s: string)
    | JArr(items: seq<Json>)
    | JObj(fields: seq<(string, Json)>)

  /** `orjson.loads` on a text: `None` when the text is not valid JSON. */
  type Decoder = string -> Option<Json>

  /** Python truthiness: None, False, 0, "", [] and {} are false. */
  predicate Truthy(j: Json)
  {
    match j
    case JNull => false
    case JBool(b) => b
    case JNum(n) => n != 0.0
    case JStr(s) => s != ""
    case JArr(xs) => xs != []
    case JObj(fs) => fs != []
  }

  /** The value stored under `key`: the first pair carrying that key. The
      objects a decoder yields are Python dicts and hold each key once, so
      the first pair is the only one. */
  function Lookup(fields: seq<(string, Json)>, key: string): Option<Json>
  {
    if fields == [] then None
    else if fields[0].0 == key then Some(fields[0].1)
    else Lookup(fields[1..], key)
  }

  /** `Lookup` finds nothing exactly when no pair carries the key, and
      otherwise the value of the first pair that does. */
  lemma {:induction false} LookupSpec(fields: seq<(string, Json)>, key: string)
    ensures Lookup(fields, key).None? <==> forall i :: 0 <= i < |fields| ==> fields[i].0 != key
    ensures Lookup(fields, key).Some? ==>
      exists i :: 0 <= i < |fields| && fields[i] == (key, Lookup(fields, key).value)
                  && forall j :: 0 <= j < i ==> fields[j].0 != key
  {
    if fields != [] && fields[0].0 != key {
      LookupSpec(fields[1..], key);
      assert forall i :: 1 <= i < |fields| ==> fields[i] == fields[1..][i - 1];
      var r := Lookup(fields, key);
      if r.Some? {
        var i :| 0 <= i < |fields[1..]| && fields[1..][i] == (key, r.value)
                 && forall j :: 0 <= j < i ==> fields[1..][j].0 != key;
        assert fields[i + 1] == (key, r.value);
      }
    } else if fields != [] {
      assert fields[0] == (key, Lookup(fields, key).value);
    }
  }

  /** The pair at index `i` is the first carrying its key, so it is what
      `Lookup` finds. */
  lemma LookupAt(fields: seq<(string, Json)>, i: nat)
    requires i < |fields|
    requires forall j :: 0 <= j < i ==> fields[j].0 != fields[i].0
    ensures Lookup(fields, fields[i].0) == Some(fields[i].1)
  {
    LookupSpec(fields, fields[i].0);
    var r := Lookup(fields, fields[i].0);
    var k :| 0 <= k < |fields| && fields[k] == (fields[i].0, r.value)
             && forall j :: 0 <= j < k ==> fields[j].0 != fields[i].0;
    assert k == i;
  }

  /** `key in d` for a dict `d`. */
  predicate Has(j: Json, key: string)
  {
    j.JObj? && Lookup(j.fields, key).Some?
  }

  /** Whether `sub` occurs in `s` as a contiguous piece. */
  predicate Occurs(sub: string, s: string)
    decreases |s|
  {
    if |sub| > |s| then false
    else s[..|sub|] == sub || (s != [] && Occurs(sub, s[1..]))
  }

  /** `sub` sits in `s` starting at index `i`. */
  predicate SliceAt(sub: string, s: string, i: int)
  {
    0 <= i <= |s| - |sub| && s[i..i + |sub|] == sub
  }

  /** `Occurs` is the plain substring test: `sub` occurs in `s` exactly
      when some slice of `s` equals it. */
  lemma {:induction false} OccursSpec(sub: string, s: string)
    ensures Occurs(sub, s) <==> exists i :: SliceAt(sub, s, i)
    decreases |s|
  {
    if |sub| <= |s| && s[..|sub|] == sub {
      assert SliceAt(sub, s, 0);
    } else if |sub| <= |s| {
      OccursSpec(sub, s[1..]);
      if Occurs(sub, s) {
        var i :| SliceAt(sub, s[1..], i);
        assert s[i + 1..i + 1 + |sub|] == s[1..][i..i + |sub|];
        assert SliceAt(sub, s, i + 1);
      }
      if exists i :: SliceAt(sub, s, i) {
        var i :| SliceAt(sub, s, i);
        assert i != 0;
        assert s[1..][i - 1..i - 1 + |sub|] == s[i..i + |sub|];
        assert SliceAt(sub, s[1..], i - 1);
      }
    }
  }

  /** `key in x`: a key of a dict, an element of a list, a substring of a
      string; `in` on a number, a boolean or None raises. */
  function Contains(x: Json, key: string): (r: Result<bool>)
    ensures x.JObj? ==> r == Ok(Has(x, key))
    ensures x.JArr? ==> r == Ok(JStr(key) in x.items)
    ensures x.JStr? ==> r == Ok(Occurs(key, x.s))
    ensures r.Err? <==> x.JNull? || x.JBool? || x.JNum?
    ensures r.Err? ==> r.error == TypeError
  {
    match x
    case JObj(_) => Ok(Has(x, key))
    case JArr(xs) => Ok(JStr(key) in xs)
    case JStr(s) => Ok(Occurs(key, s))
    case _ => Err(TypeError)
  }

  /** `d.get(key, default)` on a dict. */
  function GetOr(fields: seq<(string, Json)>, key: string, default: Json): Json
  {
    match Lookup(fields, key)
    case Some(v) => v
    case None => default
  }

  /** `x.get(key, default)`: only dicts have `get`. */
  function DictGet(x: Json, key: string, default: Json): (r: Result<Json>)
    ensures r.Err? <==> !x.JObj?
    ensures r.Err? ==> r.error == AttributeError
    ensures x.JObj? && Has(x, key) ==> r == Ok(Lookup(x.fields, key).value)
    ensures x.JObj? && !Has(x, key) ==> r == Ok(default)
  {
    if x.JObj? then Ok(GetOr(x.fields, key, default)) else Err(AttributeError)
  }

  /** `x[key]` with a string key. */
  function Subscript(x: Json, key: string): (r: Result<Json>)
    ensures r.Ok? <==> Has(x, key)
    ensures r == Err(KeyError) <==> x.JObj? && !Has(x, key)
  {
    if !x.JObj? then Err(TypeError)
    else match Lookup(x.fields, key)
      case Some(v) => Ok(v)
      case None => Err(KeyError)
  }

  /** The one-character strings of `s`, as iterating a Python str gives them. */
  function Chars(s: string): (r: seq<Json>)
    ensures |r| == |s|
    ensures forall i :: 0 <= i < |s| ==> r[i] == JStr([s[i]])
  {
    seq(|s|, i requires 0 <= i < |s| => JStr([s[i]]))
  }

  /** The keys of a dict in insertion order, as iterating it gives them. */
  function Keys(fields: seq<(string, Json)>): (r: seq<Json>)
    ensures |r| == |fields|
    ensures forall i :: 0 <= i < |fields| ==> r[i] == JStr(fields[i].0)
  {
    seq(|fields|, i requires 0 <= i < |fields| => JStr(fields[i].0))
  }

  /** `list(x)` (and what a `for` loop over `x` visits): a list is copied,
      a string gives its characters, a dict its keys; anything else raises. */
  function Iterate(x: Json): (r: Result<seq<Json>>)
    ensures r.Err? <==> x.JNull? || x.JBool? || x.JNum?
    ensures x.JArr? ==> r == Ok(x.items)
  {
    match x
    case JArr(xs) => Ok(xs)
    case JStr(s) => Ok(Chars(s))
    case JObj(fs) => Ok(Keys(fs))
    case _ => Err(TypeError)
  }

  /** `x[-1] if x else None`. */
  function LastOrNone(x: Json): (r: Result<Json>)
    ensures !Truthy(x) ==> r == Ok(JNull)
    ensures x.JArr? && x.items != [] ==> r == Ok(x.items[|x.items| - 1])
    ensures x.JStr? && x.s != [] ==> r == Ok(JStr([x.s[|x.s| - 1]]))
    ensures r.Err? <==> Truthy(x) && !x.JArr? && !x.JStr?
  {
    if !Truthy(x) then Ok(JNull)
    else match x
      case JArr(xs) => Ok(xs[|xs| - 1])
      case JStr(s) => Ok(JStr([s[|s| - 1]]))
      case JObj(_) => Err(KeyError)   // a dict has no key -1
      case _ => Err(TypeError)        // a number or True is not subscriptable
  }

  /** `orjson.loads(x)`: only text is decoded; anything else, and text that is
      not valid JSON, raises `JSONDecodeError`. */
  function Loads(loads: Decoder, x: Json): (r: Result<Json>)
    ensures !x.JStr? ==> r == Err(JsonDecodeError)
    ensures x.JStr? ==> (r.Ok? <==> loads(x.s).Some?)
    ensures x.JStr? && loads(x.s).Some? ==> r.value == loads(x.s).value
  {
    if !x.JStr? then Err(JsonDecodeError)
    else match loads(x.s)
      case Some(v) => Ok(v)
      case None => Err(JsonDecodeError)
  }
}
