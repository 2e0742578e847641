/** The Python values the enrichers work on (JSON-decoded raw items) and the
    few Python operations they apply to them: subscription, `in`, truth
    testing, iteration and string concatenation, each with the exception
    Python raises when the operand has the wrong shape. */
module Py {
  import Text

  /** A JSON-decoded Python value. Dict keys are strings, as in JSON; a
      dict's key order is not represented. Numbers are integers. */
  datatype Value =
    | PyNone
    | PyBool(b: bool)
    | PyInt(i: int)
    | PyStr(s: string)
    | PyList(items: seq<Value>)
    | PyDict(fields: map<string, Value>)

  /** A Python dict with string keys, such as a rich item under construction. */
  type Fields = map<string, Value>

  /** The exceptions the modelled code can raise. */
  datatype Exc =
    | KeyError
    | TypeError
    | IndexError
    | AttributeError
    | ValueError
    | ForeignError(name: string)  // raised inside a collaborator that is not modelled
    | UnorderedIteration          // iterating over a dict, whose key order is not modelled

  /** A Python call: either it returns a value or it raises. */
  datatype Result<+T> = Ok(value: T) | Err(error: Exc) {
    predicate IsFailure() { Err? }
    // `:-` calls this only on an Err, so the Ok branch is dead and stands
    // for no exception of the program; it is there to keep the function
    // total, so that a `:-` whose failure is impossible checks nothing
    function PropagateFailure<U>(): Result<U>
    {
      match this
      case Err(e) => Err(e)
      case Ok(_) => Err(TypeError)
    }
    function Extract(): T requires Ok? { value }
  }

  datatype Option<+T> = None | Some(value: T)

  /** The subscript in `v[k]`: a string, an integer, or Python's None. */
  datatype Key = KeyStr(name: string) | KeyInt(index: int) | KeyNone

  /** Python's truth test (`if v:`): None, False, 0 and empty containers
      are false. */
  predicate Truthy(v: Value)
  {
    match v
    case PyNone => false
    case PyBool(b) => b
    case PyInt(i) => i != 0
    case PyStr(s) => s != []
    case PyList(xs) => xs != []
    case PyDict(m) => m != map[]
  }

  /** `v` is a dict holding at least the keys `ks`. */
  predicate HasKeys(v: Value, ks: set<string>)
  {
    v.PyDict? && ks <= v.fields.Keys
  }

  /** `s[i]` on a list or a string: a negative index counts from the end;
      anything outside raises IndexError. */
  function Index<T>(s: seq<T>, i: int): (r: Result<T>)
    ensures r.Ok? <==> -|s| <= i < |s|
    ensures r.Ok? && i >= 0 ==> r.value == s[i]
    ensures r.Ok? && i < 0 ==> r.value == s[|s| + i]
    ensures r.Err? ==> r.error == IndexError
  {
    if 0 <= i < |s| then Ok(s[i])
    else if -|s| <= i < 0 then Ok(s[|s| + i])
    else Err(IndexError)
  }

  /** `v[k]`. A dict looks the key up (KeyError when absent; its keys are
      strings, so an integer or None key is never found); a list or a
      string takes an integer index (a string yields a one-character
      string); every other combination raises TypeError. */
  function GetItem(v: Value, k: Key): (r: Result<Value>)
    ensures v.PyDict? ==> (r.Ok? <==> k.KeyStr? && k.name in v.fields)
    ensures v.PyDict? && r.Ok? ==> r.value == v.fields[k.name]
    ensures v.PyDict? && r.Err? ==> r.error == KeyError
    ensures !(v.PyDict? || v.PyList? || v.PyStr?) ==> r == Err(TypeError)
    ensures v.PyStr? && r.Ok? ==> r.value.PyStr? && |r.value.s| == 1
  {
    match v
    case PyDict(m) => if k.KeyStr? && k.name in m then Ok(m[k.name]) else Err(KeyError)
    case PyList(xs) => if k.KeyInt? then Index(xs, k.index) else Err(TypeError)
    case PyStr(s) =>
      if k.KeyInt? then
        var ch :- Index(s, k.index);
        Ok(PyStr([ch]))
      else Err(TypeError)
    case _ => Err(TypeError)
  }

  /** `v[name]` with a string subscript, the common case. */
  function Get(v: Value, name: string): Result<Value>
  {
    GetItem(v, KeyStr(name))
  }

  /** `key in container` for a string key: a dict tests its keys, a list
      its elements, a string its substrings; None, booleans and numbers
      raise TypeError. */
  function Contains(container: Value, key: string): (r: Result<bool>)
    ensures container.PyDict? ==> r == Ok(key in container.fields)
    ensures r.Err? <==> !(container.PyDict? || container.PyList? || container.PyStr?)
  {
    match container
    case PyDict(m) => Ok(key in m)
    case PyList(xs) => Ok(PyStr(key) in xs)
    case PyStr(s) => Ok(Text.IsSubstring(key, s))
    case _ => Err(TypeError)
  }

  /** The elements `for x in v:` visits: a list's elements, a string's
      characters; None, booleans and numbers are not iterable. */
  function Iterate(v: Value): (r: Result<seq<Value>>)
    ensures v.PyList? ==> r == Ok(v.items)
    ensures v.PyStr? ==> r.Ok? && |r.value| == |v.s| &&
                         forall i :: 0 <= i < |v.s| ==> r.value[i] == PyStr([v.s[i]])
    ensures !(v.PyList? || v.PyStr? || v.PyDict?) ==> r == Err(TypeError)
  {
    match v
    case PyList(xs) => Ok(xs)
    case PyStr(s) => Ok(seq(|s|, i requires 0 <= i < |s| => PyStr([s[i]])))
    case PyDict(_) => Err(UnorderedIteration)
    case _ => Err(TypeError)
  }

  /** The receiver of a `str` method call (`v.split(...)`): any other value
      has no such attribute. */
  function StrMethod(v: Value): (r: Result<string>)
    ensures r.Ok? <==> v.PyStr?
    ensures r.Ok? ==> r.value == v.s
    ensures r.Err? ==> r.error == AttributeError
  {
    if v.PyStr? then Ok(v.s) else Err(AttributeError)
  }

  /** `a + b` where the code expects two strings: any other pair of values
      raises TypeError (lists and numbers never meet here). */
  function AddStr(a: Value, b: Value): (r: Result<Value>)
    ensures r.Ok? <==> a.PyStr? && b.PyStr?
    ensures r.Ok? ==> r.value == PyStr(a.s + b.s)
  {
    if a.PyStr? && b.PyStr? then Ok(PyStr(a.s + b.s)) else Err(TypeError)
  }
}
