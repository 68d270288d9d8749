/** Python values as the invoice code sees them: a request decoded from a JSON
    body or assembled from form fields, the exceptions that reading it can
    raise, and the handful of built-in operations the code applies to it
    (subscription, `in`, iteration, truthiness, arithmetic on numbers). */
module PyValues {

  /** A JSON-shaped Python value. Numbers are exact; `Float` carries a real. */
  datatype Value =
    | Null
    | Bool(b: bool)
    | Int(i: int)
    | Float(r: real)
    | Str(s: string)
    | List(elems: seq<Value>)
    | Dict(fields: map<string, Value>)

  /** The exceptions the modelled code raises or lets through. */
  datatype Error =
    | KeyError(key: string)
    | TypeError
    | ValueError(message: string)
    | AttributeError(name: string)

  datatype Option<+T> = None | Some(value: T)

  /** A value or the exception raised while computing it. */
  datatype Result<+T> = Ok(value: T) | Err(error: Error) {
    predicate IsFailure() { Err? }
    function PropagateFailure<U>(): Result<U>
      requires Err?
    {
      Err(error)
    }
    function Extract(): T
      requires Ok?
    {
      value
    }
  }

  /** A check that returns nothing or raises. */
  datatype Outcome = Pass | Fail(error: Error)

  predicate StartsWith(s: string, prefix: string)
  {
    |prefix| <= |s| && s[..|prefix|] == prefix
  }

  /** Python's `part in s` on two strings. */
  predicate Contains(s: string, part: string)
    decreases |s|
  {
    StartsWith(s, part) || (|s| > 0 && Contains(s[1..], part))
  }

  lemma {:induction false} ContainsAt(s: string, part: string, i: nat)
    requires i + |part| <= |s| && s[i..i + |part|] == part
    ensures Contains(s, part)
    decreases i
  {
    if i == 0 {
      assert s[..|part|] == part;
    } else {
      assert s[1..][i - 1..i - 1 + |part|] == s[i..i + |part|];
      ContainsAt(s[1..], part, i - 1);
    }
  }

  /** `part` occurs in `s` starting at position `i`. */
  predicate Occurs(s: string, part: string, i: nat)
  {
    i + |part| <= |s| && s[i..i + |part|] == part
  }

  /** `part in s` holds exactly when `part` occurs at some position. */
  lemma {:induction false} ContainsOccurs(s: string, part: string)
    ensures Contains(s, part) <==> exists i: nat :: Occurs(s, part, i)
    decreases |s|
  {
    if exists i: nat :: Occurs(s, part, i) {
      var i: nat :| Occurs(s, part, i);
      ContainsAt(s, part, i);
    }
    if Contains(s, part) {
      if StartsWith(s, part) {
        assert Occurs(s, part, 0);
      } else {
        ContainsOccurs(s[1..], part);
        var i: nat :| Occurs(s[1..], part, i);
        assert s[1..][i..i + |part|] == s[i + 1..i + 1 + |part|];
        assert Occurs(s, part, i + 1);
      }
    }
  }

  /** `v[key]` for a string key: only a dict can be subscripted by a string. */
  function Subscript(v: Value, key: string): (r: Result<Value>)
    ensures r.Ok? <==> v.Dict? && key in v.fields
    ensures r.Ok? ==> r.value == v.fields[key]
    ensures v.Dict? && key !in v.fields ==> r == Err(KeyError(key))
    ensures !v.Dict? ==> r == Err(TypeError)
  {
    match v
    case Dict(m) => if key in m then Ok(m[key]) else Err(KeyError(key))
    case _ => Err(TypeError)
  }

  /** `bool`, `int` and `float` take part in arithmetic; `bool` as 0 or 1. */
  predicate IsNumber(v: Value)
  {
    v.Bool? || v.Int? || v.Float?
  }

  function ToReal(v: Value): real
    requires IsNumber(v)
  {
    match v
    case Bool(b) => if b then 1.0 else 0.0
    case Int(i) => i as real
    case Float(r) => r
  }

  /** The elements a `for` loop visits. A list yields its elements and a
      string its one-character strings. A dict yields its keys; since every
      key is a string, which the loop bodies here cannot subscript, only an
      empty dict gets through. Other values are not iterable. */
  function Iterate(v: Value): (r: Result<seq<Value>>)
    ensures v.List? ==> r == Ok(v.elems)
    ensures r.Ok? ==> |r.value| == 0 || v.List? || v.Str?
  {
    match v
    case List(xs) => Ok(xs)
    case Str(s) => Ok(seq(|s|, i requires 0 <= i < |s| => Str([s[i]])))
    case Dict(m) => if |m| == 0 then Ok([]) else Err(TypeError)
    case _ => Err(TypeError)
  }

  /** Python truthiness. */
  predicate Truthy(v: Value)
  {
    match v
    case Null => false
    case Bool(b) => b
    case Int(i) => i != 0
    case Float(r) => r != 0.0
    case Str(s) => s != ""
    case List(xs) => xs != []
    case Dict(m) => m != map[]
  }

  /** `key in container` for a string key: dict membership, list membership,
      substring; any other container raises TypeError. */
  function In(key: string, container: Value): (r: Result<bool>)
    ensures container.Dict? ==> r == Ok(key in container.fields)
    ensures r.Err? <==> !(container.Dict? || container.List? || container.Str?)
    ensures r.Err? ==> r.error == TypeError
  {
    match container
    case Dict(m) => Ok(key in m)
    case List(xs) => Ok(Str(key) in xs)
    case Str(s) => Ok(Contains(s, key))
    case _ => Err(TypeError)
  }
}
