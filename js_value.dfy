/**
 * The JavaScript values an XML-to-object parser hands to the extension
 * analyzer, and the parts of JavaScript's semantics the analyzer relies on:
 * property access (which throws a TypeError on `undefined` and `null`),
 * truthiness, `x[0]`, `Array.prototype.map`/`flatMap` and `Object.entries`.
 *
 * In the parser's output an element with attributes or child elements is an
 * object: its attributes under the key `$` (an object of strings), its text
 * under `_`, and each child element name mapped to the array of those
 * children; an element holding only text is that string.
 */
module JsValue {
  import opened Text

  datatype JsVal =
    | Undefined
    | Null
    | Str(s: string)
    | Arr(items: seq<JsVal>)
    | Obj(props: seq<(string, JsVal)>)   // in the order Object.entries lists them

  /** A computed value, or an error thrown with its message. */
  datatype Result<T> = Ok(value: T) | Throw(message: string) {
    predicate IsFailure() { Throw? }

    function PropagateFailure<U>(): Result<U>
      requires Throw?
    {
      Throw(message)
    }

    function Extract(): T
      requires Ok?
    {
      value
    }
  }

  datatype Option<T> = None | Some(value: T)

  /** `if (v)`: `undefined`, `null` and the empty string are falsy; every
      array and object, even an empty one, is truthy. */
  predicate Truthy(v: JsVal) {
    match v
    case Undefined => false
    case Null => false
    case Str(s) => s != ""
    case Arr(_) => true
    case Obj(_) => true
  }

  /** The value of the first property named `key`, `undefined` if none. */
  function Lookup(props: seq<(string, JsVal)>, key: string): (r: JsVal)
    ensures r == Undefined || exists i :: 0 <= i < |props| && props[i] == (key, r)
  {
    if props == [] then Undefined
    else if props[0].0 == key then props[0].1
    else
      var r := Lookup(props[1..], key);
      assert r != Undefined ==> exists i :: 0 <= i < |props| && props[i] == (key, r) by {
        if r != Undefined {
          var i :| 0 <= i < |props[1..]| && props[1..][i] == (key, r);
          assert props[i + 1] == (key, r);
        }
      }
      r
  }

  /** Lookup finds the first property carrying the key. */
  lemma {:induction false} LookupFirst(props: seq<(string, JsVal)>, key: string, i: nat)
    requires i < |props| && props[i].0 == key
    requires forall j :: 0 <= j < i ==> props[j].0 != key
    ensures Lookup(props, key) == props[i].1
  {
    if i > 0 {
      LookupFirst(props[1..], key, i - 1);
    }
  }

  /** A key no property carries reads as `undefined`. */
  lemma {:induction false} LookupAbsent(props: seq<(string, JsVal)>, key: string)
    requires forall j :: 0 <= j < |props| ==> props[j].0 != key
    ensures Lookup(props, key) == Undefined
  {
    if props != [] {
      LookupAbsent(props[1..], key);
    }
  }

  function ReadError(v: JsVal, key: string): string {
    "Cannot read properties of " + (if v.Null? then "null" else "undefined") + " (reading '" + key + "')"
  }

  /** `v.key` (or `v[key]`). Strings and arrays have none of the element and
      attribute names the analyzer reads, so those read as `undefined`. */
  function Get(v: JsVal, key: string): (r: Result<JsVal>)
    ensures r.Throw? <==> !Truthy(v) && !v.Str?
  {
    match v
    case Undefined => Throw(ReadError(v, key))
    case Null => Throw(ReadError(v, key))
    case Str(_) => Ok(Undefined)
    case Arr(_) => Ok(Undefined)
    case Obj(props) => Ok(Lookup(props, key))
  }

  /** `v[0]`: the first element of an array, the first character of a
      string, the property named "0" of an object. */
  function First(v: JsVal): (r: Result<JsVal>)
    ensures r.Throw? <==> !Truthy(v) && !v.Str?
  {
    match v
    case Undefined => Throw(ReadError(v, "0"))
    case Null => Throw(ReadError(v, "0"))
    case Str(s) => Ok(if s == "" then Undefined else Str(s[..1]))
    case Arr(items) => Ok(if items == [] then Undefined else items[0])
    case Obj(props) => Ok(Lookup(props, "0"))
  }

  /** `node.$.key`: an attribute of an element. */
  function Attribute(node: JsVal, key: string): (r: Result<JsVal>)
    ensures r.Ok? ==> node.Obj?
  {
    var attrs :- Get(node, "$");
    Get(attrs, key)
  }

  /** The guard `v.outer && v.outer[0] && v.outer[0].inner` the analyzer
      puts before every list it walks: the list when the whole chain is
      truthy, nothing otherwise. On a truthy `v` it never throws. */
  function ChildList(v: JsVal, outer: string, inner: string): (r: Result<Option<JsVal>>)
    ensures Truthy(v) ==> r.Ok?
    ensures r.Throw? <==> Get(v, outer).Throw?
    ensures r.Ok? && r.value.Some? ==> Truthy(r.value.value)
    ensures r.Ok? ==>
              (r.value.Some? <==>
                 Truthy(Get(v, outer).value) && Truthy(First(Get(v, outer).value).value) &&
                 Truthy(Get(First(Get(v, outer).value).value, inner).value))
    ensures r.Ok? && r.value.Some? ==>
              Truthy(Get(v, outer).value) && Truthy(First(Get(v, outer).value).value) &&
              r.value.value == Get(First(Get(v, outer).value).value, inner).value
  {
    var a :- Get(v, outer);
    if !Truthy(a) then Ok(None)
    else
      var b := First(a).value;
      if !Truthy(b) then Ok(None)
      else
        var c := Get(b, inner).value;
        if !Truthy(c) then Ok(None) else Ok(Some(c))
  }

  /** Only arrays have `map` and `flatMap`; the error names the callee as
      written at the call, such as `design.menus[0].menu.map`. */
  function NotAFunction(callee: string): string {
    callee + " is not a function"
  }

  /** `items.map(f)` with a callback that may throw: the callbacks run in
      order and the first error ends the walk. */
  function MapItems<T>(items: seq<JsVal>, f: JsVal -> Result<T>): (r: Result<seq<T>>)
    ensures r.Ok? <==> forall i :: 0 <= i < |items| ==> f(items[i]).Ok?
    ensures r.Ok? ==> |r.value| == |items| && forall i :: 0 <= i < |items| ==> r.value[i] == f(items[i]).value
    ensures r.Throw? ==> exists i :: 0 <= i < |items| && f(items[i]) == Throw(r.message)
  {
    if items == [] then Ok([])
    else
      match f(items[0])
      case Throw(m) => Throw(m)
      case Ok(head) =>
        var tail := MapItems(items[1..], f);
        assert forall i :: 1 <= i < |items| ==> items[i] == items[1..][i - 1];
        match tail
        case Throw(m) => Throw(m)
        case Ok(rest) => Ok([head] + rest)
  }

  /** Concatenation of a sequence of sequences. */
  function Concat<T>(parts: seq<seq<T>>): seq<T> {
    if parts == [] then [] else Concat(parts[..|parts| - 1]) + parts[|parts| - 1]
  }

  lemma ConcatSnoc<T>(parts: seq<seq<T>>, last: seq<T>)
    ensures Concat(parts + [last]) == Concat(parts) + last
  {
    assert (parts + [last])[..|parts|] == parts;
  }

  lemma {:induction false} ConcatAppend<T>(a: seq<seq<T>>, b: seq<seq<T>>)
    ensures Concat(a + b) == Concat(a) + Concat(b)
    decreases |b|
  {
    if b == [] {
      assert a + b == a;
    } else {
      var b' := b[..|b| - 1];
      assert a + b == (a + b') + [b[|b| - 1]];
      assert b == b' + [b[|b| - 1]];
      ConcatSnoc(a + b', b[|b| - 1]);
      ConcatSnoc(b', b[|b| - 1]);
      ConcatAppend(a, b');
    }
  }

  /** `list.map(f)` on a list a guard let through, `callee` being the text
      of `list.map` at the call: an array is walked, any other value has no
      `map` and the call throws. */
  function Mapped<T>(list: Option<JsVal>, f: JsVal -> Result<T>, callee: string): (r: Result<seq<T>>)
    ensures list.None? ==> r == Ok([])
    ensures list.Some? && !list.value.Arr? ==> r == Throw(NotAFunction(callee))
  {
    match list
    case None => Ok([])
    case Some(Arr(items)) => MapItems(items, f)
    case Some(_) => Throw(NotAFunction(callee))
  }

  /** `list.flatMap(f)` with callbacks returning arrays: the results of the
      callbacks, concatenated in order. */
  function FlatMapped<T>(list: Option<JsVal>, f: JsVal -> Result<seq<T>>, callee: string): (r: Result<seq<T>>)
    ensures list.None? ==> r == Ok([])
    ensures list.Some? && !list.value.Arr? ==> r == Throw(NotAFunction(callee))
  {
    match list
    case None => Ok([])
    case Some(Arr(items)) =>
      var parts :- MapItems(items, f);
      Ok(Concat(parts))
    case Some(_) => Throw(NotAFunction(callee))
  }

  function ConvertError(): string {
    "Cannot convert undefined or null to object"
  }

  /** `Object.entries(v)`: the properties of an object, the indexed
      characters of a string, the indexed elements of an array. */
  function Entries(v: JsVal): (r: Result<seq<(string, JsVal)>>)
    ensures r.Throw? <==> v.Undefined? || v.Null?
    ensures v.Obj? ==> r == Ok(v.props)
    ensures v.Str? ==> r.Ok? && |r.value| == |v.s|
                       && forall i :: 0 <= i < |v.s| ==> r.value[i] == (NatToString(i), Str([v.s[i]]))
    ensures v.Arr? ==> r.Ok? && |r.value| == |v.items|
                       && forall i :: 0 <= i < |v.items| ==> r.value[i] == (NatToString(i), v.items[i])
  {
    match v
    case Undefined => Throw(ConvertError())
    case Null => Throw(ConvertError())
    case Obj(props) => Ok(props)
    case Str(s) => Ok(seq(|s|, i requires 0 <= i < |s| => (NatToString(i), Str([s[i]]))))
    case Arr(items) => Ok(seq(|items|, i requires 0 <= i < |items| => (NatToString(i), items[i])))
  }
}
