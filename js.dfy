/** The dynamically typed values that flow through the client's `any`
    fields (error payloads, intake answers), with JavaScript's truthiness,
    the `||` operator and String(). Numbers are integers here. */
module Js {
  import opened Common

  datatype Value =
    | Undefined
    | Null
    | Bool(b: bool)
    | Num(n: int)
    | Str(s: string)
    | Arr(items: seq<Value>)
    | Obj(entries: seq<(string, Value)>)

  /** `!!v`: only undefined, null, false, 0 and '' are falsy; every array
      and object, even an empty one, is truthy. */
  predicate Truthy(v: Value) {
    match v
    case Undefined => false
    case Null => false
    case Bool(b) => b
    case Num(n) => n != 0
    case Str(s) => s != ""
    case Arr(_) => true
    case Obj(_) => true
  }

  /** `a || b`. */
  function Or(a: Value, b: Value): (r: Value)
    ensures Truthy(a) ==> r == a
    ensures !Truthy(a) ==> r == b
  {
    if Truthy(a) then a else b
  }

  /** Object.keys order is the order of `entries`; Object.keys of an array
      is its indices. `Property(v, k)` is `v[k]`. */
  function FirstKeyValue(v: Value): (r: Value)
    requires v.Arr? || v.Obj?
    ensures v.Arr? && |v.items| > 0 ==> r == v.items[0]
    ensures v.Obj? && |v.entries| > 0 ==> r == v.entries[0].1
    ensures (v.Arr? && |v.items| == 0) || (v.Obj? && |v.entries| == 0) ==> r == Undefined
  {
    match v
    case Arr(items) => if |items| > 0 then items[0] else Undefined
    case Obj(entries) => if |entries| > 0 then entries[0].1 else Undefined
  }

  /** The property access `v?.key`: the first entry named `key` of an
      object; undefined for everything else (optional chaining makes null
      and undefined yield undefined too). */
  function Get(v: Value, key: string): (r: Value)
    ensures !v.Obj? ==> r == Undefined
    ensures v.Obj? && |v.entries| > 0 && v.entries[0].0 == key ==> r == v.entries[0].1
    ensures v.Obj? && (forall i :: 0 <= i < |v.entries| ==> v.entries[i].0 != key) ==> r == Undefined
    decreases if v.Obj? then |v.entries| else 0
  {
    match v
    case Obj(entries) =>
      if |entries| == 0 then Undefined
      else if entries[0].0 == key then entries[0].1
      else Get(Obj(entries[1..]), key)
    case _ => Undefined
  }

  /** String(v). An array is the ','-join of its elements, where null and
      undefined elements become ''. */
  function ToString(v: Value): string
    decreases v
  {
    match v
    case Undefined => "undefined"
    case Null => "null"
    case Bool(b) => if b then "true" else "false"
    case Num(n) => IntToString(n)
    case Str(s) => s
    case Arr(items) => JoinValues(items, ",")
    case Obj(_) => "[object Object]"
  }

  /** Array.prototype.join(sep) of the elements `items`. */
  function JoinValues(items: seq<Value>, sep: string): string
    decreases items
  {
    if |items| == 0 then ""
    else
      var head := if items[0].Null? || items[0].Undefined? then "" else ToString(items[0]);
      if |items| == 1 then head else head + sep + JoinValues(items[1..], sep)
  }

  /** Joining an array of strings is joining those strings. */
  lemma {:induction false} JoinStrings(items: seq<Value>, strs: seq<string>, sep: string)
    requires |items| == |strs| && forall i :: 0 <= i < |items| ==> items[i] == Str(strs[i])
    ensures JoinValues(items, sep) == Join(strs, sep)
  {
    if |items| > 1 {
      JoinStrings(items[1..], strs[1..], sep);
    }
  }
}
