/**
 * JavaScript values as the validator sees them: the JSON-like data of a
 * submission (null, booleans, integer numbers, strings, arrays, objects) plus
 * `undefined`, function references and Error instances, which show up as hook
 * arguments and as thrown values.  Paths into data are pre-split key
 * sequences; `Lookup`, `Unset` and `SetPath` are the parts of lodash's
 * `_.get`, `_.unset` and `_.set` that the validator relies on.
 */
module Json {

  /** A function value is an opaque reference; what calling it returns is
      decided by an environment passed in by whoever calls it. */
  type FnId = nat

  datatype Value =
    | Undefined
    | Null
    | Bool(b: bool)
    | Num(n: int)
    | Str(s: string)
    | Arr(elems: seq<Value>)
    | Obj(fields: map<string, Value>)
    | Func(id: FnId)
    | ErrorObj(name: string, message: string)

  /** The outcome of an operation that may throw (or reject). */
  datatype Completion<T> = Normal(value: T) | Throw(exception: Value)

  /** A lodash path after parsing: lodash never produces an empty key list. */
  type Path = p: seq<string> | |p| > 0 witness [""]

  /** JavaScript's `!!v` (numbers are integers here, so NaN does not arise). */
  predicate Truthy(v: Value) {
    match v
    case Undefined => false
    case Null => false
    case Bool(b) => b
    case Num(n) => n != 0
    case Str(s) => s != ""
    case _ => true
  }

  /** `v == null`: reading a property of such a value throws a TypeError. */
  predicate IsNullish(v: Value) {
    v.Undefined? || v.Null?
  }

  /** `typeof v === 'function'`. */
  predicate IsFunction(v: Value) {
    v.Func?
  }

  /** `a || b` on values. */
  function Or(a: Value, b: Value): (r: Value)
    ensures Truthy(a) ==> r == a
    ensures !Truthy(a) ==> r == b
  {
    if Truthy(a) then a else b
  }

  function DigitChar(d: nat): (c: char)
    requires d < 10
    ensures '0' <= c <= '9'
  {
    "0123456789"[d]
  }

  /** The decimal spelling of a natural number, as `String(n)` gives it. */
  function NatToString(n: nat): (s: string)
    ensures |s| > 0
    ensures forall i :: 0 <= i < |s| ==> '0' <= s[i] <= '9'
    ensures n > 0 ==> s[0] != '0'
    decreases n
  {
    if n < 10 then [DigitChar(n)] else NatToString(n / 10) + [DigitChar(n % 10)]
  }

  function IntToString(i: int): string {
    if i < 0 then "-" + NatToString(-i) else NatToString(i)
  }

  /** The array index that a property key denotes on an array of length `n`:
      the key must be the canonical decimal spelling of an index below `n`. */
  function ArrayIndex(k: string, n: nat): (r: Option<nat>)
    ensures r.Some? ==> r.value < n && NatToString(r.value) == k
    ensures r.None? ==> forall i :: 0 <= i < n ==> NatToString(i) != k
  {
    if n == 0 then None
    else match ArrayIndex(k, n - 1)
      case Some(i) => Some(i)
      case None => if NatToString(n - 1) == k then Some(n - 1) else None
  }

  datatype Option<T> = None | Some(value: T)

  /** Reading an own data property `v[k]` of a value that is not nullish.
      Objects and arrays are the only containers of submission data. */
  function Get(v: Value, k: string): (r: Value)
    ensures v.Obj? && k in v.fields ==> r == v.fields[k]
    ensures v.Obj? && k !in v.fields ==> r == Undefined
    ensures !v.Obj? && !v.Arr? ==> r == Undefined
  {
    match v
    case Obj(m) => if k in m then m[k] else Undefined
    case Arr(es) =>
      (match ArrayIndex(k, |es|)
       case Some(i) => es[i]
       case None => Undefined)
    case _ => Undefined
  }

  /** `err.message` of a thrown value that is not nullish. */
  function MessageOf(e: Value): Value {
    match e
    case ErrorObj(_, msg) => Str(msg)
    case _ => Get(e, "message")
  }

  /** `v.length` of a value that is not nullish. */
  function LengthOf(v: Value): Value {
    match v
    case Arr(es) => Num(|es|)
    case Str(s) => Num(|s|)
    case _ => Get(v, "length")
  }

  /** The TypeError V8 raises when a property is read from a nullish value. */
  function ReadError(base: Value, prop: string): (e: Value)
    requires IsNullish(base)
    ensures e.ErrorObj? && e.name == "TypeError"
  {
    ErrorObj("TypeError", "Cannot read properties of "
      + (if base.Null? then "null" else "undefined") + " (reading '" + prop + "')")
  }

  /** The own enumerable keys that `{ ...v }` copies from a value.  Only
      objects are spread here. */
  function Spread(v: Value): (m: map<string, Value>)
    ensures v.Obj? ==> m == v.fields
    ensures !v.Obj? ==> m == map[]
  {
    if v.Obj? then v.fields else map[]
  }

  /** The keys a `for (k in v)` loop visits. */
  function ForInKeys(v: Value): (ks: set<string>)
    ensures v.Obj? ==> ks == v.fields.Keys
    ensures v.Arr? ==> forall i :: 0 <= i < |v.elems| ==> NatToString(i) in ks
    ensures IsNullish(v) ==> ks == {}
  {
    match v
    case Obj(m) => m.Keys
    case Arr(es) => set i | 0 <= i < |es| :: NatToString(i)
    case Str(s) => set i | 0 <= i < |s| :: NatToString(i)
    case _ => {}
  }

  function Join(parts: seq<string>, sep: string): string {
    if parts == [] then "" else if |parts| == 1 then parts[0] else parts[0] + sep + Join(parts[1..], sep)
  }

  /** `String(v)`, as a template literal `${v}` renders it. */
  function ToJsString(v: Value): string
    decreases v
  {
    match v
    case Undefined => "undefined"
    case Null => "null"
    case Bool(b) => if b then "true" else "false"
    case Num(n) => IntToString(n)
    case Str(s) => s
    case Arr(es) =>
      Join(seq(|es|, i requires 0 <= i < |es| =>
        if IsNullish(es[i]) then "" else ToJsString(es[i])), ",")
    case Obj(_) => "[object Object]"
    case Func(_) => "function"
    case ErrorObj(name, msg) => if msg == "" then name else name + ": " + msg
  }

  /** `_.get(v, path)`: follows the keys, giving `undefined` once a step is missing. */
  function Lookup(v: Value, path: seq<string>): Value
    decreases |path|
  {
    if path == [] then v else Lookup(Get(v, path[0]), path[1..])
  }

  /** `delete v[k]`: an object loses the key, an array gets a hole (read back
      as `undefined`), any other value is left as it is. */
  function DeleteKey(v: Value, k: string): (r: Value)
    ensures Get(r, k) == Undefined
  {
    match v
    case Obj(m) => Obj(m - {k})
    case Arr(es) =>
      (match ArrayIndex(k, |es|)
       case Some(i) => Arr(es[i := Undefined])
       case None => v)
    case _ => v
  }

  /** `_.unset(v, path)`: deletes the last key from the value the rest of the
      path leads to; a path that leads nowhere changes nothing. */
  function Unset(v: Value, path: Path): Value
    decreases |path|
  {
    if |path| == 1 then DeleteKey(v, path[0])
    else
      match v
      case Obj(m) =>
        if path[0] in m then Obj(m[path[0] := Unset(m[path[0]], path[1..])]) else v
      case Arr(es) =>
        (match ArrayIndex(path[0], |es|)
         case Some(i) => Arr(es[i := Unset(es[i], path[1..])])
         case None => v)
      case _ => v
  }

  /** The object-building part of `_.set(v, path, x)` on key paths: a step
      that holds an object is entered and kept, and every other step becomes
      a fresh `{}`.  Lodash would also keep an array or a function there, and
      would create `[]` rather than `{}` when the next key is an array index. */
  function SetPath(v: Value, path: seq<string>, x: Value): Value
    decreases |path|
  {
    if path == [] then x
    else
      var m := if v.Obj? then v.fields else map[];
      Obj(m[path[0] := SetPath(if path[0] in m then m[path[0]] else Undefined, path[1..], x)])
  }

  lemma {:induction false} LookupUndefined(path: seq<string>)
    ensures Lookup(Undefined, path) == Undefined
    decreases |path|
  {
    if path != [] {
      LookupUndefined(path[1..]);
    }
  }

  /** After `_.unset(v, p)` nothing is found at `p`, nor anywhere below it. */
  lemma {:induction false} UnsetRemovesBelow(v: Value, p: Path, q: seq<string>)
    requires p <= q
    ensures Lookup(Unset(v, p), q) == Undefined
    decreases |p|
  {
    assert q == [q[0]] + q[1..] && q[0] == p[0];
    assert Lookup(Unset(v, p), q) == Lookup(Get(Unset(v, p), p[0]), q[1..]);
    if |p| == 1 {
      LookupUndefined(q[1..]);
    } else {
      assert p[1..] <= q[1..];
      if v.Obj? && p[0] in v.fields {
        UnsetRemovesBelow(v.fields[p[0]], p[1..], q[1..]);
      } else if v.Arr? && ArrayIndex(p[0], |v.elems|).Some? {
        UnsetRemovesBelow(v.elems[ArrayIndex(p[0], |v.elems|).value], p[1..], q[1..]);
      } else {
        LookupUndefined(q[1..]);
      }
    }
  }

  /** `_.unset(v, p)` leaves the value at every path that branches off `p` as it was. */
  lemma {:induction false} UnsetKeepsOthers(v: Value, p: Path, q: seq<string>)
    requires !(p <= q) && !(q <= p)
    ensures Lookup(Unset(v, p), q) == Lookup(v, q)
    decreases |p|
  {
    if q != [] {
      assert Lookup(Unset(v, p), q) == Lookup(Get(Unset(v, p), q[0]), q[1..]);
      assert Lookup(v, q) == Lookup(Get(v, q[0]), q[1..]);
      if q[0] != p[0] {
        assert Get(Unset(v, p), q[0]) == Get(v, q[0]) by {
          if v.Arr? && ArrayIndex(q[0], |v.elems|).Some? {
            assert ArrayIndex(p[0], |v.elems|) != ArrayIndex(q[0], |v.elems|);
          }
        }
      } else {
        assert !(p[1..] <= q[1..]) && !(q[1..] <= p[1..]) by {
          assert p == [p[0]] + p[1..] && q == [q[0]] + q[1..];
        }
        if v.Obj? && p[0] in v.fields {
          UnsetKeepsOthers(v.fields[p[0]], p[1..], q[1..]);
        } else if v.Arr? && ArrayIndex(p[0], |v.elems|).Some? {
          UnsetKeepsOthers(v.elems[ArrayIndex(p[0], |v.elems|).value], p[1..], q[1..]);
        }
      }
    }
  }

  /** Unsetting below key `p[0]` only changes what that key holds. */
  lemma GetUnsetSame(v: Value, p: Path)
    requires |p| > 1
    ensures Get(Unset(v, p), p[0]) == Unset(Get(v, p[0]), p[1..])
  {
    var rest: Path := p[1..];
    if !(v.Obj? && p[0] in v.fields) && !(v.Arr? && ArrayIndex(p[0], |v.elems|).Some?) {
      UnsetUndefined(rest);
    }
  }

  /** Unsetting a path leaves every other key of the top level as it was. */
  lemma GetUnsetOther(v: Value, p: Path, k: string)
    requires k != p[0]
    ensures Get(Unset(v, p), k) == Get(v, k)
  {
    if v.Arr? && ArrayIndex(k, |v.elems|).Some? {
      assert ArrayIndex(p[0], |v.elems|) != ArrayIndex(k, |v.elems|);
    }
  }

  lemma UnsetUndefined(p: Path)
    ensures Unset(Undefined, p) == Undefined
  {
  }

  /** A path that leads nowhere still leads nowhere after any `_.unset`. */
  lemma {:induction false} UnsetKeepsMissing(v: Value, p: Path, q: seq<string>)
    requires Lookup(v, q) == Undefined
    ensures Lookup(Unset(v, p), q) == Undefined
    decreases |q|
  {
    if q == [] {
      UnsetUndefined(p);
    } else {
      assert Lookup(Unset(v, p), q) == Lookup(Get(Unset(v, p), q[0]), q[1..]);
      if q[0] != p[0] {
        GetUnsetOther(v, p, q[0]);
      } else if |p| == 1 {
        LookupUndefined(q[1..]);
      } else {
        GetUnsetSame(v, p);
        UnsetKeepsMissing(Get(v, q[0]), p[1..], q[1..]);
      }
    }
  }

  /** `_.set` then `_.get` on the same path gives back the value set. */
  lemma {:induction false} SetPathThenLookup(v: Value, path: seq<string>, x: Value)
    ensures Lookup(SetPath(v, path, x), path) == x
    decreases |path|
  {
    if path != [] {
      var m := if v.Obj? then v.fields else map[];
      SetPathThenLookup(if path[0] in m then m[path[0]] else Undefined, path[1..], x);
    }
  }
}
