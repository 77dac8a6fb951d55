/**
 * The JavaScript values the list renderer reads out of its data records and
 * formatters, and the records themselves (objects with their keys in
 * `for..in` order).
 */
module JsValues {

  import opened Numeric

  /**
   * A cell value. `Obj` stands for any object (array, React element, plain
   * object): its own enumerable properties and the text its `toString()`
   * yields. Numbers are integers.
   */
  datatype Value = Str(str: string) | Num(num: int) | Bool(flag: bool) | Obj(content: map<string, Value>, text: string) | Null | Undefined

  /** `typeof v === 'object'` (true of `null` as well). */
  predicate IsObject(v: Value)
  {
    v.Obj? || v.Null?
  }

  /** `v.toString()` is defined: it throws on `null` and `undefined`. */
  predicate HasToString(v: Value)
  {
    !v.Null? && !v.Undefined?
  }

  /** `v.toString()`. */
  function ToJsString(v: Value): (s: string)
    requires HasToString(v)
    ensures v.Str? ==> s == v.str
    ensures v.Num? ==> |s| >= 1 && ParseDecimal(s) == v.num
    ensures v.Bool? ==> (s == "true" <==> v.flag) && (s == "false" <==> !v.flag)
    ensures v.Obj? ==> s == v.text
  {
    match v
    case Str(str) => str
    case Num(n) => DecimalRoundTrip(n); DecimalString(n)
    case Bool(b) => if b then "true" else "false"
    case Obj(_, text) => text
  }

  /** A record: its enumerable keys in `for..in` order and its field values. */
  datatype Record = Record(keys: seq<string>, fields: map<string, Value>)

  /** `record[key]`: `undefined` for a missing key. */
  function Get(r: Record, key: string): (v: Value)
    ensures key in r.fields ==> v == r.fields[key]
    ensures key !in r.fields ==> v.Undefined?
  {
    if key in r.fields then r.fields[key] else Undefined
  }

  /**
   * Deep equality (lodash's `isEqual`): objects are equal when they have the
   * same keys and deeply equal values under each; other values are equal when
   * they are the same value.
   */
  predicate DeepEqual(a: Value, b: Value): (eq: bool)
    decreases a
    ensures a == b ==> eq
    ensures !(a.Obj? && b.Obj?) ==> (eq <==> a == b)
    ensures eq && a.Obj? ==> b.Obj? && a.content.Keys == b.content.Keys
  {
    if a.Obj? && b.Obj? then
      a.content.Keys == b.content.Keys && forall k :: k in a.content ==> DeepEqual(a.content[k], b.content[k])
    else a == b
  }

  /** Deep equality is symmetric. */
  lemma {:induction false} DeepEqualSymmetric(a: Value, b: Value)
    requires DeepEqual(a, b)
    ensures DeepEqual(b, a)
    decreases a
  {
    if a.Obj? && b.Obj? {
      forall k | k in b.content
        ensures DeepEqual(b.content[k], a.content[k])
      {
        DeepEqualSymmetric(a.content[k], b.content[k]);
      }
    }
  }
}
