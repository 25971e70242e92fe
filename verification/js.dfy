/**
 * JavaScript values as the React components see them, with the parts of the
 * language's semantics the components rely on: truthiness, the `||`
 * operator, strict equality and the numeric coercion done by `<=` and `>`.
 */
module Js {
  import opened Wrappers

  /**
   * A JavaScript value. `Other` stands for a plain object: it is truthy, it
   * is never `===` to a separately produced value, and it coerces to NaN.
   * Arrays and objects with a `valueOf` of their own (such as Firestore
   * timestamps) coerce differently and are not values of this type.
   */
  datatype Value = Undefined | Null | Bool(b: bool) | Num(n: real) | NaN | Str(s: string) | Other

  /** Conversion of a string to a number (`Number(s)` or `parseFloat(s)`); `None` is NaN. */
  type StrToNum = string -> Option<real>

  /** The values that `if (v)` accepts. Absent fields, `""`, `0` and NaN are all falsy. */
  predicate Truthy(v: Value) {
    match v
    case Undefined => false
    case Null => false
    case Bool(b) => b
    case Num(n) => n != 0.0
    case NaN => false
    case Str(s) => s != ""
    case Other => true
  }

  /** `a || b`: the left operand when it is truthy, otherwise the right one. */
  function Or(a: Value, b: Value): Value {
    if Truthy(a) then a else b
  }

  /** A chain `v0 || v1 || ... || last`, evaluated left to right. */
  function OrChain(vs: seq<Value>, last: Value): Value {
    if |vs| == 0 then last else Or(vs[0], OrChain(vs[1..], last))
  }

  /** Index of the first truthy value of `vs`, or `|vs|` when there is none. */
  function FirstTruthyIndex(vs: seq<Value>): (k: nat)
    ensures k <= |vs|
    ensures forall i :: 0 <= i < k ==> !Truthy(vs[i])
    ensures k < |vs| ==> Truthy(vs[k])
  {
    if |vs| == 0 then 0
    else if Truthy(vs[0]) then 0
    else 1 + FirstTruthyIndex(vs[1..])
  }

  /** An `||` chain yields its first truthy operand, and its last operand when no other one is truthy. */
  lemma {:induction false} OrChainPicksFirstTruthy(vs: seq<Value>, last: Value)
    ensures FirstTruthyIndex(vs) < |vs| ==> OrChain(vs, last) == vs[FirstTruthyIndex(vs)]
    ensures FirstTruthyIndex(vs) == |vs| ==> OrChain(vs, last) == last
  {
    if |vs| > 0 && !Truthy(vs[0]) {
      OrChainPicksFirstTruthy(vs[1..], last);
    }
  }

  /** A string field read off a record: absent fields are `undefined`. */
  function OfString(o: Option<string>): Value {
    match o
    case Some(s) => Str(s)
    case None => Undefined
  }

  /**
   * `a === b`. NaN is unequal to everything, and two `Other` values are
   * taken to be distinct objects.
   */
  predicate StrictEquals(a: Value, b: Value) {
    match (a, b)
    case (Undefined, Undefined) => true
    case (Null, Null) => true
    case (Bool(x), Bool(y)) => x == y
    case (Num(x), Num(y)) => x == y
    case (Str(x), Str(y)) => x == y
    case _ => false
  }

  /**
   * The numeric coercion applied by `<`, `<=`, `>` and `>=` when one side is
   * a number; `None` is NaN, for which every comparison is false.
   */
  function ToNumber(v: Value, strToNum: StrToNum): Option<real> {
    match v
    case Undefined => None
    case Null => Some(0.0)
    case Bool(b) => Some(if b then 1.0 else 0.0)
    case Num(n) => Some(n)
    case NaN => None
    case Str(s) => strToNum(s)
    case Other => None
  }

  /** `v <= k` for a numeric literal `k`. */
  predicate AtMost(v: Value, k: real, strToNum: StrToNum) {
    match ToNumber(v, strToNum)
    case Some(x) => x <= k
    case None => false
  }

  /** `v > k` for a numeric literal `k`. */
  predicate Above(v: Value, k: real, strToNum: StrToNum) {
    match ToNumber(v, strToNum)
    case Some(x) => x > k
    case None => false
  }

  /** `<=` and `>` against the same literal are complementary exactly on values that do not coerce to NaN. */
  lemma AtMostOrAbove(v: Value, k: real, strToNum: StrToNum)
    ensures AtMost(v, k, strToNum) || Above(v, k, strToNum) <==> ToNumber(v, strToNum).Some?
    ensures !(AtMost(v, k, strToNum) && Above(v, k, strToNum))
  {
  }
}
