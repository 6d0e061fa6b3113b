/**
 * Dynamic JavaScript values as the front end handles them: the saved
 * simulation state, the decoded JWT payload and untyped component fields
 * are all of type `any` in the source, so their operations are stated over
 * this one datatype.  Numbers are mathematical reals (no NaN, no infinities).
 */
module Js {

  datatype Value =
    | Undefined
    | Null
    | Bool(b: bool)
    | Num(n: real)
    | Str(s: string)
    | Arr(items: seq<Value>)
    | Obj(fields: map<string, Value>)

  /** JavaScript truthiness: `false`, `0`, `''`, `null` and `undefined` are falsy. */
  predicate Truthy(v: Value)
  {
    match v
    case Undefined => false
    case Null => false
    case Bool(b) => b
    case Num(n) => n != 0.0
    case Str(s) => s != ""
    case Arr(_) => true
    case Obj(_) => true
  }

  /** `v == null` in the loose sense used by `??`. */
  predicate Nullish(v: Value)
  {
    v.Undefined? || v.Null?
  }

  /**
   * Property read `v.key`.  Only objects carry the named properties the
   * source reads; on any other value such a read yields `undefined`.
   */
  function Get(v: Value, key: string): Value
  {
    if v.Obj? && key in v.fields then v.fields[key] else Undefined
  }

  /** `a || b`: the left operand when it is truthy, otherwise the right one. */
  function Or(a: Value, b: Value): Value
  {
    if Truthy(a) then a else b
  }

  /** `a ?? b`: the left operand unless it is null or undefined. */
  function Coalesce(a: Value, b: Value): Value
  {
    if Nullish(a) then b else a
  }

  /** Reference definition: the first truthy value of a list, `null` if there is none. */
  function FirstTruthy(vs: seq<Value>): (r: Value)
    ensures r == Null || r in vs
  {
    if vs == [] then Null else if Truthy(vs[0]) then vs[0] else FirstTruthy(vs[1..])
  }

  /** Reference definition: the first non-nullish value of a list, `null` if there is none. */
  function FirstPresent(vs: seq<Value>): (r: Value)
    ensures r == Null || r in vs
  {
    if vs == [] then Null else if !Nullish(vs[0]) then vs[0] else FirstPresent(vs[1..])
  }

  /**
   * The first truthy value is truthy and sits at a position before which
   * every value is falsy; it is `null` exactly when no value is truthy.
   */
  lemma {:induction false} FirstTruthyIsFirst(vs: seq<Value>)
    ensures FirstTruthy(vs) == Null || Truthy(FirstTruthy(vs))
    ensures FirstTruthy(vs) == Null <==> forall k :: 0 <= k < |vs| ==> !Truthy(vs[k])
    ensures FirstTruthy(vs) != Null ==>
              exists i :: 0 <= i < |vs| && vs[i] == FirstTruthy(vs) && forall k :: 0 <= k < i ==> !Truthy(vs[k])
  {
    if vs != [] && !Truthy(vs[0]) {
      FirstTruthyIsFirst(vs[1..]);
      assert forall k :: 1 <= k < |vs| ==> vs[k] == vs[1..][k - 1];
      if FirstTruthy(vs) != Null {
        var i :| 0 <= i < |vs[1..]| && vs[1..][i] == FirstTruthy(vs[1..]) && forall k :: 0 <= k < i ==> !Truthy(vs[1..][k]);
        assert vs[i + 1] == FirstTruthy(vs);
        assert forall k :: 0 <= k < i + 1 ==> !Truthy(vs[k]) by {
          forall k | 0 <= k < i + 1 ensures !Truthy(vs[k]) {
            if k > 0 {
              assert vs[k] == vs[1..][k - 1];
            }
          }
        }
      }
    } else if vs != [] {
      assert vs[0] == FirstTruthy(vs);
    }
  }

  /** An `a || b || ... || null` chain picks the first truthy operand. */
  lemma OrChainIsFirstTruthy(a: Value, b: Value, c: Value)
    ensures Or(Or(Or(a, b), c), Null) == FirstTruthy([a, b, c])
  {
    assert [a, b, c][1..] == [b, c];
    assert [b, c][1..] == [c];
    assert [c][1..] == [];
    assert FirstTruthy([b, c]) == if Truthy(b) then b else FirstTruthy([c]);
    assert FirstTruthy([c]) == if Truthy(c) then c else FirstTruthy([]);
  }

  /** An `a ?? b ?? null` chain picks the first non-nullish operand. */
  lemma CoalesceChainIsFirstPresent(a: Value, b: Value)
    ensures Coalesce(Coalesce(a, b), Null) == FirstPresent([a, b])
  {
    assert [a, b][1..] == [b];
    assert [b][1..] == [];
  }

  /** Decimal digits of a natural number, as `String(n)` writes it. */
  function NatToString(n: nat): (r: string)
    ensures |r| >= 1
    ensures n < 10 <==> |r| == 1
    decreases n
  {
    if n < 10 then [Digit(n)] else NatToString(n / 10) + [Digit(n % 10)]
  }

  function Digit(d: nat): char
    requires d < 10
  {
    "0123456789"[d]
  }

  lemma {:induction false} NatToStringInjective(a: nat, b: nat)
    requires NatToString(a) == NatToString(b)
    ensures a == b
    decreases a
  {
    var sa, sb := NatToString(a), NatToString(b);
    if a >= 10 && b >= 10 {
      assert sa[..|sa| - 1] == NatToString(a / 10);
      assert sb[..|sb| - 1] == NatToString(b / 10);
      NatToStringInjective(a / 10, b / 10);
      assert Digit(a % 10) == sa[|sa| - 1] == sb[|sb| - 1] == Digit(b % 10);
    }
  }

  /** The keys `"0"`, `"1"`, ... that spreading an array or a string produces. */
  function IndexKeys<T>(xs: seq<T>): (m: map<string, T>)
    ensures forall k :: 0 <= k < |xs| ==> NatToString(k) in m && m[NatToString(k)] == xs[k]
    ensures forall key :: key in m ==> exists k :: 0 <= k < |xs| && key == NatToString(k)
  {
    forall i: nat, j: nat | NatToString(i) == NatToString(j) ensures i == j {
      NatToStringInjective(i, j);
    }
    map k | 0 <= k < |xs| :: NatToString(k) := xs[k]
  }

  /**
   * The object spread `{...v}`: an object is copied as it is, an array or a
   * string becomes an object keyed by index, and any other value an empty
   * object.
   */
  function Spread(v: Value): (r: Value)
    ensures r.Obj?
    ensures v.Obj? ==> r == v
  {
    match v
    case Obj(_) => v
    case Arr(items) => Obj(IndexKeys(items))
    case Str(s) => Obj(IndexKeys(seq(|s|, k requires 0 <= k < |s| => Str([s[k]]))))
    case _ => Obj(map[])
  }

  /** Spreading twice is the same as spreading once. */
  lemma SpreadIdempotent(v: Value)
    ensures Spread(Spread(v)) == Spread(v)
  {
  }

  /** `xs.map(p => ({ ...p }))`. */
  function SpreadAll(xs: seq<Value>): (r: seq<Value>)
    ensures |r| == |xs|
    ensures forall k :: 0 <= k < |xs| ==> r[k] == Spread(xs[k])
  {
    seq(|xs|, k requires 0 <= k < |xs| => Spread(xs[k]))
  }

  /** Copying a copied list again yields the same list. */
  lemma SpreadAllIdempotent(xs: seq<Value>)
    ensures SpreadAll(SpreadAll(xs)) == SpreadAll(xs)
  {
    var once := SpreadAll(xs);
    var twice := SpreadAll(once);
    forall k | 0 <= k < |xs| ensures twice[k] == once[k] {
      SpreadIdempotent(xs[k]);
    }
  }

  /** A list of plain objects is copied to an equal list. */
  lemma SpreadAllObjects(xs: seq<Value>)
    requires forall k :: 0 <= k < |xs| ==> xs[k].Obj?
    ensures SpreadAll(xs) == xs
  {
  }
}
