/**
 * The few JavaScript value rules the configuration manager depends on.
 *
 * A TypeScript value of type `T | null | undefined` is an `Option<T>`: `None` stands for both
 * `null` and `undefined`, which nothing in the manager tells apart. What the manager does tell
 * apart is *falsy* (`||` moves on) from *nullish* (`??` moves on): for the string fields the
 * empty string is falsy but not nullish, for booleans `false` and for numbers `0` are too, and
 * objects and arrays are always truthy.
 */
module Js {

  datatype Option<+T> = None | Some(value: T) {
    function GetOr(default: T): T {
      match this
      case Some(v) => v
      case None => default
    }
  }

  /** A value or the reason a hook threw (or its promise rejected). */
  datatype Result<+R> = Success(value: R) | Failure(error: string)

  /** Completion of an operation that returns nothing or throws. */
  datatype Outcome = Pass | Fail(error: string)

  /** JavaScript truthiness of a `string | null | undefined`. */
  predicate Truthy(s: Option<string>) {
    s.Some? && s.value != ""
  }

  /** `a || b` on `string | null | undefined`: `a` when truthy, otherwise `b` as it is. */
  function Or(a: Option<string>, b: Option<string>): Option<string> {
    if Truthy(a) then a else b
  }

  /** `s || undefined`: `s` when truthy, otherwise nullish. */
  function WhenTruthy(s: Option<string>): Option<string> {
    if Truthy(s) then s else None
  }

  /** `a ?? b`: `a` unless it is `null` or `undefined`. */
  function Coalesce<T>(a: Option<T>, b: Option<T>): Option<T> {
    if a.Some? then a else b
  }

  /** `i` is the first operand of the chain that is truthy. */
  predicate FirstTruthyAt(operands: seq<Option<string>>, i: int) {
    0 <= i < |operands| && Truthy(operands[i]) && forall j :: 0 <= j < i ==> !Truthy(operands[j])
  }

  /** `i` is the first operand of the chain that is neither `null` nor `undefined`. */
  predicate FirstPresentAt<T>(operands: seq<Option<T>>, i: int) {
    0 <= i < |operands| && operands[i].Some? && forall j :: 0 <= j < i ==> operands[j].None?
  }

  /**
   * The value of `o0 || o1 || ... || on`, as ECMAScript defines it: the first truthy operand,
   * or the last operand when none is truthy.
   */
  function OrChain(operands: seq<Option<string>>): (r: Option<string>)
    requires |operands| > 0
    ensures r in operands
    ensures forall i {:trigger FirstTruthyAt(operands, i)} :: FirstTruthyAt(operands, i) ==> r == operands[i]
    ensures (forall i :: 0 <= i < |operands| ==> !Truthy(operands[i])) ==> r == operands[|operands| - 1]
  {
    if |operands| == 1 then operands[0]
    else
      var rest := OrChain(operands[1..]);
      assert forall i :: FirstTruthyAt(operands, i) && i > 0 ==> FirstTruthyAt(operands[1..], i - 1);
      Or(operands[0], rest)
  }

  /**
   * The value of `o0 ?? o1 ?? ... ?? on`: the first operand that is not `null`/`undefined`, or
   * the last operand when all of them are.
   */
  function CoalesceChain<T>(operands: seq<Option<T>>): (r: Option<T>)
    requires |operands| > 0
    ensures r in operands
    ensures forall i {:trigger FirstPresentAt(operands, i)} :: FirstPresentAt(operands, i) ==> r == operands[i]
    ensures (forall i :: 0 <= i < |operands| ==> operands[i].None?) ==> r == operands[|operands| - 1]
  {
    if |operands| == 1 then operands[0]
    else
      var rest := CoalesceChain(operands[1..]);
      assert forall i :: FirstPresentAt(operands, i) && i > 0 ==> FirstPresentAt(operands[1..], i - 1);
      Coalesce(operands[0], rest)
  }

  /** A three-operand `||` chain, evaluated left to right as the source writes it. */
  lemma OrChain3(a: Option<string>, b: Option<string>, c: Option<string>)
    ensures OrChain([a, b, c]) == Or(Or(a, b), c)
  {
  }

  /** A three-operand `??` chain, evaluated left to right as the source writes it. */
  lemma CoalesceChain3<T>(a: Option<T>, b: Option<T>, c: Option<T>)
    ensures CoalesceChain([a, b, c]) == Coalesce(Coalesce(a, b), c)
  {
  }
}
