/**
 * The generic conditional helpers the providers use to choose endpoints and
 * regions: `Ternary`, its lazy variant `TernaryFunc`, and the builder
 * `If(c).Then(a).Else(b)`.
 */
module IfElse {

  /** Ternary: the consequent when the condition holds, the alternative otherwise. */
  function Ternary<T>(condition: bool, consequent: T, alternative: T): (r: T)
    ensures condition ==> r == consequent
    ensures !condition ==> r == alternative
  {
    if condition then consequent else alternative
  }

  /**
   * TernaryFunc: evaluates only the selected function. The function not
   * selected may be undefined (its precondition false) without harm.
   */
  function TernaryFunc<T>(condition: bool, consequentFunc: () --> T, alternativeFunc: () --> T): (r: T)
    requires condition ==> consequentFunc.requires()
    requires !condition ==> alternativeFunc.requires()
    ensures condition ==> r == consequentFunc()
    ensures !condition ==> r == alternativeFunc()
  {
    if condition then consequentFunc() else alternativeFunc()
  }

  /** With total functions, TernaryFunc chooses what Ternary chooses between their values. */
  lemma TernaryFuncIsTernary<T>(condition: bool, f: () -> T, g: () -> T)
    ensures TernaryFunc(condition, f, g) == Ternary(condition, f(), g())
  {
  }

  /** `If(c)`: the first stage of the builder. */
  datatype IfExpr<T> = IfExpr(condition: bool)
  {
    /** `Then(a)`: keeps the condition and records the consequent. */
    function Then(consequent: T): (r: ThenExpr<T>)
      ensures r.condition == condition && r.consequent == consequent
    {
      ThenExpr(condition, consequent)
    }
  }

  /** `If(c).Then(a)`: the condition and the consequent. */
  datatype ThenExpr<T> = ThenExpr(condition: bool, consequent: T)
  {
    /** `Else(b)`: the consequent when the condition holds, else b. */
    function Else(alternative: T): (r: T)
      ensures condition ==> r == consequent
      ensures !condition ==> r == alternative
    {
      if condition then consequent else alternative
    }
  }

  /** `If[T](c)` stores the condition unchanged. */
  function If<T>(condition: bool): (r: IfExpr<T>)
    ensures r.condition == condition
  {
    IfExpr(condition)
  }

  /** The builder chain is the ternary conditional. */
  lemma IfThenElseIsTernary<T>(condition: bool, consequent: T, alternative: T)
    ensures If<T>(condition).Then(consequent).Else(alternative) == Ternary(condition, consequent, alternative)
  {
  }
}
