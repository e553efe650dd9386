/** The untyped expression tree a static (column-free) expression is translated to:
    constants and parameter placeholders at the leaves, unresolved operations inside. */
module UntypedTree {

  datatype Arithmetic = Add | Sub | Mul | Div | Mod
  datatype Comparison = NotEq | Eq | Lt | LtEq | Gt | GtEq
  datatype Logical = Or | And
  datatype Bitwise = Or | And | Xor
  datatype StringOp = Concat
  datatype PatternMatching = Like | NotLike

  /** An operation, not yet bound to operand types. */
  datatype Operation =
    | Arithmetic(arithmetic: Arithmetic)
    | Comparison(comparison: Comparison)
    | Logical(logical: Logical)
    | Bitwise(bitwise: Bitwise)
    | StringOp(stringOp: StringOp)
    | PatternMatching(patternMatching: PatternMatching)

  /** A literal as written; `Number` keeps the literal's decimal text. */
  datatype UntypedValue =
    | Number(digits: string)
    | String(text: string)
    | Bool(flag: bool)
    | Null

  datatype StaticUntypedItem =
    | Const(value: UntypedValue)
    | Param(index: nat)

  datatype StaticUntypedTree =
    | Item(item: StaticUntypedItem)
    | Operation(left: StaticUntypedTree, op: Operation, right: StaticUntypedTree)
}
