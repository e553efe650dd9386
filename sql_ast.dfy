/** Cut-down copies of the foreign types the core consumes: the parser's syntax tree
    (`sql_ast`) and the wire protocol's type tags (`pg_wire::PgType`). The variants the
    core matches on are spelled out, together with a few it does not handle (`Real`,
    `Double` and `Text` among the data types; `UnaryOp`, `Nested` and `IsNull` among
    the expressions); the remaining variants of those two types fall into one catch-all
    case each. The two operator types are fixed lists with no catch-all. */
module SqlAst {
  import opened Wrappers

  /** An unsigned 64-bit integer, the width of lengths in `DataType::Char(Option<u64>)`. */
  type u64 = x: int | 0 <= x < 0x1_0000_0000_0000_0000

  /** One part of a possibly qualified object name. Quoting is not modelled. */
  datatype Ident = Ident(value: string)

  /** A dotted object name such as `schema.table`: its parts in order. */
  datatype ObjectName = ObjectName(parts: seq<Ident>)

  /** Column types as the parser gives them. */
  datatype DataType =
    | SmallInt
    | Int
    | BigInt
    | Char(charLen: Option<u64>)
    | Varchar(varcharLen: Option<u64>)
    | Boolean
    | Real
    | Double
    | Text
    | OtherDataType(description: string)

  /** Literal values. `Number` carries the literal's decimal text, standing for the
      opaque big-decimal payload. */
  datatype Value =
    | Number(digits: string)
    | SingleQuotedString(text: string)
    | NationalStringLiteral(nationalText: string)
    | HexStringLiteral(hexText: string)
    | Boolean(flag: bool)
    | Interval(intervalText: string)
    | Null

  datatype BinaryOperator =
    | Plus | Minus | Multiply | Divide | Modulo
    | StringConcat
    | Gt | Lt | GtEq | LtEq | Eq | NotEq
    | And | Or
    | Like | NotLike
    | BitwiseOr | BitwiseAnd | BitwiseXor

  datatype UnaryOperator = UnaryPlus | UnaryMinus | Not

  /** Expressions. The static tree builder handles the first three forms; the others
      stand for the remaining forms of the parser's expression type. */
  datatype Expr =
    | Value(value: Value)
    | Identifier(ident: Ident)
    | BinaryOp(left: Expr, op: BinaryOperator, right: Expr)
    | UnaryOp(unaryOp: UnaryOperator, operand: Expr)
    | Nested(inner: Expr)
    | IsNull(tested: Expr)
    | OtherExpr(description: string)

  /** The statement an expression comes from; only its text is kept. */
  datatype Statement = Statement(text: string)
}

/** Wire-protocol type tags (cut down to the ones the core produces). */
module PgWire {
  datatype PgType = Bool | Char | VarChar | SmallInt | Integer | BigInt
}
