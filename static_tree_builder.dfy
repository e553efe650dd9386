/** Structural translation of a parsed expression into a `StaticUntypedTree`: literals
    become constants, `$n` identifiers become parameters and binary operators become
    operations; every other form is refused.

    The two collaborators the builder calls are not part of this model: the parser of
    parameter names (`parse_param_index`) and the mapping of parser operators onto
    operations (`OperationMapper::binary_operation`). They are parameters of every
    function here, and `AgreesWithTests` pins them to the examples the analyzer's tests
    show. */
module StaticTreeBuilder {
  import opened Wrappers
  import opened UntypedTree
  import SqlAst

  datatype Feature = NationalStringLiteral | HexStringLiteral | TimeInterval

  /** The errors the builder reports. A syntax error keeps the statement and the
      offending expression its message is formatted from. */
  datatype AnalysisError =
    | SyntaxError(original: SqlAst.Statement, around: SqlAst.Expr)
    | ColumnCantBeReferenced(column: string)
    | FeatureNotSupported(feature: Feature)
    | UndefinedFunction(operation: Operation)

  type AnalysisResult = Result<StaticUntypedTree, AnalysisError>

  /** The examples the analyzer's tests fix for the two collaborators. */
  predicate AgreesWithTests(parseParamIndex: string -> Option<nat>,
                            binaryOperation: SqlAst.BinaryOperator -> Operation)
  {
    && parseParamIndex("$1") == Some(0)
    && parseParamIndex("$2") == Some(1)
    && parseParamIndex("col") == None
    && binaryOperation(SqlAst.Plus) == Arithmetic(Add)
    && binaryOperation(SqlAst.Gt) == Comparison(Comparison.Gt)
    && binaryOperation(SqlAst.And) == Logical(Logical.And)
    && binaryOperation(SqlAst.BitwiseOr) == Bitwise(Bitwise.Or)
    && binaryOperation(SqlAst.StringConcat) == StringOp(Concat)
    && binaryOperation(SqlAst.Like) == PatternMatching(PatternMatching.Like)
  }

  /** Expressions the builder accepts: supported literals and parameter names at the
      leaves, binary operators inside. */
  predicate Buildable(e: SqlAst.Expr, parseParamIndex: string -> Option<nat>) {
    match e
    case Value(v) => v.Number? || v.SingleQuotedString? || v.Boolean? || v.Null?
    case Identifier(ident) => parseParamIndex(ident.value).Some?
    case BinaryOp(left, _, right) => Buildable(left, parseParamIndex) && Buildable(right, parseParamIndex)
    case _ => false
  }

  /** Binary shape of a tree: operations are nodes, everything else is a leaf. */
  datatype Shape = Leaf | Node(left: Shape, right: Shape)

  function ExprShape(e: SqlAst.Expr): Shape {
    match e
    case BinaryOp(left, _, right) => Node(ExprShape(left), ExprShape(right))
    case _ => Leaf
  }

  function TreeShape(t: StaticUntypedTree): Shape {
    match t
    case Item(_) => Leaf
    case Operation(left, _, right) => Node(TreeShape(left), TreeShape(right))
  }

  /** The maximal non-operator subexpressions, left to right. */
  function Leaves(e: SqlAst.Expr): (leaves: seq<SqlAst.Expr>)
    ensures forall i :: 0 <= i < |leaves| ==> !leaves[i].BinaryOp?
  {
    match e
    case BinaryOp(left, _, right) => Leaves(left) + Leaves(right)
    case _ => [e]
  }

  /** The leaves of a tree, left to right. */
  function Items(t: StaticUntypedTree): seq<StaticUntypedItem> {
    match t
    case Item(item) => [item]
    case Operation(left, _, right) => Items(left) + Items(right)
  }

  function BuildFrom(rootExpr: SqlAst.Expr, original: SqlAst.Statement,
                     parseParamIndex: string -> Option<nat>,
                     binaryOperation: SqlAst.BinaryOperator -> Operation): (r: AnalysisResult)
    ensures r == InnerBuild(rootExpr, original, parseParamIndex, binaryOperation)
    ensures r.Ok? <==> Buildable(rootExpr, parseParamIndex)
    ensures r.Ok? ==> TreeShape(r.value) == ExprShape(rootExpr)
  {
    InnerBuild(rootExpr, original, parseParamIndex, binaryOperation)
  }

  /** Translates an expression. It succeeds exactly on buildable expressions, and then
      the tree has the expression's binary shape. */
  function InnerBuild(rootExpr: SqlAst.Expr, original: SqlAst.Statement,
                      parseParamIndex: string -> Option<nat>,
                      binaryOperation: SqlAst.BinaryOperator -> Operation): (r: AnalysisResult)
    ensures r.Ok? <==> Buildable(rootExpr, parseParamIndex)
    ensures r.Ok? ==> TreeShape(r.value) == ExprShape(rootExpr)
    decreases rootExpr, 1
  {
    match rootExpr
    case Value(value) => BuildValue(value)
    case Identifier(ident) => BuildIdent(ident, parseParamIndex)
    case BinaryOp(left, op, right) => Op(op, left, right, original, parseParamIndex, binaryOperation)
    case _ => Err(SyntaxError(original, rootExpr))
  }

  /** A binary operator: both operands are translated; if either fails the whole
      operation is reported as undefined, whatever the operand's own error was. */
  function Op(op: SqlAst.BinaryOperator, left: SqlAst.Expr, right: SqlAst.Expr,
              original: SqlAst.Statement,
              parseParamIndex: string -> Option<nat>,
              binaryOperation: SqlAst.BinaryOperator -> Operation): (r: AnalysisResult)
    ensures r.Ok? <==> Buildable(left, parseParamIndex) && Buildable(right, parseParamIndex)
    ensures r.Ok? ==> TreeShape(r.value) == Node(ExprShape(left), ExprShape(right))
    ensures r.Ok? ==> r.value.Operation? && r.value.op == binaryOperation(op)
    ensures r.Ok? ==> r.value.left == InnerBuild(left, original, parseParamIndex, binaryOperation).value
    ensures r.Ok? ==> r.value.right == InnerBuild(right, original, parseParamIndex, binaryOperation).value
    ensures r.Err? ==> r.error == UndefinedFunction(binaryOperation(op))
    decreases SqlAst.BinaryOp(left, op, right), 0
  {
    var operation := binaryOperation(op);
    match (InnerBuild(left, original, parseParamIndex, binaryOperation),
           InnerBuild(right, original, parseParamIndex, binaryOperation))
    case (Ok(leftItem), Ok(rightItem)) => Ok(Operation(leftItem, operation, rightItem))
    case _ => Err(UndefinedFunction(operation))
  }

  /** An identifier is a parameter placeholder when the parameter parser accepts it;
      any other name would be a column, which a static expression cannot use. */
  function BuildIdent(ident: SqlAst.Ident, parseParamIndex: string -> Option<nat>): (r: AnalysisResult)
    ensures r.Ok? <==> parseParamIndex(ident.value).Some?
    ensures r.Ok? ==> r.value == Item(Param(parseParamIndex(ident.value).value))
    ensures r.Err? ==> r.error == ColumnCantBeReferenced(ident.value)
  {
    match parseParamIndex(ident.value)
    case Some(index) => Ok(Item(Param(index)))
    case None => Err(ColumnCantBeReferenced(ident.value))
  }

  /** Supported literals become constants with the same payload; national strings,
      hex strings and intervals are unsupported features. */
  function BuildValue(value: SqlAst.Value): (r: AnalysisResult)
    ensures r.Ok? <==> value.Number? || value.SingleQuotedString? || value.Boolean? || value.Null?
    ensures value.Number? ==> r == Ok(Item(Const(Number(value.digits))))
    ensures value.SingleQuotedString? ==> r == Ok(Item(Const(String(value.text))))
    ensures value.Boolean? ==> r == Ok(Item(Const(Bool(value.flag))))
    ensures value.Null? ==> r == Ok(Item(Const(Null)))
    ensures value.NationalStringLiteral? ==> r == Err(FeatureNotSupported(NationalStringLiteral))
    ensures value.HexStringLiteral? ==> r == Err(FeatureNotSupported(HexStringLiteral))
    ensures value.Interval? ==> r == Err(FeatureNotSupported(TimeInterval))
  {
    match value
    case Number(num) => Ok(Item(Const(Number(num))))
    case SingleQuotedString(text) => Ok(Item(Const(String(text))))
    case NationalStringLiteral(_) => Err(FeatureNotSupported(NationalStringLiteral))
    case HexStringLiteral(_) => Err(FeatureNotSupported(HexStringLiteral))
    case Boolean(boolean) => Ok(Item(Const(Bool(boolean))))
    case Interval(_) => Err(FeatureNotSupported(TimeInterval))
    case Null => Ok(Item(Const(Null)))
  }

  /** The error is decided by the outermost expression form: an operator reports its
      own operation as undefined, a leaf reports its own problem, and any other form is
      a syntax error. */
  lemma ErrorTaxonomy(e: SqlAst.Expr, original: SqlAst.Statement,
                      parseParamIndex: string -> Option<nat>,
                      binaryOperation: SqlAst.BinaryOperator -> Operation)
    requires !Buildable(e, parseParamIndex)
    ensures var r := InnerBuild(e, original, parseParamIndex, binaryOperation);
            r.Err? &&
            match e
            case BinaryOp(_, op, _) => r.error == UndefinedFunction(binaryOperation(op))
            case Identifier(ident) => r.error == ColumnCantBeReferenced(ident.value)
            case Value(v) => r.error.FeatureNotSupported?
            case _ => r.error == SyntaxError(original, e)
  {
  }

  /** On success the tree's leaves are, in order, what translating each leaf of the
      expression on its own gives. */
  lemma {:induction false} ItemsFollowLeaves(e: SqlAst.Expr, original: SqlAst.Statement,
                                             parseParamIndex: string -> Option<nat>,
                                             binaryOperation: SqlAst.BinaryOperator -> Operation)
    requires Buildable(e, parseParamIndex)
    ensures var t := InnerBuild(e, original, parseParamIndex, binaryOperation).value;
            |Items(t)| == |Leaves(e)| &&
            forall i :: 0 <= i < |Leaves(e)| ==>
              InnerBuild(Leaves(e)[i], original, parseParamIndex, binaryOperation) == Ok(Item(Items(t)[i]))
  {
    match e
    case BinaryOp(left, op, right) =>
      ItemsFollowLeaves(left, original, parseParamIndex, binaryOperation);
      ItemsFollowLeaves(right, original, parseParamIndex, binaryOperation);
      var t := InnerBuild(e, original, parseParamIndex, binaryOperation).value;
      var lt := InnerBuild(left, original, parseParamIndex, binaryOperation).value;
      var rt := InnerBuild(right, original, parseParamIndex, binaryOperation).value;
      assert InnerBuild(e, original, parseParamIndex, binaryOperation)
             == Op(op, left, right, original, parseParamIndex, binaryOperation);
      assert t == Operation(lt, binaryOperation(op), rt);
      assert Items(t) == Items(lt) + Items(rt);
      assert Leaves(e) == Leaves(left) + Leaves(right);
      forall i | 0 <= i < |Leaves(e)|
        ensures InnerBuild(Leaves(e)[i], original, parseParamIndex, binaryOperation) == Ok(Item(Items(t)[i]))
      {
        if i < |Leaves(left)| {
          assert Leaves(e)[i] == Leaves(left)[i] && Items(t)[i] == Items(lt)[i];
        } else {
          var k := i - |Leaves(left)|;
          assert Leaves(e)[i] == Leaves(right)[k] && Items(t)[i] == Items(rt)[k];
        }
      }
    case Value(_) =>
      assert InnerBuild(e, original, parseParamIndex, binaryOperation).value.Item?;
    case Identifier(_) =>
      assert InnerBuild(e, original, parseParamIndex, binaryOperation).value.Item?;
    case _ =>
  }

  /** The binary operators of an expression, left to right in an in-order walk. */
  function ExprOperators(e: SqlAst.Expr): seq<SqlAst.BinaryOperator> {
    match e
    case BinaryOp(left, op, right) => ExprOperators(left) + [op] + ExprOperators(right)
    case _ => []
  }

  /** The operations of a tree, left to right in an in-order walk. */
  function TreeOperations(t: StaticUntypedTree): seq<Operation> {
    match t
    case Item(_) => []
    case Operation(left, op, right) => TreeOperations(left) + [op] + TreeOperations(right)
  }

  /** On success every operator of the expression, not only the outermost one, becomes
      its mapped operation, in the same order. */
  lemma {:induction false} OperationsFollowOperators(e: SqlAst.Expr, original: SqlAst.Statement,
                                                     parseParamIndex: string -> Option<nat>,
                                                     binaryOperation: SqlAst.BinaryOperator -> Operation)
    requires Buildable(e, parseParamIndex)
    ensures var t := InnerBuild(e, original, parseParamIndex, binaryOperation).value;
            |TreeOperations(t)| == |ExprOperators(e)| &&
            forall i :: 0 <= i < |ExprOperators(e)| ==>
              TreeOperations(t)[i] == binaryOperation(ExprOperators(e)[i])
  {
    match e
    case BinaryOp(left, op, right) =>
      OperationsFollowOperators(left, original, parseParamIndex, binaryOperation);
      OperationsFollowOperators(right, original, parseParamIndex, binaryOperation);
      var t := InnerBuild(e, original, parseParamIndex, binaryOperation).value;
      var lt := InnerBuild(left, original, parseParamIndex, binaryOperation).value;
      var rt := InnerBuild(right, original, parseParamIndex, binaryOperation).value;
      assert InnerBuild(e, original, parseParamIndex, binaryOperation)
             == Op(op, left, right, original, parseParamIndex, binaryOperation);
      assert TreeOperations(t) == TreeOperations(lt) + [binaryOperation(op)] + TreeOperations(rt);
      forall i | 0 <= i < |ExprOperators(e)|
        ensures TreeOperations(t)[i] == binaryOperation(ExprOperators(e)[i])
      {
        var nl := |ExprOperators(left)|;
        if i < nl {
          assert ExprOperators(e)[i] == ExprOperators(left)[i] && TreeOperations(t)[i] == TreeOperations(lt)[i];
        } else if i > nl {
          var k := i - nl - 1;
          assert ExprOperators(e)[i] == ExprOperators(right)[k] && TreeOperations(t)[i] == TreeOperations(rt)[k];
        }
      }
    case _ =>
  }

  /** The parameters of the tree are exactly the indices the parameter parser gives
      for the identifiers of the expression. */
  lemma ParamsComeFromIdentifiers(e: SqlAst.Expr, original: SqlAst.Statement,
                                  parseParamIndex: string -> Option<nat>,
                                  binaryOperation: SqlAst.BinaryOperator -> Operation,
                                  i: nat)
    requires Buildable(e, parseParamIndex)
    requires i < |Leaves(e)|
    ensures var t := InnerBuild(e, original, parseParamIndex, binaryOperation).value;
            i < |Items(t)| &&
            (Items(t)[i].Param? <==> Leaves(e)[i].Identifier?) &&
            (Items(t)[i].Param? ==> Some(Items(t)[i].index) == parseParamIndex(Leaves(e)[i].ident.value))
  {
    ItemsFollowLeaves(e, original, parseParamIndex, binaryOperation);
  }

  /** The examples of the analyzer's tests: `1 + 1`, `$1`, `$2`, and the column
      reference `col`. */
  lemma TestExamples(original: SqlAst.Statement,
                     parseParamIndex: string -> Option<nat>,
                     binaryOperation: SqlAst.BinaryOperator -> Operation)
    requires AgreesWithTests(parseParamIndex, binaryOperation)
    ensures InnerBuild(SqlAst.BinaryOp(SqlAst.Value(SqlAst.Number("1")), SqlAst.Plus, SqlAst.Value(SqlAst.Number("1"))),
                       original, parseParamIndex, binaryOperation)
            == Ok(Operation(Item(Const(Number("1"))), Arithmetic(Add), Item(Const(Number("1")))))
    ensures InnerBuild(SqlAst.Identifier(SqlAst.Ident("$1")), original, parseParamIndex, binaryOperation)
            == Ok(Item(Param(0)))
    ensures InnerBuild(SqlAst.Identifier(SqlAst.Ident("$2")), original, parseParamIndex, binaryOperation)
            == Ok(Item(Param(1)))
    ensures InnerBuild(SqlAst.Identifier(SqlAst.Ident("col")), original, parseParamIndex, binaryOperation)
            == Err(ColumnCantBeReferenced("col"))
  {
  }
}
