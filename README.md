# isomorphicdb catalog core in Dafny

This project models four parts of isomorphicdb, a PostgreSQL-compatible database
written in Rust:

- The SQL type system (`entities/types`):
  - the type families and how two families widen to a common one (`compare`);
  - the concrete SQL types and their family;
  - the numeric type tag and its inverse, and the character length;
  - converting a parser column type into an SQL type;
  - the printed type names and the wire-protocol type.
- The catalog definitions (`entities/definition`):
  - fully qualified table names and the resolution of parsed object names into
    them (a bare name lives in schema `public`, parts are lower-cased, more than
    two parts is an error);
  - schema names;
  - column and table definitions.
- The static expression builder of the query analyzer
  (`query_analyzer/src/static_tree_builder.rs`). It translates a parsed
  expression of an `INSERT ... VALUES` row into an untyped tree of constants,
  parameters `$n` and binary operations, or into an analysis error.
- The system schema planner (`data/schema_planner`). It turns a schema change
  (create or drop schemas, create or drop tables) into a system operation: a kind,
  a skip condition, and groups of catalog steps.

Files:

- `wrappers.dfy` holds `Option` and `Result`.
- `sql_ast.dfy` holds the cut-down parser AST and wire-protocol types the core
  uses.
- `untyped_tree.dfy` holds the untyped tree.
- `types.dfy`, `definition.dfy`, `static_tree_builder.dfy` and
  `schema_planner.dfy` are the four core files.

How the model relates to the code:

- The planner builds its step vectors with pushes inside loops. It is modelled as
  the method `SchemaPlanner.SchemaChangePlan`, with `for` loops over sequences.
  The method is proved equal to the specification function `SchemaPlanner.Plan`,
  and the lemmas state what that plan contains.
- The other three files are pure code and are modelled as functions and lemmas.
- Accessors that only return a field are Dafny datatype destructors: `schema`,
  `table`, `name` and `sql_type`. `TableDef::columns` is `Definition.Columns`, and
  `SchemaName::as_ref` is `Definition.AsRef`.
- The modelled files contain no session state machine, no type inference or
  coercion and no query execution, so the model has none either.
- `SqlTypeFamily::compare` parses its integer branch as
  `(self == SmallInt && other == Integer) || other == BigInt`. The model keeps
  this grouping. `Types.Compare` proves that the result is still the wider
  family, so the grouping is not a defect.

## Model

| member | source | states |
|---|---|---|
| Types.IsFloat | entities/types/src/lib.rs:73-75 | the float families are `real` and `double precision`, neither of them bool or string |
| Types.IsInt | entities/types/src/lib.rs:77-79 | no family is both integer and float, and every family that is neither is bool or string |
| Types.Compare | entities/types/src/lib.rs:40-71 | fails exactly when the families differ and are not both numeric, with the error naming both; a non-numeric family compares to itself; two numeric families give the wider one in SmallInt < Integer < BigInt < Real < Double |
| Types.CompareReflexive | entities/types/src/lib.rs:40-71 | every family compares successfully with itself, giving itself |
| Types.CompareCommutative | entities/types/src/lib.rs:40-71 | success and the resulting family do not depend on argument order |
| Types.CompareIsLeastUpperBound | entities/types/src/lib.rs:41-62 | for two numeric families the result ranks at least as high as both and is one of them |
| Types.CompareIntWithFloat | entities/types/src/lib.rs:59-62 | an integer family and a float family give the float family, in either order |
| Types.CompareAssociative | entities/types/src/lib.rs:40-62 | widening three numeric families does not depend on grouping |
| Types.Family | entities/types/src/lib.rs:105-114 | bool maps to Bool, strings to String, the three integer types to Integer, the two float types to Real; SmallInt, BigInt and Double are never a type's family |
| Types.CompareFamilies | entities/types/src/lib.rs:40-114 | the families of two types compare successfully exactly when both types are numeric or share a family |
| Types.TypeId | entities/types/src/lib.rs:148-159 | the tag is at most 7 |
| Types.FromTypeId | entities/types/src/lib.rs:161-173 | the type built from a tag has that tag; it has a character length (the given one) exactly for tags 1 and 2 |
| Types.CharsLen | entities/types/src/lib.rs:175-180 | present exactly for string types, and equal to their length |
| Types.TypeIdRoundTrip | entities/types/src/lib.rs:148-180 | rebuilding a type from its tag and, for strings, its length gives the type back |
| Types.TryFromDataType | entities/types/src/lib.rs:186-196 | succeeds exactly for smallint, int, bigint, char, varchar and boolean, with the stated SQL type each; an unsized char or varchar gets length 255; no float type is produced |
| Types.Display | entities/types/src/lib.rs:201-214 | every printed type name, `char(N)` and `varchar(N)` included, reads back through an independent parser as the type it names |
| Types.DisplayInjective | entities/types/src/lib.rs:201-214 | distinct types print differently |
| Types.ToPgType | entities/types/src/lib.rs:216-228 | bool maps to the wire bool; strings map to `Char` or `VarChar` by their kind; smallint, integer and bigint map to the wire type of the same name |
| Types.PgTypeMatchesTypeId | entities/types/src/lib.rs:216-228 | two non-float types get the same wire type exactly when they have the same type tag |
| Definition.FullTableNameFrom | entities/definition/src/lib.rs:40-45 | viewing the built name as a pair gives back the schema and table it was built from |
| Definition.AsPair | entities/definition/src/lib.rs:34-38 | the pair is the name's schema and table |
| Definition.DisplayFullTableName | entities/definition/src/lib.rs:47-51 | a name prints as the two-part dotted name `schema.table`, which splits back into its two parts when they are dot-free |
| Definition.FullTableNameTryFrom | entities/definition/src/lib.rs:53-71 | fails exactly for names of more than two parts, carrying the dotted name; one part resolves to schema `public` and the lower-cased part; two parts give both lower-cased |
| Definition.ResolvedNameDisplay | entities/definition/src/lib.rs:56-68 | a resolved one- or two-part name prints as the lower-cased dotted name it came from (with `public.` added for one part) |
| Definition.FourPartNameMessage | entities/definition/src/lib.rs:53-80 | a four-part name is refused with the message `Unable to process table name 'a.b.c.d'` |
| Definition.DisplayTableNamingError | entities/definition/src/lib.rs:76-80 | the message is the prefix `Unable to process table name '`, the name and a closing quote, so the name is read back from it |
| Definition.TableNamingErrorRecoversParts | entities/definition/src/lib.rs:57-58 | the dotted name carried by the error splits back into the parts of the name when they are dot-free |
| Definition.SchemaNameTryFrom | entities/definition/src/lib.rs:91-101 | succeeds exactly for one-part names, giving the lower-cased part; otherwise the error carries the dotted name |
| Definition.DisplaySchemaNamingError | entities/definition/src/lib.rs:111-115 | the message is the prefix `Only unqualified schema names are supported, '`, the name and a closing quote, so the name is read back from it |
| Definition.SchemaNamingErrorMessage | entities/definition/src/lib.rs:94-115 | a two-part schema name is refused with the message `Only unqualified schema names are supported, 'a.b'` |
| Definition.SchemaNameFrom | entities/definition/src/lib.rs:103-107 | the schema name reads back as the text it was built from |
| Definition.AsRef | entities/definition/src/lib.rs:85-89 | the text of a schema name rebuilds the same schema name |
| Definition.ColumnDefNew | entities/definition/src/lib.rs:125-131 | the column keeps its name, type and ordinal |
| Definition.HasName | entities/definition/src/lib.rs:141-143 | true exactly when the column's name is the given one |
| Definition.TableDefNew | entities/definition/src/lib.rs:154-160 | the table's schema and name rebuild the given full name, and its columns are the given ones |
| Definition.ColumnNames | entities/definition/src/lib.rs:166-168 | one name per column, in column order |
| Definition.HasColumn | entities/definition/src/lib.rs:170-172 | true exactly when the name is among the column names, and exactly when some column has that name |
| StaticTreeBuilder.BuildFrom | query_analyzer/src/static_tree_builder.rs:22-27 | equals the inner builder; succeeds exactly for buildable expressions, and then the tree has the expression's operator shape |
| StaticTreeBuilder.InnerBuild | query_analyzer/src/static_tree_builder.rs:29-42 | succeeds exactly when every leaf is a supported literal or a parameter identifier and every inner node is a binary operator; the tree then has the expression's shape |
| StaticTreeBuilder.Op | query_analyzer/src/static_tree_builder.rs:44-59 | succeeds exactly when both operands build, giving an operation node with the mapped operator whose left and right subtrees are the builds of the left and right operands; otherwise the error is the mapped operation as an undefined function |
| StaticTreeBuilder.BuildIdent | query_analyzer/src/static_tree_builder.rs:61-67 | succeeds exactly when the name parses as a parameter, giving that parameter's index; otherwise the column cannot be referenced |
| StaticTreeBuilder.BuildValue | query_analyzer/src/static_tree_builder.rs:69-87 | numbers, strings, booleans and null become constants with the same payload; national strings, hex strings and intervals are each reported as their own unsupported feature |
| StaticTreeBuilder.ErrorTaxonomy | query_analyzer/src/static_tree_builder.rs:29-67 | an unbuildable operator node reports its own operation as undefined, an identifier that is not a parameter is a column reference, a literal is an unsupported feature, and any other form is a syntax error on the original statement |
| StaticTreeBuilder.ItemsFollowLeaves | query_analyzer/src/static_tree_builder.rs:29-59 | the leaves of a built tree are, in order, what building each leaf of the expression on its own gives |
| StaticTreeBuilder.OperationsFollowOperators | query_analyzer/src/static_tree_builder.rs:44-56 | on success the operations of the tree are, in in-order sequence, the mapped operators of every binary operator of the expression |
| StaticTreeBuilder.ParamsComeFromIdentifiers | query_analyzer/src/static_tree_builder.rs:61-67 | a tree leaf is a parameter exactly when the expression leaf is an identifier, and its index is the one the parameter parser gives for that name |
| StaticTreeBuilder.TestExamples | query_analyzer/src/tests/insertions/expressions.rs:108-233 | `1 + 1` becomes an addition of two constants, `$1` and `$2` become parameters 0 and 1, and `col` cannot be referenced |
| SchemaPlanner.SchemaChangePlan | data/schema_planner/src/lib.rs:27-179 | the operation built step by step is the specification plan of the schema change |
| SchemaPlanner.PlanKind | data/schema_planner/src/lib.rs:46-175 | the kind is create or drop of a schema or table, following the change |
| SchemaPlanner.PlanSkipStepsIf | data/schema_planner/src/lib.rs:48-174 | creations are skipped if the object exists exactly when `if not exists` was given; drops are skipped if it does not exist exactly when `if exists` was given |
| SchemaPlanner.CreateSchemaPlan | data/schema_planner/src/lib.rs:29-55 | one group: check the schema exists, create its folder, create its record |
| SchemaPlanner.DropSchemasPlan | data/schema_planner/src/lib.rs:56-95 | one four-step group per schema, in order, each naming only its schema; cascade removes dependants and allows a non-empty folder, otherwise dependants are checked and the folder must be empty |
| SchemaPlanner.CreateTablePlan | data/schema_planner/src/lib.rs:96-139 | one group: check the schema, check the table, create its file and record, then one column record per column definition, in order |
| SchemaPlanner.DropTablesPlan | data/schema_planner/src/lib.rs:140-177 | one five-step group per table, in order: check schema, check table, remove columns, remove record, remove file |
| SchemaPlanner.DropTablesIgnoresCascade | data/schema_planner/src/lib.rs:140-144 | the plan for dropping tables does not depend on `cascade` |

## Left out

- Types.FromTypeId: requires a tag of at most 7. The source reaches `unreachable!()` (a panic) for larger tags.
- Types.ToPgType: requires a non-float type. The source reaches `unreachable!()` for `real` and `double precision`.
- Definition.FullTableNameTryFrom: requires at least one part. The source unwraps the first part, which panics on an empty name; the parser never produces one.
- Definition.FullTableNameTryFrom: lower-cases ASCII letters only. Rust's Unicode `to_lowercase` is not modelled.
- Definition.ResolvedNameDisplay: relies on lower-casing one character at a time, so lower-casing the dotted name equals lower-casing each part. Rust's Unicode `to_lowercase` depends on context (a final capital sigma), so for parts such as `ΑΣ` and `Β` the source's per-part result differs from lower-casing the whole dotted name. The lemma holds for the ASCII model only.
- Definition.SchemaNameTryFrom: lower-cases ASCII letters only, as does Definition.FullTableNameTryFrom. Both render a quoted identifier by its value, without the parser's quote characters.
- StaticTreeBuilder.InnerBuild: the syntax error carries the statement and the expression. The text of its message and the `log::warn!` call are not modelled.
- StaticTreeBuilder.BuildIdent: `parse_param_index` and `OperationMapper::binary_operation` are not part of this model. They are function parameters; `AgreesWithTests` pins them to the cases the analyzer's tests show.
- StaticTreeBuilder.BuildValue: the `BigDecimal` payload of a number is modelled as its decimal text.
- Parser AST and wire types are cut down. The variants the core handles are spelled out, and so are a few it does not handle: `Real`, `Double` and `Text` among the data types, and `UnaryOp`, `Nested` and `IsNull` among the expressions. The remaining data types fall into the catch-all `OtherDataType`, and the remaining expression forms into `OtherExpr`. The binary and unary operator types are fixed lists with no catch-all.
- Planner step and query types: the data types of `data_definition_operations` and `data_definition_execution_plan` are not part of this model. They are reconstructed from how the planner uses them.
- `SystemSchemaPlanner::new` builds a field-less value and is not modelled.
- The planner's step vectors are modelled as sequences, not growable arrays. No aliasing occurs in the source.
- The read-query executor, the connection layer and the untyped query records appear only as context and are not modelled.
