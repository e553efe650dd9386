/** The DDL planner: turns a schema change (create schema, drop schemas, create table,
    drop tables) into a system operation, an ordered list of step groups that the
    catalog runs, together with the kind of the operation and the object state under
    which its steps are skipped. */
module SchemaPlanner {
  import opened Wrappers
  import Types
  import Definition

  datatype SystemObject = Schema | Table

  datatype Kind = Create(created: SystemObject) | Drop(dropped: SystemObject)

  datatype ObjectState = Exists | NotExists

  /** Catalog records describing a schema, a table or one column of a table. */
  datatype Record =
    | Schema(schemaName: string)
    | Table(schemaName: string, tableName: string)
    | Column(schemaName: string, tableName: string, columnName: string, sqlType: Types.SqlType)

  datatype Step =
    | CheckExistence(systemObject: SystemObject, objectName: seq<string>)
    | CheckDependants(systemObject: SystemObject, objectName: seq<string>)
    | RemoveDependants(systemObject: SystemObject, objectName: seq<string>)
    | CreateFolder(name: string)
    | RemoveFolder(name: string, onlyIfEmpty: bool)
    | CreateFile(folderName: string, name: string)
    | RemoveFile(folderName: string, name: string)
    | CreateRecord(record: Record)
    | RemoveRecord(record: Record)
    | RemoveColumns(schemaName: string, tableName: string)

  datatype SystemOperation = SystemOperation(kind: Kind, skipStepsIf: Option<ObjectState>, steps: seq<seq<Step>>)

  datatype ColumnInfo = ColumnInfo(name: string, sqlType: Types.SqlType)

  datatype CreateSchemaQuery = CreateSchemaQuery(schemaName: Definition.SchemaName, ifNotExists: bool)
  datatype DropSchemasQuery = DropSchemasQuery(schemaNames: seq<Definition.SchemaName>, cascade: bool, ifExists: bool)
  datatype CreateTableQuery = CreateTableQuery(fullTableName: Definition.FullTableName, columnDefs: seq<ColumnInfo>, ifNotExists: bool)
  datatype DropTablesQuery = DropTablesQuery(fullTableNames: seq<Definition.FullTableName>, cascade: bool, ifExists: bool)

  datatype SchemaChange =
    | CreateSchema(createSchema: CreateSchemaQuery)
    | DropSchemas(dropSchemas: DropSchemasQuery)
    | CreateTable(createTable: CreateTableQuery)
    | DropTables(dropTables: DropTablesQuery)

  // Specification: the plan as a function of the change.

  function CreateSchemaSteps(schemaName: string): seq<Step> {
    [ CheckExistence(SystemObject.Schema, [schemaName]),
      CreateFolder(schemaName),
      CreateRecord(Record.Schema(schemaName)) ]
  }

  function DropSchemaSteps(schemaName: string, cascade: bool): seq<Step> {
    [ CheckExistence(SystemObject.Schema, [schemaName]),
      if cascade then RemoveDependants(SystemObject.Schema, [schemaName])
      else CheckDependants(SystemObject.Schema, [schemaName]),
      RemoveRecord(Record.Schema(schemaName)),
      RemoveFolder(schemaName, !cascade) ]
  }

  function TableHeaderSteps(n: Definition.FullTableName): seq<Step> {
    [ CheckExistence(SystemObject.Schema, [n.schema]),
      CheckExistence(SystemObject.Table, [n.schema, n.table]),
      CreateFile(n.schema, n.table),
      CreateRecord(Record.Table(n.schema, n.table)) ]
  }

  function ColumnStep(n: Definition.FullTableName, c: ColumnInfo): Step {
    CreateRecord(Record.Column(n.schema, n.table, c.name, c.sqlType))
  }

  function CreateTableSteps(n: Definition.FullTableName, columnDefs: seq<ColumnInfo>): seq<Step> {
    TableHeaderSteps(n) + seq(|columnDefs|, k requires 0 <= k < |columnDefs| => ColumnStep(n, columnDefs[k]))
  }

  function DropTableSteps(n: Definition.FullTableName): seq<Step> {
    [ CheckExistence(SystemObject.Schema, [n.schema]),
      CheckExistence(SystemObject.Table, [n.schema, n.table]),
      RemoveColumns(n.schema, n.table),
      RemoveRecord(Record.Table(n.schema, n.table)),
      RemoveFile(n.schema, n.table) ]
  }

  function SkipIf(flag: bool, state: ObjectState): Option<ObjectState> {
    if flag then Some(state) else None
  }

  function Plan(change: SchemaChange): SystemOperation {
    match change
    case CreateSchema(CreateSchemaQuery(schemaName, ifNotExists)) =>
      SystemOperation(Create(SystemObject.Schema), SkipIf(ifNotExists, Exists),
                      [CreateSchemaSteps(Definition.AsRef(schemaName))])
    case DropSchemas(DropSchemasQuery(schemaNames, cascade, ifExists)) =>
      SystemOperation(Drop(SystemObject.Schema), SkipIf(ifExists, NotExists),
                      seq(|schemaNames|, k requires 0 <= k < |schemaNames| =>
                            DropSchemaSteps(Definition.AsRef(schemaNames[k]), cascade)))
    case CreateTable(CreateTableQuery(fullTableName, columnDefs, ifNotExists)) =>
      SystemOperation(Create(SystemObject.Table), SkipIf(ifNotExists, Exists),
                      [CreateTableSteps(fullTableName, columnDefs)])
    case DropTables(DropTablesQuery(fullTableNames, _, ifExists)) =>
      SystemOperation(Drop(SystemObject.Table), SkipIf(ifExists, NotExists),
                      seq(|fullTableNames|, k requires 0 <= k < |fullTableNames| =>
                            DropTableSteps(fullTableNames[k])))
  }

  // The planner, building the groups step by step.

  method SchemaChangePlan(schemaChange: SchemaChange) returns (op: SystemOperation)
    ensures op == Plan(schemaChange)
  {
    match schemaChange {
      case CreateSchema(CreateSchemaQuery(schemaName, ifNotExists)) =>
        var steps: seq<Step> := [];
        steps := steps + [CheckExistence(SystemObject.Schema, [Definition.AsRef(schemaName)])];
        steps := steps + [CreateFolder(Definition.AsRef(schemaName))];
        steps := steps + [CreateRecord(Record.Schema(Definition.AsRef(schemaName)))];
        assert steps == CreateSchemaSteps(Definition.AsRef(schemaName));
        op := SystemOperation(Create(SystemObject.Schema),
                              if ifNotExists then Some(Exists) else None,
                              [steps]);
      case DropSchemas(DropSchemasQuery(schemaNames, cascade, ifExists)) =>
        var steps: seq<seq<Step>> := [];
        for i := 0 to |schemaNames|
          invariant |steps| == i
          invariant forall k :: 0 <= k < i ==> steps[k] == DropSchemaSteps(Definition.AsRef(schemaNames[k]), cascade)
        {
          var schemaName := Definition.AsRef(schemaNames[i]);
          var forSchema: seq<Step> := [];
          forSchema := forSchema + [CheckExistence(SystemObject.Schema, [schemaName])];
          if cascade {
            forSchema := forSchema + [RemoveDependants(SystemObject.Schema, [schemaName])];
          } else {
            forSchema := forSchema + [CheckDependants(SystemObject.Schema, [schemaName])];
          }
          forSchema := forSchema + [RemoveRecord(Record.Schema(schemaName))];
          forSchema := forSchema + [RemoveFolder(schemaName, !cascade)];
          steps := steps + [forSchema];
        }
        assert steps == Plan(schemaChange).steps;
        op := SystemOperation(Drop(SystemObject.Schema),
                              if ifExists then Some(NotExists) else None,
                              steps);
      case CreateTable(CreateTableQuery(fullTableName, columnDefs, ifNotExists)) =>
        var schema, table := fullTableName.schema, fullTableName.table;
        var steps: seq<Step> := [];
        steps := steps + [CheckExistence(SystemObject.Schema, [schema])];
        steps := steps + [CheckExistence(SystemObject.Table, [schema, table])];
        steps := steps + [CreateFile(schema, table)];
        steps := steps + [CreateRecord(Record.Table(schema, table))];
        for i := 0 to |columnDefs|
          invariant |steps| == 4 + i
          invariant steps[..4] == TableHeaderSteps(fullTableName)
          invariant forall k :: 0 <= k < i ==> steps[4 + k] == ColumnStep(fullTableName, columnDefs[k])
        {
          var ColumnInfo(name, sqlType) := columnDefs[i];
          steps := steps + [CreateRecord(Record.Column(schema, table, name, sqlType))];
        }
        assert steps == CreateTableSteps(fullTableName, columnDefs);
        op := SystemOperation(Create(SystemObject.Table),
                              if ifNotExists then Some(Exists) else None,
                              [steps]);
      case DropTables(DropTablesQuery(fullTableNames, _, ifExists)) =>
        var steps: seq<seq<Step>> := [];
        for i := 0 to |fullTableNames|
          invariant |steps| == i
          invariant forall k :: 0 <= k < i ==> steps[k] == DropTableSteps(fullTableNames[k])
        {
          var schema, table := fullTableNames[i].schema, fullTableNames[i].table;
          var forTable: seq<Step> := [];
          forTable := forTable + [CheckExistence(SystemObject.Schema, [schema])];
          forTable := forTable + [CheckExistence(SystemObject.Table, [schema, table])];
          forTable := forTable + [RemoveColumns(schema, table)];
          forTable := forTable + [RemoveRecord(Record.Table(schema, table))];
          forTable := forTable + [RemoveFile(schema, table)];
          steps := steps + [forTable];
        }
        assert steps == Plan(schemaChange).steps;
        op := SystemOperation(Drop(SystemObject.Table),
                              if ifExists then Some(NotExists) else None,
                              steps);
    }
  }

  // Properties of the plan.

  /** The names a step mentions: the object name it checks, the folder, file or
      record it touches. */
  function Mentions(s: Step): seq<string> {
    match s
    case CheckExistence(_, objectName) => objectName
    case CheckDependants(_, objectName) => objectName
    case RemoveDependants(_, objectName) => objectName
    case CreateFolder(name) => [name]
    case RemoveFolder(name, _) => [name]
    case CreateFile(folderName, name) => [folderName, name]
    case RemoveFile(folderName, name) => [folderName, name]
    case CreateRecord(record) => RecordNames(record)
    case RemoveRecord(record) => RecordNames(record)
    case RemoveColumns(schemaName, tableName) => [schemaName, tableName]
  }

  function RecordNames(r: Record): seq<string> {
    match r
    case Schema(schemaName) => [schemaName]
    case Table(schemaName, tableName) => [schemaName, tableName]
    case Column(schemaName, tableName, columnName, _) => [schemaName, tableName, columnName]
  }

  /** The kind names the change's verb and object. */
  lemma PlanKind(change: SchemaChange)
    ensures Plan(change).kind ==
            match change
            case CreateSchema(_) => Create(SystemObject.Schema)
            case DropSchemas(_) => Drop(SystemObject.Schema)
            case CreateTable(_) => Create(SystemObject.Table)
            case DropTables(_) => Drop(SystemObject.Table)
  {
  }

  /** Creations are skipped when the object exists and `if not exists` was given;
      drops are skipped when it does not exist and `if exists` was given; otherwise
      nothing is skipped. */
  lemma PlanSkipStepsIf(change: SchemaChange)
    ensures Plan(change).skipStepsIf == Some(Exists) <==>
            (change.CreateSchema? && change.createSchema.ifNotExists) ||
            (change.CreateTable? && change.createTable.ifNotExists)
    ensures Plan(change).skipStepsIf == Some(NotExists) <==>
            (change.DropSchemas? && change.dropSchemas.ifExists) ||
            (change.DropTables? && change.dropTables.ifExists)
  {
  }

  /** Creating a schema is one group: check it, create its folder, record it. */
  lemma CreateSchemaPlan(query: CreateSchemaQuery)
    ensures var groups := Plan(CreateSchema(query)).steps;
            var name := Definition.AsRef(query.schemaName);
            |groups| == 1 && |groups[0]| == 3 &&
            groups[0][0] == CheckExistence(SystemObject.Schema, [name]) &&
            groups[0][1] == CreateFolder(name) &&
            groups[0][2] == CreateRecord(Record.Schema(name))
  {
  }

  /** Dropping schemas gives one four-step group per schema, in the order given, each
      naming only its own schema; `cascade` removes dependants and lets the folder go
      even when not empty, otherwise dependants are checked and the folder must be
      empty. */
  lemma DropSchemasPlan(query: DropSchemasQuery, k: nat)
    requires k < |query.schemaNames|
    ensures var groups := Plan(DropSchemas(query)).steps;
            var name := Definition.AsRef(query.schemaNames[k]);
            |groups| == |query.schemaNames| &&
            |groups[k]| == 4 &&
            (forall j :: 0 <= j < 4 ==> Mentions(groups[k][j]) == [name]) &&
            groups[k][0] == CheckExistence(SystemObject.Schema, [name]) &&
            (groups[k][1].RemoveDependants? <==> query.cascade) &&
            (groups[k][1].CheckDependants? <==> !query.cascade) &&
            groups[k][2] == RemoveRecord(Record.Schema(name)) &&
            groups[k][3].RemoveFolder? && groups[k][3].name == name &&
            groups[k][3].onlyIfEmpty == !query.cascade
  {
    var groups := Plan(DropSchemas(query)).steps;
    assert groups[k] == DropSchemaSteps(Definition.AsRef(query.schemaNames[k]), query.cascade);
  }

  /** Creating a table is one group: check the schema, check the table, create its
      file and record, then one column record per column definition, in order. */
  lemma CreateTablePlan(query: CreateTableQuery)
    ensures var groups := Plan(CreateTable(query)).steps;
            var n := query.fullTableName;
            |groups| == 1 && |groups[0]| == 4 + |query.columnDefs| &&
            groups[0][0] == CheckExistence(SystemObject.Schema, [n.schema]) &&
            groups[0][1] == CheckExistence(SystemObject.Table, [n.schema, n.table]) &&
            groups[0][2] == CreateFile(n.schema, n.table) &&
            groups[0][3] == CreateRecord(Record.Table(n.schema, n.table)) &&
            forall k :: 0 <= k < |query.columnDefs| ==>
              groups[0][4 + k] == CreateRecord(Record.Column(n.schema, n.table,
                                                             query.columnDefs[k].name,
                                                             query.columnDefs[k].sqlType))
  {
  }

  /** Dropping tables gives one five-step group per table, in the order given. */
  lemma DropTablesPlan(query: DropTablesQuery, k: nat)
    requires k < |query.fullTableNames|
    ensures var groups := Plan(DropTables(query)).steps;
            var n := query.fullTableNames[k];
            |groups| == |query.fullTableNames| &&
            groups[k] == [ CheckExistence(SystemObject.Schema, [n.schema]),
                           CheckExistence(SystemObject.Table, [n.schema, n.table]),
                           RemoveColumns(n.schema, n.table),
                           RemoveRecord(Record.Table(n.schema, n.table)),
                           RemoveFile(n.schema, n.table) ]
  {
  }

  /** `cascade` has no effect on dropping tables. */
  lemma DropTablesIgnoresCascade(names: seq<Definition.FullTableName>, ifExists: bool)
    ensures Plan(DropTables(DropTablesQuery(names, true, ifExists)))
            == Plan(DropTables(DropTablesQuery(names, false, ifExists)))
  {
  }
}
