/** Names of schemas and tables, and the column/table definitions the catalog keeps. */
module Definition {
  import opened Wrappers
  import Types
  import SqlAst

  /** A table name qualified by its schema. */
  datatype FullTableName = FullTableName(schema: string, table: string)

  /** `FullTableName::from((schema, table))`: both parts kept verbatim. */
  function FullTableNameFrom(schema: string, table: string): (n: FullTableName)
    ensures AsPair(n) == (schema, table)
  {
    FullTableName(schema, table)
  }

  /** The `(schema, table)` view of a name. */
  function AsPair(n: FullTableName): (p: (string, string))
    ensures p.0 == n.schema && p.1 == n.table
  {
    (n.schema, n.table)
  }

  /** ASCII lower-casing of one character. */
  function LowerChar(c: char): char {
    if 'A' <= c <= 'Z' then (c as int - 'A' as int + 'a' as int) as char else c
  }

  function ToLower(s: string): (r: string)
    ensures |r| == |s|
    ensures forall i :: 0 <= i < |s| ==> r[i] == LowerChar(s[i])
  {
    if |s| == 0 then [] else [LowerChar(s[0])] + ToLower(s[1..])
  }

  /** The parts of a dotted name joined by `.`, as the parser renders an object name. */
  function JoinDots(parts: seq<string>): string {
    if |parts| == 0 then ""
    else if |parts| == 1 then parts[0]
    else parts[0] + "." + JoinDots(parts[1..])
  }

  function PartValues(name: SqlAst.ObjectName): (vs: seq<string>)
    ensures |vs| == |name.parts|
    ensures forall i :: 0 <= i < |vs| ==> vs[i] == name.parts[i].value
  {
    seq(|name.parts|, i requires 0 <= i < |name.parts| => name.parts[i].value)
  }

  function ObjectNameToString(name: SqlAst.ObjectName): string {
    JoinDots(PartValues(name))
  }

  /** Index of the first `.` in `s`, or `|s|` when there is none. */
  function IndexOfDot(s: string): (i: nat)
    ensures i <= |s|
    ensures i < |s| ==> s[i] == '.'
    ensures forall j :: 0 <= j < i ==> s[j] != '.'
  {
    if |s| == 0 then 0 else if s[0] == '.' then 0 else 1 + IndexOfDot(s[1..])
  }

  /** Splits a string at every `.`, the inverse of `JoinDots` on dot-free parts. */
  function SplitDots(s: string): (parts: seq<string>)
    ensures |parts| > 0
    decreases |s|
  {
    var i := IndexOfDot(s);
    if i == |s| then [s] else [s[..i]] + SplitDots(s[i + 1..])
  }

  predicate DotFree(s: string) {
    forall i :: 0 <= i < |s| ==> s[i] != '.'
  }

  lemma FirstDotAfter(a: string, b: string)
    requires DotFree(a)
    ensures IndexOfDot(a + "." + b) == |a|
    ensures (a + "." + b)[..|a|] == a && (a + "." + b)[|a| + 1..] == b
  {
    var s := a + "." + b;
    assert s[|a|] == '.';
    assert forall j :: 0 <= j < |a| ==> s[j] == a[j];
  }

  /** A dotted name made of dot-free parts splits back into those parts. */
  lemma {:induction false} SplitJoinRoundTrip(parts: seq<string>)
    requires |parts| > 0
    requires forall i :: 0 <= i < |parts| ==> DotFree(parts[i])
    ensures SplitDots(JoinDots(parts)) == parts
    decreases |parts|
  {
    if |parts| == 1 {
      assert IndexOfDot(parts[0]) == |parts[0]|;
    } else {
      var rest := JoinDots(parts[1..]);
      FirstDotAfter(parts[0], rest);
      SplitJoinRoundTrip(parts[1..]);
      assert parts == [parts[0]] + parts[1..];
    }
  }

  /** The rendering `schema.table` is the two-part dotted name, and for dot-free parts
      it splits back into the name. */
  function DisplayFullTableName(n: FullTableName): (s: string)
    ensures s == JoinDots([n.schema, n.table])
    ensures DotFree(n.schema) && DotFree(n.table) ==> SplitDots(s) == [n.schema, n.table]
  {
    var parts := [n.schema, n.table];
    var s := n.schema + "." + n.table;
    assert parts[1..] == [n.table];
    if DotFree(n.schema) && DotFree(n.table) then SplitJoinRoundTrip(parts); s else s
  }

  /** The error carries the full dotted name it could not resolve. */
  datatype TableNamingError = TableNamingError(name: string)

  const TableNamingPrefix: string := "Unable to process table name '"

  /** The message is a fixed prefix, then the name, then a closing quote, so the name
      can be read back from it. */
  function DisplayTableNamingError(e: TableNamingError): (s: string)
    ensures |s| == |TableNamingPrefix| + |e.name| + 1
    ensures s[..|TableNamingPrefix|] == TableNamingPrefix
    ensures s[|TableNamingPrefix|..|s| - 1] == e.name
    ensures s[|s| - 1] == '\''
  {
    TableNamingPrefix + e.name + "'"
  }

  /** Resolves a one- or two-part object name: a bare table lives in schema `public`,
      both parts are lower-cased, and a name of more than two parts is refused. A name
      without parts has no first part, which the source does not handle. */
  function FullTableNameTryFrom(objectName: SqlAst.ObjectName): (r: Result<FullTableName, TableNamingError>)
    requires |objectName.parts| >= 1
    ensures r.Err? <==> |objectName.parts| > 2
    ensures r.Err? ==> r.error == TableNamingError(JoinDots(PartValues(objectName)))
    ensures |objectName.parts| == 1 ==>
              r == Ok(FullTableName("public", ToLower(objectName.parts[0].value)))
    ensures |objectName.parts| == 2 ==>
              r == Ok(FullTableName(ToLower(objectName.parts[0].value), ToLower(objectName.parts[1].value)))
  {
    if |objectName.parts| > 2 then
      Err(TableNamingError(ObjectNameToString(objectName)))
    else
      var names :=
        if |objectName.parts| == 1 then
          ("public", ToLower(objectName.parts[0].value))
        else
          (ToLower(objectName.parts[0].value), ToLower(objectName.parts[|objectName.parts| - 1].value));
      Ok(FullTableName(names.0, names.1))
  }

  /** A resolved name renders back as the dotted object name it came from, once the
      schema `public` is supplied for a bare table and the parts are lower-cased. */
  lemma ResolvedNameDisplay(objectName: SqlAst.ObjectName)
    requires 1 <= |objectName.parts| <= 2
    ensures FullTableNameTryFrom(objectName).Ok?
    ensures |objectName.parts| == 1 ==>
              DisplayFullTableName(FullTableNameTryFrom(objectName).value)
              == "public." + ToLower(ObjectNameToString(objectName))
    ensures |objectName.parts| == 2 ==>
              DisplayFullTableName(FullTableNameTryFrom(objectName).value)
              == ToLower(ObjectNameToString(objectName))
  {
    var vs := PartValues(objectName);
    if |objectName.parts| == 2 {
      assert vs[1..] == [vs[1]];
      ToLowerAppend(vs[0] + ".", vs[1]);
      ToLowerAppend(vs[0], ".");
      assert ToLower(".") == ".";
      assert JoinDots(vs[1..]) == vs[1];
      assert JoinDots(vs) == vs[0] + "." + JoinDots(vs[1..]);
      assert ObjectNameToString(objectName) == vs[0] + "." + vs[1];
      assert ToLower(vs[0] + "." + vs[1]) == ToLower(vs[0]) + "." + ToLower(vs[1]);
    }
  }

  lemma {:induction false} ToLowerAppend(a: string, b: string)
    ensures ToLower(a + b) == ToLower(a) + ToLower(b)
  {
    var l := ToLower(a + b);
    var r := ToLower(a) + ToLower(b);
    assert |l| == |r|;
    forall i | 0 <= i < |l| ensures l[i] == r[i] {
      if i < |a| {
        assert (a + b)[i] == a[i];
      } else {
        assert (a + b)[i] == b[i - |a|];
      }
    }
  }

  /** The message of a refused four-part name, as the analyzer reports it for
      `first_part.second_part.third_part.fourth_part`. */
  lemma FourPartNameMessage(a: string, b: string, c: string, d: string)
    ensures var r := FullTableNameTryFrom(SqlAst.ObjectName([SqlAst.Ident(a), SqlAst.Ident(b), SqlAst.Ident(c), SqlAst.Ident(d)]));
            r.Err? &&
            DisplayTableNamingError(r.error)
            == "Unable to process table name '" + a + "." + b + "." + c + "." + d + "'"
  {
    var objectName := SqlAst.ObjectName([SqlAst.Ident(a), SqlAst.Ident(b), SqlAst.Ident(c), SqlAst.Ident(d)]);
    var vs := PartValues(objectName);
    assert vs == [a, b, c, d];
    assert vs[1..] == [b, c, d] && vs[1..][1..] == [c, d] && vs[1..][1..][1..] == [d];
    assert JoinDots([d]) == d;
    assert JoinDots([c, d]) == c + "." + JoinDots([d]);
    assert JoinDots([b, c, d]) == b + "." + JoinDots([c, d]);
    assert JoinDots(vs) == a + "." + JoinDots([b, c, d]);
  }

  /** A refused name's message quotes the full name, and the name splits back into the
      parts the user wrote when those parts are dot-free. */
  lemma TableNamingErrorRecoversParts(objectName: SqlAst.ObjectName)
    requires |objectName.parts| > 2
    requires forall i :: 0 <= i < |objectName.parts| ==> DotFree(objectName.parts[i].value)
    ensures FullTableNameTryFrom(objectName).Err?
    ensures SplitDots(FullTableNameTryFrom(objectName).error.name) == PartValues(objectName)
  {
    SplitJoinRoundTrip(PartValues(objectName));
  }

  datatype SchemaName = SchemaName(name: string)

  /** `SchemaName::from`: the given text, verbatim. */
  function SchemaNameFrom(name: string): (s: SchemaName)
    ensures AsRef(s) == name
  {
    SchemaName(name)
  }

  /** The text of a schema name, from which the same name is rebuilt. */
  function AsRef(s: SchemaName): (r: string)
    ensures SchemaName(r) == s
  {
    s.name
  }

  datatype SchemaNamingError = SchemaNamingError(name: string)

  const SchemaNamingPrefix: string := "Only unqualified schema names are supported, '"

  /** The message is a fixed prefix, then the name, then a closing quote, so the name
      can be read back from it. */
  function DisplaySchemaNamingError(e: SchemaNamingError): (s: string)
    ensures |s| == |SchemaNamingPrefix| + |e.name| + 1
    ensures s[..|SchemaNamingPrefix|] == SchemaNamingPrefix
    ensures s[|SchemaNamingPrefix|..|s| - 1] == e.name
    ensures s[|s| - 1] == '\''
  {
    SchemaNamingPrefix + e.name + "'"
  }

  /** Only a one-part name is a schema name; it is lower-cased. */
  function SchemaNameTryFrom(objectName: SqlAst.ObjectName): (r: Result<SchemaName, SchemaNamingError>)
    ensures r.Ok? <==> |objectName.parts| == 1
    ensures r.Ok? ==> AsRef(r.value) == ToLower(objectName.parts[0].value)
    ensures r.Err? ==> r.error == SchemaNamingError(JoinDots(PartValues(objectName)))
  {
    if |objectName.parts| != 1 then
      Err(SchemaNamingError(ObjectNameToString(objectName)))
    else
      Ok(SchemaName(ToLower(ObjectNameToString(objectName))))
  }

  /** A refused schema name's message quotes the dotted name. */
  lemma SchemaNamingErrorMessage(a: string, b: string)
    ensures var r := SchemaNameTryFrom(SqlAst.ObjectName([SqlAst.Ident(a), SqlAst.Ident(b)]));
            r.Err? &&
            DisplaySchemaNamingError(r.error) == "Only unqualified schema names are supported, '" + a + "." + b + "'"
  {
    var vs := PartValues(SqlAst.ObjectName([SqlAst.Ident(a), SqlAst.Ident(b)]));
    assert vs == [a, b] && vs[1..] == [b];
    assert JoinDots(vs) == a + "." + JoinDots([b]);
  }

  /** A column: its name, its type and its position in the table. */
  datatype ColumnDef = ColumnDef(name: string, sqlType: Types.SqlType, ordNum: nat)

  function ColumnDefNew(name: string, sqlType: Types.SqlType, ordNum: nat): (c: ColumnDef)
    ensures c.name == name && c.sqlType == sqlType && c.ordNum == ordNum
  {
    ColumnDef(name, sqlType, ordNum)
  }

  function HasName(c: ColumnDef, name: string): (b: bool)
    ensures b <==> c.name == name
  {
    c.name == name
  }

  datatype TableDef = TableDef(schema: string, name: string, columns: seq<ColumnDef>)

  function TableDefNew(fullTableName: FullTableName, columns: seq<ColumnDef>): (t: TableDef)
    ensures FullTableNameFrom(t.schema, t.name) == fullTableName
    ensures Columns(t) == columns
  {
    TableDef(fullTableName.schema, fullTableName.table, columns)
  }

  function Columns(t: TableDef): seq<ColumnDef> {
    t.columns
  }

  function NamesOf(columns: seq<ColumnDef>): (names: seq<string>)
    ensures |names| == |columns|
    ensures forall i :: 0 <= i < |columns| ==> names[i] == columns[i].name
  {
    if |columns| == 0 then [] else [columns[0].name] + NamesOf(columns[1..])
  }

  /** The names of the columns, in column order. */
  function ColumnNames(t: TableDef): (names: seq<string>)
    ensures |names| == |t.columns|
    ensures forall i :: 0 <= i < |t.columns| ==> names[i] == t.columns[i].name
  {
    NamesOf(t.columns)
  }

  function AnyNamed(columns: seq<ColumnDef>, name: string): bool {
    |columns| > 0 && (HasName(columns[0], name) || AnyNamed(columns[1..], name))
  }

  lemma {:induction false} AnyNamedIffListed(columns: seq<ColumnDef>, name: string)
    ensures AnyNamed(columns, name) <==> name in NamesOf(columns)
  {
    if |columns| > 0 {
      AnyNamedIffListed(columns[1..], name);
      assert NamesOf(columns) == [columns[0].name] + NamesOf(columns[1..]);
    }
  }

  /** Some column has the given name exactly when the name is among `ColumnNames`. */
  function HasColumn(t: TableDef, name: string): (b: bool)
    ensures b <==> name in ColumnNames(t)
    ensures b <==> exists i :: 0 <= i < |t.columns| && t.columns[i].name == name
  {
    AnyNamedIffListed(t.columns, name);
    AnyNamed(t.columns, name)
  }
}
