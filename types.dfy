/** SQL types and type families: the least-upper-bound rule over numeric families,
    the family of each type, the numeric tag encoding of types, conversion from the
    parser's column types, the textual name of a type and its wire-protocol tag. */
module Types {
  import opened Wrappers
  import SqlAst
  import PgWire

  type u64 = SqlAst.u64

  /** Families group types that can be compared or combined. */
  datatype SqlTypeFamily = Bool | String | SmallInt | Integer | BigInt | Real | Double

  datatype IncomparableSqlTypeFamilies = IncomparableSqlTypeFamilies(left: SqlTypeFamily, right: SqlTypeFamily)

  /** The floating families, `real` and `double precision`. */
  predicate IsFloat(f: SqlTypeFamily): (b: bool)
    ensures b ==> f != SqlTypeFamily.Bool && f != SqlTypeFamily.String
  {
    f == SqlTypeFamily.Real || f == SqlTypeFamily.Double
  }

  /** The integer families; no family is both an integer and a float one, and every
      family other than bool and string is one of the two. */
  predicate IsInt(f: SqlTypeFamily): (b: bool)
    ensures b ==> !IsFloat(f)
    ensures !b && !IsFloat(f) ==> f == SqlTypeFamily.Bool || f == SqlTypeFamily.String
  {
    f == SqlTypeFamily.SmallInt || f == SqlTypeFamily.Integer || f == SqlTypeFamily.BigInt
  }

  predicate IsNumeric(f: SqlTypeFamily) {
    IsInt(f) || IsFloat(f)
  }

  /** Position of a numeric family in the widening chain
      SmallInt < Integer < BigInt < Real < Double. */
  function Rank(f: SqlTypeFamily): nat
    requires IsNumeric(f)
  {
    match f
    case SmallInt => 0
    case Integer => 1
    case BigInt => 2
    case Real => 3
    case Double => 4
  }

  /** The wider of two numeric families, an independent reference for `Compare`. */
  function Wider(a: SqlTypeFamily, b: SqlTypeFamily): (w: SqlTypeFamily)
    requires IsNumeric(a) && IsNumeric(b)
  {
    if Rank(a) >= Rank(b) then a else b
  }

  /** The family both arguments widen to, or an error naming them when they are
      different and not both numeric. */
  function Compare(self: SqlTypeFamily, other: SqlTypeFamily): (r: Result<SqlTypeFamily, IncomparableSqlTypeFamilies>)
    ensures r.Err? <==> self != other && !(IsNumeric(self) && IsNumeric(other))
    ensures r.Err? ==> r.error == IncomparableSqlTypeFamilies(self, other)
    ensures r.Ok? && !IsNumeric(self) ==> r.value == self
    ensures r.Ok? && IsNumeric(self) ==> IsNumeric(other) && r.value == Wider(self, other)
  {
    if IsFloat(self) && IsFloat(other) then
      if self == other then Ok(self)
      else if self == SqlTypeFamily.Real && other == SqlTypeFamily.Double then Ok(other)
      else Ok(self)
    else if IsInt(self) && IsInt(other) then
      if self == other then Ok(self)
      else if (self == SqlTypeFamily.SmallInt && other == SqlTypeFamily.Integer) || other == SqlTypeFamily.BigInt then Ok(other)
      else Ok(self)
    else if IsFloat(self) && IsInt(other) then Ok(self)
    else if IsInt(self) && IsFloat(other) then Ok(other)
    else if self != other then Err(IncomparableSqlTypeFamilies(self, other))
    else Ok(self)
  }

  lemma CompareReflexive(f: SqlTypeFamily)
    ensures Compare(f, f) == Ok(f)
  {
  }

  /** Success, failure and the widened family do not depend on argument order. */
  lemma CompareCommutative(a: SqlTypeFamily, b: SqlTypeFamily)
    ensures Compare(a, b).Ok? <==> Compare(b, a).Ok?
    ensures Compare(a, b).Ok? ==> Compare(a, b).value == Compare(b, a).value
  {
  }

  /** The result is an upper bound of both arguments, and the least one: it is one of
      the two arguments. */
  lemma CompareIsLeastUpperBound(a: SqlTypeFamily, b: SqlTypeFamily)
    requires IsNumeric(a) && IsNumeric(b)
    ensures Compare(a, b).Ok?
    ensures Rank(a) <= Rank(Compare(a, b).value) && Rank(b) <= Rank(Compare(a, b).value)
    ensures Compare(a, b).value == a || Compare(a, b).value == b
  {
  }

  /** An integer family and a float family widen to the float one, in either order. */
  lemma CompareIntWithFloat(i: SqlTypeFamily, f: SqlTypeFamily)
    requires IsInt(i) && IsFloat(f)
    ensures Compare(i, f) == Ok(f) && Compare(f, i) == Ok(f)
  {
  }

  /** Widening three numeric families does not depend on grouping. */
  lemma CompareAssociative(a: SqlTypeFamily, b: SqlTypeFamily, c: SqlTypeFamily)
    requires IsNumeric(a) && IsNumeric(b) && IsNumeric(c)
    ensures Compare(a, b).Ok? && Compare(b, c).Ok?
    ensures Compare(Compare(a, b).value, c) == Compare(a, Compare(b, c).value)
  {
  }

  datatype Num = SmallInt | Integer | BigInt | Real | Double

  /** Fixed-length (`char`) or variable-length (`varchar`) strings. */
  datatype StrKind = Const | Var

  datatype SqlType =
    | Bool
    | Str(len: u64, kind: StrKind)
    | Num(num: Num)

  function Family(t: SqlType): (f: SqlTypeFamily)
    ensures t.Bool? <==> f == SqlTypeFamily.Bool
    ensures t.Str? <==> f == SqlTypeFamily.String
    ensures t.Num? && t.num in {Num.SmallInt, Num.Integer, Num.BigInt} <==> f == SqlTypeFamily.Integer
    ensures t.Num? && t.num in {Num.Real, Num.Double} <==> f == SqlTypeFamily.Real
    ensures f !in {SqlTypeFamily.SmallInt, SqlTypeFamily.BigInt, SqlTypeFamily.Double}
  {
    match t
    case Bool => SqlTypeFamily.Bool
    case Str(_, _) => SqlTypeFamily.String
    case Num(SmallInt) | Num(Integer) | Num(BigInt) => SqlTypeFamily.Integer
    case Num(Real) | Num(Double) => SqlTypeFamily.Real
  }

  /** The families of two types compare successfully exactly when both are numeric or
      they share a family. */
  lemma CompareFamilies(a: SqlType, b: SqlType)
    ensures Compare(Family(a), Family(b)).Ok? <==> (a.Num? && b.Num?) || Family(a) == Family(b)
  {
  }

  function TypeId(t: SqlType): (id: u64)
    ensures id <= 7
  {
    match t
    case Bool => 0
    case Str(_, Const) => 1
    case Str(_, Var) => 2
    case Num(SmallInt) => 3
    case Num(Integer) => 4
    case Num(BigInt) => 5
    case Num(Real) => 6
    case Num(Double) => 7
  }

  /** Decodes a tag; `charsLen` is used only for the two string tags. A tag above 7
      is unreachable in the source. */
  function FromTypeId(typeId: u64, charsLen: u64): (t: SqlType)
    requires typeId <= 7
    ensures TypeId(t) == typeId
    ensures (typeId == 1 || typeId == 2) <==> CharsLen(t) == Some(charsLen)
    ensures !(typeId == 1 || typeId == 2) ==> CharsLen(t) == None
  {
    match typeId
    case 0 => SqlType.Bool
    case 1 => Str(charsLen, Const)
    case 2 => Str(charsLen, Var)
    case 3 => Num(Num.SmallInt)
    case 4 => Num(Num.Integer)
    case 5 => Num(Num.BigInt)
    case 6 => Num(Num.Real)
    case 7 => Num(Num.Double)
  }

  function CharsLen(t: SqlType): (r: Option<u64>)
    ensures r.Some? <==> t.Str?
    ensures r.Some? ==> r.value == t.len
  {
    match t
    case Str(len, _) => Some(len)
    case _ => None
  }

  /** Encoding a type as its tag and its length decodes back to the same type; the
      length argument is ignored for non-string types. */
  lemma TypeIdRoundTrip(t: SqlType, charsLen: u64)
    ensures CharsLen(t).None? ==> FromTypeId(TypeId(t), charsLen) == t
    ensures CharsLen(t).Some? ==> FromTypeId(TypeId(t), CharsLen(t).value) == t
  {
  }

  /** The parser's column type as an SQL type; unsized `char`/`varchar` get length 255. */
  function TryFromDataType(d: SqlAst.DataType): (r: Result<SqlType, NotSupportedType>)
    ensures r.Ok? <==> d.SmallInt? || d.Int? || d.BigInt? || d.Char? || d.Varchar? || d.Boolean?
    ensures d.SmallInt? ==> r == Ok(Num(Num.SmallInt))
    ensures d.Int? ==> r == Ok(Num(Num.Integer))
    ensures d.BigInt? ==> r == Ok(Num(Num.BigInt))
    ensures d.Boolean? ==> r == Ok(SqlType.Bool)
    ensures d.Char? ==> r == Ok(Str(if d.charLen.Some? then d.charLen.value else 255, Const))
    ensures d.Varchar? ==> r == Ok(Str(if d.varcharLen.Some? then d.varcharLen.value else 255, Var))
    ensures r.Ok? ==> Family(r.value) != SqlTypeFamily.Real
  {
    match d
    case SmallInt => Ok(Num(Num.SmallInt))
    case Int => Ok(Num(Num.Integer))
    case BigInt => Ok(Num(Num.BigInt))
    case Char(len) => Ok(Str(UnwrapOr(len, 255), Const))
    case Varchar(len) => Ok(Str(UnwrapOr(len, 255), Var))
    case Boolean => Ok(SqlType.Bool)
    case _ => Err(NotSupportedType)
  }

  function UnwrapOr(o: Option<u64>, default: u64): u64 {
    match o
    case Some(v) => v
    case None => default
  }

  datatype NotSupportedType = NotSupportedType

  /** The decimal digits of `n`, most significant first. */
  function DecimalDigits(n: nat): (s: string)
    ensures |s| > 0
    ensures s[0] != '0' || n == 0
    ensures forall i :: 0 <= i < |s| ==> '0' <= s[i] <= '9'
    decreases n
  {
    if n < 10 then [DigitChar(n)] else DecimalDigits(n / 10) + [DigitChar(n % 10)]
  }

  function DigitChar(d: nat): char
    requires d < 10
  {
    ['0', '1', '2', '3', '4', '5', '6', '7', '8', '9'][d]
  }

  /** The number a string of decimal digits denotes. */
  function DecimalValue(s: string): nat
    requires forall i :: 0 <= i < |s| ==> '0' <= s[i] <= '9'
  {
    if |s| == 0 then 0
    else DecimalValue(s[..|s| - 1]) * 10 + ((s[|s| - 1] as int) - ('0' as int))
  }

  lemma {:induction false} DecimalRoundTrip(n: nat)
    ensures DecimalValue(DecimalDigits(n)) == n
    decreases n
  {
    var s := DecimalDigits(n);
    if n >= 10 {
      DecimalRoundTrip(n / 10);
      assert s[..|s| - 1] == DecimalDigits(n / 10);
    }
  }

  /** The name of a type as `Display` writes it; every name reads back as the type
      it names. */
  function Display(t: SqlType): (s: string)
    ensures ParseTypeName(s) == Some(t)
  {
    match t
    case Bool => "bool"
    case Str(len, Const) => CharNameParses(len); "char(" + DecimalDigits(len) + ")"
    case Str(len, Var) => VarcharNameParses(len); "varchar(" + DecimalDigits(len) + ")"
    case Num(SmallInt) => "smallint"
    case Num(Integer) => "integer"
    case Num(BigInt) => "bigint"
    case Num(Real) => "real"
    case Num(Double) => "double precision"
  }

  /** Reads back a type name written by `Display`. */
  function ParseTypeName(s: string): Option<SqlType> {
    if s == "bool" then Some(SqlType.Bool)
    else if s == "smallint" then Some(Num(Num.SmallInt))
    else if s == "integer" then Some(Num(Num.Integer))
    else if s == "bigint" then Some(Num(Num.BigInt))
    else if s == "real" then Some(Num(Num.Real))
    else if s == "double precision" then Some(Num(Num.Double))
    else if |s| > 6 && s[..5] == "char(" && s[|s| - 1] == ')' then
      match ParseLength(s[5..|s| - 1])
      case Some(len) => Some(Str(len, Const))
      case None => None
    else if |s| > 9 && s[..8] == "varchar(" && s[|s| - 1] == ')' then
      match ParseLength(s[8..|s| - 1])
      case Some(len) => Some(Str(len, Var))
      case None => None
    else None
  }

  function ParseLength(d: string): Option<u64> {
    if |d| > 0 && (d[0] != '0' || |d| == 1) && forall i :: 0 <= i < |d| ==> '0' <= d[i] <= '9' then
      var n := DecimalValue(d);
      if n < 0x1_0000_0000_0000_0000 then Some(n) else None
    else None
  }

  lemma CharNameParses(len: u64)
    ensures ParseTypeName("char(" + DecimalDigits(len) + ")") == Some(Str(len, Const))
  {
    var s := "char(" + DecimalDigits(len) + ")";
    WrappedDigits("char(", Str(len, Const), DecimalDigits(len));
    assert s[0] == 'c' && s[1] == 'h';
  }

  lemma VarcharNameParses(len: u64)
    ensures ParseTypeName("varchar(" + DecimalDigits(len) + ")") == Some(Str(len, Var))
  {
    var s := "varchar(" + DecimalDigits(len) + ")";
    WrappedDigits("varchar(", Str(len, Var), DecimalDigits(len));
    assert s[0] == 'v';
    assert s[..5] != "char(";
  }

  lemma WrappedDigits(prefix: string, t: SqlType, d: string)
    requires t.Str? && d == DecimalDigits(t.len)
    ensures (prefix + d + ")")[|prefix|..|prefix + d + ")"| - 1] == d
    ensures (prefix + d + ")")[..|prefix|] == prefix
    ensures ParseLength(d) == Some(t.len)
  {
    var s := prefix + d + ")";
    assert s[|prefix|..|s| - 1] == d;
    DecimalRoundTrip(t.len);
  }

  /** Distinct types have distinct names. */
  lemma DisplayInjective(a: SqlType, b: SqlType)
    ensures Display(a) == Display(b) ==> a == b
  {
  }

  /** The wire-protocol tag of a type; floating types have none (unreachable in the
      source). */
  function ToPgType(t: SqlType): (p: PgWire.PgType)
    requires !(t.Num? && (t.num == Num.Real || t.num == Num.Double))
    ensures t.Bool? <==> p == PgWire.Bool
    ensures t.Str? <==> p == PgWire.Char || p == PgWire.VarChar
    ensures t.Str? ==> (p == PgWire.Char <==> t.kind == Const)
    ensures t.Num? ==> p == match t.num
                           case SmallInt => PgWire.SmallInt
                           case Integer => PgWire.Integer
                           case _ => PgWire.BigInt
  {
    match t
    case Bool => PgWire.Bool
    case Str(_, Const) => PgWire.Char
    case Str(_, Var) => PgWire.VarChar
    case Num(SmallInt) => PgWire.SmallInt
    case Num(Integer) => PgWire.Integer
    case Num(BigInt) => PgWire.BigInt
  }

  /** Two types get the same wire tag exactly when they have the same type tag, so the
      wire tag forgets only the length of string types. */
  lemma PgTypeMatchesTypeId(a: SqlType, b: SqlType)
    requires !(a.Num? && (a.num == Num.Real || a.num == Num.Double))
    requires !(b.Num? && (b.num == Num.Real || b.num == Num.Double))
    ensures ToPgType(a) == ToPgType(b) <==> TypeId(a) == TypeId(b)
  {
  }
}
