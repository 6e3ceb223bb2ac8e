/**
 The comment generator the plugin installs: Javadoc for mapper methods
 and entity fields, and the persistence annotations each entity field
 receives from the facts of its column.
 */
module CommentGenerator {
  import opened Text
  import opened Metadata

  const DefaultAuthor: string := "LittleFisher"

  /** The generated-key statement that selects JDBC's own key retrieval (compared case-sensitively). */
  const JdbcKeyStatement: string := "JDBC"

  /** The author named in method Javadoc: the `author` property when it has a value, else the default. */
  function Author(properties: map<string, string>): (author: string)
    ensures "author" in properties && HasValue(properties["author"]) ==> author == properties["author"]
    ensures !("author" in properties && HasValue(properties["author"])) ==> author == DefaultAuthor
    ensures HasValue(author)
  {
    if "author" in properties && HasValue(properties["author"]) then properties["author"] else DefaultAuthor
  }

  // ---------------------------------------------------------------- method Javadoc

  /** A generated method as far as its Javadoc depends on it; `returnType` is the short name, if any. */
  datatype MethodSig = MethodSig(
    name: string,
    annotations: seq<string>,
    parameterNames: seq<string>,
    returnType: Option<string>)

  predicate IsOverride(annotation: string) {
    EqualsIgnoreCase(annotation, "@Override")
  }

  predicate HasOverride(m: MethodSig) {
    exists i :: 0 <= i < |m.annotations| && IsOverride(m.annotations[i])
  }

  function ParamLines(names: seq<string>): seq<string> {
    seq(|names|, i requires 0 <= i < |names| => " * @param " + names[i] + " " + names[i])
  }

  function ReturnLines(returnType: Option<string>): seq<string> {
    match returnType
    case None => []
    case Some(t) => [" * @return " + t + " " + t + "<br>"]
  }

  /**
   addGeneralMethodComment: no Javadoc at all for a method carrying
   `@Override` in any letter case; otherwise a block that opens with
   `/**`, names the method and the author, documents every parameter in
   order and the return type when there is one, and closes with ` */`.
   */
  function MethodDoc(m: MethodSig, author: string): (lines: seq<string>)
    ensures |lines| == 0 <==> HasOverride(m)
    ensures !HasOverride(m) ==>
      && |lines| == 5 + |m.parameterNames| + (if m.returnType.Some? then 1 else 0)
      && lines[0] == "/**"
      && lines[1] == " * Description: " + m.name + "<br>"
      && lines[2] == " *"
      && lines[3] == " * @author " + author + " <br>"
      && (forall i :: 0 <= i < |m.parameterNames| ==>
            lines[4 + i] == " * @param " + m.parameterNames[i] + " " + m.parameterNames[i])
      && (m.returnType.Some? ==>
            lines[|lines| - 2] == " * @return " + m.returnType.value + " " + m.returnType.value + "<br>")
      && lines[|lines| - 1] == " */"
  {
    if HasOverride(m) then []
    else
      ["/**", " * Description: " + m.name + "<br>", " *", " * @author " + author + " <br>"]
      + ParamLines(m.parameterNames) + ReturnLines(m.returnType) + [" */"]
  }

  /** The override test ignores letter case: `@OVERRIDE` suppresses the Javadoc too. */
  lemma OverrideIgnoresCase(name: string, author: string)
    ensures MethodDoc(MethodSig(name, ["@OVERRIDE"], ["x"], None), author) == []
  {
    var m := MethodSig(name, ["@OVERRIDE"], ["x"], None);
    assert IsOverride(m.annotations[0]);
  }

  // ---------------------------------------------------------------- field Javadoc

  /** addFieldComment for a column-backed field: a three-line block with the remarks, or the field name. */
  function ColumnFieldDoc(field: Field, column: Column): (lines: seq<string>)
    ensures |lines| == 3 && lines[0] == "/**" && lines[2] == " */"
    ensures HasValue(column.remarks) ==> lines[1] == " * " + column.remarks
    ensures !HasValue(column.remarks) ==> lines[1] == " * " + field.name
  {
    var remarks := if HasValue(column.remarks) then column.remarks else field.name;
    ["/**", " * " + remarks, " */"]
  }

  /** addFieldComment for a field with no column: one line from which the name reads back. */
  function PlainFieldDoc(field: Field): (lines: seq<string>)
    ensures |lines| == 1
    ensures |lines[0]| == |field.name| + 7
    ensures lines[0][..4] == "/** " && lines[0][4..|lines[0]| - 3] == field.name
    ensures lines[0][|lines[0]| - 3..] == " */"
  {
    ["/** " + field.name + " */"]
  }

  // ---------------------------------------------------------------- field annotations

  /** How a generated key column obtains its value. */
  datatype Generation =
    | JdbcGenerator                 // @GeneratedValue(generator = "JDBC")
    | IdentityStrategy              // @GeneratedValue(strategy = GenerationType.IDENTITY)
    | SequenceGenerator(sql: string) // ... strategy IDENTITY with the formatted statement as generator

  /** The persistence annotations a column-backed field can carry. */
  datatype FieldAnnotation =
    | Transient
    | Id
    | ColumnMapping(name: string)
    | GeneratedValue(generation: Generation)
    | ColumnType(jdbcType: string)

  /** The position of each kind in the fixed emission order. */
  function Rank(a: FieldAnnotation): nat {
    match a
    case Transient => 0
    case Id => 1
    case ColumnMapping(_) => 2
    case GeneratedValue(_) => 3
    case ColumnType(_) => 4
  }

  /** Each kind at most once, and in the order Transient, Id, Column, GeneratedValue, ColumnType. */
  predicate InEmissionOrder(anns: seq<FieldAnnotation>) {
    forall i, j :: 0 <= i < j < |anns| ==> Rank(anns[i]) < Rank(anns[j])
  }

  /** The annotation's simple type name, the text after `@` in its rendering. */
  function SimpleName(a: FieldAnnotation): string {
    match a
    case Transient => "Transient"
    case Id => "Id"
    case ColumnMapping(_) => "Column"
    case GeneratedValue(_) => "GeneratedValue"
    case ColumnType(_) => "ColumnType"
  }

  /** What follows the simple name in the annotation text. */
  function Arguments(a: FieldAnnotation): string {
    match a
    case Transient => ""
    case Id => ""
    case ColumnMapping(name) => "(name = \"" + name + "\")"
    case GeneratedValue(JdbcGenerator) => "(generator = \"JDBC\")"
    case GeneratedValue(IdentityStrategy) => "(strategy = GenerationType.IDENTITY)"
    case GeneratedValue(SequenceGenerator(sql)) => "(strategy = GenerationType.IDENTITY, generator = \"" + sql + "\")"
    case ColumnType(t) => "(jdbcType = JdbcType." + t + ")"
  }

  /** The exact annotation text the source adds to the field. */
  function Render(a: FieldAnnotation): string {
    "@" + SimpleName(a) + Arguments(a)
  }

  function RenderAll(anns: seq<FieldAnnotation>): (texts: seq<string>)
    ensures |texts| == |anns|
    ensures forall i :: 0 <= i < |anns| ==> texts[i] == Render(anns[i])
  {
    seq(|anns|, i requires 0 <= i < |anns| => Render(anns[i]))
  }

  /** Every rendering starts with `@` and the simple name, which is what the import scan looks for. */
  lemma RenderStartsWithSimpleName(a: FieldAnnotation)
    ensures StartsWith(Render(a), "@" + SimpleName(a))
  {
    StartsWithAppend("@" + SimpleName(a), Arguments(a), "@" + SimpleName(a));
  }

  /**
   The column name used in `@Column`: the actual name, wrapped in the
   context's delimiters when it contains a space or the table asks for
   all columns to be delimited. No schema prefix is ever added here.
   */
  function ColumnName(table: Table, column: Column, ctx: Context): (name: string)
    ensures (ContainsSpace(column.actualName) || table.allColumnDelimiting) ==>
      name == ctx.beginningDelimiter + column.actualName + ctx.endingDelimiter
    ensures !(ContainsSpace(column.actualName) || table.allColumnDelimiting) ==> name == column.actualName
  {
    if ContainsSpace(column.actualName) || table.allColumnDelimiting then
      ctx.beginningDelimiter + column.actualName + ctx.endingDelimiter
    else
      column.actualName
  }

  /** The sequence statement: `{0}` becomes the runtime table name, `{1}` its upper-case form. */
  function SequenceSql(table: Table): string {
    Format(table.generatedKeyStatement, table.runtimeName, Upper(table.runtimeName))
  }

  /**
   The generation rule, identity first: an identity column uses the JDBC
   generator exactly when the statement is `JDBC` (case-sensitive), else
   the IDENTITY strategy; a sequence column that is not an identity
   column gets the formatted statement; any other column gets nothing.
   */
  function GenerationOf(table: Table, column: Column): (g: Option<Generation>)
    ensures g.Some? <==> column.isIdentity || column.isSequence
    ensures g == Some(JdbcGenerator) <==> column.isIdentity && table.generatedKeyStatement == JdbcKeyStatement
    ensures g == Some(IdentityStrategy) <==> column.isIdentity && table.generatedKeyStatement != JdbcKeyStatement
    ensures (g.Some? && g.value.SequenceGenerator?) <==> !column.isIdentity && column.isSequence
    ensures g.Some? && g.value.SequenceGenerator? ==> g.value.sql == SequenceSql(table)
  {
    if column.isIdentity then
      if table.generatedKeyStatement == JdbcKeyStatement then Some(JdbcGenerator) else Some(IdentityStrategy)
    else if column.isSequence then Some(SequenceGenerator(SequenceSql(table)))
    else None
  }

  /**
   The annotations of one field, at most one of each kind. Emitted turns
   it into the ordered sequence the field receives.
   */
  datatype AnnotationSet = AnnotationSet(
    transient: bool,
    id: bool,
    columnName: Option<string>,
    generation: Option<Generation>,
    columnType: Option<string>)

  /** Whether the set holds annotation `a`. */
  predicate Present(s: AnnotationSet, a: FieldAnnotation) {
    match a
    case Transient => s.transient
    case Id => s.id
    case ColumnMapping(n) => s.columnName == Some(n)
    case GeneratedValue(g) => s.generation == Some(g)
    case ColumnType(t) => s.columnType == Some(t)
  }

  predicate RanksAbove(anns: seq<FieldAnnotation>, k: int) {
    forall i :: 0 <= i < |anns| ==> k < Rank(anns[i])
  }

  /** The annotation of rank `k` held by the set, if any. */
  function KindAt(s: AnnotationSet, k: nat): (r: seq<FieldAnnotation>)
    requires k < 5
    ensures |r| <= 1
    ensures forall i :: 0 <= i < |r| ==> Rank(r[i]) == k && Present(s, r[i])
    ensures forall a {:trigger Present(s, a)} :: Present(s, a) && Rank(a) == k ==> a in r
  {
    if k == 0 then (if s.transient then [Transient] else [])
    else if k == 1 then (if s.id then [Id] else [])
    else if k == 2 then (if s.columnName.Some? then [ColumnMapping(s.columnName.value)] else [])
    else if k == 3 then (if s.generation.Some? then [GeneratedValue(s.generation.value)] else [])
    else (if s.columnType.Some? then [ColumnType(s.columnType.value)] else [])
  }

  /** The annotations of rank `k` and above, in rank order. */
  function EmittedFrom(s: AnnotationSet, k: nat): (r: seq<FieldAnnotation>)
    requires k <= 5
    ensures InEmissionOrder(r) && RanksAbove(r, k - 1)
    ensures forall i :: 0 <= i < |r| ==> Present(s, r[i])
    ensures forall a {:trigger Present(s, a)} :: Present(s, a) && Rank(a) >= k ==> a in r
    decreases 5 - k
  {
    if k == 5 then []
    else
      var head := KindAt(s, k);
      var tail := EmittedFrom(s, k + 1);
      ConcatInOrder(head, tail, k);
      head + tail
  }

  /**
   The annotations in the order the source adds them: Transient, Id,
   Column, GeneratedValue, ColumnType, each kind at most once, and
   exactly those the set holds.
   */
  function Emitted(s: AnnotationSet): (anns: seq<FieldAnnotation>)
    ensures InEmissionOrder(anns)
    ensures forall i :: 0 <= i < |anns| ==> Present(s, anns[i])
    ensures forall a {:trigger Present(s, a)} :: Present(s, a) ==> a in anns
  {
    EmittedFrom(s, 0)
  }

  /** One ordered run followed by another whose ranks are all higher is ordered. */
  lemma ConcatInOrder(x: seq<FieldAnnotation>, y: seq<FieldAnnotation>, k: int)
    requires InEmissionOrder(x) && InEmissionOrder(y)
    requires forall i :: 0 <= i < |x| ==> Rank(x[i]) == k
    requires RanksAbove(y, k)
    ensures InEmissionOrder(x + y) && RanksAbove(x + y, k - 1)
  {
    var xy := x + y;
    forall i, j | 0 <= i < j < |xy|
      ensures Rank(xy[i]) < Rank(xy[j])
    {
      if j < |x| {
      } else if i >= |x| {
        assert xy[i] == y[i - |x|] && xy[j] == y[j - |x|];
      } else {
        assert xy[j] == y[j - |x|];
      }
    }
    forall i | 0 <= i < |xy|
      ensures k - 1 < Rank(xy[i])
    {
      if i >= |x| {
        assert xy[i] == y[i - |x|];
      }
    }
  }

  /**
   The annotations addFieldComment puts on a column-backed field. Each
   rule is independent of the others: being transient does not stop the
   later annotations.
   */
  function FieldAnnotations(field: Field, table: Table, column: Column, ctx: Context): (s: AnnotationSet)
    ensures s.transient == field.isTransient
    ensures s.id <==> IsPrimaryKey(table, column)
    ensures s.columnName.Some? <==> ColumnName(table, column, ctx) != column.javaProperty
    ensures s.columnName.Some? ==> s.columnName.value == ColumnName(table, column, ctx)
    ensures s.generation == GenerationOf(table, column)
    ensures s.columnType.Some? <==> column.isBlob
    ensures s.columnType.Some? ==> s.columnType.value == column.jdbcTypeName
  {
    var name := ColumnName(table, column, ctx);
    AnnotationSet(
      field.isTransient,
      IsPrimaryKey(table, column),
      if name != column.javaProperty then Some(name) else None,
      GenerationOf(table, column),
      if column.isBlob then Some(column.jdbcTypeName) else None)
  }

  /** The Javadoc lines and annotation texts addFieldComment adds to a column-backed field. */
  datatype FieldComment = FieldComment(docLines: seq<string>, annotations: seq<string>)

  /** addFieldComment for a column-backed field. */
  function ColumnFieldComment(field: Field, table: Table, column: Column, ctx: Context): (fc: FieldComment)
    ensures fc.docLines == ColumnFieldDoc(field, column)
    ensures fc.annotations == RenderAll(Emitted(FieldAnnotations(field, table, column, ctx)))
    ensures |fc.annotations| <= 5
    ensures column.isBlob ==>
      exists i :: 0 <= i < |fc.annotations| && StartsWith(fc.annotations[i], "@" + SimpleName(ColumnType(column.jdbcTypeName)))
  {
    var anns := Emitted(FieldAnnotations(field, table, column, ctx));
    RankedLength(anns);
    BlobRendersColumnType(FieldAnnotations(field, table, column, ctx));
    FieldComment(ColumnFieldDoc(field, column), RenderAll(anns))
  }

  /** The two argument-free annotations render shortest; every other one is longer than `@Transient`. */
  lemma RenderLength(a: FieldAnnotation)
    ensures a.Transient? ==> Render(a) == "@Transient"
    ensures a.Id? ==> Render(a) == "@Id"
    ensures !a.Transient? && !a.Id? ==> |Render(a)| > 10
  {
  }

  /** A text that only one annotation renders to is in the rendering exactly when that annotation is. */
  lemma RenderedTextIn(anns: seq<FieldAnnotation>, a: FieldAnnotation)
    requires forall b :: Render(b) == Render(a) ==> b == a
    ensures Render(a) in RenderAll(anns) <==> a in anns
  {
    var texts := RenderAll(anns);
    if Render(a) in texts {
      var i :| 0 <= i < |texts| && texts[i] == Render(a);
      assert anns[i] == a;
    }
    if a in anns {
      var i :| 0 <= i < |anns| && anns[i] == a;
      assert texts[i] == Render(a);
    }
  }

  /**
   At the level of the annotation texts: `@Transient` is there exactly
   for a transient field, `@Id` exactly for a primary-key column.
   */
  lemma ColumnFieldAnnotationTexts(field: Field, table: Table, column: Column, ctx: Context)
    ensures "@Transient" in ColumnFieldComment(field, table, column, ctx).annotations <==> field.isTransient
    ensures "@Id" in ColumnFieldComment(field, table, column, ctx).annotations <==> IsPrimaryKey(table, column)
  {
    var s := FieldAnnotations(field, table, column, ctx);
    forall b | Render(b) == Render(Transient)
      ensures b == Transient
    {
      RenderLength(b);
      RenderLength(Transient);
    }
    forall b | Render(b) == Render(Id)
      ensures b == Id
    {
      RenderLength(b);
      RenderLength(Id);
    }
    RenderLength(Transient);
    RenderLength(Id);
    RenderedTextIn(Emitted(s), Transient);
    RenderedTextIn(Emitted(s), Id);
    assert Present(s, Transient) <==> field.isTransient;
    assert Present(s, Id) <==> IsPrimaryKey(table, column);
  }

  /** The ColumnType annotation, when present, renders with the `@ColumnType` prefix. */
  lemma BlobRendersColumnType(s: AnnotationSet)
    ensures s.columnType.Some? ==>
      exists i :: 0 <= i < |Emitted(s)| && StartsWith(RenderAll(Emitted(s))[i], "@" + SimpleName(ColumnType(s.columnType.value)))
  {
    if s.columnType.Some? {
      var a := ColumnType(s.columnType.value);
      var i := EmittedIndex(s, a);
      RenderStartsWithSimpleName(a);
      RenderAllAt(Emitted(s), i);

    }
  }

  lemma EmittedIndex(s: AnnotationSet, a: FieldAnnotation) returns (i: nat)
    requires Present(s, a)
    ensures i < |Emitted(s)| && Emitted(s)[i] == a
  {
    var anns := Emitted(s);
    assert a in anns;
    i :| 0 <= i < |anns| && anns[i] == a;
  }

  lemma RenderAllAt(anns: seq<FieldAnnotation>, i: nat)
    requires i < |anns|
    ensures RenderAll(anns)[i] == Render(anns[i])
  {
  }

  /** Strictly increasing ranks below five leave room for at most five annotations. */
  lemma {:induction false} RankedLength(anns: seq<FieldAnnotation>)
    requires InEmissionOrder(anns)
    ensures |anns| <= 5
    ensures |anns| > 0 ==> Rank(anns[0]) + |anns| <= 5
    decreases |anns|
  {
    if |anns| > 1 {
      RankedLength(anns[1..]);
      assert Rank(anns[0]) < Rank(anns[1]);
    }
  }

  // ---------------------------------------------------------------- properties relating calls

  /** Being transient adds `@Transient` in front and leaves every other annotation in place. */
  lemma TransientKeepsLaterAnnotations(name: string, table: Table, column: Column, ctx: Context)
    ensures Emitted(FieldAnnotations(Field(name, true), table, column, ctx))
         == [Transient] + Emitted(FieldAnnotations(Field(name, false), table, column, ctx))
  {
    var n := FieldAnnotations(Field(name, false), table, column, ctx);
    assert FieldAnnotations(Field(name, true), table, column, ctx) == n.(transient := true);
    TransientOnlyAddsItself(n);
  }

  lemma TransientOnlyAddsItself(s: AnnotationSet)
    requires !s.transient
    ensures Emitted(s.(transient := true)) == [Transient] + Emitted(s)
  {
    var t := s.(transient := true);
    LaterKindsIgnoreTransient(t, s, 1);
    EmittedSplitsAtTransient(t);
    EmittedSplitsAtTransient(s);
  }

  lemma EmittedSplitsAtTransient(s: AnnotationSet)
    ensures s.transient ==> Emitted(s) == [Transient] + EmittedFrom(s, 1)
    ensures !s.transient ==> Emitted(s) == EmittedFrom(s, 1)
  {
    var later := EmittedFrom(s, 1);
    assert Emitted(s) == EmittedFrom(s, 0) == KindAt(s, 0) + later;
    if s.transient {
      assert KindAt(s, 0) == [Transient];
    } else {
      assert KindAt(s, 0) == [];
      assert [] + later == later;
    }
  }

  /** The annotations from rank `k` on do not depend on the kinds below `k`. */
  lemma {:induction false} LaterKindsIgnoreTransient(s: AnnotationSet, s': AnnotationSet, k: nat)
    requires 1 <= k <= 5
    requires s.id == s'.id && s.columnName == s'.columnName
    requires s.generation == s'.generation && s.columnType == s'.columnType
    ensures EmittedFrom(s, k) == EmittedFrom(s', k)
    decreases 5 - k
  {
    if k < 5 {
      LaterKindsIgnoreTransient(s, s', k + 1);
      assert KindAt(s, k) == KindAt(s', k);
    }
  }

  /** A column flagged both identity and sequence is annotated as an identity column. */
  lemma IdentityBeatsSequence(field: Field, table: Table, column: Column, ctx: Context)
    requires column.isIdentity
    ensures FieldAnnotations(field, table, column.(isSequence := true), ctx)
         == FieldAnnotations(field, table, column.(isSequence := false), ctx)
  {
  }

  /** Only the exact statement `JDBC` selects the JDBC generator; `jdbc` falls back to IDENTITY. */
  lemma JdbcKeyIsCaseSensitive(field: Field, table: Table, column: Column, ctx: Context)
    requires column.isIdentity && table.generatedKeyStatement == "jdbc"
    ensures FieldAnnotations(field, table, column, ctx).generation == Some(IdentityStrategy)
  {
    assert table.generatedKeyStatement[0] != JdbcKeyStatement[0];
  }

  /**
   Two columns with the same names are told apart by identity: only the
   one whose object is listed as a primary key gets `@Id`.
   */
  lemma PrimaryKeyByIdentity(field: Field, table: Table, key: Column, other: Column, ctx: Context)
    requires table.primaryKeys == [key]
    requires other == key.(ref := key.ref + 1)
    ensures FieldAnnotations(field, table, key, ctx).id
    ensures !FieldAnnotations(field, table, other, ctx).id
  {
    assert table.primaryKeys[0].ref == key.ref;
  }

  /** On table `order`, the template `select SEQ_{1} from dual` formats to `select SEQ_ORDER from dual`. */
  lemma SequenceSqlOnOrderTable(table: Table)
    requires table.runtimeName == "order" && table.generatedKeyStatement == "select SEQ_{1} from dual"
    ensures SequenceSql(table) == "select SEQ_ORDER from dual"
  {
    UpperOrder();
    FormatOrderTemplate();
  }

  lemma UpperOrder()
    ensures Upper("order") == "ORDER"
  {
    var upper := Upper("order");
    assert upper[0] == 'O' && upper[1] == 'R' && upper[2] == 'D' && upper[3] == 'E' && upper[4] == 'R';
  }

  /** The literal parts pass through and `{1}` becomes `ORDER`. */
  lemma FormatOrderTemplate()
    ensures Format("select SEQ_{1} from dual", "order", "ORDER") == "select SEQ_ORDER from dual"
  {
    OrderLiterals();
    assert '{' !in "select SEQ_";
    assert '{' !in " from dual";
    FormatLiteralPrefix("select SEQ_", "{1}" + " from dual", "order", "ORDER");
    FormatPlaceholderPrefix(1, " from dual", "order", "ORDER");
    FormatNoPlaceholder(" from dual", "order", "ORDER");
  }

  /** The template and the expected statement, cut at the placeholder. */
  lemma OrderLiterals()
    ensures "select SEQ_{1} from dual" == "select SEQ_" + ("{1}" + " from dual")
    ensures "select SEQ_ORDER from dual" == "select SEQ_" + ("ORDER" + " from dual")
  {
  }
}
