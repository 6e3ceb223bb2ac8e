/**
 The MyBatis Generator plugin that turns the generated model into
 JPA-annotated Lombok entities served by generic Mapper interfaces:
 its configuration, the `@Table` decision, the class-level Lombok
 annotations, the imports implied by field annotations, the mapper
 interface's super-interfaces and the fuzzy-like additions to the
 example class.
 */
module MapperPlugin {
  import opened Text
  import opened Metadata
  import CommentGenerator
  import ExampleGenerator

  type Properties = map<string, string>

  const MappersKey: string := "mappers"
  const CaseSensitiveKey: string := "caseSensitive"
  const BeginningDelimiterKey: string := "beginningDelimiter"
  const EndingDelimiterKey: string := "endingDelimiter"
  const SchemaKey: string := "schema"
  const AuthorKey: string := "author"
  const LikeAdditionKey: string := "modelExampleLikeAdditionEnabled"

  /** The literal the boolean properties are compared with. */
  const TrueLiteral: string := "TRUE"

  /**
   The plugin's settings after configuration. A schema that was never
   set is the empty string; an author that was never set is None and
   prints as `null`.
   */
  datatype PluginConfig = PluginConfig(
    mappers: set<string>,
    caseSensitive: bool,
    beginningDelimiter: string,
    endingDelimiter: string,
    schema: string,
    author: Option<string>,
    likeAdditionEnabled: bool,
    currentDate: string)

  /** Properties.getProperty, with an absent key read as the empty string. */
  function Property(props: Properties, key: string): string {
    if key in props then props[key] else ""
  }

  /** Every context property is copied over the plugin's own, so the context wins a clash. */
  function MergeProperties(plugin: Properties, context: Properties): (merged: Properties)
    ensures merged.Keys == plugin.Keys + context.Keys
    ensures forall k :: k in context ==> merged[k] == context[k]
    ensures forall k :: k in plugin && k !in context ==> merged[k] == plugin[k]
  {
    plugin + context
  }

  /** The mapper names listed in a comma-separated value, empty names included. */
  function MapperSet(value: string): (mappers: set<string>)
    ensures mappers != {}
    ensures forall m :: m in mappers ==> ',' !in m
  {
    var pieces := Split(value, ',');
    SplitPiecesHaveNoSeparator(value, ',');
    var mappers := set p | p in pieces;
    assert pieces[0] in mappers;
    mappers
  }

  /**
   setProperties: merge the context properties in, then read each
   setting. A missing or empty `mappers` value is an error; every other
   setting keeps its default unless its property has a value.
   */
  function SetProperties(plugin: Properties, context: Properties, currentDate: string): (r: Result<PluginConfig>)
    ensures r.Err? <==> !HasValue(Property(MergeProperties(plugin, context), MappersKey))
    ensures r.Err? ==> r.error == MissingMappers
    ensures r.Ok? ==> var props := MergeProperties(plugin, context);
      && r.value.mappers == MapperSet(Property(props, MappersKey))
      && (r.value.caseSensitive <==> EqualsIgnoreCase(Property(props, CaseSensitiveKey), TrueLiteral))
      && r.value.beginningDelimiter == Property(props, BeginningDelimiterKey)
      && r.value.endingDelimiter == Property(props, EndingDelimiterKey)
      && r.value.schema == Property(props, SchemaKey)
      && (r.value.author.Some? <==> HasValue(Property(props, AuthorKey)))
      && (r.value.author.Some? ==> r.value.author.value == Property(props, AuthorKey))
      && (r.value.likeAdditionEnabled <==> Property(props, LikeAdditionKey) in {"", TrueLiteral})
      && r.value.currentDate == currentDate
  {
    var props := MergeProperties(plugin, context);
    var mappers := Property(props, MappersKey);
    if !HasValue(mappers) then Err(MissingMappers)
    else
      var caseSensitive := Property(props, CaseSensitiveKey);
      var beginning := Property(props, BeginningDelimiterKey);
      var ending := Property(props, EndingDelimiterKey);
      var schema := Property(props, SchemaKey);
      var author := Property(props, AuthorKey);
      var likeAddition := Property(props, LikeAdditionKey);
      Ok(PluginConfig(
        MapperSet(mappers),
        if HasValue(caseSensitive) then EqualsIgnoreCase(TrueLiteral, caseSensitive) else false,
        if HasValue(beginning) then beginning else "",
        if HasValue(ending) then ending else "",
        if HasValue(schema) then schema else "",
        if HasValue(author) then Some(author) else None,
        if HasValue(likeAddition) then likeAddition == TrueLiteral else true,
        currentDate))
  }

  /** A comma-separated list of comma-free names configures exactly those mappers. */
  lemma MapperListRoundTrip(names: seq<string>)
    requires |names| >= 1
    requires forall i :: 0 <= i < |names| ==> ',' !in names[i]
    ensures MapperSet(Join(names, ',')) == set n | n in names
  {
    SplitJoin(names, ',');
  }

  /** Every configured mapper name is one of the pieces, and the pieces rebuild the property value. */
  lemma MapperSetCoversValue(value: string)
    ensures forall m :: m in MapperSet(value) <==> m in Split(value, ',')
    ensures Join(Split(value, ','), ',') == value
  {
    JoinSplit(value, ',');
  }

  /** The case-sensitivity switch ignores case; the like-addition switch does not. */
  lemma SwitchCaseHandling(plugin: Properties, date: string)
    requires HasValue(Property(plugin, MappersKey))
    requires Property(plugin, CaseSensitiveKey) == "true" && Property(plugin, LikeAdditionKey) == "true"
    ensures SetProperties(plugin, map[], date).Ok?
    ensures SetProperties(plugin, map[], date).value.caseSensitive
    ensures !SetProperties(plugin, map[], date).value.likeAdditionEnabled
  {
    assert MergeProperties(plugin, map[]) == plugin;
    assert "true" != TrueLiteral by {
      assert "true"[0] != TrueLiteral[0];
    }
  }

  /** With only `mappers` configured, every other setting keeps its default. */
  lemma DefaultSettings(plugin: Properties, date: string)
    requires plugin.Keys == {MappersKey} && HasValue(plugin[MappersKey])
    ensures var r := SetProperties(plugin, map[], date);
      && r.Ok?
      && !r.value.caseSensitive
      && r.value.beginningDelimiter == "" && r.value.endingDelimiter == "" && r.value.schema == ""
      && r.value.author == None
      && r.value.likeAdditionEnabled
  {
    assert MergeProperties(plugin, map[]) == plugin;
  }

  /** Decorations the plugin puts around a table name. */
  predicate Decorated(cfg: PluginConfig) {
    HasValue(cfg.schema) || HasValue(cfg.beginningDelimiter) || HasValue(cfg.endingDelimiter)
  }

  /** The part written before the name: the schema and a dot, then the beginning delimiter. */
  function NamePrefix(cfg: PluginConfig): string {
    (if HasValue(cfg.schema) then cfg.schema + "." else "") + cfg.beginningDelimiter
  }

  /** getDelimiterName: schema-qualified and wrapped in the plugin's delimiters. */
  function DelimiterName(cfg: PluginConfig, name: string): (r: string)
    ensures |r| == |NamePrefix(cfg)| + |name| + |cfg.endingDelimiter|
    ensures r[..|NamePrefix(cfg)|] == NamePrefix(cfg)
    ensures r[|r| - |cfg.endingDelimiter|..] == cfg.endingDelimiter
  {
    var prefix := NamePrefix(cfg);
    var r := prefix + name + cfg.endingDelimiter;
    assert r[..|prefix|] == prefix;
    r
  }

  /** The inverse of DelimiterName: drop the prefix and the ending delimiter. */
  function StripDelimiters(cfg: PluginConfig, s: string): string
    requires |s| >= |NamePrefix(cfg)| + |cfg.endingDelimiter|
  {
    s[|NamePrefix(cfg)|..|s| - |cfg.endingDelimiter|]
  }

  /** The name is recovered from its delimited form. */
  lemma DelimiterNameRoundTrip(cfg: PluginConfig, name: string)
    ensures StripDelimiters(cfg, DelimiterName(cfg, name)) == name
  {
    var r := NamePrefix(cfg) + name + cfg.endingDelimiter;
    assert r[|NamePrefix(cfg)|..|r| - |cfg.endingDelimiter|] == name;
  }

  /** Without schema or delimiters the name is unchanged. */
  lemma UndecoratedNameUnchanged(cfg: PluginConfig, name: string)
    requires !Decorated(cfg)
    ensures DelimiterName(cfg, name) == name
  {
    assert NamePrefix(cfg) == "";
  }

  /** With any decoration, applying the wrapping twice differs from applying it once. */
  lemma DecoratedNameNotIdempotent(cfg: PluginConfig, name: string)
    requires Decorated(cfg)
    ensures DelimiterName(cfg, DelimiterName(cfg, name)) != DelimiterName(cfg, name)
  {
    assert |NamePrefix(cfg)| + |cfg.endingDelimiter| > 0;
  }

  /** The runtime table name, wrapped in the context's delimiters when it contains a space. */
  function RuntimeTableName(ctx: Context, runtimeName: string): (t: string)
    ensures !ContainsSpace(runtimeName) ==> t == runtimeName
    ensures ContainsSpace(runtimeName) ==>
      && |t| == |ctx.beginningDelimiter| + |runtimeName| + |ctx.endingDelimiter|
      && t[..|ctx.beginningDelimiter|] == ctx.beginningDelimiter
      && t[|ctx.beginningDelimiter|..|t| - |ctx.endingDelimiter|] == runtimeName
      && t[|t| - |ctx.endingDelimiter|..] == ctx.endingDelimiter
  {
    if ContainsSpace(runtimeName) then
      var t := ctx.beginningDelimiter + runtimeName + ctx.endingDelimiter;
      assert t[..|ctx.beginningDelimiter|] == ctx.beginningDelimiter;
      assert t[|ctx.beginningDelimiter|..|t| - |ctx.endingDelimiter|] == runtimeName;
      t
    else runtimeName
  }

  /** The annotation naming the table explicitly. */
  function TableAnnotationText(cfg: PluginConfig, tableName: string): string {
    "@Table(name = \"" + DelimiterName(cfg, tableName) + "\")"
  }

  /**
   importClassTableAnnotation's decision: the entity needs `@Table`
   when its class name differs from the table name (exactly, in
   case-sensitive mode; ignoring case, always), or when the plugin
   decorates table names.
   */
  function TableAnnotation(cfg: PluginConfig, ctx: Context, runtimeName: string, shortName: string): (r: Option<string>)
    ensures r.None? <==>
      var t := RuntimeTableName(ctx, runtimeName);
      EqualsIgnoreCase(shortName, t) && (cfg.caseSensitive ==> shortName == t) && !Decorated(cfg)
    ensures r.Some? ==> r.value == TableAnnotationText(cfg, RuntimeTableName(ctx, runtimeName))
  {
    var t := RuntimeTableName(ctx, runtimeName);
    if cfg.caseSensitive && shortName != t then Some(TableAnnotationText(cfg, t))
    else if !EqualsIgnoreCase(shortName, t) then Some(TableAnnotationText(cfg, t))
    else if Decorated(cfg) then Some(TableAnnotationText(cfg, t))
    else None
  }

  /** In case-sensitive mode without decorations, `@Table` appears exactly when the names differ. */
  lemma CaseSensitiveTableAnnotation(cfg: PluginConfig, ctx: Context, runtimeName: string, shortName: string)
    requires cfg.caseSensitive && !Decorated(cfg)
    ensures TableAnnotation(cfg, ctx, runtimeName, shortName).Some? <==> shortName != RuntimeTableName(ctx, runtimeName)
  {
    EqualsIgnoreCaseReflexive(shortName);
  }

  /** Otherwise, without decorations, `@Table` appears exactly when the names differ ignoring case. */
  lemma CaseInsensitiveTableAnnotation(cfg: PluginConfig, ctx: Context, runtimeName: string, shortName: string)
    requires !cfg.caseSensitive && !Decorated(cfg)
    ensures TableAnnotation(cfg, ctx, runtimeName, shortName).Some? <==> !EqualsIgnoreCase(shortName, RuntimeTableName(ctx, runtimeName))
  {
  }

  /** A class `User` for table `user` needs no annotation by default, but does in case-sensitive mode. */
  lemma UserTableScenario(cfg: PluginConfig, ctx: Context)
    requires !Decorated(cfg)
    ensures TableAnnotation(cfg, ctx, "user", "User").Some? <==> cfg.caseSensitive
  {
    assert UpperChar('u') == 'U';
    assert "User" != "user" by {
      assert "User"[0] != "user"[0];
    }
  }

  const LombokImports: set<string> := {"lombok.Getter", "lombok.Setter", "lombok.EqualsAndHashCode", "lombok.ToString"}

  const EqualsAndHashCodeCallSuper: string := "@EqualsAndHashCode(callSuper = true)"
  const ToStringCallSuper: string := "@ToString(callSuper = true)"

  /** The callSuper variant extends the plain `@EqualsAndHashCode`, so it differs from it. */
  lemma EqualsAndHashCodeLiterals()
    ensures StartsWith(EqualsAndHashCodeCallSuper, "@EqualsAndHashCode") && EqualsAndHashCodeCallSuper != "@EqualsAndHashCode"
  {
    assert EqualsAndHashCodeCallSuper == "@EqualsAndHashCode" + "(callSuper = true)";
  }

  /** The callSuper variant extends the plain `@ToString`, so it differs from it. */
  lemma ToStringLiterals()
    ensures StartsWith(ToStringCallSuper, "@ToString") && ToStringCallSuper != "@ToString"
  {
    assert ToStringCallSuper == "@ToString" + "(callSuper = true)";
  }

  /**
   importClassLombokAnnotation's annotations: getters, setters, and
   equals/hashCode and toString that include the superclass's state
   exactly when there is a superclass.
   */
  function LombokAnnotations(hasSuperClass: bool): (r: seq<string>)
    ensures |r| == 4 && r[0] == "@Getter" && r[1] == "@Setter"
    ensures StartsWith(r[2], "@EqualsAndHashCode") && StartsWith(r[3], "@ToString")
    ensures r[2] == EqualsAndHashCodeCallSuper <==> hasSuperClass
    ensures r[3] == ToStringCallSuper <==> hasSuperClass
    ensures !hasSuperClass ==> r[2] == "@EqualsAndHashCode" && r[3] == "@ToString"
  {
    EqualsAndHashCodeLiterals();
    ToStringLiterals();
    if hasSuperClass then ["@Getter", "@Setter", EqualsAndHashCodeCallSuper, ToStringCallSuper]
    else
      ["@Getter", "@Setter", "@EqualsAndHashCode", "@ToString"]
  }

  /** Some annotation in the list starts with `prefix`. */
  function AnyStartsWith(annotations: seq<string>, prefix: string): (found: bool)
    ensures found <==> exists j :: 0 <= j < |annotations| && StartsWith(annotations[j], prefix)
  {
    if |annotations| == 0 then false
    else StartsWith(annotations[0], prefix) || AnyStartsWith(annotations[1..], prefix)
  }

  /**
   Some field carries an annotation starting with `@` and the simple
   name; the test is a prefix test, so `@ColumnType` also counts as `@Column`.
   */
  function FieldsAnnotatedWith(fields: seq<seq<string>>, simpleName: string): (found: bool)
    ensures found <==> exists i, j :: 0 <= i < |fields| && 0 <= j < |fields[i]| && StartsWith(fields[i][j], "@" + simpleName)
  {
    if |fields| == 0 then false
    else AnyStartsWith(fields[0], "@" + simpleName) || FieldsAnnotatedWith(fields[1..], simpleName)
  }

  /** One importFieldAnnotation call: the annotation's simple name and the types it brings in. */
  datatype ImportRule = ImportRule(simpleName: string, imports: set<string>)

  const ColumnImport: string := "javax.persistence.Column"
  const ColumnTypeImport: string := "tk.mybatis.mapper.annotation.ColumnType"
  const JdbcTypeImport: string := "org.apache.ibatis.type.JdbcType"

  /** The five calls processEntityClass makes, in order. */
  const FieldImportRules: seq<ImportRule> := [
    ImportRule("Column", {ColumnImport}),
    ImportRule("GeneratedValue", {"javax.persistence.GeneratedValue", "javax.persistence.GenerationType"}),
    ImportRule("Id", {"javax.persistence.Id"}),
    ImportRule("Transient", {"javax.persistence.Transient"}),
    ImportRule("ColumnType", {ColumnTypeImport, JdbcTypeImport})]

  /** The imports the field annotations call for: every rule whose annotation some field carries. */
  function FieldImports(fields: seq<seq<string>>, rules: seq<ImportRule>): (imports: set<string>)
    ensures forall i, x :: 0 <= i < |rules| && FieldsAnnotatedWith(fields, rules[i].simpleName) && x in rules[i].imports ==> x in imports
    ensures forall x :: x in imports ==>
      exists i :: 0 <= i < |rules| && FieldsAnnotatedWith(fields, rules[i].simpleName) && x in rules[i].imports
  {
    if |rules| == 0 then {}
    else
      var rest := FieldImports(fields, rules[1..]);
      assert forall i :: 1 <= i < |rules| ==> rules[i] == rules[1..][i - 1];
      if FieldsAnnotatedWith(fields, rules[0].simpleName) then rules[0].imports + rest else rest
  }

  /** A field annotated `@ColumnType` brings in both `ColumnType` and `JdbcType`, and also `Column`. */
  lemma ColumnTypeImportsColumn(fields: seq<seq<string>>, i: nat, j: nat)
    requires i < |fields| && j < |fields[i]| && StartsWith(fields[i][j], "@ColumnType")
    ensures {ColumnImport, ColumnTypeImport, JdbcTypeImport} <= FieldImports(fields, FieldImportRules)
  {
    assert "@Column" <= "@ColumnType";
    assert FieldsAnnotatedWith(fields, FieldImportRules[0].simpleName);
    assert FieldsAnnotatedWith(fields, FieldImportRules[4].simpleName);
  }

  /** The comment generator's `@ColumnType` annotation is what the last import rule scans for. */
  lemma ColumnTypeSimpleName(jdbcType: string)
    ensures "@" + CommentGenerator.SimpleName(CommentGenerator.ColumnType(jdbcType)) == "@ColumnType"
  {
  }

  /** The entity class decorations processEntityClass adds. */
  datatype EntityClass = EntityClass(imports: set<string>, annotations: seq<string>, docLines: seq<string>)

  const TableImport: string := "javax.persistence.Table"
  const BuilderImports: set<string> := {"lombok.experimental.SuperBuilder", "lombok.NoArgsConstructor"}
  const BuilderAnnotations: seq<string> := ["@SuperBuilder", "@NoArgsConstructor"]

  /** The entity's Javadoc: table, remarks, creation date, author, version. */
  function EntityDoc(cfg: PluginConfig, table: Table): (lines: seq<string>)
    ensures |lines| == 10 && lines[0] == "/**" && lines[9] == " */"
    ensures lines[2] == " * " + table.fullyQualifiedName + " 实体<br>"
    ensures lines[3] == " * " + JavaString(table.remarks) + "<br>"
    ensures lines[5] == " * Created on " + cfg.currentDate
    ensures lines[6] == " * @author " + JavaString(cfg.author)
    ensures lines[1] == " *" && lines[4] == " *" && lines[7] == " * @version 2.1" && lines[8] == " * @since v2.1"
  {
    ["/**",
     " *",
     " * " + table.fullyQualifiedName + " 实体<br>",
     " * " + JavaString(table.remarks) + "<br>",
     " *",
     " * Created on " + cfg.currentDate,
     " * @author " + JavaString(cfg.author),
     " * @version 2.1",
     " * @since v2.1",
     " */"]
  }

  function OptionToSeq(o: Option<string>): seq<string> {
    if o.Some? then [o.value] else []
  }

  /** The imports of the entity: `Table`, Lombok, the builder and whatever the field annotations call for. */
  function EntityImports(fields: seq<seq<string>>): (imports: set<string>)
    ensures TableImport in imports && LombokImports <= imports && BuilderImports <= imports
    ensures FieldImports(fields, FieldImportRules) <= imports
    ensures forall x :: x in imports ==>
      x == TableImport || x in LombokImports || x in BuilderImports || x in FieldImports(fields, FieldImportRules)
  {
    {TableImport} + LombokImports + FieldImports(fields, FieldImportRules) + BuilderImports
  }

  /** The class annotations: `@Table` when needed, then the four Lombok ones, then the two builder ones. */
  function EntityAnnotations(tableAnnotation: Option<string>, hasSuperClass: bool): (annotations: seq<string>)
    ensures |annotations| == (if tableAnnotation.Some? then 7 else 6)
    ensures tableAnnotation.Some? ==> annotations[0] == tableAnnotation.value
    ensures annotations[|annotations| - 6..] == LombokAnnotations(hasSuperClass) + BuilderAnnotations
  {
    var decorations := LombokAnnotations(hasSuperClass) + BuilderAnnotations;
    var annotations := OptionToSeq(tableAnnotation) + decorations;
    assert annotations[|annotations| - 6..] == decorations;
    annotations
  }

  /**
   processEntityClass for a model class named `shortName` whose fields
   carry the annotation lists `fields`.
   */
  function ProcessEntityClass(
    cfg: PluginConfig, ctx: Context, table: Table, shortName: string, hasSuperClass: bool,
    fields: seq<seq<string>>): (c: EntityClass)
    ensures TableImport in c.imports && LombokImports <= c.imports && BuilderImports <= c.imports
    ensures FieldImports(fields, FieldImportRules) <= c.imports
    ensures forall x :: x in c.imports ==>
      x == TableImport || x in LombokImports || x in BuilderImports || x in FieldImports(fields, FieldImportRules)
    ensures var table := TableAnnotation(cfg, ctx, table.runtimeName, shortName);
      && |c.annotations| == (if table.Some? then 7 else 6)
      && (table.Some? ==> c.annotations[0] == table.value)
      && c.annotations[|c.annotations| - 6..] == LombokAnnotations(hasSuperClass) + BuilderAnnotations
    ensures c.docLines == EntityDoc(cfg, table)
  {
    EntityClass(
      EntityImports(fields),
      EntityAnnotations(TableAnnotation(cfg, ctx, table.runtimeName, shortName), hasSuperClass),
      EntityDoc(cfg, table))
  }

  /**
   A BLOB column's field, rendered by the comment generator, makes the
   entity import `Column`, `ColumnType` and `JdbcType`.
   */
  lemma BlobColumnEntityImports(
    cfg: PluginConfig, ctx: Context, table: Table, shortName: string, hasSuperClass: bool,
    others: seq<seq<string>>, field: Field, column: Column)
    requires column.isBlob
    ensures var fields := others + [CommentGenerator.ColumnFieldComment(field, table, column, ctx).annotations];
      {ColumnImport, ColumnTypeImport, JdbcTypeImport} <= ProcessEntityClass(cfg, ctx, table, shortName, hasSuperClass, fields).imports
  {
    var anns := CommentGenerator.ColumnFieldComment(field, table, column, ctx).annotations;
    ColumnTypeFieldImports(cfg, ctx, table, shortName, hasSuperClass, others, anns, column.jdbcTypeName);
  }

  /** A field annotated with `@ColumnType(...)` makes the entity import `Column`, `ColumnType` and `JdbcType`. */
  lemma ColumnTypeFieldImports(
    cfg: PluginConfig, ctx: Context, table: Table, shortName: string, hasSuperClass: bool,
    others: seq<seq<string>>, anns: seq<string>, jdbcTypeName: string)
    requires exists i :: 0 <= i < |anns| && StartsWith(anns[i], "@" + CommentGenerator.SimpleName(CommentGenerator.ColumnType(jdbcTypeName)))
    ensures {ColumnImport, ColumnTypeImport, JdbcTypeImport} <= ProcessEntityClass(cfg, ctx, table, shortName, hasSuperClass, others + [anns]).imports
  {
    var fields := others + [anns];
    var j :| 0 <= j < |anns| && StartsWith(anns[j], "@" + CommentGenerator.SimpleName(CommentGenerator.ColumnType(jdbcTypeName)));
    ColumnTypeSimpleName(jdbcTypeName);
    assert fields[|others|] == anns;
    ColumnTypeImportsColumn(fields, |others|, j);
  }

  /** The super-interface the mapper interface extends for one generic mapper. */
  function GenericMapper(mapper: string, entityShortName: string): string {
    mapper + "<" + entityShortName + ">"
  }

  /** For a fixed entity, different mappers give different super-interfaces. */
  lemma GenericMapperInjective(m1: string, m2: string, entityShortName: string)
    requires GenericMapper(m1, entityShortName) == GenericMapper(m2, entityShortName)
    ensures m1 == m2
  {
    var g := GenericMapper(m1, entityShortName);
    assert g[..|m1|] == m1;
    assert GenericMapper(m2, entityShortName)[..|m2|] == m2;
  }

  /** The mapper interface decorations clientGenerated adds. */
  datatype MapperInterface = MapperInterface(imports: set<string>, superInterfaces: set<string>, docLines: seq<string>)

  /** The mapper interface's Javadoc: table, creation date, author, version. */
  function InterfaceDoc(cfg: PluginConfig, fullyQualifiedTable: string): (lines: seq<string>)
    ensures |lines| == 8 && lines[0] == "/**" && lines[7] == " */"
    ensures lines[1] == " * " + fullyQualifiedTable + " Mapper 接口<br>"
    ensures lines[3] == " * Created on " + cfg.currentDate
    ensures lines[4] == " * @author " + JavaString(cfg.author)
    ensures lines[2] == " *" && lines[5] == " * @version 1.0" && lines[6] == " * @since v1.0"
  {
    ["/**",
     " * " + fullyQualifiedTable + " Mapper 接口<br>",
     " *",
     " * Created on " + cfg.currentDate,
     " * @author " + JavaString(cfg.author),
     " * @version 1.0",
     " * @since v1.0",
     " */"]
  }

  /**
   clientGenerated: the interface imports every mapper and the entity,
   and extends every mapper parameterised by the entity.
   */
  function ClientGenerated(cfg: PluginConfig, entityType: string, entityShortName: string, fullyQualifiedTable: string): (i: MapperInterface)
    ensures i.imports == cfg.mappers + {entityType}
    ensures forall m :: m in cfg.mappers ==> GenericMapper(m, entityShortName) in i.superInterfaces
    ensures forall s :: s in i.superInterfaces ==> exists m :: m in cfg.mappers && s == GenericMapper(m, entityShortName)
    ensures i.docLines == InterfaceDoc(cfg, fullyQualifiedTable)
  {
    MapperInterface(
      cfg.mappers + {entityType},
      set m | m in cfg.mappers :: GenericMapper(m, entityShortName),
      InterfaceDoc(cfg, fullyQualifiedTable))
  }

  /** One super-interface per configured mapper. */
  lemma {:induction false} SuperInterfaceCount(mappers: set<string>, entityShortName: string)
    ensures |set m | m in mappers :: GenericMapper(m, entityShortName)| == |mappers|
    decreases mappers
  {
    if mappers != {} {
      var x :| x in mappers;
      var rest := mappers - {x};
      SuperInterfaceCount(rest, entityShortName);
      var image := set m | m in mappers :: GenericMapper(m, entityShortName);
      var restImage := set m | m in rest :: GenericMapper(m, entityShortName);
      assert image == restImage + {GenericMapper(x, entityShortName)};
      if GenericMapper(x, entityShortName) in restImage {
        var y :| y in rest && GenericMapper(y, entityShortName) == GenericMapper(x, entityShortName);
        GenericMapperInjective(x, y, entityShortName);
        assert false;
      }
    } else {
      assert (set m | m in mappers :: GenericMapper(m, entityShortName)) == {};
    }
  }

  /** The character columns of a table, in column order. */
  function CharacterColumns(columns: seq<Column>): (r: seq<Column>)
    ensures |r| <= |columns|
    ensures forall i :: 0 <= i < |r| ==> r[i].isCharacter
  {
    if |columns| == 0 then []
    else if columns[0].isCharacter then [columns[0]] + CharacterColumns(columns[1..])
    else CharacterColumns(columns[1..])
  }

  /**
   CharacterColumns is the order-preserving filter: it distributes over
   concatenation and keeps a single column exactly when it is a
   character column. These two facts determine it on every list.
   */
  lemma {:induction false} CharacterColumnsFilter(a: seq<Column>, b: seq<Column>)
    ensures CharacterColumns(a + b) == CharacterColumns(a) + CharacterColumns(b)
    ensures |a| == 1 ==> CharacterColumns(a) == (if a[0].isCharacter then a else [])
    decreases |a|
  {
    if |a| == 0 {
      assert a + b == b;
    } else {
      assert (a + b)[0] == a[0];
      assert (a + b)[1..] == a[1..] + b;
      CharacterColumnsFilter(a[1..], b);
      if |a| == 1 {
        assert a[1..] == [];
      }
    }
  }

  /** Exactly the character columns of the list are selected. */
  lemma {:induction false} CharacterColumnsMembership(columns: seq<Column>)
    ensures forall c :: c in CharacterColumns(columns) <==> c in columns && c.isCharacter
    decreases |columns|
  {
    if |columns| > 0 {
      CharacterColumnsMembership(columns[1..]);
      assert columns == [columns[0]] + columns[1..];
      assert forall c :: c in columns <==> c == columns[0] || c in columns[1..];
    }
  }

  /** The like and not-like methods of every character column, column by column. */
  function ExampleMethods(columns: seq<Column>): (r: Result<seq<ExampleGenerator.MethodDesc>>)
    ensures r.Ok? <==> forall i :: 0 <= i < |columns| && columns[i].isCharacter ==> |columns[i].javaProperty| > 0
    ensures r.Err? ==> r.error == EmptyJavaProperty
    ensures r.Ok? ==> |r.value| == 6 * |CharacterColumns(columns)|
  {
    if |columns| == 0 then Ok([])
    else
      var rest := ExampleMethods(columns[1..]);
      assert forall i :: 1 <= i < |columns| ==> columns[i] == columns[1..][i - 1];
      if !columns[0].isCharacter then rest
      else
        var own := ExampleGenerator.ColumnMethods(columns[0]);
        if own.Err? then Err(own.error)
        else if rest.Err? then rest
        else Ok(own.value + rest.value)
  }

  /** One step of ExampleMethods and CharacterColumns on a non-empty column list. */
  lemma ExampleMethodsUnfold(columns: seq<Column>)
    requires ExampleMethods(columns).Ok? && |CharacterColumns(columns)| > 0
    ensures |columns| > 0 && ExampleMethods(columns[1..]).Ok?
    ensures !columns[0].isCharacter ==>
      ExampleMethods(columns) == ExampleMethods(columns[1..]) && CharacterColumns(columns) == CharacterColumns(columns[1..])
    ensures columns[0].isCharacter ==>
      && ExampleGenerator.ColumnMethods(columns[0]).Ok?
      && ExampleMethods(columns).value == ExampleGenerator.ColumnMethods(columns[0]).value + ExampleMethods(columns[1..]).value
      && CharacterColumns(columns) == [columns[0]] + CharacterColumns(columns[1..])
  {
    assert forall i :: 1 <= i < |columns| ==> columns[i] == columns[1..][i - 1];
  }

  /** Past a block of six, block k of the whole is block k - 1 of the rest. */
  lemma BlockOfTail(own: seq<ExampleGenerator.MethodDesc>, rest: seq<ExampleGenerator.MethodDesc>, k: nat)
    requires |own| == 6 && 0 < k && 6 * k + 6 <= 6 + |rest|
    ensures (own + rest)[6 * k..6 * k + 6] == rest[6 * (k - 1)..6 * (k - 1) + 6]
  {
  }

  /** Block k of six methods belongs to the k-th character column. */
  lemma {:induction false} ExampleMethodBlocks(columns: seq<Column>, k: nat)
    requires ExampleMethods(columns).Ok? && k < |CharacterColumns(columns)|
    ensures Ok(ExampleMethods(columns).value[6 * k..6 * k + 6])
         == ExampleGenerator.ColumnMethods(CharacterColumns(columns)[k])
    decreases |columns|
  {
    ExampleMethodsUnfold(columns);
    if !columns[0].isCharacter {
      ExampleMethodBlocks(columns[1..], k);
    } else {
      var own := ExampleGenerator.ColumnMethods(columns[0]).value;
      var rest := ExampleMethods(columns[1..]).value;
      if k == 0 {
        FirstBlock(own, rest);
      } else {
        ExampleMethodBlocks(columns[1..], k - 1);
        BlockOfTail(own, rest, k);
        assert CharacterColumns(columns)[k] == CharacterColumns(columns[1..])[k - 1];
      }
    }
  }

  /** The first block of six is the leading column's own methods. */
  lemma FirstBlock(own: seq<ExampleGenerator.MethodDesc>, rest: seq<ExampleGenerator.MethodDesc>)
    requires |own| == 6
    ensures (own + rest)[0..6] == own
  {
  }

  /**
   modelExampleClassGenerated: when the like addition is enabled and
   the example class has its generated-criteria inner class, that inner
   class receives the six fuzzy methods of each character column.
   */
  function ModelExampleClassGenerated(cfg: PluginConfig, hasGeneratedCriteria: bool, table: Table): (r: Result<seq<ExampleGenerator.MethodDesc>>)
    ensures !cfg.likeAdditionEnabled || !hasGeneratedCriteria ==> r == Ok([])
    ensures cfg.likeAdditionEnabled && hasGeneratedCriteria ==> r == ExampleMethods(table.allColumns)
    ensures r.Err? ==> r.error == EmptyJavaProperty
    ensures r.Ok? ==> |r.value| == (if cfg.likeAdditionEnabled && hasGeneratedCriteria then 6 * |CharacterColumns(table.allColumns)| else 0)
    ensures r.Err? <==>
      cfg.likeAdditionEnabled && hasGeneratedCriteria
      && exists i :: 0 <= i < |table.allColumns| && table.allColumns[i].isCharacter && |table.allColumns[i].javaProperty| == 0
  {
    if cfg.likeAdditionEnabled && hasGeneratedCriteria then ExampleMethods(table.allColumns) else Ok([])
  }
}
