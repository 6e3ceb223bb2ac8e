# MyBatis Generator plugin rules, modelled in Dafny

This project models the rule logic of a MyBatis Generator plugin. The
plugin turns the generated model into JPA-annotated Lombok entities that
generic Mapper interfaces serve. It consists of three parts:

- **BlogCommentGenerator** (module `CommentGenerator`). It writes the
  Javadoc of mapper methods and entity fields. It also chooses the
  persistence annotations of each entity field: `@Transient`, `@Id`,
  `@Column`, `@GeneratedValue` and `@ColumnType`, always in that order.
  It reads the `author` property.
- **MapperPlugin** (modules `MapperPlugin` and `Hooks`). It covers:
  - configuration: merging context properties, the `mappers` list and
    the boolean switches;
  - the schema- and delimiter-qualified table name;
  - the decision whether an entity needs `@Table`;
  - the class-level Lombok and builder annotations;
  - the imports implied by the field annotations;
  - the entity and mapper-interface Javadoc;
  - the mapper interface's generic super-interfaces;
  - the fuzzy `like` additions to the example class;
  - the table of generator callbacks, which keeps the model classes,
    the example class and the client interface and vetoes every CRUD
    artefact.
- **AdditionalExampleGenerator** (module `ExampleGenerator`). For each
  character column it adds six criteria methods: left, right and
  both-sides `like` and `not like`.

Shared helpers:

- `Text` holds the string helpers: the "has a value" test, ASCII case
  mapping, Guava's comma splitter and `MessageFormat` with `{0}`/`{1}`.
- `Metadata` holds the introspected facts about a table and its columns,
  and the two exceptions the plugin can raise as a `Result` error.

Modelling choices:

- A Java `null` string is the empty string wherever the code only asks
  whether the string has a value. Where the code concatenates the
  string, `null` is `None` and prints as `null`.
- A column's object identity is the `ref` field, so `@Id` compares
  identities, not names.
- Capitalising an empty property name throws. The model returns
  `Err(EmptyJavaProperty)` instead of requiring a non-empty name.
- BlogCommentGenerator's own `getDelimiterName`
  (`BlogCommentGenerator.java:45-47`) is the identity. So the `@Column`
  annotation carries the column name unchanged.

Behaviours of the code that a reader may not expect, which the model
keeps as written:

- A transient field still receives `@Id`, `@Column`, `@GeneratedValue`
  and `@ColumnType` when they apply (`TransientKeepsLaterAnnotations`).
- The generated-key statement is compared with `JDBC` case-sensitively,
  so `jdbc` selects the IDENTITY strategy (`JdbcKeyIsCaseSensitive`).
- In the sequence statement `{0}` is the runtime table name and `{1}`
  its upper-case form, as the comment at `BlogCommentGenerator.java:125`
  describes. So `select SEQ_{1} from dual` gives
  `select SEQ_ORDER from dual` on table `order`
  (`SequenceSqlOnOrderTable`).

## Model

| member | source | states |
|---|---|---|
| `CommentGenerator.Author` | src/main/java/com/github/littlefisher/mybatis/generator/BlogCommentGenerator.java:152-159 | the author is the `author` property when it has a value, else `LittleFisher`; it is never empty |
| `CommentGenerator.MethodDoc` | src/main/java/com/github/littlefisher/mybatis/generator/BlogCommentGenerator.java:53-75 | no Javadoc iff some annotation equals `@Override` ignoring case; otherwise exact line count, header, author, one `@param` line per parameter in order, `@return` line iff a return type, closing line |
| `CommentGenerator.OverrideIgnoresCase` | src/main/java/com/github/littlefisher/mybatis/generator/BlogCommentGenerator.java:55-59 | `@OVERRIDE` suppresses the Javadoc just as `@Override` does |
| `CommentGenerator.ColumnFieldDoc` | src/main/java/com/github/littlefisher/mybatis/generator/BlogCommentGenerator.java:84-91 | three lines; the middle one shows the column remarks when they have a value, else the field name |
| `CommentGenerator.PlainFieldDoc` | src/main/java/com/github/littlefisher/mybatis/generator/BlogCommentGenerator.java:144-146 | one line from which the field name reads back between `/** ` and ` */` |
| `CommentGenerator.RenderStartsWithSimpleName` | src/main/java/com/github/littlefisher/mybatis/generator/BlogCommentGenerator.java:94-136 | every annotation text starts with `@` and its simple type name |
| `CommentGenerator.ColumnName` | src/main/java/com/github/littlefisher/mybatis/generator/BlogCommentGenerator.java:104-110 | the column name is wrapped in the context delimiters exactly when it contains a space or the table delimits all columns |
| `CommentGenerator.GenerationOf` | src/main/java/com/github/littlefisher/mybatis/generator/BlogCommentGenerator.java:116-131 | a generation annotation iff identity or sequence; JDBC generator iff identity and statement exactly `JDBC`; IDENTITY iff identity otherwise; sequence generator iff sequence and not identity, with the formatted statement |
| `CommentGenerator.Emitted` | src/main/java/com/github/littlefisher/mybatis/generator/BlogCommentGenerator.java:94-136 | the annotations come in the order Transient, Id, Column, GeneratedValue, ColumnType, each at most once, and are exactly those present |
| `CommentGenerator.FieldAnnotations` | src/main/java/com/github/littlefisher/mybatis/generator/BlogCommentGenerator.java:94-136 | `@Transient` iff the field is transient; `@Id` iff the column object is a primary key; `@Column` iff the column name differs from the property; `@ColumnType` iff BLOB, with its JDBC type |
| `CommentGenerator.ColumnFieldComment` | src/main/java/com/github/littlefisher/mybatis/generator/BlogCommentGenerator.java:81-138 | the field gets the remarks Javadoc; its annotation texts are exactly the renderings of the emitted annotations, in emission order, at most five; a BLOB column's field carries one starting with `@ColumnType` |
| `CommentGenerator.ColumnFieldAnnotationTexts` | src/main/java/com/github/littlefisher/mybatis/generator/BlogCommentGenerator.java:94-102 | the field's annotation texts contain `@Transient` iff the field is transient, and `@Id` iff the column object is a primary key |
| `CommentGenerator.BlobRendersColumnType` | src/main/java/com/github/littlefisher/mybatis/generator/BlogCommentGenerator.java:133-136 | when the column type is present, some rendered annotation starts with `@ColumnType` |
| `CommentGenerator.TransientKeepsLaterAnnotations` | src/main/java/com/github/littlefisher/mybatis/generator/BlogCommentGenerator.java:94-102 | a transient field's annotations are `@Transient` followed by exactly the non-transient field's annotations |
| `CommentGenerator.IdentityBeatsSequence` | src/main/java/com/github/littlefisher/mybatis/generator/BlogCommentGenerator.java:116-124 | for an identity column, the sequence flag changes nothing |
| `CommentGenerator.JdbcKeyIsCaseSensitive` | src/main/java/com/github/littlefisher/mybatis/generator/BlogCommentGenerator.java:117-122 | statement `jdbc` on an identity column yields the IDENTITY strategy, not the JDBC generator |
| `CommentGenerator.PrimaryKeyByIdentity` | src/main/java/com/github/littlefisher/mybatis/generator/BlogCommentGenerator.java:98-102 | a column equal in every name to the key column but a different object gets no `@Id` |
| `CommentGenerator.SequenceSqlOnOrderTable` | src/main/java/com/github/littlefisher/mybatis/generator/BlogCommentGenerator.java:124-130 | on table `order`, `select SEQ_{1} from dual` formats to `select SEQ_ORDER from dual` |
| `Text.Capitalize` | src/main/java/com/github/littlefisher/mybatis/generator/plugins/example/AdditionalExampleGenerator.java:66-67 | same length, first character upper-cased, the rest unchanged |
| `Text.SplitPiecesHaveNoSeparator` | src/main/java/com/github/littlefisher/mybatis/generator/plugins/MapperPlugin.java:118 | no piece of a comma split contains a comma |
| `Text.JoinSplit` | src/main/java/com/github/littlefisher/mybatis/generator/plugins/MapperPlugin.java:118 | joining the pieces of a split with the separator gives back the string |
| `Text.SplitJoin` | src/main/java/com/github/littlefisher/mybatis/generator/plugins/MapperPlugin.java:118 | splitting a join of separator-free pieces gives back exactly those pieces, empty ones included |
| `Text.FormatLiteralPrefix` | src/main/java/com/github/littlefisher/mybatis/generator/BlogCommentGenerator.java:127-129 | text without `{` passes through the substitution unchanged |
| `Text.FormatPlaceholderPrefix` | src/main/java/com/github/littlefisher/mybatis/generator/BlogCommentGenerator.java:127-129 | a leading `{0}` becomes the table name and `{1}` its upper-case form |
| `ExampleGenerator.WildcardPlacement` | src/main/java/com/github/littlefisher/mybatis/generator/plugins/example/AdditionalExampleGenerator.java:87-99 | the `%` goes on the left iff the position is Left or All, on the right iff Right or All |
| `ExampleGenerator.SingleValueMethod` | src/main/java/com/github/littlefisher/mybatis/generator/plugins/example/AdditionalExampleGenerator.java:60-108 | error iff the property is empty; else a public method named `and`, the capitalised property and the fragment, with one `value` parameter of the column's type, returning `Criteria`, whose second body line returns `this` |
| `ExampleGenerator.CriterionLineDecodes` | src/main/java/com/github/littlefisher/mybatis/generator/plugins/example/AdditionalExampleGenerator.java:74-104 | the first body line splits into the criterion call, the aliased column name, the operator between a space and `", `, the wildcard value expression, and `, "`, the property, `");` |
| `ExampleGenerator.LikeMethods` | src/main/java/com/github/littlefisher/mybatis/generator/plugins/example/AdditionalExampleGenerator.java:20-26 | three methods, or the error iff the property is empty |
| `ExampleGenerator.NotLikeMethods` | src/main/java/com/github/littlefisher/mybatis/generator/plugins/example/AdditionalExampleGenerator.java:28-34 | three methods, or the error iff the property is empty |
| `ExampleGenerator.LikeMethodsFollowVariants` | src/main/java/com/github/littlefisher/mybatis/generator/plugins/example/AdditionalExampleGenerator.java:20-26 | the three `like` methods are built from LeftLike, RightLike and LeftRightLike, in that order |
| `ExampleGenerator.NotLikeMethodsFollowVariants` | src/main/java/com/github/littlefisher/mybatis/generator/plugins/example/AdditionalExampleGenerator.java:28-34 | the three `not like` methods are built from NotLeftLike, NotRightLike and NotLeftRightLike, in that order |
| `ExampleGenerator.ColumnMethods` | src/main/java/com/github/littlefisher/mybatis/generator/plugins/MapperPlugin.java:369-371 | six methods, the `like` ones first and the `not like` ones after, or the error iff the property is empty |
| `ExampleGenerator.ColumnMethodsFollowVariants` | src/main/java/com/github/littlefisher/mybatis/generator/plugins/example/AdditionalExampleGenerator.java:36-58 | method i is built from variant i of LeftLike, RightLike, LeftRightLike, NotLeftLike, NotRightLike, NotLeftRightLike |
| `ExampleGenerator.MethodNameDecodes` | src/main/java/com/github/littlefisher/mybatis/generator/plugins/example/AdditionalExampleGenerator.java:65-70 | the name splits back into `and`, the capitalised property and the fragment |
| `ExampleGenerator.SixNamesDistinct` | src/main/java/com/github/littlefisher/mybatis/generator/plugins/example/AdditionalExampleGenerator.java:20-58 | the six method names of one column are pairwise different |
| `ExampleGenerator.CriterionRouting` | src/main/java/com/github/littlefisher/mybatis/generator/plugins/example/AdditionalExampleGenerator.java:74-81 | with a type handler the body calls `add<Property>Criterion("`, else `addCriterion("` |
| `ExampleGenerator.NameColumnLeftLike` | src/main/java/com/github/littlefisher/mybatis/generator/plugins/example/AdditionalExampleGenerator.java:36-38 | column `name` aliased `user_name` gives `andNameLeftLike`, registering `user_name like` with `"%" + value` under `name` |
| `MapperPlugin.MergeProperties` | src/main/java/com/github/littlefisher/mybatis/generator/plugins/MapperPlugin.java:114 | every key of either side is present and a context value overrides the plugin's |
| `MapperPlugin.MapperSet` | src/main/java/com/github/littlefisher/mybatis/generator/plugins/MapperPlugin.java:116-118 | a non-empty set of comma-free names |
| `MapperPlugin.SetProperties` | src/main/java/com/github/littlefisher/mybatis/generator/plugins/MapperPlugin.java:113-148 | error iff `mappers` has no value; otherwise every setting is its property or default; case sensitivity compares `TRUE` ignoring case, the like addition compares it exactly and defaults to on |
| `MapperPlugin.MapperListRoundTrip` | src/main/java/com/github/littlefisher/mybatis/generator/plugins/MapperPlugin.java:116-118 | a comma-joined list of comma-free names configures exactly those names |
| `MapperPlugin.MapperSetCoversValue` | src/main/java/com/github/littlefisher/mybatis/generator/plugins/MapperPlugin.java:116-118 | the configured names are exactly the split pieces, and they rebuild the property value |
| `MapperPlugin.SwitchCaseHandling` | src/main/java/com/github/littlefisher/mybatis/generator/plugins/MapperPlugin.java:122-146 | the value `true` turns case sensitivity on but turns the like addition off |
| `MapperPlugin.DefaultSettings` | src/main/java/com/github/littlefisher/mybatis/generator/plugins/MapperPlugin.java:48-94 | with only `mappers` set: not case-sensitive, no delimiters or schema, no author, like addition on |
| `MapperPlugin.DelimiterName` | src/main/java/com/github/littlefisher/mybatis/generator/plugins/MapperPlugin.java:156-166 | the name is preceded by `schema.` (when set) and the beginning delimiter, and followed by the ending delimiter |
| `MapperPlugin.DelimiterNameRoundTrip` | src/main/java/com/github/littlefisher/mybatis/generator/plugins/MapperPlugin.java:156-166 | stripping the prefix and the ending delimiter gives back the name |
| `MapperPlugin.UndecoratedNameUnchanged` | src/main/java/com/github/littlefisher/mybatis/generator/plugins/MapperPlugin.java:156-166 | without schema or delimiters the name is unchanged |
| `MapperPlugin.DecoratedNameNotIdempotent` | src/main/java/com/github/littlefisher/mybatis/generator/plugins/MapperPlugin.java:156-166 | with any decoration, wrapping twice differs from wrapping once |
| `MapperPlugin.RuntimeTableName` | src/main/java/com/github/littlefisher/mybatis/generator/plugins/MapperPlugin.java:261-265 | a name with a space becomes the beginning delimiter, the name and the ending delimiter, each readable back at its position; any other name is unchanged |
| `MapperPlugin.TableAnnotation` | src/main/java/com/github/littlefisher/mybatis/generator/plugins/MapperPlugin.java:258-275 | no `@Table` iff the class name equals the table name ignoring case (exactly, in case-sensitive mode) and nothing decorates names; otherwise the annotation names the delimited table |
| `MapperPlugin.CaseSensitiveTableAnnotation` | src/main/java/com/github/littlefisher/mybatis/generator/plugins/MapperPlugin.java:267-274 | case-sensitive and undecorated: `@Table` iff the names differ exactly |
| `MapperPlugin.CaseInsensitiveTableAnnotation` | src/main/java/com/github/littlefisher/mybatis/generator/plugins/MapperPlugin.java:269-274 | not case-sensitive and undecorated: `@Table` iff the names differ ignoring case |
| `MapperPlugin.UserTableScenario` | src/main/java/com/github/littlefisher/mybatis/generator/plugins/MapperPlugin.java:263-274 | class `User` on table `user` gets `@Table` iff case-sensitive |
| `MapperPlugin.LombokAnnotations` | src/main/java/com/github/littlefisher/mybatis/generator/plugins/MapperPlugin.java:282-296 | `@Getter`, `@Setter`, then `@EqualsAndHashCode` and `@ToString`: with `(callSuper = true)` iff there is a superclass, and exactly the bare names otherwise |
| `MapperPlugin.AnyStartsWith` | src/main/java/com/github/littlefisher/mybatis/generator/plugins/MapperPlugin.java:309-310 | true iff some annotation starts with the prefix |
| `MapperPlugin.FieldsAnnotatedWith` | src/main/java/com/github/littlefisher/mybatis/generator/plugins/MapperPlugin.java:307-310 | true iff some annotation of some field starts with `@` and the simple name |
| `MapperPlugin.FieldImports` | src/main/java/com/github/littlefisher/mybatis/generator/plugins/MapperPlugin.java:305-319 | an import is added iff some rule whose annotation a field carries lists it |
| `MapperPlugin.ColumnTypeImportsColumn` | src/main/java/com/github/littlefisher/mybatis/generator/plugins/MapperPlugin.java:213-221 | a `@ColumnType` field brings in `ColumnType` and `JdbcType`, and also `Column` through the prefix test |
| `MapperPlugin.EntityImports` | src/main/java/com/github/littlefisher/mybatis/generator/plugins/MapperPlugin.java:207-250 | the imports are `Table`, the Lombok and builder types, and the field-annotation imports, and nothing else |
| `MapperPlugin.EntityAnnotations` | src/main/java/com/github/littlefisher/mybatis/generator/plugins/MapperPlugin.java:207-250 | `@Table` first when needed, then the four Lombok annotations, then `@SuperBuilder` and `@NoArgsConstructor` |
| `MapperPlugin.EntityDoc` | src/main/java/com/github/littlefisher/mybatis/generator/plugins/MapperPlugin.java:227-236 | ten lines naming the table, its remarks (`null` when absent), the date and the author (`null` when unset), between the fixed ` *` separators and the `@version 2.1` and `@since v2.1` lines |
| `MapperPlugin.ProcessEntityClass` | src/main/java/com/github/littlefisher/mybatis/generator/plugins/MapperPlugin.java:207-250 | imports, annotations and Javadoc of an entity class as above |
| `MapperPlugin.BlobColumnEntityImports` | src/main/java/com/github/littlefisher/mybatis/generator/plugins/MapperPlugin.java:213-221 | a field the comment generator annotates for a BLOB column makes the entity import `Column`, `ColumnType` and `JdbcType` |
| `MapperPlugin.GenericMapperInjective` | src/main/java/com/github/littlefisher/mybatis/generator/plugins/MapperPlugin.java:184 | for one entity, different mappers give different super-interfaces |
| `MapperPlugin.InterfaceDoc` | src/main/java/com/github/littlefisher/mybatis/generator/plugins/MapperPlugin.java:190-197 | eight lines naming the table, the date and the author, with the fixed ` *` separator and the `@version 1.0` and `@since v1.0` lines |
| `MapperPlugin.ClientGenerated` | src/main/java/com/github/littlefisher/mybatis/generator/plugins/MapperPlugin.java:177-199 | the interface imports every mapper and the entity, and extends exactly `mapper<Entity>` for every mapper |
| `MapperPlugin.SuperInterfaceCount` | src/main/java/com/github/littlefisher/mybatis/generator/plugins/MapperPlugin.java:182-185 | there are as many super-interfaces as configured mappers |
| `MapperPlugin.CharacterColumns` | src/main/java/com/github/littlefisher/mybatis/generator/plugins/MapperPlugin.java:367-368 | only character columns are selected |
| `MapperPlugin.CharacterColumnsFilter` | src/main/java/com/github/littlefisher/mybatis/generator/plugins/MapperPlugin.java:367-368 | the selection distributes over concatenation and keeps a single column iff it is a character column, so it keeps every character column in its original order |
| `MapperPlugin.CharacterColumnsMembership` | src/main/java/com/github/littlefisher/mybatis/generator/plugins/MapperPlugin.java:367-368 | a column is selected iff it is in the list and is a character column |
| `MapperPlugin.ExampleMethods` | src/main/java/com/github/littlefisher/mybatis/generator/plugins/MapperPlugin.java:365-373 | succeeds iff every character column has a property name, giving six methods per character column |
| `MapperPlugin.ExampleMethodBlocks` | src/main/java/com/github/littlefisher/mybatis/generator/plugins/MapperPlugin.java:367-373 | the k-th block of six methods is exactly the methods of the k-th character column |
| `MapperPlugin.ModelExampleClassGenerated` | src/main/java/com/github/littlefisher/mybatis/generator/plugins/MapperPlugin.java:361-376 | nothing is added unless the like addition is on and the criteria class exists; otherwise exactly the methods ExampleMethods gives for all columns (six per character column, in column order), or the empty-property error iff some character column has an empty property |
| `Hooks.Generates` | src/main/java/com/github/littlefisher/mybatis/generator/plugins/MapperPlugin.java:168-714 | among the callbacks MapperPlugin overrides, one keeps its artefact iff it is validation, the client interface or one of the four model classes |
| `Hooks.EveryStatementIsSuppressed` | src/main/java/com/github/littlefisher/mybatis/generator/plugins/MapperPlugin.java:379-714 | for every statement the client methods on interface and class, the XML element and the provider method are all vetoed |
| `Hooks.ModelClassesKeptWithoutAccessors` | src/main/java/com/github/littlefisher/mybatis/generator/plugins/MapperPlugin.java:324-359 | every model class is kept while its getters and setters are vetoed |

## Left out

- `setContext` (`MapperPlugin.java:96-110`) is left out. It installs the comment generator, copies the context properties into it and switches on remarks reporting, which only wires the generator's configuration objects together.
- The creation date is formatted from the clock. Here it is the `currentDate` parameter.
- MapperPlugin.SetProperties: models one call on a freshly built plugin. The Java fields keep earlier values and the mapper set only grows across repeated calls.
- CommentGenerator.Author: models one `addConfigurationProperties` call on a fresh generator. A later call without `author` would keep an earlier value. The copied `properties` are never read.
- `JdbcType.forCode`, `Ibatis2FormattingUtilities.getAliasedActualColumnName` and the Java type of a column are library lookups. They enter as the precomputed column fields `jdbcTypeName`, `aliasedName` and `javaType`.
- FullyQualifiedJavaType's parsing of type names and its short names are not modelled. Entity and mapper type names are plain strings.
- Text.Format: only plain `{0}` and `{1}` placeholders. `MessageFormat`'s quoting rules, other argument indices and format styles are not modelled.
- Text.UpperChar: maps only ASCII letters. `Character.toUpperCase`, `equalsIgnoreCase` and `String.toUpperCase` also fold non-ASCII letters. `String.toUpperCase` turns `{1}` of the sequence statement to upper case (BlogCommentGenerator.java:127-129). It also depends on the default locale and can change a string's length (`ß` becomes `SS`).
- Hooks.Generates: covers only the callbacks MapperPlugin overrides. It does not cover the callbacks MapperPlugin inherits from PluginAdapter: modelFieldGenerated, sqlMapResultMapWithoutBLOBsElementGenerated, sqlMapResultMapWithBLOBsElementGenerated, sqlMapBaseColumnListElementGenerated, sqlMapBlobColumnListElementGenerated and sqlMapDocumentGenerated. Those return `true`, so they keep their artefacts.
- The generator's DOM is not modelled. Classes, interfaces, methods and fields appear only through the strings the plugin adds. Imports are sets because the DOM deduplicates them.
- The mapper `HashSet` has no iteration order. The imports and super-interfaces it produces are sets.
- BlogCommentGenerator's `addComment` (`BlogCommentGenerator.java:189-191`) is left out. It always appends the same merge-marker element to XML elements.
- The comment-generator callbacks with empty bodies are left out. So are the `lombokEnabled` property, which nothing reads, and `PageParam`, which is not part of this model.
- The blank-string, null-field and empty-list guards of the annotation tests are dropped (`BlogCommentGenerator.java:57`, `MapperPlugin.java:308-309`). A blank string can never equal `@Override` or start with `@`, so they change no outcome.
- The `IllegalArgumentException` branch of `getSingleValueMethod` (`AdditionalExampleGenerator.java:97-98`) is left out. The position enumeration has exactly three values, so the branch is unreachable.
- MapperPlugin.ExampleMethods: on an empty property name the Java code has already added the methods of earlier columns to the criteria class before it throws. The model returns only the error.
- The exception messages are not modelled. Only the kind of error is kept.
