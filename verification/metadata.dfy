/**
 The facts the generator consumes about a table and its columns, as the
 introspection step of MyBatis Generator supplies them, plus the error
 outcomes the plugin can raise.

 Library lookups the rules depend on but do not define are carried as
 precomputed fields: `aliasedName` is Ibatis2FormattingUtilities'
 aliased actual column name, `jdbcTypeName` is the `name()` of
 JdbcType.forCode(jdbcType), `javaType` is the column's Java type.
 */
module Metadata {

  /** A column as the introspector describes it. `ref` stands for the object's identity. */
  datatype Column = Column(
    ref: nat,
    javaProperty: string,
    actualName: string,
    aliasedName: string,
    javaType: string,
    jdbcTypeName: string,
    remarks: string,
    typeHandler: string,
    isIdentity: bool,
    isSequence: bool,
    isBlob: bool,
    isCharacter: bool)

  /**
   A table: its runtime name, the settings of its table configuration
   (all-column delimiting, generated-key SQL statement) and its
   primary-key columns, which are the same objects as in `allColumns`.
   `remarks` is None when the database reports no comment (Java null).
   */
  datatype Table = Table(
    fullyQualifiedName: string,
    runtimeName: string,
    remarks: Option<string>,
    allColumns: seq<Column>,
    primaryKeys: seq<Column>,
    allColumnDelimiting: bool,
    generatedKeyStatement: string)

  /** The identifier delimiters of the generator context (not the plugin's own). */
  datatype Context = Context(beginningDelimiter: string, endingDelimiter: string)

  /** A generated field: its name and whether it is declared transient. */
  datatype Field = Field(name: string, isTransient: bool)

  datatype Option<T> = None | Some(value: T)

  /** The exceptions the plugin raises. */
  datatype GenError =
    | MissingMappers      // MapperException: the `mappers` property is absent or empty
    | EmptyJavaProperty   // StringIndexOutOfBoundsException: capitalising an empty property name

  datatype Result<T> = Ok(value: T) | Err(error: GenError)

  /** Java string concatenation of a possibly-null string. */
  function JavaString(s: Option<string>): string {
    match s
    case None => "null"
    case Some(v) => v
  }

  /** A column belongs to the primary key iff the very same object is listed there. */
  predicate IsPrimaryKey(table: Table, column: Column) {
    exists i :: 0 <= i < |table.primaryKeys| && table.primaryKeys[i].ref == column.ref
  }
}
