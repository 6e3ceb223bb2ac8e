/**
 Which of the MyBatis Generator plugin callbacks that MapperPlugin
 overrides let the built-in generator keep its artefact. The plugin leaves every CRUD statement to
 the generic Mapper interfaces, so it vetoes the client method, the XML
 element and the SQL-provider method of each statement, as well as the
 getters and setters of the model (Lombok generates those). It keeps the
 model classes, the example class and the client interface, which it
 decorates instead.
 */
module Hooks {

  /** The statements MyBatis Generator knows how to generate. */
  datatype Statement =
    | DeleteByPrimaryKey
    | Insert
    | InsertSelective
    | SelectByPrimaryKey
    | UpdateByPrimaryKeySelective
    | UpdateByPrimaryKeyWithBLOBs
    | UpdateByPrimaryKeyWithoutBLOBs
    | SelectAll
    | CountByExample
    | UpdateByExampleSelective
    | UpdateByExampleWithBLOBs
    | UpdateByExampleWithoutBLOBs
    | DeleteByExample
    | SelectByExampleWithBLOBs
    | SelectByExampleWithoutBLOBs

  /** The statements for which the SQL-provider generator has a callback. */
  predicate HasProviderCallback(s: Statement) {
    s in {InsertSelective, UpdateByPrimaryKeySelective, CountByExample,
          UpdateByExampleSelective, UpdateByExampleWithBLOBs, UpdateByExampleWithoutBLOBs,
          DeleteByExample, SelectByExampleWithBLOBs, SelectByExampleWithoutBLOBs}
  }

  type ProviderStatement = s: Statement | HasProviderCallback(s) witness InsertSelective

  /** Where a client method is generated: the mapper interface or the DAO implementation class. */
  datatype ClientTarget = OnInterface | OnClass

  datatype ModelClass = BaseRecord | PrimaryKeyClass | RecordWithBLOBs | ExampleClass

  /** One plugin callback that MapperPlugin overrides. */
  datatype Hook =
    | Validate
    | ClientInterface
    | ModelClassGenerated(model: ModelClass)
    | ModelGetter
    | ModelSetter
    | ClientMethod(statement: Statement, target: ClientTarget)
    | SqlMapElement(statement: Statement)
    | SqlMapExampleWhereClause
    | ProviderClass
    | ProviderApplyWhere
    | ProviderMethod(providerStatement: ProviderStatement)

  /** The overridden callbacks that answer `true`, listed independently of Generates. */
  const KeptHooks: set<Hook> := {
    Validate, ClientInterface,
    ModelClassGenerated(BaseRecord), ModelClassGenerated(PrimaryKeyClass),
    ModelClassGenerated(RecordWithBLOBs), ModelClassGenerated(ExampleClass)}

  /** Every kind of model class is in the kept set. */
  lemma ModelClassIsKept(m: ModelClass)
    ensures ModelClassGenerated(m) in KeptHooks
  {
    match m
    case BaseRecord =>
    case PrimaryKeyClass =>
    case RecordWithBLOBs =>
    case ExampleClass =>
  }

  /** The callback's answer: true keeps the generated artefact, false drops it. */
  function Generates(h: Hook): (keep: bool)
    ensures keep <==> h in KeptHooks
  {
    match h
    case Validate => true
    case ClientInterface => true
    case ModelClassGenerated(m) => ModelClassIsKept(m); true
    case ModelGetter => false
    case ModelSetter => false
    case ClientMethod(_, _) => false
    case SqlMapElement(_) => false
    case SqlMapExampleWhereClause => false
    case ProviderClass => false
    case ProviderApplyWhere => false
    case ProviderMethod(_) => false
  }

  /**
   No statement leaves any trace in the generated client or XML mapper:
   both client variants and the XML element are vetoed, and so is the
   provider method where one exists.
   */
  lemma EveryStatementIsSuppressed(s: Statement)
    ensures !Generates(ClientMethod(s, OnInterface)) && !Generates(ClientMethod(s, OnClass))
    ensures !Generates(SqlMapElement(s))
    ensures HasProviderCallback(s) ==> !Generates(ProviderMethod(s))
  {
  }

  /** Every model class is kept, and none of its accessors. */
  lemma ModelClassesKeptWithoutAccessors(m: ModelClass)
    ensures Generates(ModelClassGenerated(m))
    ensures !Generates(ModelGetter) && !Generates(ModelSetter)
  {
  }
}
