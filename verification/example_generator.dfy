/**
 The fuzzy-match criteria methods added to the generated example
 class: for a character column, three `like` and three `not like`
 methods that put the `%` wildcard on the left, the right or both sides
 of the argument.
 */
module ExampleGenerator {
  import opened Text
  import opened Metadata

  /** Where the wildcard goes. The enumeration has exactly these three values. */
  datatype FuzzPosition = Left | Right | All

  datatype Parameter = Parameter(typeName: string, name: string)

  /** A generated method: visibility, name, parameters, return type and body lines. */
  datatype MethodDesc = MethodDesc(
    isPublic: bool,
    name: string,
    parameters: seq<Parameter>,
    returnType: string,
    body: seq<string>)

  /** Short name of the criteria type every method returns, for chaining. */
  const CriteriaType: string := "Criteria"
  const ReturnThis: string := "return (Criteria) this;"

  /** The fuzzing pattern a method is built from: its name suffix, the SQL operator, the wildcard position. */
  datatype Variant = Variant(fragment: string, operator: string, position: FuzzPosition)

  /** getSetLikeMethod's three patterns. */
  const LeftLike: Variant := Variant("LeftLike", "like", Left)
  const RightLike: Variant := Variant("RightLike", "like", Right)
  const LeftRightLike: Variant := Variant("LeftRightLike", "like", All)

  /** getSetNotLikeMethod's three patterns. */
  const NotLeftLike: Variant := Variant("NotLeftLike", "not like", Left)
  const NotRightLike: Variant := Variant("NotRightLike", "not like", Right)
  const NotLeftRightLike: Variant := Variant("NotLeftRightLike", "not like", All)

  const LeftWildcard: string := "\"%\" + "
  const RightWildcard: string := "+ \"%\""

  /** The Java expression passed as the criterion value. */
  function ValueExpression(position: FuzzPosition): string {
    match position
    case Left => LeftWildcard + "value"
    case Right => "value" + RightWildcard
    case All => LeftWildcard + "value" + RightWildcard
  }

  /** The expression prepends the `%` wildcard to the argument. */
  predicate HasLeftWildcard(e: string) {
    StartsWith(e, LeftWildcard)
  }

  /** The expression appends the `%` wildcard to the argument. */
  predicate HasRightWildcard(e: string) {
    |e| >= |RightWildcard| && e[|e| - |RightWildcard|..] == RightWildcard
  }

  /**
   The wildcard goes on the left for Left and All, on the right for
   Right and All, and nowhere else.
   */
  lemma WildcardPlacement(position: FuzzPosition)
    ensures HasLeftWildcard(ValueExpression(position)) <==> position != Right
    ensures HasRightWildcard(ValueExpression(position)) <==> position != Left
  {
    var e := ValueExpression(position);
    match position
    case Left =>
      assert e[|e| - 1] == 'e';
    case Right =>
      assert e[0] == 'v';
    case All =>
  }

  /**
   The call that registers the criterion: the type-handler-aware
   `add<Property>Criterion("` when the column names a type handler,
   else the plain `addCriterion("`.
   */
  function CriterionCall(column: Column): (call: string)
    requires |column.javaProperty| > 0
  {
    if HasValue(column.typeHandler) then "add" + Capitalize(column.javaProperty) + "Criterion(\""
    else "addCriterion(\""
  }

  /** The method name: `and`, the capitalised property, the fragment. */
  function MethodName(column: Column, fragment: string): string
    requires |column.javaProperty| > 0
  {
    "and" + Capitalize(column.javaProperty) + fragment
  }

  /** The first body line, registering the condition under the property name. */
  function CriterionLine(column: Column, v: Variant): string
    requires |column.javaProperty| > 0
  {
    CriterionCall(column) + CriterionArguments(column, v)
  }

  /** What follows the call: the condition text, the value expression, the property name. */
  function CriterionArguments(column: Column, v: Variant): string {
    column.aliasedName + " " + v.operator + "\", "
      + ValueExpression(v.position) + ", \"" + column.javaProperty + "\");"
  }

  /**
   getSingleValueMethod. Upper-casing the first character of an empty
   property name throws, which is the error outcome here.
   */
  function SingleValueMethod(column: Column, v: Variant): (r: Result<MethodDesc>)
    ensures r.Err? <==> |column.javaProperty| == 0
    ensures r.Err? ==> r.error == EmptyJavaProperty
    ensures r.Ok? ==>
      && r.value.isPublic
      && r.value.parameters == [Parameter(column.javaType, "value")]
      && r.value.returnType == CriteriaType
      && |r.value.body| == 2
      && r.value.body[1] == ReturnThis
    ensures r.Ok? ==> r.value.name == "and" + Capitalize(column.javaProperty) + v.fragment
  {
    if |column.javaProperty| == 0 then Err(EmptyJavaProperty)
    else
      Ok(MethodDesc(
        true,
        MethodName(column, v.fragment),
        [Parameter(column.javaType, "value")],
        CriteriaType,
        [CriterionLine(column, v), ReturnThis]))
  }

  /** getSetLikeMethod: left, right and both-sides `like`, in that order. */
  function LikeMethods(column: Column): (r: Result<seq<MethodDesc>>)
    ensures r.Err? <==> |column.javaProperty| == 0
    ensures r.Ok? ==> |r.value| == 3
  {
    if |column.javaProperty| == 0 then Err(EmptyJavaProperty)
    else
      Ok([SingleValueMethod(column, LeftLike).value,
          SingleValueMethod(column, RightLike).value,
          SingleValueMethod(column, LeftRightLike).value])
  }

  /** getSetNotLikeMethod: left, right and both-sides `not like`, in that order. */
  function NotLikeMethods(column: Column): (r: Result<seq<MethodDesc>>)
    ensures r.Err? <==> |column.javaProperty| == 0
    ensures r.Ok? ==> |r.value| == 3
  {
    if |column.javaProperty| == 0 then Err(EmptyJavaProperty)
    else
      Ok([SingleValueMethod(column, NotLeftLike).value,
          SingleValueMethod(column, NotRightLike).value,
          SingleValueMethod(column, NotLeftRightLike).value])
  }

  /** getSetLikeMethod emits the left, right and both-sides `like` methods, in that order. */
  lemma LikeMethodsFollowVariants(column: Column)
    requires |column.javaProperty| > 0
    ensures LikeMethods(column).Ok?
    ensures Ok(LikeMethods(column).value[0]) == SingleValueMethod(column, LeftLike)
    ensures Ok(LikeMethods(column).value[1]) == SingleValueMethod(column, RightLike)
    ensures Ok(LikeMethods(column).value[2]) == SingleValueMethod(column, LeftRightLike)
  {
  }

  /** getSetNotLikeMethod emits the left, right and both-sides `not like` methods, in that order. */
  lemma NotLikeMethodsFollowVariants(column: Column)
    requires |column.javaProperty| > 0
    ensures NotLikeMethods(column).Ok?
    ensures Ok(NotLikeMethods(column).value[0]) == SingleValueMethod(column, NotLeftLike)
    ensures Ok(NotLikeMethods(column).value[1]) == SingleValueMethod(column, NotRightLike)
    ensures Ok(NotLikeMethods(column).value[2]) == SingleValueMethod(column, NotLeftRightLike)
  {
  }

  /** The six methods one character column receives: the three `like` ones, then the three `not like` ones. */
  function ColumnMethods(column: Column): (r: Result<seq<MethodDesc>>)
    ensures r.Err? <==> |column.javaProperty| == 0
    ensures r.Err? ==> r.error == EmptyJavaProperty
    ensures r.Ok? ==> |r.value| == 6
    ensures r.Ok? ==> r.value[..3] == LikeMethods(column).value && r.value[3..] == NotLikeMethods(column).value
  {
    if |column.javaProperty| == 0 then Err(EmptyJavaProperty)
    else
      var like := LikeMethods(column).value;
      var notLike := NotLikeMethods(column).value;
      assert (like + notLike)[..3] == like && (like + notLike)[3..] == notLike;
      Ok(like + notLike)
  }

  /** All six variants, in emission order. */
  function AllVariants(): seq<Variant> {
    [LeftLike, RightLike, LeftRightLike, NotLeftLike, NotRightLike, NotLeftRightLike]
  }

  /** The six methods are the six variants applied in order. */
  lemma ColumnMethodsFollowVariants(column: Column)
    requires |column.javaProperty| > 0
    ensures forall i :: 0 <= i < 6 ==> Ok(ColumnMethods(column).value[i]) == SingleValueMethod(column, AllVariants()[i])
  {
    var ms := ColumnMethods(column).value;
    forall i | 0 <= i < 6
      ensures Ok(ms[i]) == SingleValueMethod(column, AllVariants()[i])
    {
      if i < 3 {
        assert ms[i] == ms[..3][i];
      } else {
        assert ms[i] == ms[3..][i - 3];
      }
    }
  }

  /** The name reads back as `and`, the capitalised property, then the variant's fragment. */
  lemma MethodNameDecodes(column: Column, v: Variant)
    requires |column.javaProperty| > 0
    ensures var n := SingleValueMethod(column, v).value.name;
      && |n| == 3 + |column.javaProperty| + |v.fragment|
      && n[..3] == "and"
      && n[3..3 + |column.javaProperty|] == Capitalize(column.javaProperty)
      && n[3 + |column.javaProperty|..] == v.fragment
  {
    var c := Capitalize(column.javaProperty);
    var n := "and" + c + v.fragment;
    assert n[..3] == "and";
    assert n[3..3 + |c|] == c;
    assert n[3 + |c|..] == v.fragment;
  }

  /** The six fragments have pairwise different lengths. */
  lemma FragmentLengthsDiffer()
    ensures forall i, j :: 0 <= i < j < 6 ==> |AllVariants()[i].fragment| != |AllVariants()[j].fragment|
  {
    var vs := AllVariants();
    assert |vs[0].fragment| == 8 && |vs[1].fragment| == 9 && |vs[2].fragment| == 13;
    assert |vs[3].fragment| == 11 && |vs[4].fragment| == 12 && |vs[5].fragment| == 16;
  }

  /** The six method names of one column are pairwise distinct. */
  lemma SixNamesDistinct(column: Column)
    requires |column.javaProperty| > 0
    ensures forall i, j :: 0 <= i < j < 6 ==> ColumnMethods(column).value[i].name != ColumnMethods(column).value[j].name
  {
    var ms := ColumnMethods(column).value;
    ColumnMethodsFollowVariants(column);
    FragmentLengthsDiffer();
    forall i, j | 0 <= i < j < 6
      ensures ms[i].name != ms[j].name
    {
      MethodNameDecodes(column, AllVariants()[i]);
      MethodNameDecodes(column, AllVariants()[j]);
    }
  }

  /**
   The registered condition reads back, in order, as the registration
   call, the aliased column name, the operator, the value expression and
   the property name the criterion is filed under.
   */
  lemma CriterionLineDecodes(column: Column, v: Variant)
    requires |column.javaProperty| > 0
    ensures var b := SingleValueMethod(column, v).value.body[0];
      var call := CriterionCall(column);
      var operator := " " + v.operator + "\", ";
      var value := ValueExpression(v.position);
      var property := ", \"" + column.javaProperty + "\");";
      var k1 := |call| + |column.aliasedName|;
      var k2 := k1 + |operator|;
      var k3 := k2 + |value|;
      && |b| == k3 + |property|
      && b[..|call|] == call
      && b[|call|..k1] == column.aliasedName
      && b[k1..k2] == operator
      && b[k2..k3] == value
      && b[k3..] == property
  {
    var operator := " " + v.operator + "\", ";
    var property := ", \"" + column.javaProperty + "\");";
    assert CriterionArguments(column, v) == column.aliasedName + operator + ValueExpression(v.position) + property;
    FivePieces(CriterionCall(column), column.aliasedName, operator, ValueExpression(v.position), property);
  }

  /** Each of five concatenated pieces is found back at its offset. */
  lemma FivePieces(a: string, b: string, c: string, d: string, e: string)
    ensures var s := a + (b + c + d + e);
      var k1 := |a| + |b|;
      var k2 := k1 + |c|;
      var k3 := k2 + |d|;
      && |s| == k3 + |e|
      && s[..|a|] == a && s[|a|..k1] == b && s[k1..k2] == c && s[k2..k3] == d && s[k3..] == e
  {
    var s := a + (b + c + d + e);
    assert s[..|a|] == a;
    assert s[|a|..] == b + c + d + e;
  }

  /** The body line starts with the registration call chosen by the type handler. */
  lemma CriterionRouting(column: Column, v: Variant)
    requires |column.javaProperty| > 0
    ensures HasValue(column.typeHandler) ==>
      StartsWith(SingleValueMethod(column, v).value.body[0], "add" + Capitalize(column.javaProperty) + "Criterion(\"")
    ensures !HasValue(column.typeHandler) ==>
      StartsWith(SingleValueMethod(column, v).value.body[0], "addCriterion(\"")
  {
    StartsWithAppend(CriterionCall(column), CriterionArguments(column, v), CriterionCall(column));
  }

  /**
   Column `name` aliased `user_name`, without a type handler: the left
   `like` method is `andNameLeftLike` and registers `user_name like`
   with the value prefixed by the wildcard, under the property `name`.
   */
  lemma NameColumnLeftLike(column: Column)
    requires column.javaProperty == "name" && column.aliasedName == "user_name" && column.typeHandler == ""
    ensures SingleValueMethod(column, LeftLike).Ok?
    ensures SingleValueMethod(column, LeftLike).value.name == "and" + "Name" + "LeftLike"
    ensures SingleValueMethod(column, LeftLike).value.body[0]
         == "addCriterion(\"" + "user_name like\", " + "\"%\" + value" + ", \"name\");"
  {
    CapitalizeName();
    assert CriterionCall(column) == "addCriterion(\"";
    NameLeftLikeArguments(column);
  }

  lemma CapitalizeName()
    ensures Capitalize("name") == "Name"
  {
    assert UpperChar('n') == 'N';
    assert "name"[1..] == "ame";
  }

  lemma NameLeftLikeArguments(column: Column)
    requires column.javaProperty == "name" && column.aliasedName == "user_name"
    ensures CriterionArguments(column, LeftLike) == "user_name like\", " + "\"%\" + value" + ", \"name\");"
  {
    assert ValueExpression(Left) == "\"%\" + value";
  }
}
