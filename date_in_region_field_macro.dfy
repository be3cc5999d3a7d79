/**
 * `DateInRegionFieldMacro.expansion`: reads the attribute's arguments and
 * returns the declarations to add to the annotated type, either none or
 * the one produced by `GetterSetter.MakeGetterSetter`.
 *
 * The attribute's syntax is reduced to what the expansion inspects: the
 * shape of the argument clause, each argument's label and expression, and
 * for string literals their segments.
 */
module DateInRegionFieldMacro {
  import opened Wrappers
  import GetterSetter
  import TemplateProperties

  /** A piece of a string literal: fixed text, or an interpolation `\(…)`. */
  datatype Segment = StringSegment(content: string) | ExpressionSegment

  datatype Expression =
    | StringLiteral(segments: seq<Segment>)
    | BooleanLiteral(literal: string)    // the keyword's text: "true" or "false"
    | OtherExpression                    // any other expression, e.g. a variable or a call

  /** One argument, `label: expression` or just `expression`. */
  datatype Argument = Argument(argumentLabel: Option<string>, expression: Expression)

  /** What follows the attribute's name. */
  datatype AttributeArguments =
    | NoArguments                           // `@DateInRegionField` with no parentheses
    | ArgumentList(arguments: seq<Argument>) // `@DateInRegionField(a, b: c, …)`
    | OtherArgumentForm                     // one of the special argument forms of other attributes

  /** The first guard: the text of the first segment of a string literal in first position. */
  function FieldName(args: AttributeArguments): (name: Option<string>)
    ensures name.Some? ==> args.ArgumentList? && |args.arguments| > 0
  {
    if args.ArgumentList? && |args.arguments| > 0
       && args.arguments[0].expression.StringLiteral?
       && |args.arguments[0].expression.segments| > 0
       && args.arguments[0].expression.segments[0].StringSegment?
    then Some(args.arguments[0].expression.segments[0].content)
    else None
  }

  /** The second guard: exactly two arguments, the last one the literal `true`. */
  predicate RequestsNullable(args: AttributeArguments)
  {
    && args.ArgumentList?
    && |args.arguments| == 2
    && var last := args.arguments[|args.arguments| - 1];
    && last.expression.BooleanLiteral?
    && last.expression.literal == "true"
  }

  /** The declarations the macro adds: at most one, and one exactly when a field name is found. */
  function Expansion(args: AttributeArguments): (decls: seq<string>)
    ensures |decls| <= 1
    ensures |decls| == 1 <==> FieldName(args).Some?
  {
    match FieldName(args)
    case None => []
    case Some(varName) =>
      if RequestsNullable(args) then [GetterSetter.MakeGetterSetter(varName, true)]
      else [GetterSetter.MakeGetterSetter(varName, false)]
  }

  /** The malformed shapes, each of which the expansion answers with nothing. */
  predicate Malformed(args: AttributeArguments)
  {
    || !args.ArgumentList?
    || args.arguments == []
    || !args.arguments[0].expression.StringLiteral?
    || args.arguments[0].expression.segments == []
    || args.arguments[0].expression.segments[0] == ExpressionSegment
  }

  /** No declaration, and no error, exactly for the malformed shapes. */
  lemma MalformedYieldsNothing(args: AttributeArguments)
    ensures Expansion(args) == [] <==> Malformed(args)
  {
    if !Malformed(args) {
      var first := args.arguments[0].expression.segments[0];
      assert first.StringSegment?;
    }
  }

  /**
   * A string literal in first position whose first segment is plain text
   * yields exactly one declaration, built from that text, whatever follows
   * it in the literal; the nullable template is used exactly for two
   * arguments of which the second is the literal `true`.
   */
  lemma WellFormedYieldsOne(arguments: seq<Argument>, name: string, rest: seq<Segment>)
    requires |arguments| > 0
    requires arguments[0].expression == StringLiteral([StringSegment(name)] + rest)
    ensures Expansion(ArgumentList(arguments))
         == [GetterSetter.MakeGetterSetter(name, |arguments| == 2 && arguments[1].expression == BooleanLiteral("true"))]
  {
  }

  /**
   * Once a field name is found, the output is the nullable declaration if
   * and only if there are exactly two arguments and the second is the
   * literal `true`; every other shape gets the non-nullable one.
   */
  lemma NullableIff(arguments: seq<Argument>, name: string)
    requires FieldName(ArgumentList(arguments)) == Some(name)
    ensures RequestsNullable(ArgumentList(arguments))
        <==> |arguments| == 2 && arguments[1].expression == BooleanLiteral("true")
    ensures Expansion(ArgumentList(arguments)) == [GetterSetter.MakeGetterSetter(name, true)]
        <==> |arguments| == 2 && arguments[1].expression == BooleanLiteral("true")
    ensures Expansion(ArgumentList(arguments)) == [GetterSetter.MakeGetterSetter(name, false)]
        <==> !(|arguments| == 2 && arguments[1].expression == BooleanLiteral("true"))
  {
    TemplateProperties.VariantsDiffer(name);
  }

  /**
   * Labels are never looked at: two argument lists with the same
   * expressions in the same order expand identically, so `optional: true`
   * does what `nullable: true` does.
   */
  lemma LabelsIgnored(a: seq<Argument>, b: seq<Argument>)
    requires |a| == |b|
    requires forall i :: 0 <= i < |a| ==> a[i].expression == b[i].expression
    ensures Expansion(ArgumentList(a)) == Expansion(ArgumentList(b))
  {
    if |a| > 0 {
      assert a[0].expression == b[0].expression;
      assert a[|a| - 1].expression == b[|b| - 1].expression;
    }
  }
}
