/**
 * The expansions the repository's macro tests expect, checked against the
 * model. Each expected block is written line by line, exactly as the test
 * spells it, with its indentation counted from the class body (one level
 * shallower than in the test, where the block sits inside `class … { }`).
 *
 * Long string concatenations are costly for the verifier, so a line that
 * joins a field name to a long piece of fixed text is assembled, by a lemma
 * for its shape, from two shorter joins stated for each name.
 */
module MacroTests {
  import opened Wrappers
  import opened TextLines
  import opened GetterSetter
  import opened DateInRegionFieldMacro
  import AccessorRendering

  /** A plain string literal argument, `"<text>"`, with no label. */
  function NameArgument(text: string): Argument
  {
    Argument(None, StringLiteral([StringSegment(text)]))
  }

  // ------------------------------------------------------------ expected text

  /** `testDateField`: `@DateInRegionField("date")`. */
  function DateExpected(): seq<Line>
  {
    [ Line(0, "var date: DateInRegion {"),
      Line(1, "get {"),
      Line(2, "let tz = TimeZone.init(secondsFromGMT: dateTZ)"),
      Line(2, "return dateUTC.in(region: Region(zone: tz ?? TimeZone.current))"),
      Line(1, "}"),
      Line(1, "set {"),
      Line(2, "dateUTC = newValue.date"),
      Line(2, "dateTZ = newValue.region.timeZone.secondsFromGMT()"),
      Line(1, "}"),
      Line(0, "}") ]
  }

  /** `testDateFieldOptional`: `@DateInRegionField("date", nullable: true)`. */
  function OptionalDateExpected(): seq<Line>
  {
    [ Line(0, "var date: DateInRegion? {"),
      Line(1, "get {"),
      Line(2, "if let dbTZ = dateTZ, let dbDate = dateUTC {"),
      Line(3, "let tz = TimeZone.init(secondsFromGMT: dbTZ)"),
      Line(3, "return dbDate.in(region: Region(zone: tz ?? TimeZone.current))"),
      Line(2, "}"),
      Line(2, "return nil"),
      Line(1, "}"),
      Line(1, "set {"),
      Line(2, "if let newDate = newValue {"),
      Line(3, "dateUTC = newDate.date"),
      Line(3, "dateTZ = newDate.region.timeZone.secondsFromGMT()"),
      Line(2, "}"),
      Line(1, "}"),
      Line(0, "}") ]
  }

  /** `testDateFieldManyFields`, first block: `@DateInRegionField("wakeUp")`. */
  function WakeUpExpected(): seq<Line>
  {
    [ Line(0, "var wakeUp: DateInRegion {"),
      Line(1, "get {"),
      Line(2, "let tz = TimeZone.init(secondsFromGMT: wakeUpTZ)"),
      Line(2, "return wakeUpUTC.in(region: Region(zone: tz ?? TimeZone.current))"),
      Line(1, "}"),
      Line(1, "set {"),
      Line(2, "wakeUpUTC = newValue.date"),
      Line(2, "wakeUpTZ = newValue.region.timeZone.secondsFromGMT()"),
      Line(1, "}"),
      Line(0, "}") ]
  }

  /** `testDateFieldManyFields`, second block: `@DateInRegionField("bedtime", optional: true)`. */
  function BedtimeExpected(): seq<Line>
  {
    [ Line(0, "var bedtime: DateInRegion? {"),
      Line(1, "get {"),
      Line(2, "if let dbTZ = bedtimeTZ, let dbDate = bedtimeUTC {"),
      Line(3, "let tz = TimeZone.init(secondsFromGMT: dbTZ)"),
      Line(3, "return dbDate.in(region: Region(zone: tz ?? TimeZone.current))"),
      Line(2, "}"),
      Line(2, "return nil"),
      Line(1, "}"),
      Line(1, "set {"),
      Line(2, "if let newDate = newValue {"),
      Line(3, "bedtimeUTC = newDate.date"),
      Line(3, "bedtimeTZ = newDate.region.timeZone.secondsFromGMT()"),
      Line(2, "}"),
      Line(1, "}"),
      Line(0, "}") ]
  }

  // ------------------------------------------------------------ the four tests

  /** `@DateInRegionField("date")` adds exactly the expected non-nullable property. */
  lemma DateField()
    ensures Expansion(ArgumentList([NameArgument("date")])) == [Text(DateExpected())]
  {
    NameAlone("date");
    DateTemplate();
  }

  /** `@DateInRegionField("date", nullable: true)` adds exactly the expected nullable property. */
  lemma OptionalDateField()
    ensures Expansion(ArgumentList([NameArgument("date"), Argument(Some("nullable"), BooleanLiteral("true"))]))
         == [Text(OptionalDateExpected())]
  {
    NameThenTrue("date", "nullable");
    OptionalDateTemplate();
  }

  /** `@DateInRegionField("wakeUp")` adds exactly the expected non-nullable property. */
  lemma WakeUpField()
    ensures Expansion(ArgumentList([NameArgument("wakeUp")])) == [Text(WakeUpExpected())]
  {
    NameAlone("wakeUp");
    WakeUpTemplate();
  }

  /** `@DateInRegionField("bedtime", optional: true)`: a label other than `nullable` still selects the nullable property. */
  lemma BedtimeField()
    ensures Expansion(ArgumentList([NameArgument("bedtime"), Argument(Some("optional"), BooleanLiteral("true"))]))
         == [Text(BedtimeExpected())]
  {
    NameThenTrue("bedtime", "optional");
    BedtimeTemplate();
  }

  /** A lone field name selects the non-nullable property. */
  lemma NameAlone(name: string)
    ensures Expansion(ArgumentList([NameArgument(name)])) == [MakeGetterSetter(name, false)]
  {
    WellFormedYieldsOne([NameArgument(name)], name, []);
  }

  /** A field name followed by `true`, under any label, selects the nullable property. */
  lemma NameThenTrue(name: string, argumentLabel: string)
    ensures Expansion(ArgumentList([NameArgument(name), Argument(Some(argumentLabel), BooleanLiteral("true"))]))
         == [MakeGetterSetter(name, true)]
  {
    WellFormedYieldsOne([NameArgument(name), Argument(Some(argumentLabel), BooleanLiteral("true"))], name, []);
  }

  // ------------------------------------------------------------ template, line by line

  lemma DateTemplate()
    ensures TemplateLiteral("date", false) == DateExpected()
    ensures MakeGetterSetter("date", false) == Text(DateExpected())
  {
    DateFields();
    DateHeader();
    DateZone();
    DateReturnFront();
    DateReturnWhole();
    DateAssignUtc();
    DateOffsetFront();
    DateOffsetWhole();
    ReturnLine("dateUTC", "return dateUTC.in(region: Region(zone: ", "return dateUTC.in(region: Region(zone: tz ?? TimeZone.current))");
    OffsetLine("dateTZ", "newValue", "dateTZ = newValue.region", "dateTZ = newValue.region.timeZone.secondsFromGMT()");
    AccessorRendering.JoinedNewValueOffset();
    PlainTemplate("date", "dateUTC", "dateTZ",
      "var date: DateInRegion {",
      "let tz = TimeZone.init(secondsFromGMT: dateTZ)",
      "return dateUTC.in(region: Region(zone: tz ?? TimeZone.current))",
      "dateUTC = newValue.date",
      "dateTZ = newValue.region.timeZone.secondsFromGMT()");
  }

  lemma OptionalDateTemplate()
    ensures TemplateLiteral("date", true) == OptionalDateExpected()
    ensures MakeGetterSetter("date", true) == Text(OptionalDateExpected())
  {
    DateFields();
    OptionalDateHeader();
    OptionalDateLookup();
    OptionalDateAssignUtc();
    OptionalDateOffsetFront();
    OptionalDateOffsetWhole();
    OffsetLine("dateTZ", "newDate", "dateTZ = newDate.region", "dateTZ = newDate.region.timeZone.secondsFromGMT()");
    AccessorRendering.JoinedNewDateOffset();
    OptionalTemplate("date", "dateUTC", "dateTZ",
      "var date: DateInRegion? {",
      "if let dbTZ = dateTZ, let dbDate = dateUTC {",
      "dateUTC = newDate.date",
      "dateTZ = newDate.region.timeZone.secondsFromGMT()");
  }

  lemma WakeUpTemplate()
    ensures TemplateLiteral("wakeUp", false) == WakeUpExpected()
    ensures MakeGetterSetter("wakeUp", false) == Text(WakeUpExpected())
  {
    WakeUpFields();
    WakeUpHeader();
    WakeUpZone();
    WakeUpReturnFront();
    WakeUpReturnWhole();
    WakeUpAssignUtc();
    WakeUpOffsetFront();
    WakeUpOffsetWhole();
    ReturnLine("wakeUpUTC", "return wakeUpUTC.in(region: Region(zone: ", "return wakeUpUTC.in(region: Region(zone: tz ?? TimeZone.current))");
    OffsetLine("wakeUpTZ", "newValue", "wakeUpTZ = newValue.region", "wakeUpTZ = newValue.region.timeZone.secondsFromGMT()");
    AccessorRendering.JoinedNewValueOffset();
    PlainTemplate("wakeUp", "wakeUpUTC", "wakeUpTZ",
      "var wakeUp: DateInRegion {",
      "let tz = TimeZone.init(secondsFromGMT: wakeUpTZ)",
      "return wakeUpUTC.in(region: Region(zone: tz ?? TimeZone.current))",
      "wakeUpUTC = newValue.date",
      "wakeUpTZ = newValue.region.timeZone.secondsFromGMT()");
  }

  lemma BedtimeTemplate()
    ensures TemplateLiteral("bedtime", true) == BedtimeExpected()
    ensures MakeGetterSetter("bedtime", true) == Text(BedtimeExpected())
  {
    BedtimeFields();
    BedtimeHeader();
    BedtimeLookup();
    BedtimeAssignUtc();
    BedtimeOffsetFront();
    BedtimeOffsetWhole();
    OffsetLine("bedtimeTZ", "newDate", "bedtimeTZ = newDate.region", "bedtimeTZ = newDate.region.timeZone.secondsFromGMT()");
    AccessorRendering.JoinedNewDateOffset();
    OptionalTemplate("bedtime", "bedtimeUTC", "bedtimeTZ",
      "var bedtime: DateInRegion? {",
      "if let dbTZ = bedtimeTZ, let dbDate = bedtimeUTC {",
      "bedtimeUTC = newDate.date",
      "bedtimeTZ = newDate.region.timeZone.secondsFromGMT()");
  }

  /**
   * The non-nullable template, given the text of each line that mentions
   * the name; its text is those lines joined.
   */
  lemma PlainTemplate(varName: string, utc: string, tz: string,
                      header: string, zone: string, ret: string, assignUtc: string, assignTz: string)
    requires UtcField(varName) == utc && TzField(varName) == tz
    requires "var " + varName + ": DateInRegion {" == header
    requires "let tz = TimeZone.init(secondsFromGMT: " + tz + ")" == zone
    requires "return " + utc + ".in(region: Region(zone: tz ?? TimeZone.current))" == ret
    requires utc + " = newValue.date" == assignUtc
    requires tz + " = newValue.region.timeZone.secondsFromGMT()" == assignTz
    ensures TemplateLiteral(varName, false)
         == [ Line(0, header), Line(1, "get {"), Line(2, zone), Line(2, ret), Line(1, "}"),
              Line(1, "set {"), Line(2, assignUtc), Line(2, assignTz), Line(1, "}"), Line(0, "}") ]
    ensures MakeGetterSetter(varName, false) == Text(TemplateLiteral(varName, false))
  {
  }

  /**
   * The nullable template, given the text of each line that mentions the
   * name; its text is those lines joined.
   */
  lemma OptionalTemplate(varName: string, utc: string, tz: string,
                         header: string, lookup: string, assignUtc: string, assignTz: string)
    requires UtcField(varName) == utc && TzField(varName) == tz
    requires "var " + varName + ": DateInRegion? {" == header
    requires "if let dbTZ = " + tz + ", let dbDate = " + utc + " {" == lookup
    requires utc + " = newDate.date" == assignUtc
    requires tz + " = newDate.region.timeZone.secondsFromGMT()" == assignTz
    ensures TemplateLiteral(varName, true)
         == [ Line(0, header), Line(1, "get {"), Line(2, lookup),
              Line(3, "let tz = TimeZone.init(secondsFromGMT: dbTZ)"),
              Line(3, "return dbDate.in(region: Region(zone: tz ?? TimeZone.current))"),
              Line(2, "}"), Line(2, "return nil"), Line(1, "}"), Line(1, "set {"),
              Line(2, "if let newDate = newValue {"), Line(3, assignUtc), Line(3, assignTz),
              Line(2, "}"), Line(1, "}"), Line(0, "}") ]
    ensures MakeGetterSetter(varName, true) == Text(TemplateLiteral(varName, true))
  {
  }

  // ------------------------------------------------------------ long lines

  /** `return <utc>.in(…)`, assembled from its text up to `zone: ` and the rest. */
  lemma ReturnLine(utc: string, front: string, whole: string)
    requires "return " + utc + ".in(region: Region(zone: " == front
    requires front + "tz ?? TimeZone.current))" == whole
    ensures "return " + utc + ".in(region: Region(zone: tz ?? TimeZone.current))" == whole
  {
    AccessorRendering.JoinedInRegionHalves();
    Associative("return " + utc, ".in(region: Region(zone: ", "tz ?? TimeZone.current))");
  }

  /** `<tz> = <source>.region.timeZone.secondsFromGMT()`, assembled from its text up to `.region` and the rest. */
  lemma OffsetLine(tz: string, source: string, front: string, whole: string)
    requires tz + " = " + source + ".region" == front
    requires front + ".timeZone.secondsFromGMT()" == whole
    ensures tz + (" = " + source + ".region.timeZone.secondsFromGMT()") == whole
  {
    var region, rest := ".region", ".timeZone.secondsFromGMT()";
    assert region + rest == ".region.timeZone.secondsFromGMT()";
    Associative(" = " + source, region, rest);
    Associative(tz, " = " + source + region, rest);
    Associative(tz, " = " + source, region);
    Associative(tz, " = ", source);
  }

  // ------------------------------------------------------------ the name-specific joins

  lemma DateFields()
    ensures UtcField("date") == "dateUTC" && TzField("date") == "dateTZ"
  {
  }

  lemma DateHeader()
    ensures "var " + "date" + ": DateInRegion {" == "var date: DateInRegion {"
  {
  }

  lemma DateZone()
    ensures "let tz = TimeZone.init(secondsFromGMT: " + "dateTZ" + ")" == "let tz = TimeZone.init(secondsFromGMT: dateTZ)"
  {
  }

  lemma DateReturnFront()
    ensures "return " + "dateUTC" + ".in(region: Region(zone: " == "return dateUTC.in(region: Region(zone: "
  {
  }

  lemma DateReturnWhole()
    ensures "return dateUTC.in(region: Region(zone: " + "tz ?? TimeZone.current))"
         == "return dateUTC.in(region: Region(zone: tz ?? TimeZone.current))"
  {
  }

  lemma DateAssignUtc()
    ensures "dateUTC" + " = newValue.date" == "dateUTC = newValue.date"
  {
  }

  lemma DateOffsetFront()
    ensures "dateTZ" + " = " + "newValue" + ".region" == "dateTZ = newValue.region"
  {
  }

  lemma DateOffsetWhole()
    ensures "dateTZ = newValue.region" + ".timeZone.secondsFromGMT()" == "dateTZ = newValue.region.timeZone.secondsFromGMT()"
  {
  }

  lemma OptionalDateHeader()
    ensures "var " + "date" + ": DateInRegion? {" == "var date: DateInRegion? {"
  {
  }

  lemma OptionalDateLookup()
    ensures "if let dbTZ = " + "dateTZ" + ", let dbDate = " + "dateUTC" + " {" == "if let dbTZ = dateTZ, let dbDate = dateUTC {"
  {
  }

  lemma OptionalDateAssignUtc()
    ensures "dateUTC" + " = newDate.date" == "dateUTC = newDate.date"
  {
  }

  lemma OptionalDateOffsetFront()
    ensures "dateTZ" + " = " + "newDate" + ".region" == "dateTZ = newDate.region"
  {
  }

  lemma OptionalDateOffsetWhole()
    ensures "dateTZ = newDate.region" + ".timeZone.secondsFromGMT()" == "dateTZ = newDate.region.timeZone.secondsFromGMT()"
  {
  }

  lemma WakeUpFields()
    ensures UtcField("wakeUp") == "wakeUpUTC" && TzField("wakeUp") == "wakeUpTZ"
  {
  }

  lemma WakeUpHeader()
    ensures "var " + "wakeUp" + ": DateInRegion {" == "var wakeUp: DateInRegion {"
  {
  }

  lemma WakeUpZone()
    ensures "let tz = TimeZone.init(secondsFromGMT: " + "wakeUpTZ" + ")" == "let tz = TimeZone.init(secondsFromGMT: wakeUpTZ)"
  {
  }

  lemma WakeUpReturnFront()
    ensures "return " + "wakeUpUTC" + ".in(region: Region(zone: " == "return wakeUpUTC.in(region: Region(zone: "
  {
  }

  lemma WakeUpReturnWhole()
    ensures "return wakeUpUTC.in(region: Region(zone: " + "tz ?? TimeZone.current))"
         == "return wakeUpUTC.in(region: Region(zone: tz ?? TimeZone.current))"
  {
  }

  lemma WakeUpAssignUtc()
    ensures "wakeUpUTC" + " = newValue.date" == "wakeUpUTC = newValue.date"
  {
  }

  lemma WakeUpOffsetFront()
    ensures "wakeUpTZ" + " = " + "newValue" + ".region" == "wakeUpTZ = newValue.region"
  {
  }

  lemma WakeUpOffsetWhole()
    ensures "wakeUpTZ = newValue.region" + ".timeZone.secondsFromGMT()" == "wakeUpTZ = newValue.region.timeZone.secondsFromGMT()"
  {
  }

  lemma BedtimeFields()
    ensures UtcField("bedtime") == "bedtimeUTC" && TzField("bedtime") == "bedtimeTZ"
  {
  }

  lemma BedtimeHeader()
    ensures "var " + "bedtime" + ": DateInRegion? {" == "var bedtime: DateInRegion? {"
  {
  }

  lemma BedtimeLookup()
    ensures "if let dbTZ = " + "bedtimeTZ" + ", let dbDate = " + "bedtimeUTC" + " {" == "if let dbTZ = bedtimeTZ, let dbDate = bedtimeUTC {"
  {
  }

  lemma BedtimeAssignUtc()
    ensures "bedtimeUTC" + " = newDate.date" == "bedtimeUTC = newDate.date"
  {
  }

  lemma BedtimeOffsetFront()
    ensures "bedtimeTZ" + " = " + "newDate" + ".region" == "bedtimeTZ = newDate.region"
  {
  }

  lemma BedtimeOffsetWhole()
    ensures "bedtimeTZ = newDate.region" + ".timeZone.secondsFromGMT()" == "bedtimeTZ = newDate.region.timeZone.secondsFromGMT()"
  {
  }
}
