/**
 * The syntax tree `GetterSetter.Accessor` prints as exactly the template
 * literal `GetterSetter.TemplateLiteral`, for every field name and both
 * variants. The proof goes statement by statement; each lemma named
 * `Joined…` merges two adjacent pieces of fixed text into one.
 */
module AccessorRendering {
  import opened TextLines
  import opened GeneratedCode
  import opened GetterSetter

  /** The syntax tree prints as exactly the template literal. */
  lemma AccessorRendersToTemplate(varName: string, nullable: bool)
    ensures PropertyLines(Accessor(varName, nullable)) == TemplateLiteral(varName, nullable)
  {
    if nullable {
      NullableRendersToTemplate(varName);
    } else {
      NonNullableRendersToTemplate(varName);
    }
  }

  lemma NullableRendersToTemplate(varName: string)
    ensures PropertyLines(Accessor(varName, true)) == TemplateLiteral(varName, true)
  {
    NullableGetterLines(varName);
    NullableSetterLines(varName);
    HeaderLine(varName, true);
  }

  lemma NonNullableRendersToTemplate(varName: string)
    ensures PropertyLines(Accessor(varName, false)) == TemplateLiteral(varName, false)
  {
    NonNullableGetterLines(varName);
    NonNullableSetterLines(varName);
    HeaderLine(varName, false);
  }

  // ------------------------------------------------------------ the blocks

  lemma NullableGetterLines(varName: string)
    ensures BlockLines(Accessor(varName, true).getter, 2) == TemplateLiteral(varName, true)[2..7]
  {
    var utc, tz := UtcField(varName), TzField(varName);
    var bindings := [Binding("dbTZ", Ref(tz)), Binding("dbDate", Ref(utc))];
    var found := [Let("tz", ZoneFromOffset(Ref("dbTZ"))), Return(InRegion(Ref("dbDate"), Ref("tz")))];
    var getter := Accessor(varName, true).getter;
    assert getter == [IfLet(bindings, found), Return(NilLiteral)];
    FoundLines();
    LookupOpeningLine(tz, utc);
    ReturnNilLine();
    BlockOfTwo(getter, 2);
  }

  /** The body of the nullable getter's `if let`. */
  lemma FoundLines()
    ensures BlockLines([Let("tz", ZoneFromOffset(Ref("dbTZ"))), Return(InRegion(Ref("dbDate"), Ref("tz")))], 3)
         == [ Line(3, "let tz = TimeZone.init(secondsFromGMT: dbTZ)"),
              Line(3, "return dbDate.in(region: Region(zone: tz ?? TimeZone.current))") ]
  {
    ZoneLine("dbTZ", 3);
    JoinedZoneOfDbTZ();
    ReturnInRegionLine("dbDate", 3);
    JoinedReturnDbDate();
    BlockOfTwo([Let("tz", ZoneFromOffset(Ref("dbTZ"))), Return(InRegion(Ref("dbDate"), Ref("tz")))], 3);
  }

  lemma NullableSetterLines(varName: string)
    ensures BlockLines(Accessor(varName, true).setter, 2) == TemplateLiteral(varName, true)[9..13]
  {
    var utc, tz := UtcField(varName), TzField(varName);
    var assigns := [Assign(utc, DateOf(Ref("newDate"))), Assign(tz, OffsetOf(Ref("newDate")))];
    var setter := Accessor(varName, true).setter;
    assert setter == [IfLet([Binding("newDate", Ref("newValue"))], assigns)];
    AssignDateLine(utc, "newDate", 3);
    AssignOffsetLine(tz, "newDate", 3);
    JoinedNewDateDate();
    JoinedNewDateOffset();
    BlockOfTwo(assigns, 3);
    UnwrapOpeningLine();
    BlockOfOne(setter, 2);
  }

  lemma NonNullableGetterLines(varName: string)
    ensures BlockLines(Accessor(varName, false).getter, 2) == TemplateLiteral(varName, false)[2..4]
  {
    var getter := Accessor(varName, false).getter;
    assert getter == [Let("tz", ZoneFromOffset(Ref(TzField(varName)))), Return(InRegion(Ref(UtcField(varName)), Ref("tz")))];
    ZoneLine(TzField(varName), 2);
    ReturnInRegionLine(UtcField(varName), 2);
    BlockOfTwo(getter, 2);
  }

  lemma NonNullableSetterLines(varName: string)
    ensures BlockLines(Accessor(varName, false).setter, 2) == TemplateLiteral(varName, false)[6..8]
  {
    var utc, tz := UtcField(varName), TzField(varName);
    var setter := Accessor(varName, false).setter;
    assert setter == [Assign(utc, DateOf(Ref("newValue"))), Assign(tz, OffsetOf(Ref("newValue")))];
    AssignDateLine(utc, "newValue", 2);
    AssignOffsetLine(tz, "newValue", 2);
    JoinedNewValueDate();
    JoinedNewValueOffset();
    BlockOfTwo(setter, 2);
  }

  lemma BlockOfOne(body: seq<Stmt>, depth: nat)
    requires |body| == 1
    ensures BlockLines(body, depth) == StmtLines(body[0], depth)
  {
    assert body[1..] == [];
  }

  lemma BlockOfTwo(body: seq<Stmt>, depth: nat)
    requires |body| == 2
    ensures BlockLines(body, depth) == StmtLines(body[0], depth) + StmtLines(body[1], depth)
  {
    BlockOfOne(body[1..], depth);
  }

  // ---------------------------------------------------- one line at a time

  lemma HeaderLine(varName: string, nullable: bool)
    ensures "var " + varName + ": " + TypeText(nullable) + " {"
         == (if nullable then "var " + varName + ": DateInRegion? {" else "var " + varName + ": DateInRegion {")
  {
    var head := "var " + varName;
    Associative(head, ": ", TypeText(nullable));
    Associative(head, ": " + TypeText(nullable), " {");
    if nullable {
      JoinedOptionalType();
    } else {
      JoinedPlainType();
    }
  }

  lemma AssignDateLine(target: string, value: string, depth: nat)
    ensures StmtLines(Assign(target, DateOf(Ref(value))), depth) == [Line(depth, target + (" = " + value + ".date"))]
  {
    assert ExprText(Ref(value)) == value;
    Associative(target, " = ", value + ".date");
    Associative(" = ", value, ".date");
  }

  lemma AssignOffsetLine(target: string, value: string, depth: nat)
    ensures StmtLines(Assign(target, OffsetOf(Ref(value))), depth)
         == [Line(depth, target + (" = " + value + ".region.timeZone.secondsFromGMT()"))]
  {
    assert ExprText(Ref(value)) == value;
    Associative(target, " = ", value + ".region.timeZone.secondsFromGMT()");
    Associative(" = ", value, ".region.timeZone.secondsFromGMT()");
  }

  lemma ZoneLine(offset: string, depth: nat)
    ensures StmtLines(Let("tz", ZoneFromOffset(Ref(offset))), depth)
         == [Line(depth, "let tz = TimeZone.init(secondsFromGMT: " + offset + ")")]
  {
    assert ExprText(Ref(offset)) == offset;
    var opening := "TimeZone.init(secondsFromGMT: ";
    JoinedLetTz();
    JoinedLetTzZone();
    Associative("let tz = ", opening + offset, ")");
    Associative("let tz = ", opening, offset);
  }

  lemma ReturnInRegionLine(date: string, depth: nat)
    ensures StmtLines(Return(InRegion(Ref(date), Ref("tz"))), depth)
         == [Line(depth, "return " + date + ".in(region: Region(zone: tz ?? TimeZone.current))")]
  {
    var suffix := ".in(region: Region(zone: tz ?? TimeZone.current))";
    JoinedInRegionTz();
    assert ExprText(Ref(date)) == date;
    assert ExprText(Ref("tz")) == "tz";
    var opening := ".in(region: Region(zone: ";
    Associative(date, opening + "tz", " ?? TimeZone.current))");
    Associative(date, opening, "tz");
    assert ExprText(InRegion(Ref(date), Ref("tz"))) == date + suffix;
    Associative("return ", date, suffix);
  }

  lemma ReturnNilLine()
    ensures StmtLines(Return(NilLiteral), 2) == [Line(2, "return nil")]
  {
    assert ExprText(NilLiteral) == "nil";
    assert "return " + "nil" == "return nil";
  }

  /** The opening line of the nullable getter's `if let`. */
  lemma LookupOpeningLine(tz: string, utc: string)
    ensures "if " + BindingsText([Binding("dbTZ", Ref(tz)), Binding("dbDate", Ref(utc))]) + " {"
         == "if let dbTZ = " + tz + ", let dbDate = " + utc + " {"
  {
    LookupBindingsText(tz, utc);
    var rest := ", let dbDate = ";
    Associative("if ", "let dbTZ = " + tz + rest, utc);
    Associative("if ", "let dbTZ = " + tz, rest);
    Associative("if ", "let dbTZ = ", tz);
  }

  lemma LookupBindingsText(tz: string, utc: string)
    ensures BindingsText([Binding("dbTZ", Ref(tz)), Binding("dbDate", Ref(utc))])
         == "let dbTZ = " + tz + ", let dbDate = " + utc
  {
    var bs := [Binding("dbTZ", Ref(tz)), Binding("dbDate", Ref(utc))];
    assert ExprText(Ref(tz)) == tz;
    assert ExprText(Ref(utc)) == utc;
    var first := "let dbTZ = " + tz;
    assert BindingText(bs[0]) == first;
    assert bs[1..] == [bs[1]];
    assert BindingsText(bs[1..]) == "let dbDate = " + utc;
    assert BindingsText(bs) == first + ", " + ("let dbDate = " + utc);
    Associative(first + ", ", "let dbDate = ", utc);
    Associative(first, ", ", "let dbDate = ");
  }

  /** The opening line of the nullable setter's `if let`. */
  lemma UnwrapOpeningLine()
    ensures StmtLines(IfLet([Binding("newDate", Ref("newValue"))], []), 2)[0]
         == Line(2, "if let newDate = newValue {")
  {
    UnwrapBindingText();
    JoinedUnwrapOpening();
  }

  lemma UnwrapBindingText()
    ensures BindingsText([Binding("newDate", Ref("newValue"))]) == "let newDate = newValue"
  {
    assert ExprText(Ref("newValue")) == "newValue";
    JoinedLetNewDate();
  }

  // -------------------------------------------- adjacent fixed text, merged

  lemma JoinedOptionalType()
    ensures ": " + "DateInRegion?" + " {" == ": DateInRegion? {"
  {
  }

  lemma JoinedPlainType()
    ensures ": " + "DateInRegion" + " {" == ": DateInRegion {"
  {
  }

  lemma JoinedLetTz()
    ensures "let " + "tz" + " = " == "let tz = "
  {
  }

  lemma JoinedLetTzZone()
    ensures "let tz = " + "TimeZone.init(secondsFromGMT: " == "let tz = TimeZone.init(secondsFromGMT: "
  {
  }

  lemma JoinedZoneOfDbTZ()
    ensures "let tz = TimeZone.init(secondsFromGMT: " + "dbTZ" + ")" == "let tz = TimeZone.init(secondsFromGMT: dbTZ)"
  {
  }

  lemma JoinedInRegionTz()
    ensures ".in(region: Region(zone: " + "tz" + " ?? TimeZone.current))"
         == ".in(region: Region(zone: tz ?? TimeZone.current))"
  {
  }

  lemma JoinedReturnDbDate()
    ensures "return " + "dbDate" + ".in(region: Region(zone: tz ?? TimeZone.current))"
         == "return dbDate.in(region: Region(zone: tz ?? TimeZone.current))"
  {
    var opening, closing := ".in(region: Region(zone: ", "tz ?? TimeZone.current))";
    JoinedInRegionHalves();
    Associative("return dbDate", opening, closing);
    JoinedReturnDbDateOpening();
    JoinedReturnDbDateClosing();
  }

  lemma JoinedInRegionHalves()
    ensures ".in(region: Region(zone: " + "tz ?? TimeZone.current))"
         == ".in(region: Region(zone: tz ?? TimeZone.current))"
  {
  }

  lemma JoinedReturnDbDateOpening()
    ensures "return " + "dbDate" + ".in(region: Region(zone: " == "return dbDate.in(region: Region(zone: "
  {
    assert "return " + "dbDate" == "return dbDate";
  }

  lemma JoinedReturnDbDateClosing()
    ensures "return dbDate.in(region: Region(zone: " + "tz ?? TimeZone.current))"
         == "return dbDate.in(region: Region(zone: tz ?? TimeZone.current))"
  {
  }

  lemma JoinedLetNewDate()
    ensures "let " + "newDate" + " = " + "newValue" == "let newDate = newValue"
  {
  }

  lemma JoinedUnwrapOpening()
    ensures "if " + "let newDate = newValue" + " {" == "if let newDate = newValue {"
  {
  }

  lemma JoinedNewDateDate()
    ensures " = " + "newDate" + ".date" == " = newDate.date"
  {
  }

  lemma JoinedNewValueDate()
    ensures " = " + "newValue" + ".date" == " = newValue.date"
  {
  }

  lemma JoinedNewDateOffset()
    ensures " = " + "newDate" + ".region.timeZone.secondsFromGMT()"
         == " = newDate.region.timeZone.secondsFromGMT()"
  {
  }

  lemma JoinedNewValueOffset()
    ensures " = " + "newValue" + ".region.timeZone.secondsFromGMT()"
         == " = newValue.region.timeZone.secondsFromGMT()"
  {
  }
}
