/**
 * What the emitted property does with its backing fields, for every field
 * name: which outside names it depends on, which fields its setter writes,
 * what its getter returns, and that the two variants never coincide.
 */
module TemplateProperties {
  import opened Wrappers
  import opened GeneratedCode
  import opened GetterSetter
  import AccessorRendering

  /**
   * A backing field name never coincides with a local name of the template,
   * with one harmless exception: for the field name "db", `<name>TZ` is
   * "dbTZ", which the nullable getter's binding then shadows.
   */
  lemma BackingNamesDistinct(varName: string)
    ensures UtcField(varName) !in {"dbTZ", "dbDate", "tz", "newValue", "newDate"}
    ensures TzField(varName) !in {"dbDate", "tz", "newValue", "newDate"}
    ensures varName != "db" ==> TzField(varName) != "dbTZ"
    ensures UtcField(varName) != TzField(varName)
  {
    var utc, tz := UtcField(varName), TzField(varName);
    assert utc[|utc| - 1] == 'C';
    assert tz[|tz| - 1] == 'Z';
    forall other | other in ["dbTZ", "dbDate", "tz", "newValue", "newDate"]
      ensures utc != other
    {
      LastCharsDiffer(utc, other);
    }
    forall other | other in ["dbDate", "tz", "newValue", "newDate"]
      ensures tz != other
    {
      LastCharsDiffer(tz, other);
    }
    LastCharsDiffer(utc, tz);
    if tz == "dbTZ" {
      assert varName == tz[..|tz| - 2];
    }
  }

  lemma LastCharsDiffer(s: string, t: string)
    requires |s| > 0 && |t| > 0 && s[|s| - 1] != t[|t| - 1]
    ensures s != t
  {
  }

  /**
   * The property refers to exactly two outside names, the field name with
   * "UTC" appended and the field name with "TZ" appended, in both variants.
   */
  lemma BackingFields(varName: string, nullable: bool)
    ensures UtcField(varName) == varName + "UTC" && TzField(varName) == varName + "TZ"
    ensures FreeNames(Accessor(varName, nullable)) == {varName + "UTC", varName + "TZ"}
  {
    var fields := {UtcField(varName), TzField(varName)};
    var p := Accessor(varName, nullable);
    if nullable {
      NullableGetterFree(varName);
      NullableSetterFree(varName);
      assert FreeNames(p) == fields + fields;
    } else {
      NonNullableFree(varName);
    }
    assert fields + fields == fields;
  }

  lemma NullableGetterFree(varName: string)
    ensures FreeInBlock(Accessor(varName, true).getter, {}) == {UtcField(varName), TzField(varName)}
  {
    var utc, tz := UtcField(varName), TzField(varName);
    BackingNamesDistinct(varName);
    var getter := Accessor(varName, true).getter;
    var bs := [Binding("dbTZ", Ref(tz)), Binding("dbDate", Ref(utc))];
    var found := [Let("tz", ZoneFromOffset(Ref("dbTZ"))), Return(InRegion(Ref("dbDate"), Ref("tz")))];
    assert getter == [IfLet(bs, found), Return(NilLiteral)];
    assert {} + BoundBy(bs) == {"dbTZ", "dbDate"} by {
      assert bs[0].name == "dbTZ" && bs[1].name == "dbDate";
    }
    assert FreeInBindings(bs[1..], {"dbTZ"}) == {utc} by {
      assert bs[1..] == [Binding("dbDate", Ref(utc))];
      assert bs[1..][1..] == [];
      assert FreeInExpr(Ref(utc), {"dbTZ"}) == {utc};
    }
    assert FreeInBindings(bs, {}) == {tz, utc} by {
      assert FreeInExpr(Ref(tz), {}) == {tz};
      assert {} + {"dbTZ"} == {"dbTZ"};
    }
    assert FreeInBlock(found, {"dbTZ", "dbDate"}) == {} by {
      var scope := {"dbTZ", "dbDate", "tz"};
      assert {"dbTZ", "dbDate"} + {"tz"} == scope;
      assert found[1..] == [Return(InRegion(Ref("dbDate"), Ref("tz")))];
      assert found[1..][1..] == [];
      assert FreeInExpr(InRegion(Ref("dbDate"), Ref("tz")), scope) == {};
      assert FreeInBlock(found[1..], scope) == {};
      assert FreeInExpr(ZoneFromOffset(Ref("dbTZ")), {"dbTZ", "dbDate"}) == {};
    }
    assert FreeInBlock(getter[1..], {}) == {} by {
      assert getter[1..] == [Return(NilLiteral)];
      assert getter[1..][1..] == [];
    }
  }

  lemma NullableSetterFree(varName: string)
    ensures FreeInBlock(Accessor(varName, true).setter, {"newValue"}) == {UtcField(varName), TzField(varName)}
  {
    var utc, tz := UtcField(varName), TzField(varName);
    BackingNamesDistinct(varName);
    var setter := Accessor(varName, true).setter;
    var unwrap := [Binding("newDate", Ref("newValue"))];
    var assigns := [Assign(utc, DateOf(Ref("newDate"))), Assign(tz, OffsetOf(Ref("newDate")))];
    assert setter == [IfLet(unwrap, assigns)];
    var scope := {"newValue", "newDate"};
    assert {"newValue"} + BoundBy(unwrap) == scope by {
      assert unwrap[0].name == "newDate";
    }
    assert FreeInBindings(unwrap, {"newValue"}) == {} by {
      assert unwrap[1..] == [];
    }
    assert FreeInBlock(assigns, scope) == {utc, tz} by {
      assert assigns[1..] == [Assign(tz, OffsetOf(Ref("newDate")))];
      assert assigns[1..][1..] == [];
      assert FreeInExpr(DateOf(Ref("newDate")), scope) == {};
      assert FreeInExpr(OffsetOf(Ref("newDate")), scope) == {};
      assert FreeInBlock(assigns[1..], scope) == {tz};
    }
    assert setter[1..] == [];
  }

  lemma NonNullableFree(varName: string)
    ensures FreeNames(Accessor(varName, false)) == {UtcField(varName), TzField(varName)}
  {
    var utc, tz := UtcField(varName), TzField(varName);
    BackingNamesDistinct(varName);
    var p := Accessor(varName, false);
    assert FreeInBlock(p.getter, {}) == {tz, utc} by {
      assert p.getter[1..] == [Return(InRegion(Ref(utc), Ref("tz")))];
      assert p.getter[1..][1..] == [];
      assert {} + {"tz"} == {"tz"};
      assert FreeInExpr(InRegion(Ref(utc), Ref("tz")), {"tz"}) == {utc};
      assert FreeInBlock(p.getter[1..], {"tz"}) == {utc};
      assert FreeInExpr(ZoneFromOffset(Ref(tz)), {}) == {tz};
    }
    assert FreeInBlock(p.setter, {"newValue"}) == {utc, tz} by {
      assert p.setter[1..] == [Assign(tz, OffsetOf(Ref("newValue")))];
      assert p.setter[1..][1..] == [];
      assert FreeInExpr(DateOf(Ref("newValue")), {"newValue"}) == {};
      assert FreeInExpr(OffsetOf(Ref("newValue")), {"newValue"}) == {};
      assert FreeInBlock(p.setter[1..], {"newValue"}) == {tz};
    }
  }

  /** The value both getters compute: the stored instant in the zone built from the stored offset. */
  function StoredDate(varName: string): Expr
  {
    InRegion(Ref(UtcField(varName)), ZoneFromOffset(Ref(TzField(varName))))
  }

  /**
   * The nullable setter writes `<name>UTC` the new value's instant and then
   * `<name>TZ` its zone's offset when the new value is present, after which
   * neither field is nil; when the new value is nil it writes nothing.
   */
  lemma NullableSetterWrites(varName: string, nils: set<string>)
    ensures RunSetter(Accessor(varName, true), nils)
         == if "newValue" in nils then Trace([], None, nils)
            else Trace([ Assignment(varName + "UTC", DateOf(Ref("newValue"))),
                         Assignment(varName + "TZ", OffsetOf(Ref("newValue"))) ],
                       None, nils - {varName + "UTC", varName + "TZ"})
  {
    var utc, tz := UtcField(varName), TzField(varName);
    var setter := Accessor(varName, true).setter;
    var unwrap := [Binding("newDate", Ref("newValue"))];
    var assigns := [Assign(utc, DateOf(Ref("newDate"))), Assign(tz, OffsetOf(Ref("newDate")))];
    assert setter == [IfLet(unwrap, assigns)];
    assert setter[1..] == [];
    var scope := map["newDate" := Ref("newValue")];
    if "newValue" in nils {
      assert Bind(unwrap, nils, map[]) == None;
      assert Run(setter[1..], nils, map[]) == Trace([], None, nils);
    } else {
      assert Bind(unwrap, nils, map[]) == Some(scope) by {
        assert unwrap[1..] == [];
      }
      AssignsBoth(utc, tz, "newDate", nils, scope);
      var t := Run(assigns, nils, scope);
      assert Run(setter[1..], t.nils, map[]) == Trace([], None, t.nils);
    }
  }

  /**
   * Two assignments in a row, of a value's instant and of its zone's offset,
   * write their two targets in order, return nothing, and leave neither nil.
   */
  lemma AssignsBoth(utc: string, tz: string, source: string, nils: set<string>, env: map<string, Expr>)
    ensures Run([Assign(utc, DateOf(Ref(source))), Assign(tz, OffsetOf(Ref(source)))], nils, env)
         == Trace([ Assignment(utc, DateOf(Subst(Ref(source), env))),
                    Assignment(tz, OffsetOf(Subst(Ref(source), env))) ],
                  None, nils - {utc, tz})
  {
    var assigns := [Assign(utc, DateOf(Ref(source))), Assign(tz, OffsetOf(Ref(source)))];
    var value := Subst(Ref(source), env);
    assert assigns[1..] == [Assign(tz, OffsetOf(Ref(source)))];
    assert assigns[1..][1..] == [];
    assert nils - {utc} - {tz} == nils - {utc, tz};
    assert Run(assigns[1..][1..], nils - {utc} - {tz}, env) == Trace([], None, nils - {utc, tz});
    assert !IsNil(OffsetOf(value), nils - {utc});
    assert Run(assigns[1..], nils - {utc}, env) == Trace([Assignment(tz, OffsetOf(value))], None, nils - {utc, tz});
    assert !IsNil(DateOf(value), nils);
  }

  /** The non-nullable setter always writes `<name>UTC` and then `<name>TZ`, after which neither is nil. */
  lemma NonNullableSetterWrites(varName: string, nils: set<string>)
    ensures RunSetter(Accessor(varName, false), nils)
         == Trace([ Assignment(varName + "UTC", DateOf(Ref("newValue"))),
                    Assignment(varName + "TZ", OffsetOf(Ref("newValue"))) ],
                  None, nils - {varName + "UTC", varName + "TZ"})
  {
    AssignsBoth(UtcField(varName), TzField(varName), "newValue", nils, map[]);
  }

  /**
   * The nullable getter writes nothing, and returns nil exactly when one of
   * the two backing fields holds nil; otherwise it returns the stored
   * instant in the zone built from the stored offset.
   */
  lemma NullableGetterResult(varName: string, nils: set<string>)
    ensures RunGetter(Accessor(varName, true), nils)
         == Trace([], Some(if varName + "TZ" in nils || varName + "UTC" in nils then NilLiteral
                           else StoredDate(varName)), nils)
  {
    var utc, tz := UtcField(varName), TzField(varName);
    BackingNamesDistinct(varName);
    var getter := Accessor(varName, true).getter;
    var bs := [Binding("dbTZ", Ref(tz)), Binding("dbDate", Ref(utc))];
    var found := [Let("tz", ZoneFromOffset(Ref("dbTZ"))), Return(InRegion(Ref("dbDate"), Ref("tz")))];
    assert getter == [IfLet(bs, found), Return(NilLiteral)];
    assert bs[1..] == [Binding("dbDate", Ref(utc))];
    assert bs[1..][1..] == [];
    var outer := map["dbTZ" := Ref(tz)];
    assert getter[1..] == [Return(NilLiteral)];
    assert Run(getter[1..], nils, map[]) == Trace([], Some(NilLiteral), nils);
    if tz in nils {
      assert Bind(bs, nils, map[]) == None;
    } else if utc in nils {
      assert Subst(Ref(utc), outer) == Ref(utc);
      assert Bind(bs[1..], nils, outer) == None;
      assert Bind(bs, nils, map[]) == None;
    } else {
      var scope := outer["dbDate" := Ref(utc)];
      assert Subst(Ref(utc), outer) == Ref(utc);
      assert Bind(bs[1..], nils, outer) == Some(scope);
      assert Bind(bs, nils, map[]) == Some(scope);
      assert Subst(ZoneFromOffset(Ref("dbTZ")), scope) == ZoneFromOffset(Ref(tz));
      var inner := scope["tz" := ZoneFromOffset(Ref(tz))];
      assert found[1..] == [Return(InRegion(Ref("dbDate"), Ref("tz")))];
      assert Subst(InRegion(Ref("dbDate"), Ref("tz")), inner) == StoredDate(varName);
      assert Run(found[1..], nils, inner) == Trace([], Some(StoredDate(varName)), nils);
      assert Run(found, nils, scope) == Trace([], Some(StoredDate(varName)), nils);
    }
  }

  /**
   * The non-nullable getter writes nothing and always returns the stored
   * instant in the zone built from the stored offset: never nil.
   */
  lemma NonNullableGetterResult(varName: string, nils: set<string>)
    ensures RunGetter(Accessor(varName, false), nils)
         == Trace([], Some(InRegion(Ref(varName + "UTC"), ZoneFromOffset(Ref(varName + "TZ")))), nils)
  {
    var utc, tz := UtcField(varName), TzField(varName);
    BackingNamesDistinct(varName);
    var getter := Accessor(varName, false).getter;
    assert getter[1..] == [Return(InRegion(Ref(utc), Ref("tz")))];
    assert Subst(ZoneFromOffset(Ref(tz)), map[]) == ZoneFromOffset(Ref(tz));
    var env := map["tz" := ZoneFromOffset(Ref(tz))];
    assert Subst(InRegion(Ref(utc), Ref("tz")), env) == StoredDate(varName);
    assert Run(getter[1..], nils, env) == Trace([], Some(StoredDate(varName)), nils);
  }

  /** When both backing fields hold a value, the two variants' getters return the same value. */
  lemma GettersAgree(varName: string, nils: set<string>)
    requires varName + "UTC" !in nils && varName + "TZ" !in nils
    ensures RunGetter(Accessor(varName, true), nils).result == RunGetter(Accessor(varName, false), nils).result
  {
    NullableGetterResult(varName, nils);
    NonNullableGetterResult(varName, nils);
  }

  /**
   * Assigning a present value and reading the property back yields the
   * stored instant in the stored zone, in both variants.
   */
  lemma SetThenGet(varName: string, nullable: bool, nils: set<string>)
    requires "newValue" !in nils
    ensures RunGetter(Accessor(varName, nullable), RunSetter(Accessor(varName, nullable), nils).nils).result
         == Some(StoredDate(varName))
  {
    var after := nils - {varName + "UTC", varName + "TZ"};
    if nullable {
      NullableSetterWrites(varName, nils);
      NullableGetterResult(varName, after);
    } else {
      NonNullableSetterWrites(varName, nils);
      NonNullableGetterResult(varName, after);
    }
  }

  /** The two variants never produce the same text: the declared type tells them apart. */
  lemma VariantsDiffer(varName: string)
    ensures MakeGetterSetter(varName, true) != MakeGetterSetter(varName, false)
  {
    var optional, plain := MakeGetterSetter(varName, true), MakeGetterSetter(varName, false);
    var head := "var " + varName + ": DateInRegion";
    var k := |head|;
    assert "var " + varName + ": DateInRegion? {" == head + "? {";
    assert "var " + varName + ": DateInRegion {" == head + " {";
    assert optional[k] == '?';
    assert plain[k] == ' ';
  }
}
