/**
 * The shape of the code the macro emits: a computed property with a getter
 * and a setter, built from a handful of statement and expression forms.
 *
 * Besides rendering to text, two analyses of the emitted code are given:
 * `FreeNames` (which outside names the property refers to) and `Run`, a
 * symbolic execution: which assignments execute and with what value, and
 * what is returned, each as an expression over outside names, given which
 * optional names hold nil. Neither models the dates or zones themselves.
 */
module GeneratedCode {
  import opened Wrappers
  import opened TextLines

  /** Expressions occurring in the emitted accessor. */
  datatype Expr =
    | Ref(name: string)               // an identifier: backing field, local binding or `newValue`
    | NilLiteral                      // `nil`
    | ZoneFromOffset(offset: Expr)    // `TimeZone.init(secondsFromGMT: <offset>)`
    | InRegion(date: Expr, zone: Expr) // `<date>.in(region: Region(zone: <zone> ?? TimeZone.current))`
    | DateOf(value: Expr)             // `<value>.date`
    | OffsetOf(value: Expr)           // `<value>.region.timeZone.secondsFromGMT()`

  /** One optional binding `let <name> = <value>` of an `if let` condition list. */
  datatype Binding = Binding(name: string, value: Expr)

  datatype Stmt =
    | Let(name: string, value: Expr)                 // `let <name> = <value>`
    | IfLet(bindings: seq<Binding>, body: seq<Stmt>) // `if let a = x, let b = y { <body> }`
    | Assign(target: string, value: Expr)            // `<target> = <value>`
    | Return(value: Expr)                            // `return <value>`

  /** `var <name>: DateInRegion[?] { get { <getter> } set { <setter> } }` */
  datatype Property = Property(name: string, optional: bool, getter: seq<Stmt>, setter: seq<Stmt>)

  // ---------------------------------------------------------------- rendering

  function ExprText(e: Expr): string
  {
    match e
    case Ref(x) => x
    case NilLiteral => "nil"
    case ZoneFromOffset(o) => "TimeZone.init(secondsFromGMT: " + ExprText(o) + ")"
    case InRegion(d, z) => ExprText(d) + ".in(region: Region(zone: " + ExprText(z) + " ?? TimeZone.current))"
    case DateOf(v) => ExprText(v) + ".date"
    case OffsetOf(v) => ExprText(v) + ".region.timeZone.secondsFromGMT()"
  }

  function BindingText(b: Binding): string
  {
    "let " + b.name + " = " + ExprText(b.value)
  }

  /** The condition list of an `if let`, bindings separated by ", ". */
  function BindingsText(bs: seq<Binding>): string
  {
    if bs == [] then ""
    else if |bs| == 1 then BindingText(bs[0])
    else BindingText(bs[0]) + ", " + BindingsText(bs[1..])
  }

  function StmtLines(s: Stmt, depth: nat): seq<Line>
    decreases s
  {
    match s
    case Let(x, e) => [Line(depth, "let " + x + " = " + ExprText(e))]
    case IfLet(bs, body) =>
      [Line(depth, "if " + BindingsText(bs) + " {")] + BlockLines(body, depth + 1) + [Line(depth, "}")]
    case Assign(t, e) => [Line(depth, t + " = " + ExprText(e))]
    case Return(e) => [Line(depth, "return " + ExprText(e))]
  }

  function BlockLines(body: seq<Stmt>, depth: nat): seq<Line>
    decreases body
  {
    if body == [] then [] else StmtLines(body[0], depth) + BlockLines(body[1..], depth)
  }

  function TypeText(optional: bool): string
  {
    if optional then "DateInRegion?" else "DateInRegion"
  }

  function PropertyLines(p: Property): seq<Line>
  {
    [Line(0, "var " + p.name + ": " + TypeText(p.optional) + " {"), Line(1, "get {")]
    + BlockLines(p.getter, 2)
    + [Line(1, "}"), Line(1, "set {")]
    + BlockLines(p.setter, 2)
    + [Line(1, "}"), Line(0, "}")]
  }

  // ------------------------------------------------------------- free names

  function FreeInExpr(e: Expr, bound: set<string>): set<string>
  {
    match e
    case Ref(x) => if x in bound then {} else {x}
    case NilLiteral => {}
    case ZoneFromOffset(o) => FreeInExpr(o, bound)
    case InRegion(d, z) => FreeInExpr(d, bound) + FreeInExpr(z, bound)
    case DateOf(v) => FreeInExpr(v, bound)
    case OffsetOf(v) => FreeInExpr(v, bound)
  }

  /** Each binding's value sees the names bound before it in the same condition list. */
  function FreeInBindings(bs: seq<Binding>, bound: set<string>): set<string>
  {
    if bs == [] then {}
    else FreeInExpr(bs[0].value, bound) + FreeInBindings(bs[1..], bound + {bs[0].name})
  }

  function BoundBy(bs: seq<Binding>): set<string>
  {
    set i | 0 <= i < |bs| :: bs[i].name
  }

  /** Names a block refers to (reads or assigns) that are not bound inside it or in `bound`. */
  function FreeInBlock(body: seq<Stmt>, bound: set<string>): set<string>
    decreases body
  {
    if body == [] then {}
    else
      match body[0]
      case Let(x, e) => FreeInExpr(e, bound) + FreeInBlock(body[1..], bound + {x})
      case IfLet(bs, inner) =>
        FreeInBindings(bs, bound) + FreeInBlock(inner, bound + BoundBy(bs)) + FreeInBlock(body[1..], bound)
      case Assign(t, e) => (if t in bound then {} else {t}) + FreeInExpr(e, bound) + FreeInBlock(body[1..], bound)
      case Return(e) => FreeInExpr(e, bound) + FreeInBlock(body[1..], bound)
  }

  /** The outside names a property depends on; the setter has `newValue` in scope. */
  function FreeNames(p: Property): set<string>
  {
    FreeInBlock(p.getter, {}) + FreeInBlock(p.setter, {"newValue"})
  }

  // -------------------------------------------------- symbolic execution

  /** One executed assignment: the name written and the value written to it. */
  datatype Assignment = Assignment(target: string, value: Expr)

  /**
   * What running a block does: the assignments executed, in order; the value
   * returned, if any; and which outside names hold nil afterwards.
   */
  datatype Trace = Trace(writes: seq<Assignment>, result: Option<Expr>, nils: set<string>)

  /**
   * Replaces every local name in scope by the expression bound to it, so the
   * result mentions outside names only. The values in `env` are already
   * substituted, so one lookup suffices.
   */
  function Subst(e: Expr, env: map<string, Expr>): Expr
  {
    match e
    case Ref(x) => if x in env then env[x] else Ref(x)
    case NilLiteral => NilLiteral
    case ZoneFromOffset(o) => ZoneFromOffset(Subst(o, env))
    case InRegion(d, z) => InRegion(Subst(d, env), Subst(z, env))
    case DateOf(v) => DateOf(Subst(v, env))
    case OffsetOf(v) => OffsetOf(Subst(v, env))
  }

  /**
   * An expression over outside names is nil when it is the literal `nil` or
   * names an optional that holds nil; the property accesses and the calls
   * never are.
   */
  predicate IsNil(e: Expr, nils: set<string>)
  {
    e.NilLiteral? || (e.Ref? && e.name in nils)
  }

  /**
   * `if let` bindings in order: None when some value is nil, else the scope
   * inside the block, each bound name standing for its unwrapped value.
   */
  function Bind(bs: seq<Binding>, nils: set<string>, env: map<string, Expr>): Option<map<string, Expr>>
  {
    if bs == [] then Some(env)
    else
      var v := Subst(bs[0].value, env);
      if IsNil(v, nils) then None
      else Bind(bs[1..], nils, env[bs[0].name := v])
  }

  /**
   * Runs a block when exactly the outside names in `nils` hold nil and the
   * local names are bound as in `env`. Locals are `let` constants, never
   * assignment targets, so an assignment changes only `nils`. After an
   * `if let` block that did not return, its bindings go out of scope.
   */
  function Run(body: seq<Stmt>, nils: set<string>, env: map<string, Expr>): Trace
    decreases body
  {
    if body == [] then Trace([], None, nils)
    else
      match body[0]
      case Return(e) => Trace([], Some(Subst(e, env)), nils)
      case Let(x, e) => Run(body[1..], nils, env[x := Subst(e, env)])
      case Assign(t, e) =>
        var v := Subst(e, env);
        var rest := Run(body[1..], if IsNil(v, nils) then nils + {t} else nils - {t}, env);
        Trace([Assignment(t, v)] + rest.writes, rest.result, rest.nils)
      case IfLet(bs, inner) =>
        match Bind(bs, nils, env)
        case None => Run(body[1..], nils, env)
        case Some(scope) =>
          var t := Run(inner, nils, scope);
          if t.result.Some? then t
          else
            var rest := Run(body[1..], t.nils, env);
            Trace(t.writes + rest.writes, rest.result, rest.nils)
  }

  /** Running the getter: nothing is in scope but the outside names. */
  function RunGetter(p: Property, nils: set<string>): Trace
  {
    Run(p.getter, nils, map[])
  }

  /** Running the setter: `newValue` is an outside name, nil exactly when it is in `nils`. */
  function RunSetter(p: Property, nils: set<string>): Trace
  {
    Run(p.setter, nils, map[])
  }
}
