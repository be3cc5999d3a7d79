# DateInRegionField macro, modelled in Dafny

`@DateInRegionField("name")` is a Swift member macro. It adds a computed
property `name` of type `DateInRegion` to the type it annotates. The property
is stored in two backing fields: `nameUTC`, which holds the instant, and
`nameTZ`, which holds the zone's offset from GMT in seconds. With a second
argument `true` (for example `nullable: true`), the property is optional
instead. Its getter then returns nil unless both fields hold a value, and
assigning nil to it writes neither field.

The model has two parts, both pure.

- `makeGetterSetter` is modelled by `GetterSetter.MakeGetterSetter`. It is the
  template text, line by line, joined with newlines. `GetterSetter.Accessor` is
  the same code as a small syntax tree of statements and expressions (module
  `GeneratedCode`). `AccessorRendering.AccessorRendersToTemplate` proves that
  the tree renders to exactly the template's lines, for every field name and
  both variants. For a field name that is a Swift identifier, the facts
  proved about the tree therefore hold of the emitted text. Those facts cover the names the property refers to, what
  each setter writes to which field, and what each getter returns, including
  when it returns nil (`TemplateProperties`). They rest on
  `GeneratedCode.Run`, a symbolic execution of the emitted code. It replaces
  each local name by the expression bound to it, so the results are stated
  over the backing fields and `newValue` themselves.
- `DateInRegionFieldMacro.expansion` is modelled by
  `DateInRegionFieldMacro.Expansion`. It works on an abstract attribute: the
  shape of its argument clause, each argument's optional label and
  expression, and the segments of a string literal. It returns zero or one
  declaration.
- `MacroTests` checks the four expansions that the repository's tests expect,
  line by line.

Text is a `Line(depth, code)` sequence. Each nesting level indents by four
spaces, lines are separated by one newline, and there is no trailing newline,
as in a Swift multi-line string literal. Indentation is counted from the
declaration's own first line.

## Model

| member | source | states |
|---|---|---|
| `GetterSetter.MakeGetterSetter` | Sources/SwiftDateTzModelMacros/SwiftDateTzModelMacro.swift:6-40 | The declaration begins with `var <name>: DateInRegion? {` when nullable and with `var <name>: DateInRegion {` otherwise |
| `AccessorRendering.AccessorRendersToTemplate` | Sources/SwiftDateTzModelMacros/SwiftDateTzModelMacro.swift:9-39 | For every field name and flag, the accessor's syntax tree renders to exactly the lines of the template literal, with the same text and the same nesting |
| `TemplateProperties.BackingFields` | Sources/SwiftDateTzModelMacros/SwiftDateTzModelMacro.swift:7-8 | The backing names are the field name with "UTC" and with "TZ" appended. In both variants, these two are the only outside names the property reads or assigns |
| `TemplateProperties.BackingNamesDistinct` | Sources/SwiftDateTzModelMacros/SwiftDateTzModelMacro.swift:7-22 | The two backing names differ from each other and from the template's locals (`dbTZ`, `dbDate`, `tz`, `newValue`, `newDate`). The one exception: `<name>TZ` equals the getter's binding `dbTZ` only for field name "db" |
| `TemplateProperties.NullableSetterWrites` | Sources/SwiftDateTzModelMacros/SwiftDateTzModelMacro.swift:19-24 | When the new value is present, the nullable setter writes `<name>UTC` the new value's `.date` and then `<name>TZ` its zone's `secondsFromGMT()`, after which neither field is nil. When the new value is nil it writes nothing |
| `TemplateProperties.NonNullableSetterWrites` | Sources/SwiftDateTzModelMacros/SwiftDateTzModelMacro.swift:34-37 | The non-nullable setter always writes `<name>UTC` the new value's `.date` and then `<name>TZ` its zone's `secondsFromGMT()`, after which neither field is nil |
| `TemplateProperties.NullableGetterResult` | Sources/SwiftDateTzModelMacros/SwiftDateTzModelMacro.swift:12-18 | The nullable getter writes nothing. It returns nil exactly when `<name>TZ` or `<name>UTC` holds nil. Otherwise it returns `<name>UTC` placed in the zone built from `<name>TZ`, as an expression over the backing fields themselves |
| `TemplateProperties.NonNullableGetterResult` | Sources/SwiftDateTzModelMacros/SwiftDateTzModelMacro.swift:30-33 | The non-nullable getter writes nothing and never returns nil: it returns `<name>UTC` placed in the zone built from `<name>TZ` |
| `TemplateProperties.GettersAgree` | Sources/SwiftDateTzModelMacros/SwiftDateTzModelMacro.swift:12-33 | When both backing fields hold a value, the nullable and the non-nullable getters return the same value |
| `TemplateProperties.SetThenGet` | Sources/SwiftDateTzModelMacros/SwiftDateTzModelMacro.swift:12-37 | In both variants, after a present value is assigned, reading the property returns `<name>UTC` placed in the zone built from `<name>TZ`, never nil |
| `TemplateProperties.VariantsDiffer` | Sources/SwiftDateTzModelMacros/SwiftDateTzModelMacro.swift:9-29 | For every name, the nullable and non-nullable declarations differ |
| `TextLines.SplitText` | Sources/SwiftDateTzModelMacros/SwiftDateTzModelMacro.swift:10-39 | Splitting the text of newline-free lines at its newlines gives back exactly the indented lines |
| `DateInRegionFieldMacro.FieldName` | Sources/SwiftDateTzModelMacros/SwiftDateTzModelMacro.swift:48-56 | A field name is found only in an argument list with at least one argument |
| `DateInRegionFieldMacro.Expansion` | Sources/SwiftDateTzModelMacros/SwiftDateTzModelMacro.swift:43-72 | The expansion adds at most one declaration, and exactly one if and only if a field name is found |
| `DateInRegionFieldMacro.MalformedYieldsNothing` | Sources/SwiftDateTzModelMacros/SwiftDateTzModelMacro.swift:48-54 | The expansion is empty, with no error, exactly when the arguments are malformed. The malformed shapes are: no argument list, no argument, a first argument that is not a string literal, or a literal with no segments or whose first segment is an interpolation |
| `DateInRegionFieldMacro.WellFormedYieldsOne` | Sources/SwiftDateTzModelMacros/SwiftDateTzModelMacro.swift:56-71 | A first argument that is a string literal starting with plain text yields exactly `makeGetterSetter` of that text, whatever segments follow it. The nullable variant is used for two arguments whose second is `true` |
| `DateInRegionFieldMacro.NullableIff` | Sources/SwiftDateTzModelMacros/SwiftDateTzModelMacro.swift:58-71 | The second guard, `RequestsNullable`, holds if and only if there are exactly two arguments and the last is the literal `true`. Once a name is found, the nullable declaration is produced exactly then, and every other shape gets the non-nullable declaration |
| `DateInRegionFieldMacro.LabelsIgnored` | Sources/SwiftDateTzModelMacros/SwiftDateTzModelMacro.swift:58-62 | Argument labels are never inspected: argument lists with the same expressions expand identically |
| `MacroTests.NameAlone` | Sources/SwiftDateTzModelMacros/SwiftDateTzModelMacro.swift:56-67 | A lone field-name argument yields the non-nullable declaration for that name |
| `MacroTests.NameThenTrue` | Sources/SwiftDateTzModelMacros/SwiftDateTzModelMacro.swift:56-71 | A field name followed by `true`, under any label, yields the nullable declaration for that name |
| `MacroTests.DateField` | Tests/SwiftDateTzModelTests/SwiftDateTzModelTests.swift:20-36 | `@DateInRegionField("date")` expands to exactly the expected non-nullable `date` property |
| `MacroTests.OptionalDateField` | Tests/SwiftDateTzModelTests/SwiftDateTzModelTests.swift:50-71 | `@DateInRegionField("date", nullable: true)` expands to exactly the expected optional `date` property |
| `MacroTests.WakeUpField` | Tests/SwiftDateTzModelTests/SwiftDateTzModelTests.swift:86-104 | `@DateInRegionField("wakeUp")` expands to exactly the expected `wakeUp` property |
| `MacroTests.BedtimeField` | Tests/SwiftDateTzModelTests/SwiftDateTzModelTests.swift:87-120 | `@DateInRegionField("bedtime", optional: true)` expands to exactly the expected optional `bedtime` property, although its label is `optional` |

## Left out

- Swift syntax trees are reduced to the datatypes of `DateInRegionFieldMacro`. Parsing Swift source is not modelled. Neither is re-parsing the returned text into a `DeclSyntax` (lines 65 and 70).
- The compiler-plugin registration (lines 75-80) is not modelled, because it only connects the macro to the compiler.
- The expansion's unused parameters, the annotated declaration and the expansion context, are not modelled, since the code never reads them.
- The test harness re-indents the expansion inside the class body and adds a blank line before it. The expected blocks in `MacroTests` are therefore compared with their indentation counted from the property's own first line.
- What the emitted code means at run time is not modelled: `TimeZone(secondsFromGMT:)`, the fallback to `TimeZone.current`, `DateInRegion` and `Region` belong to libraries that are not part of this model. `GeneratedCode.Run` computes values only as expressions over the outside names, tracking which of those names hold nil. It does not evaluate instants or zones.
- `GeneratedCode.IsNil` takes a property access or a call (`.date`, `secondsFromGMT()`, `TimeZone.init`) never to be nil. `.date` and `secondsFromGMT()` are applied only to non-optional values. `TimeZone.init(secondsFromGMT:)` can return nil, but the emitted code only binds it with `let` and passes it to `??` (lines 14-15 and 31-32), so `Run` never tests it for nil.
- A field name that is not a Swift identifier (such as `a.b`) gives text that Swift parses differently from the syntax tree: `a.bUTC = …` is a member assignment, not an assignment to the name `a.bUTC`. The facts about the tree carry over to the text only for identifier field names.
- `makeGetterSetter` is deterministic because every Dafny function is, so there is no separate lemma for it.
- `TextLines.SplitText` is stated for any newline-free lines. The model does not prove separately that the template's own lines contain no newline.
- Several things the code does not reject are left as the code handles them:
  - An empty field name.
  - A name that is not a valid identifier.
  - Text after an interpolation in the name literal. Only the first segment of the name literal is read, so `"date\(x)"` is taken as `date`.

  A stricter reading of the macro's contract would reject these. The model follows the code.
