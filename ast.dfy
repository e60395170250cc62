/** The shapes of source module the transform reads, after parsing, and the
    shapes of what it produces. Babel's printer is not modelled: an
    expression the transform only prints carries its printed text. */
module Ast {
  import opened Wrappers
  import opened OrderedMaps

  // ---------------------------------------------------------------------
  // Expressions and JSX
  // ---------------------------------------------------------------------

  /** An expression as JSX attributes and children hold it: an identifier, a
      template literal (its raw pieces and its interpolated expressions), an
      object literal (printed in full and concisely), or anything else with
      its printed text. */
  datatype Expr =
    | Ident(name: string)
    | TemplateLit(quasis: seq<string>, exprs: seq<Expr>)
    | ObjectLit(code: string, concise: string)
    | OtherExpr(code: string)

  datatype AttrValue = NoValue | StrValue(value: string) | ExprValue(expr: Expr)

  datatype Attr = Attribute(name: string, value: AttrValue) | SpreadAttr(argument: Expr)

  datatype Element = Element(name: string, attrs: seq<Attr>, selfClosing: bool, children: seq<Child>)

  datatype Child = Text(raw: string) | Container(expr: Expr) | Elem(element: Element)

  // ---------------------------------------------------------------------
  // Code
  // ---------------------------------------------------------------------

  /** Code as far as the `setState` renaming sees it: calls, with their
      callee, and every other node with its children. */
  datatype Code =
    | Call(callee: Callee, args: seq<Code>)
    | Node(kind: string, children: seq<Code>)
    | Leaf(text: string)

  /** `object.property(...)` (a non-computed member callee) or any other callee. */
  datatype Callee = MemberCallee(receiver: Code, property: string) | PlainCallee(fn: Code)

  /** A value a class field is initialised with. */
  datatype Init =
    | NullInit
    | BoolInit(b: bool)
    | NumInit(n: int)
    | StrInit(s: string)
    | ArrayInit(items: seq<Init>)
    | ObjectInit(entries: seq<(string, Init)>)
    | IdentInit(name: string)
    | MemberInit(obj: Init, property: string)
    | CodeInit(code: Code)

  /** What a `return` statement returns. */
  datatype Returned = JsxReturn(element: Element) | CodeReturn(code: Code)

  datatype Stmt = Return(argument: Option<Returned>) | Statement(code: Code)

  datatype Fn = Fn(params: seq<string>, body: seq<Stmt>, generator: bool, async: bool)

  datatype Member = Field(key: string, value: Init) | Method(key: string, fn: Fn)

  datatype FuncBody = BlockBody(stmts: seq<Stmt>) | ExpressionBody(expr: Code)

  /** The `export default` declaration: a class (its superclass when that is an
      identifier), a function declaration or arrow function, or anything else. */
  datatype Export =
    | ClassExport(id: Option<string>, superClass: Option<string>, members: seq<Member>)
    | FuncExport(id: Option<string>, body: FuncBody)
    | OtherExport(code: Code)

  /** `import a, { b as c } from 'source'`: the local names and the source. */
  datatype Import = Import(locals: seq<string>, source: string)

  /** A source module: its imports, its default export and the rest of its
      top-level statements. */
  datatype Module = Module(imports: seq<Import>, exported: Option<Export>, rest: seq<Code>)

  // ---------------------------------------------------------------------
  // JSON
  // ---------------------------------------------------------------------

  datatype Json =
    | JNull
    | JBool(b: bool)
    | JNum(n: int)
    | JStr(s: string)
    | JArr(items: seq<Json>)
    | JObj(entries: OMap<Json>)

  // ---------------------------------------------------------------------
  // Output
  // ---------------------------------------------------------------------

  /** A component property descriptor `{ type, value }`: the constructor
      the property's type names, and its default when one was given. */
  datatype Descriptor = Descriptor(key: string, typeName: string, default: Option<Init>)

  /** The value of one property of the object passed to `App`, `Page`,
      `Component` or `Game`. */
  datatype PropValue =
    | InitValue(init: Init)
    | FnValue(fn: Fn)
    | RelationsValue(relations: seq<(string, string)>)
    | MethodsValue(methods: seq<(string, Fn)>)
    | PropertiesValue(properties: seq<Descriptor>)

  datatype Prop = Prop(key: string, value: PropValue)

  /** The default export of the generated script: a call of the role's
      constructor, the export kept as written, or none. */
  datatype ExportOut = RoleCall(callee: string, attrs: seq<Prop>) | KeptExport(declaration: Export) | NoExport

  datatype Program = Program(imports: seq<Import>, exported: ExportOut, rest: seq<Code>)

  /** What the transform returns: the module's type and the page files it
      generates. */
  datatype Output = Output(
    kind: string,
    css: Option<string>,
    name: Option<string>,
    wxml: Option<string>,
    json: Option<Json>,
    js: Option<Program>)
}
