/** The transform of one module as a whole: the import visitor over the
    imports, the export's `enter` visitor, the member visitors over the
    exported class, the export's `exit` visitor, and the assembly of the
    output. The imperative traversal in module `Traversal` computes exactly
    `Transformed`. */
module Transform {
  import opened Wrappers
  import opened Strings
  import opened OrderedMaps
  import opened Ast
  import opened Roles
  import opened Rename
  import opened Markup
  import opened Accumulators
  import opened Routing
  import opened Imports
  import opened Assembly

  /** The transform's arguments. `stylesheet` is the content of the module's
      sibling `.css` file when there is one; `cwd` is the working directory
      the path functions resolve against. */
  datatype TransformInput = TransformInput(
    id: Option<string>,
    code: Module,
    dependedModules: map<string, Output>,
    referencedBy: seq<string>,
    sourcePath: Option<string>,
    stylesheet: Option<string>,
    cwd: string)

  /** What the import visitor reads: only the role of each module already
      transformed. */
  function Context(input: TransformInput): ImportContext {
    ImportContext(input.id,
      map k | k in input.dependedModules :: input.dependedModules[k].kind,
      input.cwd, input.sourcePath)
  }

  /** The import visitor on one declaration. */
  function ImportStep(st: State, imp: Import, ctx: ImportContext): Result<State> {
    var route :- RouteImport(imp, ctx);
    Success(ApplyImport(st, route))
  }

  function VisitImports(st: State, imps: seq<Import>, ctx: ImportContext): Result<State>
    decreases |imps|
  {
    if |imps| == 0 then Success(st)
    else
      var st' :- ImportStep(st, imps[0], ctx);
      VisitImports(st', imps[1..], ctx)
  }

  /** The `ClassProperty` or `ClassMethod` visitor on one member. */
  function VisitMember(st: State, m: Member): Result<State> {
    match m
    case Field(k, v) =>
      var route :- RouteField(st.kind, k, v);
      Success(ApplyField(st, route))
    case Method(k, f) => ApplyMethod(st, k, f)
  }

  function VisitMembers(st: State, ms: seq<Member>): Result<State>
    decreases |ms|
  {
    if |ms| == 0 then Success(st)
    else
      var st' :- VisitMember(st, ms[0]);
      VisitMembers(st', ms[1..])
  }

  /** The export's `enter` visitor: the module takes its role. */
  function Enter(st: State, e: Export): Result<State> {
    var kind :- Classify(Some(e));
    Success(st.(kind := kind))
  }

  /** The template part of the `exit` visitor: the function's name and its
      JSX as a named template. */
  function TemplateExit(st: State, e: Export): Result<State> {
    match e
    case FuncExport(id, BlockBody(ss)) =>
      (match FirstReturn(ss)
       case Some(Some(JsxReturn(el))) =>
         var el' :- Rewrite(el, st.templates);
         var name := if id.Some? then id else st.name;
         Success(st.(name := name, wxml := Some(TemplateMarkup(name, Render(el')))))
       case _ => Success(st))
    case _ => Success(st)
  }

  /** The export's `exit` visitor. */
  function Exit(st: State, e: Export, referencedBy: seq<string>): Result<State> {
    var st1 :- if IsTemplate(st.kind) then TemplateExit(st, e) else Success(st);
    var relations := if IsComponent(st.kind) then ParentRelations(st1.relations, referencedBy) else st1.relations;
    var descriptors :- Descriptors(st1.properties);
    Success(st1.(relations := relations,
      attrs := ExitAttrs(st.kind, st1.attrs, EmittedRelations(relations), st1.methods, descriptors)))
  }

  /** The default export of the generated script. */
  function ExportOf(st: State, e: Option<Export>): ExportOut {
    match e
    case None => NoExport
    case Some(ClassExport(_, sup, _)) =>
      if IsRoleClass(sup) then RoleCall(sup.value, st.attrs) else KeptExport(RenameExport(e.value))
    case Some(d) => if IsTemplate(st.kind) then NoExport else KeptExport(RenameExport(d))
  }

  /** The top-level statements after the call visitor: none calls
      `setState`, and one that did not is kept as it was. */
  function RenameAll(cs: seq<Code>): (r: seq<Code>)
    ensures |r| == |cs|
    ensures forall i :: 0 <= i < |r| ==> NoSetState(r[i])
    ensures forall i :: 0 <= i < |cs| && NoSetState(cs[i]) ==> r[i] == cs[i]
  {
    assert forall i :: 0 <= i < |cs| ==> NoSetState(RenameCode(cs[i])) by {
      forall i | 0 <= i < |cs| ensures NoSetState(RenameCode(cs[i])) {
        RenameRemovesSetState(cs[i]);
      }
    }
    assert forall i :: 0 <= i < |cs| && NoSetState(cs[i]) ==> RenameCode(cs[i]) == cs[i] by {
      forall i | 0 <= i < |cs| && NoSetState(cs[i]) ensures RenameCode(cs[i]) == cs[i] {
        RenameKeepsOtherCode(cs[i]);
      }
    }
    seq(|cs|, i requires 0 <= i < |cs| => RenameCode(cs[i]))
  }

  /** The output once the traversal is done. */
  function Finish(st: State, input: TransformInput): Output {
    Output(st.kind, input.stylesheet, st.name,
      ImportedMarkup(st.templates, st.wxml),
      ConfigJson(st.kind, st.pages, st.components, st.jsonAttrs),
      if IsTemplate(st.kind) then None
      else Some(Program(st.kept, ExportOf(st, input.code.exported), RenameAll(input.code.rest))))
  }

  /** The visitors after the imports. */
  function VisitExport(st: State, input: TransformInput): Result<State> {
    match input.code.exported
    case None => Success(st)
    case Some(e) =>
      var st2 :- Enter(st, e);
      var st3 :- if e.ClassExport? then VisitMembers(st2, e.members) else Success(st2);
      Exit(st3, e, input.referencedBy)
  }

  /** `transform(input)`. The stylesheet lookup parses the id before
      anything else, which fails when there is none. */
  function Transformed(input: TransformInput): Result<Output> {
    if input.id.None? then Failure(MissingModuleId)
    else
      var st1 :- VisitImports(Initial(), input.code.imports, Context(input));
      var st4 :- VisitExport(st1, input);
      Success(Finish(st4, input))
  }

  // ---------------------------------------------------------------------
  // The generated script calls `setData`, never `setState`
  // ---------------------------------------------------------------------

  predicate PropRenamed(p: Prop) {
    match p.value
    case InitValue(v) => NoSetStateInit(v)
    case FnValue(f) => NoSetStateFn(f)
    case RelationsValue(_) => true
    case MethodsValue(ms) => forall i :: 0 <= i < |ms| ==> NoSetStateFn(ms[i].1)
    case PropertiesValue(ds) => forall i :: 0 <= i < |ds| ==> ds[i].default.Some? ==> NoSetStateInit(ds[i].default.value)
  }

  predicate SpecsRenamed(ps: OMap<PropSpec>) {
    forall i :: 0 <= i < |ps| ==> ps[i].1.default.Some? ==> NoSetStateInit(ps[i].1.default.value)
  }

  /** Everything the behaviour object is built from has been renamed. */
  predicate StateRenamed(st: State) {
    (forall i :: 0 <= i < |st.attrs| ==> PropRenamed(st.attrs[i])) &&
    (forall i :: 0 <= i < |st.methods| ==> NoSetStateFn(st.methods[i].1)) &&
    SpecsRenamed(st.properties)
  }

  predicate NoSetStateMember(m: Member) {
    match m
    case Field(_, v) => NoSetStateInit(v)
    case Method(_, f) => NoSetStateFn(f)
  }

  predicate NoSetStateExport(e: Export) {
    match e
    case ClassExport(_, _, ms) => forall i :: 0 <= i < |ms| ==> NoSetStateMember(ms[i])
    case FuncExport(_, BlockBody(ss)) => forall i :: 0 <= i < |ss| ==> NoSetStateStmt(ss[i])
    case FuncExport(_, ExpressionBody(c)) => NoSetState(c)
    case OtherExport(c) => NoSetState(c)
  }

  predicate ScriptRenamed(p: Program) {
    (match p.exported
     case RoleCall(_, attrs) => forall i :: 0 <= i < |attrs| ==> PropRenamed(attrs[i])
     case KeptExport(d) => NoSetStateExport(d)
     case NoExport => true) &&
    forall i :: 0 <= i < |p.rest| ==> NoSetState(p.rest[i])
  }

  lemma RenameExportRemovesSetState(e: Export)
    ensures NoSetStateExport(RenameExport(e))
  {
    match e
    case ClassExport(id, sup, ms) =>
      var ms' := seq(|ms|, i requires 0 <= i < |ms| => RenameMember(ms[i]));
      forall i | 0 <= i < |ms| ensures NoSetStateMember(ms'[i]) {
        match ms[i]
        case Field(_, v) => RenameInitRemovesSetState(v);
        case Method(_, f) => RenameFnRemovesSetState(f);
      }
    case FuncExport(id, BlockBody(ss)) => RenameFnRemovesSetState(Fn([], ss, false, false));
    case FuncExport(id, ExpressionBody(c)) => RenameRemovesSetState(c);
    case OtherExport(c) => RenameRemovesSetState(c);
  }

  lemma {:induction false} PutSpecsRenamed(ps: OMap<PropSpec>, k: string, s: PropSpec)
    requires SpecsRenamed(ps) && (s.default.Some? ==> NoSetStateInit(s.default.value))
    ensures SpecsRenamed(Put(ps, k, s))
    decreases |ps|
  {
    if |ps| > 0 && ps[0].0 != k {
      assert SpecsRenamed(ps[1..]) by {
        forall i | 0 <= i < |ps[1..]| ensures ps[1..][i] == ps[i + 1] { }
      }
      PutSpecsRenamed(ps[1..], k, s);
      var r := [ps[0]] + Put(ps[1..], k, s);
      forall i | 0 < i < |r| ensures r[i] == Put(ps[1..], k, s)[i - 1] { }
    }
  }

  lemma {:induction false} GetSpecRenamed(ps: OMap<PropSpec>, k: string)
    requires SpecsRenamed(ps)
    ensures Get(ps, k).Some? && Get(ps, k).value.default.Some? ==> NoSetStateInit(Get(ps, k).value.default.value)
    decreases |ps|
  {
    if |ps| > 0 && ps[0].0 != k {
      assert SpecsRenamed(ps[1..]) by {
        forall i | 0 <= i < |ps[1..]| ensures ps[1..][i] == ps[i + 1] { }
      }
      GetSpecRenamed(ps[1..], k);
    }
  }

  lemma {:induction false} WithDefaultsRenamed(ps: OMap<PropSpec>, es: seq<(string, Init)>)
    requires SpecsRenamed(ps) && forall i :: 0 <= i < |es| ==> NoSetStateInit(es[i].1)
    ensures SpecsRenamed(WithDefaults(ps, es))
    decreases |es|
  {
    if |es| > 0 {
      var (k, v) := es[0];
      var spec := match Get(ps, k) case Some(s) => s case None => NoSpec;
      PutSpecsRenamed(ps, k, spec.(default := Some(v)));
      assert forall i :: 0 <= i < |es[1..]| ==> es[1..][i] == es[i + 1];
      WithDefaultsRenamed(Put(ps, k, spec.(default := Some(v))), es[1..]);
    }
  }

  lemma {:induction false} WithTypesRenamed(ps: OMap<PropSpec>, es: seq<(string, Option<string>)>)
    requires SpecsRenamed(ps)
    ensures SpecsRenamed(WithTypes(ps, es))
    decreases |es|
  {
    if |es| > 0 {
      var (k, t) := es[0];
      var spec := match Get(ps, k) case Some(s) => s case None => NoSpec;
      GetSpecRenamed(ps, k);
      PutSpecsRenamed(ps, k, if t.Some? then spec.(typeName := t) else spec);
      WithTypesRenamed(Put(ps, k, if t.Some? then spec.(typeName := t) else spec), es[1..]);
    }
  }

  /** The values a member route carries have been renamed. */
  predicate RouteRenamed(route: FieldRoute) {
    match route
    case DataProp(v) => NoSetStateInit(v)
    case PlainProp(_, v) => NoSetStateInit(v)
    case Defaults(es) => forall i :: 0 <= i < |es| ==> NoSetStateInit(es[i].1)
    case _ => true
  }

  lemma RouteFieldRenamed(kind: string, k: string, v: Init)
    requires RouteField(kind, k, v).Success?
    ensures RouteRenamed(RouteField(kind, k, v).value)
  {
    match RouteField(kind, k, v).value
    case DataProp(_) => RenameInitRemovesSetState(v);
    case PlainProp(_, _) => RenameInitRemovesSetState(v);
    case Defaults(es) =>
      assert v.ObjectInit? && |es| == |v.entries|;
      forall i | 0 <= i < |es| ensures NoSetStateInit(es[i].1) {
        assert es[i].1 == RenameInit(v.entries[i].1);
        RenameInitRemovesSetState(v.entries[i].1);
      }
    case _ =>
  }

  lemma ApplyFieldRenamed(st: State, route: FieldRoute)
    requires StateRenamed(st) && RouteRenamed(route)
    ensures StateRenamed(ApplyField(st, route))
  {
    match route
    case Defaults(es) => WithDefaultsRenamed(st.properties, es);
    case Types(es) => WithTypesRenamed(st.properties, es);
    case _ =>
  }

  lemma ApplyMethodRenamed(st: State, k: string, f: Fn)
    requires StateRenamed(st) && ApplyMethod(st, k, f).Success?
    ensures StateRenamed(ApplyMethod(st, k, f).value)
  {
    RenameFnRemovesSetState(f);
  }

  lemma VisitMemberRenamed(st: State, m: Member)
    requires StateRenamed(st) && VisitMember(st, m).Success?
    ensures StateRenamed(VisitMember(st, m).value)
  {
    match m
    case Field(k, v) =>
      RouteFieldRenamed(st.kind, k, v);
      ApplyFieldRenamed(st, RouteField(st.kind, k, v).value);
    case Method(k, f) => ApplyMethodRenamed(st, k, f);
  }

  lemma {:induction false} VisitMembersRenamed(st: State, ms: seq<Member>)
    requires StateRenamed(st) && VisitMembers(st, ms).Success?
    ensures StateRenamed(VisitMembers(st, ms).value)
    decreases |ms|
  {
    if |ms| > 0 {
      VisitMemberRenamed(st, ms[0]);
      VisitMembersRenamed(VisitMember(st, ms[0]).value, ms[1..]);
    }
  }

  lemma ApplyImportKeepsBehaviour(st: State, route: ImportRoute)
    ensures ApplyImport(st, route).attrs == st.attrs
    ensures ApplyImport(st, route).methods == st.methods
    ensures ApplyImport(st, route).properties == st.properties
    ensures ApplyImport(st, route).kind == st.kind
  {
  }

  lemma {:induction false} VisitImportsRenamed(st: State, imps: seq<Import>, ctx: ImportContext)
    requires StateRenamed(st) && VisitImports(st, imps, ctx).Success?
    ensures StateRenamed(VisitImports(st, imps, ctx).value)
    decreases |imps|
  {
    if |imps| > 0 {
      var route := RouteImport(imps[0], ctx).value;
      ApplyImportKeepsBehaviour(st, route);
      VisitImportsRenamed(ApplyImport(st, route), imps[1..], ctx);
    }
  }

  lemma ExitAttrsRenamed(kind: string, attrs: seq<Prop>, emitted: seq<(string, string)>,
                         methods: seq<(string, Fn)>, ds: seq<Descriptor>)
    requires forall i :: 0 <= i < |attrs| ==> PropRenamed(attrs[i])
    requires forall i :: 0 <= i < |methods| ==> NoSetStateFn(methods[i].1)
    requires forall i :: 0 <= i < |ds| ==> ds[i].default.Some? ==> NoSetStateInit(ds[i].default.value)
    ensures var r := ExitAttrs(kind, attrs, emitted, methods, ds);
      forall i :: 0 <= i < |r| ==> PropRenamed(r[i])
  {
    var x := if IsComponent(kind) && |emitted| > 0 then [Prop("relations", RelationsValue(emitted))] else [];
    var y := if |methods| > 0 then [Prop("methods", MethodsValue(methods))] else [];
    var z := if |ds| > 0 then [Prop("properties", PropertiesValue(ds))] else [];
    assert forall i :: 0 <= i < |x| ==> PropRenamed(x[i]);
    assert forall i :: 0 <= i < |y| ==> PropRenamed(y[i]);
    assert forall i :: 0 <= i < |z| ==> PropRenamed(z[i]);
  }

  lemma TemplateExitKeepsBehaviour(st: State, e: Export)
    requires TemplateExit(st, e).Success?
    ensures TemplateExit(st, e).value.attrs == st.attrs
    ensures TemplateExit(st, e).value.methods == st.methods
    ensures TemplateExit(st, e).value.properties == st.properties
    ensures TemplateExit(st, e).value.kind == st.kind
  {
  }

  lemma ExitRenamed(st: State, e: Export, referencedBy: seq<string>)
    requires StateRenamed(st) && Exit(st, e, referencedBy).Success?
    ensures StateRenamed(Exit(st, e, referencedBy).value)
  {
    var st1 := (if IsTemplate(st.kind) then TemplateExit(st, e) else Success(st)).value;
    if IsTemplate(st.kind) { TemplateExitKeepsBehaviour(st, e); }
    var relations := if IsComponent(st.kind) then ParentRelations(st1.relations, referencedBy) else st1.relations;
    var ds := Descriptors(st1.properties).value;
    assert forall i :: 0 <= i < |ds| ==> ds[i].default == st1.properties[i].1.default;
    ExitAttrsRenamed(st.kind, st1.attrs, EmittedRelations(relations), st1.methods, ds);
  }

  /** The behaviour object after the `exit` visitor of a class: the
      members' properties stay in front, followed by a `properties` object
      exactly when properties were collected, a `methods` object exactly
      when component methods were collected, and a `relations` object
      exactly when a component has relations to emit; no other part of the
      state but the relations changes. */
  lemma ExitAttrsOf(st: State, e: Export, referencedBy: seq<string>)
    requires !IsTemplate(st.kind) && Exit(st, e, referencedBy).Success?
    ensures Descriptors(st.properties).Success?
    ensures Exit(st, e, referencedBy).value.attrs ==
      ExitAttrs(st.kind, st.attrs,
        EmittedRelations(if IsComponent(st.kind) then ParentRelations(st.relations, referencedBy) else st.relations),
        st.methods, Descriptors(st.properties).value)
    ensures var r := Exit(st, e, referencedBy).value;
      |r.attrs| >= |st.attrs| && r.attrs[..|st.attrs|] == st.attrs &&
      (Prop("properties", PropertiesValue(Descriptors(st.properties).value)) in r.attrs[|st.attrs|..] <==>
        |st.properties| > 0) &&
      (Prop("methods", MethodsValue(st.methods)) in r.attrs[|st.attrs|..] <==> |st.methods| > 0) &&
      (Prop("relations", RelationsValue(EmittedRelations(r.relations))) in r.attrs[|st.attrs|..] <==>
        IsComponent(st.kind) && |EmittedRelations(r.relations)| > 0)
    ensures Exit(st, e, referencedBy).value ==
      st.(relations := Exit(st, e, referencedBy).value.relations, attrs := Exit(st, e, referencedBy).value.attrs)
  {
    var relations := if IsComponent(st.kind) then ParentRelations(st.relations, referencedBy) else st.relations;
    ExitAttrsShape(st.kind, st.attrs, EmittedRelations(relations), st.methods, Descriptors(st.properties).value);
  }

  /** The `exit` visitor succeeds only when every collected property has a
      type; given a type-less property it aborts, unless the template
      markup fails first. */
  lemma ExitNeedsTypes(st: State, e: Export, referencedBy: seq<string>)
    ensures Exit(st, e, referencedBy).Success? ==>
      forall i :: 0 <= i < |st.properties| ==> st.properties[i].1.typeName.Some?
    ensures ((!IsTemplate(st.kind) || TemplateExit(st, e).Success?) &&
             (exists i :: 0 <= i < |st.properties| && st.properties[i].1.typeName.None?)) ==>
      Exit(st, e, referencedBy).Failure? && Exit(st, e, referencedBy).error.UntypedProperty?
  {
    if IsTemplate(st.kind) && TemplateExit(st, e).Success? {
      TemplateExitKeepsBehaviour(st, e);
    }
  }

  lemma VisitExportRenamed(st: State, input: TransformInput)
    requires StateRenamed(st) && VisitExport(st, input).Success?
    ensures StateRenamed(VisitExport(st, input).value)
  {
    match input.code.exported
    case None =>
    case Some(e) =>
      var st2 := Enter(st, e).value;
      var st3 := (if e.ClassExport? then VisitMembers(st2, e.members) else Success(st2)).value;
      if e.ClassExport? { VisitMembersRenamed(st2, e.members); }
      ExitRenamed(st3, e, input.referencedBy);
  }

  lemma FinishRenamed(st: State, input: TransformInput)
    requires StateRenamed(st) && Finish(st, input).js.Some?
    ensures ScriptRenamed(Finish(st, input).js.value)
  {
    if input.code.exported.Some? {
      RenameExportRemovesSetState(input.code.exported.value);
    }
    forall i | 0 <= i < |input.code.rest| ensures NoSetState(RenameCode(input.code.rest[i])) {
      RenameRemovesSetState(input.code.rest[i]);
    }
  }

  /** The script the transform generates never calls `setState`: every call
      in it, in the behaviour object, the kept export and the other
      statements, has been renamed to `setData`. */
  lemma TransformedScriptUsesSetData(input: TransformInput)
    requires Transformed(input).Success? && Transformed(input).value.js.Some?
    ensures ScriptRenamed(Transformed(input).value.js.value)
  {
    var ctx := Context(input);
    var st1 := VisitImports(Initial(), input.code.imports, ctx).value;
    VisitImportsRenamed(Initial(), input.code.imports, ctx);
    VisitExportRenamed(st1, input);
    FinishRenamed(VisitExport(st1, input).value, input);
  }

  // ---------------------------------------------------------------------
  // The role decides the output
  // ---------------------------------------------------------------------

  lemma {:induction false} VisitImportsKeep(st: State, imps: seq<Import>, ctx: ImportContext)
    requires VisitImports(st, imps, ctx).Success?
    ensures VisitImports(st, imps, ctx).value.kind == st.kind
    ensures VisitImports(st, imps, ctx).value.attrs == st.attrs
    ensures VisitImports(st, imps, ctx).value.name == st.name
    decreases |imps|
  {
    if |imps| > 0 {
      var route := RouteImport(imps[0], ctx).value;
      ApplyImportKeepsBehaviour(st, route);
      VisitImportsKeep(ApplyImport(st, route), imps[1..], ctx);
    }
  }

  lemma {:induction false} VisitMembersKeepKind(st: State, ms: seq<Member>)
    requires VisitMembers(st, ms).Success?
    ensures VisitMembers(st, ms).value.kind == st.kind
    decreases |ms|
  {
    if |ms| > 0 {
      var st' := VisitMember(st, ms[0]).value;
      assert st'.kind == st.kind by {
        match ms[0]
        case Field(k, v) =>
        case Method(k, f) =>
      }
      VisitMembersKeepKind(st', ms[1..]);
    }
  }

  /** The behaviour properties one member contributes, read off its route:
      `state` as `data`, a plain field under its name, and a method routed
      directly onto the object. */
  function MemberProps(kind: string, m: Member): seq<Prop> {
    match m
    case Field(k, v) =>
      (match RouteField(kind, k, v)
       case Success(DataProp(d)) => [Prop("data", InitValue(d))]
       case Success(PlainProp(k', d)) => [Prop(k', InitValue(d))]
       case _ => [])
    case Method(k, f) => if RouteMethod(kind, k) == DirectProp then [Prop(k, FnValue(RenameFn(f)))] else []
  }

  /** The component methods one member contributes to the `methods` object. */
  function MemberMethods(kind: string, m: Member): seq<(string, Fn)> {
    match m
    case Field(_, _) => []
    case Method(k, f) => if RouteMethod(kind, k) == MethodsEntry then [(k, RenameFn(f))] else []
  }

  /** The properties of the members, in declaration order. */
  function DeclaredProps(kind: string, ms: seq<Member>): seq<Prop>
    decreases |ms|
  {
    if |ms| == 0 then [] else MemberProps(kind, ms[0]) + DeclaredProps(kind, ms[1..])
  }

  /** The component methods of the members, in declaration order. */
  function DeclaredMethods(kind: string, ms: seq<Member>): seq<(string, Fn)>
    decreases |ms|
  {
    if |ms| == 0 then [] else MemberMethods(kind, ms[0]) + DeclaredMethods(kind, ms[1..])
  }

  /** The member visitor appends each member's properties and methods after
      those collected before it, so the behaviour object and the `methods`
      object list the members in declaration order. */
  lemma {:induction false} VisitMembersInOrder(st: State, ms: seq<Member>)
    requires VisitMembers(st, ms).Success?
    ensures VisitMembers(st, ms).value.attrs == st.attrs + DeclaredProps(st.kind, ms)
    ensures VisitMembers(st, ms).value.methods == st.methods + DeclaredMethods(st.kind, ms)
    decreases |ms|
  {
    if |ms| > 0 {
      var st' := VisitMember(st, ms[0]).value;
      assert st'.kind == st.kind && st'.attrs == st.attrs + MemberProps(st.kind, ms[0]) &&
        st'.methods == st.methods + MemberMethods(st.kind, ms[0]) by {
        match ms[0]
        case Field(k, v) =>
        case Method(k, f) =>
      }
      VisitMembersInOrder(st', ms[1..]);
    }
  }

  // ---------------------------------------------------------------------
  // Every object the visitors fill is written through assignments
  // ---------------------------------------------------------------------

  /** No object collected by the visitors holds a key twice. */
  predicate MapsDistinct(st: State) {
    DistinctKeys(st.properties) && DistinctKeys(st.components) && DistinctKeys(st.templates) &&
    DistinctKeys(st.relations) && DistinctKeys(st.jsonAttrs)
  }

  lemma ImportStepDistinct(st: State, imp: Import, ctx: ImportContext)
    requires MapsDistinct(st) && ImportStep(st, imp, ctx).Success?
    ensures MapsDistinct(ImportStep(st, imp, ctx).value)
  {
    match RouteImport(imp, ctx).value
    case ComponentImport(l, p) =>
      PutKeepsKeysDistinct(st.components, l, p);
      PutKeepsKeysDistinct(st.relations, p, "child");
    case TemplateImport(l, p) =>
      PutKeepsKeysDistinct(st.templates, l, p);
    case _ =>
  }

  lemma {:induction false} VisitImportsDistinct(st: State, imps: seq<Import>, ctx: ImportContext)
    requires MapsDistinct(st) && VisitImports(st, imps, ctx).Success?
    ensures MapsDistinct(VisitImports(st, imps, ctx).value)
    decreases |imps|
  {
    if |imps| > 0 {
      ImportStepDistinct(st, imps[0], ctx);
      VisitImportsDistinct(ImportStep(st, imps[0], ctx).value, imps[1..], ctx);
    }
  }

  lemma VisitMemberDistinct(st: State, m: Member)
    requires MapsDistinct(st) && VisitMember(st, m).Success?
    ensures MapsDistinct(VisitMember(st, m).value)
  {
    if m.Field? {
      match RouteField(st.kind, m.key, m.value).value {
        case Defaults(es) => WithDefaultsDistinct(st.properties, es);
        case Types(es) => WithTypesDistinct(st.properties, es);
        case Config(k, j) => PutKeepsKeysDistinct(st.jsonAttrs, k, j);
        case ConfigSpread(es) => PutAllKeepsKeysDistinct(st.jsonAttrs, es);
        case _ =>
      }
    }
  }

  lemma {:induction false} VisitMembersDistinct(st: State, ms: seq<Member>)
    requires MapsDistinct(st) && VisitMembers(st, ms).Success?
    ensures MapsDistinct(VisitMembers(st, ms).value)
    decreases |ms|
  {
    if |ms| > 0 {
      VisitMemberDistinct(st, ms[0]);
      VisitMembersDistinct(VisitMember(st, ms[0]).value, ms[1..]);
    }
  }

  lemma VisitExportDistinct(st: State, input: TransformInput)
    requires MapsDistinct(st) && VisitExport(st, input).Success?
    ensures MapsDistinct(VisitExport(st, input).value)
  {
    if input.code.exported.Some? {
      var e := input.code.exported.value;
      var st2 := Enter(st, e).value;
      var st3 := if e.ClassExport? then VisitMembers(st2, e.members).value else st2;
      if e.ClassExport? {
        VisitMembersDistinct(st2, e.members);
      }
      if IsTemplate(st3.kind) {
        TemplateExitKeepsBehaviour(st3, e);
      }
      var st4 := if IsTemplate(st3.kind) then TemplateExit(st3, e).value else st3;
      if IsComponent(st3.kind) {
        PutEachDistinct(st4.relations, ParentPaths(input.referencedBy), "parent");
      }
    }
  }

  /** Every object the transform collects (properties, imported components
      and templates, relations and JSON fields) holds each key once, when
      the imports are visited and when the export is. */
  lemma TransformedMapsDistinct(input: TransformInput)
    requires VisitImports(Initial(), input.code.imports, Context(input)).Success?
    ensures var st1 := VisitImports(Initial(), input.code.imports, Context(input)).value;
      MapsDistinct(st1) && (VisitExport(st1, input).Success? ==> MapsDistinct(VisitExport(st1, input).value))
  {
    VisitImportsDistinct(Initial(), input.code.imports, Context(input));
    var st1 := VisitImports(Initial(), input.code.imports, Context(input)).value;
    if VisitExport(st1, input).Success? {
      VisitExportDistinct(st1, input);
    }
  }

  /** The role a module takes on entering its default export is the role of
      its output: no later visitor changes it. */
  lemma TransformedKind(input: TransformInput)
    requires Transformed(input).Success?
    ensures Transformed(input).value.kind ==
      match input.code.exported
      case None => LocalModule
      case Some(e) => Classify(Some(e)).value
  {
    var st1 := VisitImports(Initial(), input.code.imports, Context(input)).value;
    VisitImportsKeep(Initial(), input.code.imports, Context(input));
    match input.code.exported
    case None =>
    case Some(e) =>
      var st2 := Enter(st1, e).value;
      if e.ClassExport? { VisitMembersKeepKind(st2, e.members); }
  }

  /** What each role produces: a page and a component always have a
      configuration file, a component's declaring it a component; a
      template module has no script and every other module has one; a
      module with no role has no configuration. The stylesheet passes
      through. */
  lemma TransformedFiles(input: TransformInput)
    requires Transformed(input).Success?
    ensures var o := Transformed(input).value;
      (IsPage(o.kind) ==> o.json.Some?) &&
      (IsComponent(o.kind) ==>
         (o.json.Some? && o.json.value.JObj? && |o.json.value.entries| >= 1 &&
          o.json.value.entries[0] == ("component", JBool(true)))) &&
      (IsTemplate(o.kind) <==> o.js.None?) &&
      (!IsApp(o.kind) && !IsGame(o.kind) && !IsComponent(o.kind) && !IsPage(o.kind) ==> o.json.None?) &&
      o.css == input.stylesheet
  {
    var st1 := VisitImports(Initial(), input.code.imports, Context(input)).value;
    var st := VisitExport(st1, input).value;
    ComponentConfig(st.pages, st.components, st.jsonAttrs);
    if !IsApp(st.kind) && !IsGame(st.kind) && !IsComponent(st.kind) && !IsPage(st.kind) {
      OtherRolesNoConfig(st.kind, st.pages, st.components, st.jsonAttrs);
    }
  }

  /** A class extending a role class becomes a call of that class's name on
      the behaviour object; any other class is kept as written (renamed). */
  lemma TransformedClass(input: TransformInput, id: Option<string>, sup: Option<string>, ms: seq<Member>)
    requires input.code.exported == Some(ClassExport(id, sup, ms))
    requires Transformed(input).Success?
    ensures var o := Transformed(input).value;
      o.js.Some? &&
      (IsRoleClass(sup) ==> o.kind == ToLower(sup.value) && o.js.value.exported.RoleCall? && o.js.value.exported.callee == sup.value) &&
      (!IsRoleClass(sup) ==>
         (o.kind == LocalModule && o.json.None? &&
          o.js.value.exported == KeptExport(RenameExport(ClassExport(id, sup, ms)))))
  {
    TransformedKind(input);
    TransformedFiles(input);
    var o := Transformed(input).value;
    if IsRoleClass(sup) {
      RoleIsNotTemplate(sup.value);
    }
    assert !IsTemplate(o.kind);
  }

  /** A role class never makes a template. */
  lemma RoleIsNotTemplate(sup: string)
    requires ContainsAny(sup, RoleNames)
    ensures ToLower(sup) != TemplateKind
  {
    var k :| 0 <= k < |RoleNames| && Contains(sup, RoleNames[k]);
    ToLowerContains(sup, RoleNames[k]);
    if ToLower(sup) == TemplateKind {
      var lower := ToLower(RoleNames[k]);
      assert lower == "app" || lower == "page" || lower == "component" || lower == "game";
      NotInTemplate(lower);
    }
  }

  lemma NotInTemplate(w: string)
    requires w == "app" || w == "page" || w == "component" || w == "game"
    ensures !Contains(TemplateKind, w)
  {
    var t := TemplateKind;
    if w == "component" {
      if Contains(t, w) {
        var i := ContainsWitness(t, w);
        assert false;
      }
    } else {
      forall j | 0 <= j < |t| - 1
        ensures t[j] != w[0] || t[j + 1] != w[1]
      {
        if j == 0 {} else if j == 1 {} else if j == 2 {} else if j == 3 {}
        else if j == 4 {} else if j == 5 {} else {}
      }
      NotContainsPair(t, w);
    }
  }



  /** A function whose first `return` gives JSX becomes a named template:
      no script, and markup that ends with the template. */
  lemma TransformedTemplate(input: TransformInput, n: string, ss: seq<Stmt>)
    requires input.code.exported == Some(FuncExport(Some(n), BlockBody(ss)))
    requires ReturnsJsx(FirstReturn(ss))
    requires Transformed(input).Success?
    ensures var o := Transformed(input).value;
      o.kind == TemplateKind && o.js.None? && o.name == Some(n) && o.wxml.Some? &&
      exists body :: var t := TemplateMarkup(Some(n), body);
        |o.wxml.value| >= |t| && o.wxml.value[|o.wxml.value| - |t|..] == t
  {
    var e := FuncExport(Some(n), BlockBody(ss));
    var st1 := VisitImports(Initial(), input.code.imports, Context(input)).value;
    var st2 := Enter(st1, e).value;
    assert st2.kind == TemplateKind;
    var st3 := TemplateExit(st2, e).value;
    var el := FirstReturn(ss).value.value.element;
    var body := Render(Rewrite(el, st2.templates).value);
    assert st3.wxml == Some(TemplateMarkup(Some(n), body));
    var st := Exit(st2, e, input.referencedBy).value;
    assert st.wxml == st3.wxml && st.templates == st3.templates && st.name == Some(n);
    ImportedMarkupEnds(st.templates, TemplateMarkup(Some(n), body));
  }

  /** Every module that imports a component is among its `parent`
      relations, unless its path mentions `pages`. */
  lemma TransformedComponentParents(input: TransformInput, r: string)
    requires Transformed(input).Success? && Transformed(input).value.kind == ComponentKind
    requires r in input.referencedBy && !Contains(ParentPath(r), "pages")
    ensures var o := Transformed(input).value;
      o.js.Some? && o.js.value.exported.RoleCall? &&
      exists rels :: Prop("relations", RelationsValue(rels)) in o.js.value.exported.attrs &&
        (RelationPath(ParentPath(r)), "parent") in rels
  {
    TransformedKind(input);
    var e := input.code.exported.value;
    assert e.ClassExport? && IsRoleClass(e.superClass);
    var st1 := VisitImports(Initial(), input.code.imports, Context(input)).value;
    var st2 := Enter(st1, e).value;
    var st3 := VisitMembers(st2, e.members).value;
    VisitMembersKeepKind(st2, e.members);
    var relations := ParentRelations(st3.relations, input.referencedBy);
    var k := ParentPath(r);
    assert k in ParentPaths(input.referencedBy) by {
      var j :| 0 <= j < |input.referencedBy| && input.referencedBy[j] == r;
      assert ParentPaths(input.referencedBy)[j] == k;
    }
    ParentRelationsGet(st3.relations, input.referencedBy, k);
    var i := KeyIndex(relations, k);
    var rels := EmittedRelations(relations);
    EmittedRelationsExact(relations, (RelationPath(k), "parent"));
    assert Emits(relations[i], (RelationPath(k), "parent"));
    ExitAttrsOf(st3, e, input.referencedBy);
    ExitAttrsShape(ComponentKind, st3.attrs, rels, st3.methods, Descriptors(st3.properties).value);
    var st := Exit(st3, e, input.referencedBy).value;
    assert Prop("relations", RelationsValue(rels)) in st.attrs;
  }
}
