/** The import visitor. An import of a module the driver has already
    transformed is routed by that module's role: a page goes into the app's
    page list, a component into `usingComponents` and the relations, a
    template into the imported templates, and the declaration disappears.
    Any other import stays in the script, its source rewritten: an import from
    a package goes to the copied `modules` directory (reduced to its non-role
    specifiers when it comes from the framework package), and a local import
    gets a `.js` extension. */
module Imports {
  import opened Wrappers
  import opened Strings
  import opened OrderedMaps
  import opened Paths
  import opened Ast
  import opened Roles
  import opened Accumulators

  /** What the visitor reads besides the declaration: the module's id, the
      role of every module already transformed (by id), the working directory
      and the source root. */
  datatype ImportContext = ImportContext(
    id: Option<string>,
    deps: map<string, string>,
    cwd: string,
    sourcePath: Option<string>)

  datatype ImportRoute =
    | PageImport(path: string)
    | ComponentImport(local: string, path: string)
    | TemplateImport(local: string, path: string)
    | KeepImport(imp: Import)
    | RemoveImport

  /** The name the first specifier binds, or the empty string. */
  function ModuleName(imp: Import): string {
    if |imp.locals| > 0 then imp.locals[0] else ""
  }

  /** An id is given when it is a non-empty string. */
  predicate HasId(id: Option<string>) {
    id.Some? && id.value != ""
  }

  /** The key the imported module is looked up under: the source resolved
      against the importing module's directory, or the source itself when the
      module has no id. */
  function LookupKey(imp: Import, ctx: ImportContext): string {
    if HasId(ctx.id) then Resolve(ctx.cwd, [Parse(ctx.id.value).dir, imp.source]) else imp.source
  }

  /** The page path listed in `app.json`: directory (without a leading `./`)
      and name, no extension. */
  function PagePath(source: string): string {
    var p := Parse(source);
    Join([ReplaceFirst(p.dir, "./", ""), p.name])
  }

  /** The component path as `usingComponents` and the relations hold it,
      one directory up from the importing component. */
  function ComponentPath(source: string): string {
    var p := Parse(source);
    Join(["..", Format(p.dir, p.name, "")])
  }

  /** The markup file an imported template is read from. */
  function TemplatePath(source: string): string {
    var p := Parse(source);
    Join(["..", p.dir, p.name + ".wxml"])
  }

  /** The specifiers of a framework import that survive: those whose local
      name names no role. */
  function WnLocals(locals: seq<string>): (r: seq<string>)
    ensures |r| <= |locals|
    decreases |locals|
  {
    if |locals| == 0 then []
    else if ContainsAny(locals[0], RoleNames) then WnLocals(locals[1..])
    else [locals[0]] + WnLocals(locals[1..])
  }

  /** Where an import from a package is read from: the `modules` directory
      beside the source root, seen from the importing module. */
  function ModulePath(ctx: ImportContext, id: string, sourcePath: string, source: string): string {
    Format(Join([Relative(ctx.cwd, Dirname(id), sourcePath), "modules"]), source, ".js")
  }

  /** The source a local import is rewritten to: `.` and the extension
      appended, `js` when the source has none. */
  function LocalPath(source: string): string {
    var ext := Extname(source);
    source + "." + (if ext == "" then "js" else ext)
  }

  /** The import visitor on one declaration. */
  function RouteImport(imp: Import, ctx: ImportContext): Result<ImportRoute> {
    var key := LookupKey(imp, ctx);
    if key in ctx.deps then
      var kind := ctx.deps[key];
      if kind == PageKind then Success(PageImport(PagePath(imp.source)))
      else if kind == ComponentKind then Success(ComponentImport(ModuleName(imp), ComponentPath(imp.source)))
      else if kind == TemplateKind then Success(TemplateImport(ModuleName(imp), TemplatePath(imp.source)))
      else Success(KeepImport(imp))
    else if Parse(imp.source).dir == "" then
      var wn := Contains(imp.source, "wn");
      var locals := if wn then WnLocals(imp.locals) else imp.locals;
      if wn && |locals| == 0 then Success(RemoveImport)
      else if ctx.id.None? then Failure(MissingModuleId)
      else if ctx.sourcePath.None? then Failure(MissingSourcePath)
      else Success(KeepImport(Import(locals, ModulePath(ctx, ctx.id.value, ctx.sourcePath.value, imp.source))))
    else Success(KeepImport(Import(imp.locals, LocalPath(imp.source))))
  }

  /** The routed declaration recorded in the accumulators. */
  function ApplyImport(st: State, route: ImportRoute): State {
    match route
    case PageImport(p) => st.(pages := st.pages + [p])
    case ComponentImport(l, p) =>
      st.(components := Put(st.components, l, p), relations := Put(st.relations, p, "child"))
    case TemplateImport(l, p) => st.(templates := Put(st.templates, l, p))
    case KeepImport(i) => st.(kept := st.kept + [i])
    case RemoveImport => st
  }

  // ---------------------------------------------------------------------
  // Properties
  // ---------------------------------------------------------------------

  /** An import of a transformed module never fails; it is routed by that
      module's role, and a module of any other role is imported unchanged. */
  lemma KnownModuleRouted(imp: Import, ctx: ImportContext)
    requires LookupKey(imp, ctx) in ctx.deps
    ensures RouteImport(imp, ctx).Success?
    ensures var kind := ctx.deps[LookupKey(imp, ctx)];
      (RouteImport(imp, ctx).value.PageImport? <==> kind == PageKind) &&
      (RouteImport(imp, ctx).value.ComponentImport? <==> kind == ComponentKind) &&
      (RouteImport(imp, ctx).value.TemplateImport? <==> kind == TemplateKind) &&
      (RouteImport(imp, ctx).value == KeepImport(imp) <==>
        kind != PageKind && kind != ComponentKind && kind != TemplateKind)
  {
  }

  /** The filter keeps a specifier that names no role and drops one that
      names a role. */
  lemma WnLocalsOne(l: string)
    ensures WnLocals([l]) == if ContainsAny(l, RoleNames) then [] else [l]
  {
    assert [l][1..] == [];
  }

  /** The filter works specifier by specifier, so the kept specifiers stay
      in their order. */
  lemma {:induction false} WnLocalsInOrder(a: seq<string>, b: seq<string>)
    ensures WnLocals(a + b) == WnLocals(a) + WnLocals(b)
    decreases |a|
  {
    if |a| > 0 {
      assert (a + b)[0] == a[0] && (a + b)[1..] == a[1..] + b;
      WnLocalsInOrder(a[1..], b);
    } else {
      assert a + b == b;
    }
  }

  /** The framework import keeps exactly its specifiers that name no role. */
  lemma {:induction false} WnLocalsFilter(locals: seq<string>)
    ensures forall l :: l in WnLocals(locals) <==> l in locals && !ContainsAny(l, RoleNames)
    ensures WnLocals(locals) == locals <==> forall i :: 0 <= i < |locals| ==> !ContainsAny(locals[i], RoleNames)
    decreases |locals|
  {
    if |locals| > 0 {
      WnLocalsFilter(locals[1..]);
      assert locals == [locals[0]] + locals[1..];
      if ContainsAny(locals[0], RoleNames) {
        assert |WnLocals(locals)| < |locals|;
      } else {
        assert (forall i :: 0 <= i < |locals| ==> !ContainsAny(locals[i], RoleNames)) <==>
          (forall i :: 0 <= i < |locals[1..]| ==> !ContainsAny(locals[1..][i], RoleNames)) by {
          forall i | 0 < i < |locals| ensures locals[i] == locals[1..][i - 1] { }
        }
      }
    }
  }

  /** A package import fails exactly when the module has no id or no source
      root, unless it is a framework import of role names only, which is
      dropped. */
  lemma PackageImportFails(imp: Import, ctx: ImportContext)
    requires LookupKey(imp, ctx) !in ctx.deps && Parse(imp.source).dir == ""
    ensures RouteImport(imp, ctx) == Success(RemoveImport) <==>
      Contains(imp.source, "wn") && forall l :: l in imp.locals ==> ContainsAny(l, RoleNames)
    ensures RouteImport(imp, ctx).Failure? <==>
      !(Contains(imp.source, "wn") && forall l :: l in imp.locals ==> ContainsAny(l, RoleNames)) &&
      (ctx.id.None? || ctx.sourcePath.None?)
  {
    WnLocalsFilter(imp.locals);
    if Contains(imp.source, "wn") && |WnLocals(imp.locals)| > 0 {
      assert WnLocals(imp.locals)[0] in WnLocals(imp.locals);
    }
  }

  /** Every path join ends in a non-empty path. */
  lemma JoinNonEmpty(parts: seq<string>)
    ensures Join(parts) != ""
  {
    var ps := NonEmpty(parts);
    if |ps| > 0 {
      var p := JoinWith(ps, "/");
      if |p| > 0 {
        var body := JoinWith(Fold([], Split(p, '/'), p[0] == '/'), "/");
        if |body| > 0 {
          assert |Normalize(p)| >= |body|;
        }
      }
    }
  }

  /** A kept package import reads `<directory>/<source>.js` from a
      directory whose base name is `modules`. */
  lemma PackagePathShape(imp: Import, ctx: ImportContext)
    requires LookupKey(imp, ctx) !in ctx.deps && Parse(imp.source).dir == ""
    requires RouteImport(imp, ctx).Success? && RouteImport(imp, ctx).value.KeepImport?
    ensures var src := RouteImport(imp, ctx).value.imp.source;
      exists dir :: dir != "" && DirBase(dir).1 == "modules" && src == dir + "/" + imp.source + ".js"
  {
    var rel := Relative(ctx.cwd, Dirname(ctx.id.value), ctx.sourcePath.value);
    var dir := Join([rel, "modules"]);
    JoinNonEmpty([rel, "modules"]);
    assert PlainSegment("modules");
    assert [rel] + ["modules"] == [rel, "modules"];
    JoinBase([rel], "modules");
    assert RouteImport(imp, ctx).value.imp.source == dir + "/" + imp.source + ".js";
  }

  /** A local import keeps its specifiers and its source, followed by a dot
      and the extension: `js` when it has none, its own extension (dot
      included) when it has one. */
  lemma LocalImportExtension(imp: Import, ctx: ImportContext)
    requires LookupKey(imp, ctx) !in ctx.deps && Parse(imp.source).dir != ""
    ensures RouteImport(imp, ctx).Success? && RouteImport(imp, ctx).value.KeepImport?
    ensures var kept := RouteImport(imp, ctx).value.imp;
      kept.locals == imp.locals &&
      kept.source == imp.source + "." + (if Extname(imp.source) == "" then "js" else Extname(imp.source))
    ensures Extname(imp.source) != "" ==> Extname(imp.source)[0] == '.'
  {
    ExtShape(imp.source);
  }

  /** An imported component is bound in `usingComponents` to the path that
      names it among the relations, where it is a child. */
  lemma ComponentImportRecorded(st: State, local: string, path: string)
    ensures Get(ApplyImport(st, ComponentImport(local, path)).components, local) == Some(path)
    ensures Get(ApplyImport(st, ComponentImport(local, path)).relations, path) == Some("child")
    ensures ApplyImport(st, ComponentImport(local, path)).kept == st.kept
  {
    PutGetSame(st.components, local, path);
    PutGetSame(st.relations, path, "child");
  }
}
