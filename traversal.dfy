/** The traversal as the transform performs it: the accumulators are the
    fields of one object, every visitor updates them in place, and the
    `forEach` loops of the visitors are loops. Each visitor is proved to make
    the step `Transform` specifies, and `Run` to compute `Transformed`. */
module Traversal {
  import opened Wrappers
  import opened Strings
  import opened OrderedMaps
  import opened Ast
  import opened Roles
  import opened Rename
  import opened Markup
  import opened Accumulators
  import opened Routing
  import opened Imports
  import opened Assembly
  import opened Transform

  /** A visitor either fails with an error and changes nothing, or makes the
      step the specification gives. */
  predicate Stepped(spec: Result<State>, err: Option<Error>, now: State, before: State) {
    match spec
    case Success(s) => err.None? && now == s
    case Failure(e) => err == Some(e) && now == before
  }

  class Visitors {
    var kind: string
    var attrs: seq<Prop>
    var methods: seq<(string, Fn)>
    var properties: OMap<PropSpec>
    var pages: seq<string>
    var components: OMap<string>
    var templates: OMap<string>
    var relations: OMap<string>
    var jsonAttrs: OMap<Json>
    var kept: seq<Import>
    var name: Option<string>
    var wxml: Option<string>

    /** The accumulators as one value. */
    function Snapshot(): State
      reads this
    {
      State(kind, attrs, methods, properties, pages, components, templates, relations, jsonAttrs, kept, name, wxml)
    }

    constructor()
      ensures Snapshot() == Initial()
    {
      kind := LocalModule;
      attrs := [];
      methods := [];
      properties := [];
      pages := [];
      components := [];
      templates := [];
      relations := [];
      jsonAttrs := [];
      kept := [];
      name := None;
      wxml := None;
    }

    /** The `ImportDeclaration` visitor. */
    method VisitImport(imp: Import, ctx: ImportContext) returns (err: Option<Error>)
      modifies this
      ensures Stepped(ImportStep(old(Snapshot()), imp, ctx), err, Snapshot(), old(Snapshot()))
    {
      var route := RouteImport(imp, ctx);
      if route.Failure? {
        return Some(route.error);
      }
      RecordImport(route.value);
      err := None;
    }

    /** A routed import recorded in its accumulator. */
    method RecordImport(route: ImportRoute)
      modifies this
      ensures Snapshot() == ApplyImport(old(Snapshot()), route)
    {
      match route
      case PageImport(p) => pages := pages + [p];
      case ComponentImport(l, p) =>
        components := Put(components, l, p);
        relations := Put(relations, p, "child");
      case TemplateImport(l, p) => templates := Put(templates, l, p);
      case KeepImport(i) => kept := kept + [i];
      case RemoveImport =>
    }

    /** `ClassProperty`: the route is chosen, then the accumulator it names is
        updated. */
    method VisitField(key: string, value: Init) returns (err: Option<Error>)
      modifies this
      ensures Stepped(VisitMember(old(Snapshot()), Field(key, value)), err, Snapshot(), old(Snapshot()))
    {
      var route := RouteField(kind, key, value);
      if route.Failure? {
        return Some(route.error);
      }
      RecordField(route.value);
      err := None;
    }

    /** A routed field recorded entry by entry. */
    method RecordField(route: FieldRoute)
      modifies this
      ensures Snapshot() == ApplyField(old(Snapshot()), route)
    {
      match route
      case DataProp(v) => attrs := attrs + [Prop("data", InitValue(v))];
      case PlainProp(k, v) => attrs := attrs + [Prop(k, InitValue(v))];
      case Config(k, j) => jsonAttrs := Put(jsonAttrs, k, j);
      case Defaults(es) =>
        ghost var p0 := properties;
        for i := 0 to |es|
          invariant WithDefaults(properties, es[i..]) == WithDefaults(p0, es)
          invariant Snapshot() == old(Snapshot()).(properties := properties)
        {
          var (k, v) := es[i];
          var spec := match Get(properties, k) case Some(s) => s case None => NoSpec;
          assert es[i..][0] == es[i] && es[i..][1..] == es[i + 1..];
          properties := Put(properties, k, spec.(default := Some(v)));
        }
        assert es[|es|..] == [];
      case Types(es) =>
        ghost var p0 := properties;
        for i := 0 to |es|
          invariant WithTypes(properties, es[i..]) == WithTypes(p0, es)
          invariant Snapshot() == old(Snapshot()).(properties := properties)
        {
          var (k, t) := es[i];
          var spec := match Get(properties, k) case Some(s) => s case None => NoSpec;
          assert es[i..][0] == es[i] && es[i..][1..] == es[i + 1..];
          properties := Put(properties, k, if t.Some? then spec.(typeName := t) else spec);
        }
        assert es[|es|..] == [];
      case ConfigSpread(es) =>
        ghost var j0 := jsonAttrs;
        for i := 0 to |es|
          invariant PutAll(jsonAttrs, es[i..]) == PutAll(j0, es)
          invariant Snapshot() == old(Snapshot()).(jsonAttrs := jsonAttrs)
        {
          assert es[i..][0] == es[i] && es[i..][1..] == es[i + 1..];
          jsonAttrs := Put(jsonAttrs, es[i].0, es[i].1);
        }
        assert es[|es|..] == [];
    }

    /** `ClassMethod`: `render` gives the markup on exit, the other methods
        go where their route says. */
    method VisitMethod(key: string, fn: Fn) returns (err: Option<Error>)
      modifies this
      ensures Stepped(VisitMember(old(Snapshot()), Method(key, fn)), err, Snapshot(), old(Snapshot()))
    {
      err := None;
      match RouteMethod(kind, key)
      case RenderRoute =>
        var m := RenderMarkup(fn, templates);
        if m.Failure? {
          return Some(m.error);
        }
        if m.value.Some? {
          wxml := m.value;
        }
      case DirectProp => attrs := attrs + [Prop(key, FnValue(RenameFn(fn)))];
      case MethodsEntry => methods := methods + [(key, RenameFn(fn))];
      case Dropped =>
    }

    /** The export's `enter` visitor. */
    method Enter(e: Export) returns (err: Option<Error>)
      modifies this
      ensures Stepped(Transform.Enter(old(Snapshot()), e), err, Snapshot(), old(Snapshot()))
    {
      var k := Classify(Some(e));
      if k.Failure? {
        return Some(k.error);
      }
      kind := k.value;
      err := None;
    }

    /** The export's `exit` visitor: the template markup, the parent
        relations, the emitted relations, the property descriptors, and the
        behaviour object's last members. Both ways it can abort are checked
        before the first update: an abort ends the whole transform, so the
        updates made before it in the source are never seen. */
    method Exit(e: Export, referencedBy: seq<string>) returns (err: Option<Error>)
      modifies this
      ensures Stepped(Transform.Exit(old(Snapshot()), e, referencedBy), err, Snapshot(), old(Snapshot()))
    {
      ghost var st0 := Snapshot();
      var t := if IsTemplate(kind) then TemplateExit(Snapshot(), e) else Success(Snapshot());
      if t.Failure? {
        return Some(t.error);
      }
      if IsTemplate(kind) {
        TemplateExitKeepsBehaviour(st0, e);
      }
      var descriptors := DescriptorsOf(properties);
      if descriptors.Failure? {
        return Some(descriptors.error);
      }
      name := t.value.name;
      wxml := t.value.wxml;
      assert Snapshot() == t.value;
      if IsComponent(kind) {
        AddParents(referencedBy);
      }
      var emitted := EmittedOf(relations);
      PushExitMembers(emitted, descriptors.value);
      err := None;
    }

    /** The last members of the behaviour object, each pushed when it has
        an entry. */
    method PushExitMembers(emitted: seq<(string, string)>, descriptors: seq<Descriptor>)
      modifies this
      ensures Snapshot() == old(Snapshot()).(attrs := ExitAttrs(kind, old(attrs), emitted, methods, descriptors))
    {
      ghost var a0 := attrs;
      if IsComponent(kind) && |emitted| > 0 {
        attrs := attrs + [Prop("relations", RelationsValue(emitted))];
      }
      if |methods| > 0 {
        attrs := attrs + [Prop("methods", MethodsValue(methods))];
      }
      if |descriptors| > 0 {
        attrs := attrs + [Prop("properties", PropertiesValue(descriptors))];
      }
    }

    /** Every referencing module recorded as a `parent` relation. */
    method AddParents(referencedBy: seq<string>)
      modifies this
      ensures Snapshot() == old(Snapshot()).(relations := ParentRelations(old(relations), referencedBy))
    {
      relations := PutParents(relations, referencedBy);
    }
    /** The output built after the traversal: the template imports are
        prefixed to the markup one by one. */
    method Finish(input: TransformInput) returns (o: Output)
      ensures o == Transform.Finish(Snapshot(), input)
    {
      var markup := wxml;
      if |templates| > 0 {
        var prefix := "";
        for i := 0 to |templates|
          invariant prefix == TemplateImports(templates[..i])
        {
          assert templates[..i + 1][..i] == templates[..i];
          prefix := prefix + ImportTag(templates[i].1);
        }
        assert templates[..|templates|] == templates;
        markup := Some(prefix + Shown(wxml));
      }
      var js := if IsTemplate(kind) then None
        else Some(Program(kept, ExportOf(Snapshot(), input.code.exported), RenameAll(input.code.rest)));
      o := Output(kind, input.stylesheet, name, markup, ConfigJson(kind, pages, components, jsonAttrs), js);
    }
  }

  /** The `forEach` over the referencing modules, each made a `parent`. */
  method PutParents(relations: OMap<string>, referencedBy: seq<string>) returns (r: OMap<string>)
    ensures r == ParentRelations(relations, referencedBy)
  {
    var paths := ParentPaths(referencedBy);
    r := relations;
    for i := 0 to |referencedBy|
      invariant PutEach(r, paths[i..], "parent") == PutEach(relations, paths, "parent")
    {
      var p := ParentPath(referencedBy[i]);
      assert paths[i..][0] == p && paths[i..][1..] == paths[i + 1..];
      PutEachFirst(r, paths[i..], "parent");
      r := Put(r, p, "parent");
    }
    assert paths[|paths|..] == [];
  }

  /** The `relations` entries, key by key. */
  method EmittedOf(relations: OMap<string>) returns (emitted: seq<(string, string)>)
    ensures emitted == EmittedRelations(relations)
  {
    emitted := [];
    for i := 0 to |relations|
      invariant emitted == EmittedRelations(relations[..i])
    {
      assert relations[..i + 1][..i] == relations[..i];
      if !Contains(relations[i].0, "pages") {
        emitted := emitted + [(RelationPath(relations[i].0), relations[i].1)];
      }
    }
    assert relations[..|relations|] == relations;
  }

  /** The property descriptors, key by key; the first property without a
      type aborts. */
  method DescriptorsOf(properties: OMap<PropSpec>) returns (r: Result<seq<Descriptor>>)
    ensures r == Descriptors(properties)
  {
    var descriptors := [];
    for i := 0 to |properties|
      invariant |descriptors| == i
      invariant forall j :: 0 <= j < i ==> (properties[j].1.typeName.Some? &&
        descriptors[j] == Descriptor(properties[j].0, properties[j].1.typeName.value, properties[j].1.default))
    {
      var (k, spec) := properties[i];
      if spec.typeName.None? {
        return Failure(UntypedProperty(k));
      }
      descriptors := descriptors + [Descriptor(k, spec.typeName.value, spec.default)];
    }
    assert Descriptors(properties).Success?;
    assert Descriptors(properties).value == descriptors;
    r := Success(descriptors);
  }

  /** `transform(input)`, visitor by visitor. */
  method Run(input: TransformInput) returns (r: Result<Output>)
    ensures r == Transformed(input)
  {
    if input.id.None? {
      return Failure(MissingModuleId);
    }
    var v := new Visitors();
    var ctx := Context(input);
    var imps := input.code.imports;
    for i := 0 to |imps|
      invariant VisitImports(v.Snapshot(), imps[i..], ctx) == VisitImports(Initial(), imps, ctx)
    {
      assert imps[i..][0] == imps[i] && imps[i..][1..] == imps[i + 1..];
      var err := v.VisitImport(imps[i], ctx);
      if err.Some? {
        return Failure(err.value);
      }
    }
    assert imps[|imps|..] == [];
    ghost var st1 := v.Snapshot();
    assert VisitImports(Initial(), imps, ctx) == Success(st1);
    if input.code.exported.Some? {
      var e := input.code.exported.value;
      var err := v.Enter(e);
      if err.Some? {
        return Failure(err.value);
      }
      ghost var st2 := v.Snapshot();
      if e.ClassExport? {
        var ms := e.members;
        for i := 0 to |ms|
          invariant VisitMembers(v.Snapshot(), ms[i..]) == VisitMembers(st2, ms)
        {
          assert ms[i..][0] == ms[i] && ms[i..][1..] == ms[i + 1..];
          match ms[i] {
            case Field(k, x) => err := v.VisitField(k, x);
            case Method(k, f) => err := v.VisitMethod(k, f);
          }
          if err.Some? {
            return Failure(err.value);
          }
        }
        assert ms[|ms|..] == [];
      }
      err := v.Exit(e, input.referencedBy);
      if err.Some? {
        return Failure(err.value);
      }
    }
    assert VisitExport(st1, input) == Success(v.Snapshot());
    var o := v.Finish(input);
    r := Success(o);
  }
}
