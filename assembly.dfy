/** What the transform assembles once the visitors are done: the component
    relations and property descriptors the export's `exit` visitor adds to
    the behaviour object, the JSON configuration of each role, and the
    template imports put in front of the markup. */
module Assembly {
  import opened Wrappers
  import opened Strings
  import opened OrderedMaps
  import opened Paths
  import opened Ast
  import opened Roles
  import opened Markup
  import opened Accumulators

  // ---------------------------------------------------------------------
  // Component relations
  // ---------------------------------------------------------------------

  /** The relation key of a referencing module: its path without extension. */
  function ParentPath(referencedId: string): string {
    var p := Parse(referencedId);
    Format(p.dir, p.name, "")
  }

  /** The relation keys of the referencing modules, in order: each is its
      module's path with the extension dropped. */
  function ParentPaths(referencedBy: seq<string>): (r: seq<string>)
    ensures |r| == |referencedBy|
    ensures forall i :: 0 <= i < |referencedBy| ==> r[i] == ParentPath(referencedBy[i])
    ensures forall i :: 0 <= i < |referencedBy| && RelativeFile(referencedBy[i]) ==>
      r[i] + Parse(referencedBy[i]).ext == referencedBy[i]
  {
    assert forall i :: 0 <= i < |referencedBy| && RelativeFile(referencedBy[i]) ==>
      ParentPath(referencedBy[i]) + Parse(referencedBy[i]).ext == referencedBy[i] by {
      forall i | 0 <= i < |referencedBy| && RelativeFile(referencedBy[i])
        ensures ParentPath(referencedBy[i]) + Parse(referencedBy[i]).ext == referencedBy[i]
      {
        ParseFormat(referencedBy[i]);
      }
    }
    seq(|referencedBy|, i requires 0 <= i < |referencedBy| => ParentPath(referencedBy[i]))
  }

  /** `m[k] = v` for each key in turn. */
  function PutEach<V>(m: OMap<V>, keys: seq<string>, v: V): OMap<V>
    decreases |keys|
  {
    if |keys| == 0 then m else PutEach(Put(m, keys[0], v), keys[1..], v)
  }

  lemma {:induction false} PutEachDistinct<V>(m: OMap<V>, keys: seq<string>, v: V)
    requires DistinctKeys(m)
    ensures DistinctKeys(PutEach(m, keys, v))
    decreases |keys|
  {
    if |keys| > 0 {
      PutKeepsKeysDistinct(m, keys[0], v);
      PutEachDistinct(Put(m, keys[0], v), keys[1..], v);
    }
  }

  /** Every referencing module becomes a `parent` relation, in order. */
  function ParentRelations(relations: OMap<string>, referencedBy: seq<string>): OMap<string> {
    PutEach(relations, ParentPaths(referencedBy), "parent")
  }

  /** The path a relation is emitted under: the key followed by its own base
      name, the layout of a component directory. */
  function RelationPath(key: string): string {
    Format(key, Parse(key).name, "")
  }

  /** The relation a key gives in the emitted `relations` object: none for a
      key mentioning `pages`. */
  function EmittedRelation(entry: (string, string)): (r: seq<(string, string)>)
    ensures forall e :: e in r <==> Emits(entry, e)
  {
    if Contains(entry.0, "pages") then [] else [(RelationPath(entry.0), entry.1)]
  }

  predicate Emits(entry: (string, string), e: (string, string)) {
    !Contains(entry.0, "pages") && e == (RelationPath(entry.0), entry.1)
  }

  /** The `relations` property, one entry per relation key in key order. */
  function EmittedRelations(relations: OMap<string>): seq<(string, string)>
    decreases |relations|
  {
    if |relations| == 0 then []
    else EmittedRelations(relations[..|relations| - 1]) + EmittedRelation(relations[|relations| - 1])
  }

  /** The property descriptors, one per `Properties` key in key order. The
      `type` member is built from the recorded type whether or not one was
      recorded, and the node builder rejects a missing value: the first
      property without a recognised type aborts the transform. */
  function Descriptors(properties: OMap<PropSpec>): (r: Result<seq<Descriptor>>)
    ensures r.Success? <==> forall i :: 0 <= i < |properties| ==> properties[i].1.typeName.Some?
    ensures r.Success? ==> (|r.value| == |properties| &&
      forall i :: 0 <= i < |properties| ==>
        r.value[i] == Descriptor(properties[i].0, properties[i].1.typeName.value, properties[i].1.default))
    ensures r.Failure? ==>
      exists i :: 0 <= i < |properties| && properties[i].1.typeName.None? &&
        r.error == UntypedProperty(properties[i].0) &&
        forall j :: 0 <= j < i ==> properties[j].1.typeName.Some?
    decreases |properties|
  {
    if |properties| == 0 then Success([])
    else
      var (k, spec) := properties[0];
      if spec.typeName.None? then Failure(UntypedProperty(k))
      else
        var rest :- Descriptors(properties[1..]);
        Success([Descriptor(k, spec.typeName.value, spec.default)] + rest)
  }

  /** The members the `exit` visitor appends. */
  function ExitTail(kind: string, emitted: seq<(string, string)>,
                    methods: seq<(string, Fn)>, descriptors: seq<Descriptor>): seq<Prop> {
    (if IsComponent(kind) && |emitted| > 0 then [Prop("relations", RelationsValue(emitted))] else [])
    + (if |methods| > 0 then [Prop("methods", MethodsValue(methods))] else [])
    + (if |descriptors| > 0 then [Prop("properties", PropertiesValue(descriptors))] else [])
  }

  /** The behaviour object after the `exit` visitor: its members, then
      `relations` (for a component), `methods` and `properties`, each only
      when it has an entry. */
  function ExitAttrs(kind: string, attrs: seq<Prop>, emitted: seq<(string, string)>,
                     methods: seq<(string, Fn)>, descriptors: seq<Descriptor>): seq<Prop> {
    attrs + ExitTail(kind, emitted, methods, descriptors)
  }

  // ---------------------------------------------------------------------
  // JSON configuration
  // ---------------------------------------------------------------------

  function PageList(pages: seq<string>): Json {
    JArr(seq(|pages|, i requires 0 <= i < |pages| => JStr(pages[i])))
  }

  function ComponentTable(components: OMap<string>): Json {
    JObj(seq(|components|, i requires 0 <= i < |components| => (components[i].0, JStr(components[i].1))))
  }

  /** The configuration a role writes to its `.json` file, or none. */
  function ConfigJson(kind: string, pages: seq<string>, components: OMap<string>, jsonAttrs: OMap<Json>): Option<Json> {
    if IsApp(kind) || IsGame(kind) then
      if |pages| > 0 then Some(JObj(PutAll([("pages", PageList(pages))], jsonAttrs)))
      else if |jsonAttrs| > 0 then Some(JObj(jsonAttrs))
      else None
    else if IsComponent(kind) then
      Some(JObj([("component", JBool(true))] +
        (if |components| > 0 then [("usingComponents", ComponentTable(components))] else [])))
    else if IsPage(kind) then
      Some(JObj(PutAll(if |components| > 0 then [("usingComponents", ComponentTable(components))] else [], jsonAttrs)))
    else None
  }

  // ---------------------------------------------------------------------
  // Markup
  // ---------------------------------------------------------------------

  /** The `<import>` line of one template, without its newline. */
  function ImportLine(src: string): string {
    "<import src=\"" + src + "\" />"
  }

  function ImportTag(src: string): string {
    ImportLine(src) + "\n"
  }

  function ImportLines(templates: OMap<string>): (r: seq<string>)
    ensures |r| == |templates| && forall i :: 0 <= i < |templates| ==> r[i] == ImportLine(templates[i].1)
  {
    seq(|templates|, i requires 0 <= i < |templates| => ImportLine(templates[i].1))
  }

  /** One import tag per imported template, in import order. */
  function TemplateImports(templates: OMap<string>): string
    decreases |templates|
  {
    if |templates| == 0 then ""
    else TemplateImports(templates[..|templates| - 1]) + ImportTag(templates[|templates| - 1].1)
  }

  /** The markup after the traversal: the template imports, when there are
      any, followed by the module's own markup (`undefined` when it has none). */
  function ImportedMarkup(templates: OMap<string>, wxml: Option<string>): Option<string> {
    if |templates| > 0 then Some(TemplateImports(templates) + Shown(wxml)) else wxml
  }

  /** The markup of a template module: its JSX wrapped in a named template. */
  function TemplateMarkup(name: Option<string>, body: string): string {
    "<template name=\"" + Shown(name) + "\">\n " + body + " \n</template>"
  }

  // ---------------------------------------------------------------------
  // Properties
  // ---------------------------------------------------------------------

  /** The loop assigns the first key, then the rest. */
  lemma PutEachFirst<V>(m: OMap<V>, keys: seq<string>, v: V)
    requires |keys| > 0
    ensures PutEach(m, keys, v) == PutEach(Put(m, keys[0], v), keys[1..], v)
  {
  }

  /** A key assigned by the loop holds `v` afterwards. */
  lemma {:induction false} PutEachGetIn<V>(m: OMap<V>, keys: seq<string>, v: V, k: string)
    requires k in keys
    ensures Get(PutEach(m, keys, v), k) == Some(v)
    decreases |keys|
  {
    var m' := Put(m, keys[0], v);
    assert PutEach(m, keys, v) == PutEach(m', keys[1..], v);
    if k in keys[1..] {
      PutEachGetIn(m', keys[1..], v, k);
    } else {
      assert k == keys[0] by { assert keys == [keys[0]] + keys[1..]; }
      PutGetSame(m, k, v);
      PutEachGetOut(m', keys[1..], v, k);
    }
  }

  /** A key the loop does not assign keeps its value. */
  lemma {:induction false} PutEachGetOut<V>(m: OMap<V>, keys: seq<string>, v: V, k: string)
    requires k !in keys
    ensures Get(PutEach(m, keys, v), k) == Get(m, k)
    decreases |keys|
  {
    if |keys| > 0 {
      var m' := Put(m, keys[0], v);
      assert PutEach(m, keys, v) == PutEach(m', keys[1..], v);
      assert k != keys[0] && k !in keys[1..];
      PutGetOther(m, keys[0], v, k);
      PutEachGetOut(m', keys[1..], v, k);
    }
  }

  /** After assigning `v` to each key, each of them holds `v` and every
      other key keeps its value. */
  lemma PutEachGet<V>(m: OMap<V>, keys: seq<string>, v: V, k: string)
    ensures Get(PutEach(m, keys, v), k) == if k in keys then Some(v) else Get(m, k)
  {
    if k in keys {
      PutEachGetIn(m, keys, v, k);
    } else {
      PutEachGetOut(m, keys, v, k);
    }
  }

  /** Every referencing module is a `parent`; every other relation keeps its
      type. */
  lemma ParentRelationsGet(relations: OMap<string>, referencedBy: seq<string>, k: string)
    ensures Get(ParentRelations(relations, referencedBy), k) ==
      if k in ParentPaths(referencedBy) then Some("parent") else Get(relations, k)
  {
    PutEachGet(relations, ParentPaths(referencedBy), "parent", k);
  }

  /** `e` is emitted from an existing relation at an index below `n`. */
  predicate EmittedBelow(relations: OMap<string>, n: nat, e: (string, string)) {
    exists i :: 0 <= i < n && i < |relations| && Emits(relations[i], e)
  }

  lemma {:induction false} EmittedBelowSplit(relations: OMap<string>, e: (string, string))
    requires |relations| > 0 && EmittedBelow(relations, |relations|, e)
    ensures EmittedBelow(relations[..|relations| - 1], |relations| - 1, e) || Emits(relations[|relations| - 1], e)
  {
    var n := |relations| - 1;
    var init := relations[..n];
    var i :| 0 <= i < n + 1 && i < |relations| && Emits(relations[i], e);
    if i < n {
      assert init[i] == relations[i];
    }
  }

  lemma {:induction false} EmittedBelowInit(relations: OMap<string>, e: (string, string))
    requires |relations| > 0 && EmittedBelow(relations[..|relations| - 1], |relations| - 1, e)
    ensures EmittedBelow(relations, |relations|, e)
  {
    var init := relations[..|relations| - 1];
    var i :| 0 <= i < |relations| - 1 && i < |init| && Emits(init[i], e);
    assert relations[i] == init[i];
  }

  lemma {:induction false} EmittedBelowLast(relations: OMap<string>, e: (string, string))
    requires |relations| > 0 && Emits(relations[|relations| - 1], e)
    ensures EmittedBelow(relations, |relations|, e)
  {
    var n := |relations| - 1;
    assert 0 <= n < |relations| && Emits(relations[n], e);
  }

  lemma {:induction false} EmittedBelowSnoc(relations: OMap<string>, e: (string, string))
    requires |relations| > 0
    ensures EmittedBelow(relations, |relations|, e) <==>
      EmittedBelow(relations[..|relations| - 1], |relations| - 1, e) || Emits(relations[|relations| - 1], e)
  {
    if EmittedBelow(relations, |relations|, e) {
      EmittedBelowSplit(relations, e);
    }
    if EmittedBelow(relations[..|relations| - 1], |relations| - 1, e) {
      EmittedBelowInit(relations, e);
    }
    if Emits(relations[|relations| - 1], e) {
      EmittedBelowLast(relations, e);
    }
  }

  /** The emitted relations are exactly the relations whose key does not
      mention `pages`, each under its relation path with its type. */
  lemma {:induction false} EmittedRelationsExact(relations: OMap<string>, e: (string, string))
    ensures e in EmittedRelations(relations) <==>
      exists i :: 0 <= i < |relations| && Emits(relations[i], e)
    decreases |relations|
  {
    if |relations| > 0 {
      var n := |relations| - 1;
      var init := relations[..n];
      EmittedRelationsExact(init, e);
      assert EmittedBelow(init, n, e) <==> exists i :: 0 <= i < |init| && Emits(init[i], e);
      EmittedBelowSnoc(relations, e);
      assert e in EmittedRelations(relations) <==> e in EmittedRelations(init) || e in EmittedRelation(relations[n]);
    }
  }

  lemma ExitKeys(kind: string, emitted: seq<(string, string)>,
                 methods: seq<(string, Fn)>, descriptors: seq<Descriptor>)
    ensures var t := ExitTail(kind, emitted, methods, descriptors);
      |t| <= 3 &&
      (forall x :: x in t && x.key == "relations" ==> IsComponent(kind) && |emitted| > 0) &&
      (forall x :: x in t && x.key == "methods" ==> |methods| > 0) &&
      (forall x :: x in t && x.key == "properties" ==> |descriptors| > 0)
  {
  }

  /** Where a member the `exit` visitor appends comes among the others. */
  function TailRank(key: string): nat {
    if key == "relations" then 0 else if key == "methods" then 1 else 2
  }

  lemma ExitTailOrder(kind: string, emitted: seq<(string, string)>,
                      methods: seq<(string, Fn)>, descriptors: seq<Descriptor>)
    ensures var t := ExitTail(kind, emitted, methods, descriptors);
      (forall x :: x in t ==>
        x == Prop("relations", RelationsValue(emitted)) || x == Prop("methods", MethodsValue(methods)) ||
        x == Prop("properties", PropertiesValue(descriptors))) &&
      forall i, j :: 0 <= i < j < |t| ==> TailRank(t[i].key) < TailRank(t[j].key)
  {
    var rel := Prop("relations", RelationsValue(emitted));
    var met := Prop("methods", MethodsValue(methods));
    var pro := Prop("properties", PropertiesValue(descriptors));
    var a := if IsComponent(kind) && |emitted| > 0 then [rel] else [];
    var b := if |methods| > 0 then [met] else [];
    var c := if |descriptors| > 0 then [pro] else [];
    var t := ExitTail(kind, emitted, methods, descriptors);
    assert t == a + b + c;
    assert TailRank(rel.key) == 0 && TailRank(met.key) == 1 && TailRank(pro.key) == 2;
    forall i, j | 0 <= i < j < |t| ensures TailRank(t[i].key) < TailRank(t[j].key) {
      assert t[i] in a + b && t[j] in b + c;
      if t[i] in a {
        assert t[j] in b + c;
      } else {
        assert t[i] == met && i == |a|;
        assert t[j] in c;
      }
    }
  }

  /** The `exit` visitor appends to the members already collected, in the
      order relations, methods, properties, each exactly when it is
      non-empty. */
  lemma ExitAttrsShape(kind: string, attrs: seq<Prop>, emitted: seq<(string, string)>,
                       methods: seq<(string, Fn)>, descriptors: seq<Descriptor>)
    ensures var r := ExitAttrs(kind, attrs, emitted, methods, descriptors);
      |r| >= |attrs| && r[..|attrs|] == attrs &&
      (Prop("relations", RelationsValue(emitted)) in r[|attrs|..] <==> IsComponent(kind) && |emitted| > 0) &&
      (Prop("methods", MethodsValue(methods)) in r[|attrs|..] <==> |methods| > 0) &&
      (Prop("properties", PropertiesValue(descriptors)) in r[|attrs|..] <==> |descriptors| > 0) &&
      |r| - |attrs| <= 3
    ensures var t := ExitAttrs(kind, attrs, emitted, methods, descriptors)[|attrs|..];
      (forall x :: x in t ==>
        x == Prop("relations", RelationsValue(emitted)) || x == Prop("methods", MethodsValue(methods)) ||
        x == Prop("properties", PropertiesValue(descriptors))) &&
      forall i, j :: 0 <= i < j < |t| ==> TailRank(t[i].key) < TailRank(t[j].key)
  {
    var t := ExitTail(kind, emitted, methods, descriptors);
    var r := ExitAttrs(kind, attrs, emitted, methods, descriptors);
    assert r == attrs + t;
    assert r[..|attrs|] == attrs && r[|attrs|..] == t;
    ExitKeys(kind, emitted, methods, descriptors);
    ExitTailOrder(kind, emitted, methods, descriptors);
  }

  /** When the descriptors can be built, every property has a type, and its
      descriptor carries that type and the default collected for its key. */
  lemma DescriptorOf(properties: OMap<PropSpec>, k: string)
    requires DistinctKeys(properties) && k in Keys(properties)
    requires Descriptors(properties).Success?
    ensures Get(properties, k).value.typeName.Some?
    ensures Descriptor(k, Get(properties, k).value.typeName.value, Get(properties, k).value.default)
      in Descriptors(properties).value
  {
    var i := KeyIndex(properties, k);
    assert Descriptors(properties).value[i] ==
      Descriptor(k, Get(properties, k).value.typeName.value, Get(properties, k).value.default);
  }

  lemma {:induction false} KeyIndex<V>(m: OMap<V>, k: string) returns (i: nat)
    requires k in Keys(m)
    ensures i < |m| && m[i].0 == k && Get(m, k) == Some(m[i].1)
    decreases |m|
  {
    if m[0].0 == k {
      i := 0;
    } else {
      assert Keys(m) == [m[0].0] + Keys(m[1..]);
      var j := KeyIndex(m[1..], k);
      i := j + 1;
    }
  }

  /** A page always has a configuration file: its `usingComponents` when it
      imports a component, and every configuration field it sets. */
  lemma PageConfig(pages: seq<string>, components: OMap<string>, jsonAttrs: OMap<Json>, k: string)
    requires DistinctKeys(jsonAttrs)
    ensures ConfigJson(PageKind, pages, components, jsonAttrs).Some?
    ensures ConfigJson(PageKind, pages, components, jsonAttrs).value.JObj?
    ensures var es := ConfigJson(PageKind, pages, components, jsonAttrs).value.entries;
      Get(es, k) ==
        if k in Keys(jsonAttrs) then Get(jsonAttrs, k)
        else if k == "usingComponents" && |components| > 0 then Some(ComponentTable(components))
        else None
  {
    var base: OMap<Json> := if |components| > 0 then [("usingComponents", ComponentTable(components))] else [];
    PutAllGet(base, jsonAttrs, k);
  }

  /** A component's configuration declares it a component first, lists the
      components it uses exactly when it imports one, and holds nothing
      else: its pages and configuration fields are not written. */
  lemma ComponentConfig(pages: seq<string>, components: OMap<string>, jsonAttrs: OMap<Json>)
    ensures var j := ConfigJson(ComponentKind, pages, components, jsonAttrs);
      j.Some? && j.value.JObj? && |j.value.entries| >= 1 && j.value.entries[0] == ("component", JBool(true)) &&
      (Get(j.value.entries, "usingComponents").Some? <==> |components| > 0)
    ensures var es := ConfigJson(ComponentKind, pages, components, jsonAttrs).value.entries;
      Get(es, "component") == Some(JBool(true)) &&
      Get(es, "usingComponents") == (if |components| > 0 then Some(ComponentTable(components)) else None) &&
      |es| <= 2 && forall k :: k in Keys(es) ==> k == "component" || k == "usingComponents"
    ensures ConfigJson(ComponentKind, pages, components, jsonAttrs) == ConfigJson(ComponentKind, [], components, [])
  {
    var j := ConfigJson(ComponentKind, pages, components, jsonAttrs);
    var es := j.value.entries;
    if |components| > 0 {
      assert es[1..] == [("usingComponents", ComponentTable(components))];
    } else {
      assert es[1..] == [];
    }
  }

  /** An app or a game lists its pages first when it imports any, has no
      configuration file when it has neither pages nor configuration fields,
      and every configuration field it sets is in the file. */
  lemma AppConfig(kind: string, pages: seq<string>, components: OMap<string>, jsonAttrs: OMap<Json>, k: string)
    requires IsApp(kind) || IsGame(kind)
    requires DistinctKeys(jsonAttrs)
    ensures ConfigJson(kind, pages, components, jsonAttrs).None? <==> |pages| == 0 && |jsonAttrs| == 0
    ensures |pages| > 0 ==>
      var es := ConfigJson(kind, pages, components, jsonAttrs).value.entries;
      |es| >= 1 && Keys(es)[0] == "pages" &&
      Get(es, k) == if k in Keys(jsonAttrs) then Get(jsonAttrs, k) else if k == "pages" then Some(PageList(pages)) else None
    ensures |pages| == 0 && |jsonAttrs| > 0 ==> ConfigJson(kind, pages, components, jsonAttrs) == Some(JObj(jsonAttrs))
  {
    if |pages| > 0 {
      var base: OMap<Json> := [("pages", PageList(pages))];
      PutAllKeepsPrefix(base, jsonAttrs);
      PutAllGet(base, jsonAttrs, k);
    }
  }

  /** Modules of any other role have no configuration file. */
  lemma OtherRolesNoConfig(kind: string, pages: seq<string>, components: OMap<string>, jsonAttrs: OMap<Json>)
    requires !IsApp(kind) && !IsGame(kind) && !IsComponent(kind) && !IsPage(kind)
    ensures ConfigJson(kind, pages, components, jsonAttrs).None?
  {
  }

  /** The template imports are the import lines, each ended by a newline. */
  lemma {:induction false} TemplateImportsText(templates: OMap<string>)
    ensures TemplateImports(templates) == JoinWith(ImportLines(templates) + [""], "\n")
    decreases |templates|
  {
    if |templates| > 0 {
      var n := |templates| - 1;
      var init := templates[..n];
      TemplateImportsText(init);
      var lines := ImportLines(init);
      var y := ImportLine(templates[n].1);
      assert ImportLines(templates) == lines + [y];
      JoinWithSnoc(lines + [y], "", "\n");
      if |lines| > 0 {
        JoinWithSnoc(lines, y, "\n");
        JoinWithSnoc(lines, "", "\n");
      } else {
        assert lines + [y] == [y] && lines + [""] == [""];
      }
    }
  }

  lemma NoNewlineInLine(src: string)
    requires '\n' !in src
    ensures '\n' !in ImportLine(src)
  {
    var line := ImportLine(src);
    forall k | 0 <= k < |line| ensures line[k] != '\n' {
      if 13 <= k < 13 + |src| {
        assert line[k] == src[k - 13];
      }
    }
  }

  /** No import line, nor the empty piece after the last one, holds a
      newline when no template path does. */
  lemma ImportPartsNoNewline(templates: OMap<string>)
    requires forall i :: 0 <= i < |templates| ==> '\n' !in templates[i].1
    ensures var parts := ImportLines(templates) + [""];
      forall k :: 0 <= k < |parts| ==> '\n' !in parts[k]
  {
    var parts := ImportLines(templates) + [""];
    forall k | 0 <= k < |parts| ensures '\n' !in parts[k] {
      if k < |templates| {
        assert parts[k] == ImportLine(templates[k].1);
        NoNewlineInLine(templates[k].1);
      } else {
        assert parts[k] == "";
      }
    }
  }

  /** Split at newlines, the template imports are one `<import>` line per
      template, in import order, and an empty last piece. */
  lemma TemplateImportLines(templates: OMap<string>)
    requires forall i :: 0 <= i < |templates| ==> '\n' !in templates[i].1
    ensures Split(TemplateImports(templates), '\n') == ImportLines(templates) + [""]
  {
    TemplateImportsText(templates);
    ImportPartsNoNewline(templates);
    SplitJoin(ImportLines(templates) + [""], '\n');
  }

  /** Every imported template is imported by the markup; when no template
      path holds a newline, the imports are one line per template in import
      order. */
  lemma {:induction false} TemplatesImported(templates: OMap<string>, i: nat)
    requires i < |templates|
    ensures Contains(TemplateImports(templates), ImportTag(templates[i].1))
    ensures (forall j :: 0 <= j < |templates| ==> '\n' !in templates[j].1) ==>
      Split(TemplateImports(templates), '\n') == ImportLines(templates) + [""]
    decreases |templates|
  {
    if forall j :: 0 <= j < |templates| ==> '\n' !in templates[j].1 {
      TemplateImportLines(templates);
    }
    var n := |templates| - 1;
    var init := TemplateImports(templates[..n]);
    var tag := ImportTag(templates[i].1);
    if i == n {
      assert StartsWith(tag, tag);
      ContainsInfix(init, tag, "", tag);
      assert init + tag + "" == TemplateImports(templates);
    } else {
      assert templates[..n][i] == templates[i];
      TemplatesImported(templates[..n], i);
      ContainsInfix("", init, ImportTag(templates[n].1), tag);
      assert "" + init + ImportTag(templates[n].1) == TemplateImports(templates);
    }
  }

  /** The module's own markup comes last, after the template imports. */
  lemma ImportedMarkupEnds(templates: OMap<string>, wxml: string)
    ensures var m := ImportedMarkup(templates, Some(wxml));
      m.Some? && |m.value| >= |wxml| && m.value[|m.value| - |wxml|..] == wxml
    ensures |templates| == 0 ==> ImportedMarkup(templates, Some(wxml)) == Some(wxml)
  {
  }
}
