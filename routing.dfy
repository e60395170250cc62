/** The class member visitors: where each field and method of the exported
    class goes. A field named like `state` becomes `data`; a component's
    `defaultProps` and `propTypes` fill its property descriptors; the
    configuration fields of an app, page or game go into its JSON; every
    other field becomes a property of the behaviour object. `render` gives
    the markup, lifecycle methods and other methods are sorted by role. */
module Routing {
  import opened Wrappers
  import opened Strings
  import opened OrderedMaps
  import opened Ast
  import opened Roles
  import opened Rename
  import opened Markup
  import opened Accumulators

  const AppConfigKeys: seq<string> := ["window", "tabBar", "networkTimeout", "debug"]
  const PageConfigKeys: seq<string> := ["window", "navigationBarBackgroundColor", "navigationBarTextStyle",
    "navigationBarTitleText", "backgroundColor", "backgroundTextStyle", "enablePullDownRefresh",
    "disableScroll", "onReachBottomDistance"]
  const GameConfigKeys: seq<string> := ["deviceOrientation", "showStatusBar", "networkTimeout", "workers"]
  const LifecycleNames: seq<string> := ["created", "attached", "ready", "moved", "detached"]

  /** The `propTypes` table: the constructor a `PropTypes.x` token stands for. */
  function PropTypeName(token: string): (r: Option<string>)
    ensures r.Some? <==> token in ["string", "number", "bool", "object", "array"]
  {
    if token == "string" then Some("String")
    else if token == "number" then Some("Number")
    else if token == "bool" then Some("Boolean")
    else if token == "object" then Some("Object")
    else if token == "array" then Some("Array")
    else None
  }

  // ---------------------------------------------------------------------
  // Configuration values
  // ---------------------------------------------------------------------

  /** The JSON a configuration initialiser denotes, read from the literal
      itself rather than from its quote-fixed printed text; none when the
      initialiser is not a literal. A key written twice keeps its first
      place and its last value. Numbers are integers. */
  function ToJson(v: Init): Option<Json>
    decreases v, 2
  {
    match v
    case NullInit => Some(JNull)
    case BoolInit(b) => Some(JBool(b))
    case NumInit(n) => Some(JNum(n))
    case StrInit(s) => Some(JStr(s))
    case ArrayInit(items) =>
      var js :- ToJsonItems(items);
      Some(JArr(js))
    case ObjectInit(entries) =>
      var es :- ToJsonEntries([], entries);
      Some(JObj(es))
    case _ => None
  }

  function ToJsonItems(items: seq<Init>): Option<seq<Json>>
    decreases items, 1
  {
    if |items| == 0 then Some([])
    else
      var first :- ToJson(items[0]);
      var rest :- ToJsonItems(items[1..]);
      Some([first] + rest)
  }

  function ToJsonEntries(acc: OMap<Json>, entries: seq<(string, Init)>): Option<OMap<Json>>
    decreases entries, 0
  {
    if |entries| == 0 then Some(acc)
    else
      assert entries[0].1 < entries[0];
      var v :- ToJson(entries[0].1);
      ToJsonEntries(Put(acc, entries[0].0, v), entries[1..])
  }

  /** The literal a JSON value is written as. */
  function FromJson(j: Json): Init
    decreases j
  {
    match j
    case JNull => NullInit
    case JBool(b) => BoolInit(b)
    case JNum(n) => NumInit(n)
    case JStr(s) => StrInit(s)
    case JArr(items) => ArrayInit(seq(|items|, i requires 0 <= i < |items| => FromJson(items[i])))
    case JObj(es) => ObjectInit(seq(|es|, i requires 0 <= i < |es| => (es[i].0, FromJson(es[i].1))))
  }

  /** JSON whose objects never repeat a key. */
  predicate WellFormed(j: Json)
    decreases j
  {
    match j
    case JArr(items) => forall i :: 0 <= i < |items| ==> WellFormed(items[i])
    case JObj(es) => DistinctKeys(es) && forall i :: 0 <= i < |es| ==> WellFormed(es[i].1)
    case _ => true
  }

  lemma {:induction false} PutFresh<V>(m: OMap<V>, k: string, v: V)
    requires k !in Keys(m)
    ensures Put(m, k, v) == m + [(k, v)]
    decreases |m|
  {
    if |m| > 0 {
      assert k !in Keys(m[1..]) by { assert Keys(m) == [m[0].0] + Keys(m[1..]); }
      PutFresh(m[1..], k, v);
      assert [m[0]] + (m[1..] + [(k, v)]) == m + [(k, v)];
    }
  }

  /** A configuration literal yields exactly the JSON it was written from. */
  lemma {:induction false} JsonRoundTrip(j: Json)
    requires WellFormed(j)
    ensures ToJson(FromJson(j)) == Some(j)
    decreases j, 1
  {
    match j
    case JArr(items) =>
      var inits := seq(|items|, i requires 0 <= i < |items| => FromJson(items[i]));
      JsonItemsRoundTrip(items, inits);
    case JObj(es) =>
      var entries := seq(|es|, i requires 0 <= i < |es| => (es[i].0, FromJson(es[i].1)));
      assert [] + es == es;
      assert EntriesOf(es, entries);
      JsonEntriesRoundTrip([], es, entries);
    case _ =>
  }

  lemma {:induction false} JsonItemsRoundTrip(items: seq<Json>, inits: seq<Init>)
    requires |inits| == |items|
    requires forall i :: 0 <= i < |items| ==> inits[i] == FromJson(items[i]) && WellFormed(items[i])
    ensures ToJsonItems(inits) == Some(items)
    decreases items, 0
  {
    if |items| > 0 {
      JsonRoundTrip(items[0]);
      JsonItemsRoundTrip(items[1..], inits[1..]);
      assert [items[0]] + items[1..] == items;
    }
  }

  /** The first entry still to be added has a key the accumulator lacks. */
  lemma FirstKeyFresh(acc: OMap<Json>, es: OMap<Json>)
    requires |es| > 0 && DistinctKeys(acc + es)
    ensures es[0].0 !in Keys(acc)
  {
    forall i | 0 <= i < |acc| ensures acc[i].0 != es[0].0 {
      assert (acc + es)[i] == acc[i] && (acc + es)[|acc|] == es[0];
    }
  }

  /** `entries` are the literals of the well-formed JSON entries `es`. */
  predicate EntriesOf(es: OMap<Json>, entries: seq<(string, Init)>) {
    |entries| == |es| &&
    forall i :: 0 <= i < |es| ==> entries[i] == (es[i].0, FromJson(es[i].1)) && WellFormed(es[i].1)
  }

  lemma EntriesTail(es: OMap<Json>, entries: seq<(string, Init)>)
    requires |es| > 0 && EntriesOf(es, entries)
    ensures entries[0] == (es[0].0, FromJson(es[0].1)) && WellFormed(es[0].1)
    ensures EntriesOf(es[1..], entries[1..])
  {
    forall i | 0 <= i < |es[1..]|
      ensures entries[1..][i] == (es[1..][i].0, FromJson(es[1..][i].1)) && WellFormed(es[1..][i].1)
    {
      assert entries[1..][i] == entries[i + 1] && es[1..][i] == es[i + 1];
    }
  }

  lemma ToJsonEntriesStep(acc: OMap<Json>, entries: seq<(string, Init)>, v: Json)
    requires |entries| > 0 && ToJson(entries[0].1) == Some(v)
    ensures ToJsonEntries(acc, entries) == ToJsonEntries(Put(acc, entries[0].0, v), entries[1..])
  {
  }

  lemma {:induction false} JsonEntriesRoundTrip(acc: OMap<Json>, es: OMap<Json>, entries: seq<(string, Init)>)
    requires EntriesOf(es, entries) && DistinctKeys(acc + es)
    ensures ToJsonEntries(acc, entries) == Some(acc + es)
    decreases es, 0
  {
    if |es| > 0 {
      EntriesTail(es, entries);
      var v := es[0].1;
      var acc' := acc + [es[0]];
      assert acc' + es[1..] == acc + es;
      calc {
        ToJsonEntries(acc, entries);
        == { assert v < es[0]; JsonRoundTrip(v); ToJsonEntriesStep(acc, entries, v); }
        ToJsonEntries(Put(acc, es[0].0, v), entries[1..]);
        == { FirstKeyFresh(acc, es); PutFresh(acc, es[0].0, v); }
        ToJsonEntries(acc', entries[1..]);
        == { JsonEntriesRoundTrip(acc', es[1..], entries[1..]); }
        Some(acc + es);
      }
    } else {
      assert acc + es == acc;
    }
  }

  /** `Object.keys(v).forEach(key => JSONAttrs[key] = v[key])` for a parsed
      JSON value: an object gives its entries, an array its indices, a string
      its character positions, other scalars nothing, and `null` is a
      TypeError. */
  function ObjectKeys(field: string, j: Json): Result<OMap<Json>> {
    match j
    case JNull => Failure(KeysOfNull(field))
    case JObj(es) => Success(es)
    case JArr(items) => Success(seq(|items|, i requires 0 <= i < |items| => (NatToString(i), items[i])))
    case JStr(s) => Success(seq(|s|, i requires 0 <= i < |s| => (NatToString(i), JStr([s[i]]))))
    case _ => Success([])
  }

  // ---------------------------------------------------------------------
  // Fields
  // ---------------------------------------------------------------------

  datatype FieldRoute =
    | DataProp(value: Init)                            // Attrs.push(data: value)
    | Defaults(entries: seq<(string, Init)>)           // Properties[k].value = v
    | Types(types: seq<(string, Option<string>)>)      // Properties[k] created, .type set when known
    | Config(key: string, json: Json)                  // JSONAttrs[key] = json
    | ConfigSpread(spread: OMap<Json>)                // JSONAttrs[k] = window[k]
    | PlainProp(key: string, value: Init)              // Attrs.push(key: value)

  /** The `propTypes` entries: each must be a member expression; the type is
      known for `PropTypes.<token>` with a token from the table. */
  function TypeEntries(entries: seq<(string, Init)>): Result<seq<(string, Option<string>)>>
    decreases |entries|
  {
    if |entries| == 0 then Success([])
    else
      var (k, v) := entries[0];
      if !v.MemberInit? then Failure(NotAMemberExpression(k))
      else
        var t := if v.obj == IdentInit("PropTypes") then PropTypeName(v.property) else None;
        var rest :- TypeEntries(entries[1..]);
        Success([(k, t)] + rest)
  }

  function ConfigOf(key: string, value: Init): Result<Json> {
    match ToJson(value)
    case None => Failure(NotJson(key))
    case Some(j) => Success(j)
  }

  /** The `ClassProperty` visitor: the first test that matches decides. */
  function RouteField(kind: string, key: string, value: Init): Result<FieldRoute> {
    if Contains(key, "state") then Success(DataProp(RenameInit(value)))
    else if IsComponent(kind) && Contains(key, "defaultProps") then
      if value.ObjectInit? then
        Success(Defaults(seq(|value.entries|, i requires 0 <= i < |value.entries| =>
          (value.entries[i].0, RenameInit(value.entries[i].1)))))
      else Failure(NotAnObject(key))
    else if IsComponent(kind) && Contains(key, "propTypes") then
      if value.ObjectInit? then
        var es :- TypeEntries(value.entries);
        Success(Types(es))
      else Failure(NotAnObject(key))
    else if IsApp(kind) && ContainsAny(key, AppConfigKeys) then
      var j :- ConfigOf(key, value);
      Success(Config(key, j))
    else if IsPage(kind) && ContainsAny(key, PageConfigKeys) then
      var j :- ConfigOf(key, value);
      if key == "window" then
        var es :- ObjectKeys(key, j);
        Success(ConfigSpread(es))
      else Success(Config(key, j))
    else if IsGame(kind) && ContainsAny(key, GameConfigKeys) then
      var j :- ConfigOf(key, value);
      Success(Config(key, j))
    else Success(PlainProp(key, RenameInit(value)))
  }

  /** `Properties[k] = Properties[k] || {}; Properties[k].value = v` for each entry. */
  function WithDefaults(props: OMap<PropSpec>, entries: seq<(string, Init)>): OMap<PropSpec>
    decreases |entries|
  {
    if |entries| == 0 then props
    else
      var (k, v) := entries[0];
      var spec := match Get(props, k) case Some(s) => s case None => NoSpec;
      WithDefaults(Put(props, k, spec.(default := Some(v))), entries[1..])
  }

  /** `Properties[k] = Properties[k] || {}` and, for a known type,
      `Properties[k].type = T`, for each entry. */
  function WithTypes(props: OMap<PropSpec>, entries: seq<(string, Option<string>)>): OMap<PropSpec>
    decreases |entries|
  {
    if |entries| == 0 then props
    else
      var (k, t) := entries[0];
      var spec := match Get(props, k) case Some(s) => s case None => NoSpec;
      WithTypes(Put(props, k, if t.Some? then spec.(typeName := t) else spec), entries[1..])
  }

  /** The defaults and the types are assigned key by key, so no property
      gets two descriptors. */
  lemma {:induction false} WithDefaultsDistinct(props: OMap<PropSpec>, entries: seq<(string, Init)>)
    requires DistinctKeys(props)
    ensures DistinctKeys(WithDefaults(props, entries))
    decreases |entries|
  {
    if |entries| > 0 {
      var (k, v) := entries[0];
      var spec := match Get(props, k) case Some(s) => s case None => NoSpec;
      PutKeepsKeysDistinct(props, k, spec.(default := Some(v)));
      WithDefaultsDistinct(Put(props, k, spec.(default := Some(v))), entries[1..]);
    }
  }

  lemma {:induction false} WithTypesDistinct(props: OMap<PropSpec>, entries: seq<(string, Option<string>)>)
    requires DistinctKeys(props)
    ensures DistinctKeys(WithTypes(props, entries))
    decreases |entries|
  {
    if |entries| > 0 {
      var (k, t) := entries[0];
      var spec := match Get(props, k) case Some(s) => s case None => NoSpec;
      var spec' := if t.Some? then spec.(typeName := t) else spec;
      PutKeepsKeysDistinct(props, k, spec');
      WithTypesDistinct(Put(props, k, spec'), entries[1..]);
    }
  }

  function ApplyField(st: State, route: FieldRoute): State {
    match route
    case DataProp(v) => st.(attrs := st.attrs + [Prop("data", InitValue(v))])
    case Defaults(es) => st.(properties := WithDefaults(st.properties, es))
    case Types(es) => st.(properties := WithTypes(st.properties, es))
    case Config(k, j) => st.(jsonAttrs := Put(st.jsonAttrs, k, j))
    case ConfigSpread(es) => st.(jsonAttrs := PutAll(st.jsonAttrs, es))
    case PlainProp(k, v) => st.(attrs := st.attrs + [Prop(k, InitValue(v))])
  }

  // ---------------------------------------------------------------------
  // Methods
  // ---------------------------------------------------------------------

  datatype MethodRoute = RenderRoute | DirectProp | MethodsEntry | Dropped

  /** The `ClassMethod` visitor. */
  function RouteMethod(kind: string, key: string): MethodRoute {
    if key == "render" then RenderRoute
    else if ContainsAny(key, LifecycleNames) then (if IsComponent(kind) then DirectProp else Dropped)
    else if IsComponent(kind) then MethodsEntry
    else DirectProp
  }

  /** The markup `render` gives: its first `return` must have an argument,
      and a JSX argument becomes the module's WXML. */
  function RenderMarkup(fn: Fn, templates: OMap<string>): Result<Option<string>> {
    match FirstReturn(fn.body)
    case None => Success(None)
    case Some(None) => Failure(MissingReturnArgument)
    case Some(Some(CodeReturn(_))) => Success(None)
    case Some(Some(JsxReturn(el))) =>
      var el' :- Rewrite(el, templates);
      Success(Some(Render(el')))
  }

  function ApplyMethod(st: State, key: string, fn: Fn): Result<State> {
    match RouteMethod(st.kind, key)
    case RenderRoute =>
      var m :- RenderMarkup(fn, st.templates);
      Success(if m.Some? then st.(wxml := m) else st)
    case DirectProp => Success(st.(attrs := st.attrs + [Prop(key, FnValue(RenameFn(fn)))]))
    case MethodsEntry => Success(st.(methods := st.methods + [(key, RenameFn(fn))]))
    case Dropped => Success(st)
  }

  // ---------------------------------------------------------------------
  // Properties
  // ---------------------------------------------------------------------

  /** A field named like `state` is the behaviour's `data`, on every role. */
  lemma StateFieldIsData(kind: string, key: string, value: Init)
    requires Contains(key, "state")
    ensures RouteField(kind, key, value) == Success(DataProp(RenameInit(value)))
  {
  }

  /** Only an app, a page or a game has JSON configuration, and only under
      the names of its own list. */
  lemma ConfigBelongsToRole(kind: string, key: string, value: Init)
    requires RouteField(kind, key, value).Success?
    requires RouteField(kind, key, value).value.Config? || RouteField(kind, key, value).value.ConfigSpread?
    ensures !Contains(key, "state")
    ensures (IsApp(kind) && ContainsAny(key, AppConfigKeys)) ||
            (IsPage(kind) && ContainsAny(key, PageConfigKeys)) ||
            (IsGame(kind) && ContainsAny(key, GameConfigKeys))
    ensures RouteField(kind, key, value).value.Config? ==>
      RouteField(kind, key, value).value.key == key && Some(RouteField(kind, key, value).value.json) == ToJson(value)
  {
  }

  /** An app's configuration field goes into the JSON under its own name,
      and fails when its value is not a literal. Literals the quote-fixing
      breaks are not modelled (see Routing.ToJson in the README). */
  lemma AppConfigField(key: string, value: Init)
    requires !Contains(key, "state") && ContainsAny(key, AppConfigKeys)
    ensures ToJson(value).Some? ==> RouteField(AppKind, key, value) == Success(Config(key, ToJson(value).value))
    ensures ToJson(value).None? ==> RouteField(AppKind, key, value) == Failure(NotJson(key))
  {
  }

  /** A page's configuration field other than `window` goes into the JSON
      under its own name, and fails when its value is not a literal. */
  lemma PageConfigField(key: string, value: Init)
    requires !Contains(key, "state") && key != "window" && ContainsAny(key, PageConfigKeys)
    ensures ToJson(value).Some? ==> RouteField(PageKind, key, value) == Success(Config(key, ToJson(value).value))
    ensures ToJson(value).None? ==> RouteField(PageKind, key, value) == Failure(NotJson(key))
  {
  }

  /** A game's configuration field goes into the JSON under its own name,
      and fails when its value is not a literal. */
  lemma GameConfigField(key: string, value: Init)
    requires !Contains(key, "state") && ContainsAny(key, GameConfigKeys)
    ensures ToJson(value).Some? ==> RouteField(GameKind, key, value) == Success(Config(key, ToJson(value).value))
    ensures ToJson(value).None? ==> RouteField(GameKind, key, value) == Failure(NotJson(key))
  {
  }

  /** A page's `window` object is flattened one level into the JSON. */
  lemma PageWindowFlattened(value: Init)
    requires ToJson(value).Some? && ToJson(value).value.JObj?
    ensures RouteField(PageKind, "window", value) == Success(ConfigSpread(ToJson(value).value.entries))
  {
    assert Contains("window", PageConfigKeys[0]) by { assert StartsWith("window", "window"); }
    NotContainsFirst("window", "state");
  }

  /** A field that matches none of its own role's tests (`state`, a
      component's `defaultProps` or `propTypes`, the configuration list of an
      app, a page or a game) keeps its name as a behaviour property. */
  lemma PlainFieldKept(kind: string, key: string, value: Init)
    requires !Contains(key, "state")
    requires IsComponent(kind) ==> !Contains(key, "defaultProps") && !Contains(key, "propTypes")
    requires IsApp(kind) ==> !ContainsAny(key, AppConfigKeys)
    requires IsPage(kind) ==> !ContainsAny(key, PageConfigKeys)
    requires IsGame(kind) ==> !ContainsAny(key, GameConfigKeys)
    ensures RouteField(kind, key, value) == Success(PlainProp(key, RenameInit(value)))
  {
  }

  /** `defaultProps` and `propTypes` of a component must be object literals. */
  lemma ComponentPropsNeedObject(key: string, value: Init)
    requires !Contains(key, "state") && !value.ObjectInit?
    requires Contains(key, "defaultProps") || Contains(key, "propTypes")
    ensures RouteField(ComponentKind, key, value) == Failure(NotAnObject(key))
  {
  }

  lemma {:induction false} WithDefaultsKeys(props: OMap<PropSpec>, entries: seq<(string, Init)>)
    ensures |WithDefaults(props, entries)| >= |props|
    ensures Keys(WithDefaults(props, entries))[..|props|] == Keys(props)
    decreases |entries|
  {
    if |entries| > 0 {
      var (k, v) := entries[0];
      var spec := match Get(props, k) case Some(s) => s case None => NoSpec;
      var p' := Put(props, k, spec.(default := Some(v)));
      WithDefaultsKeys(p', entries[1..]);
      assert Keys(p')[..|props|] == Keys(props);
    }
  }

  /** Defaults merge into the descriptors: each key of `defaultProps` gets
      its default, its type (if one was set) stays, and every other
      descriptor is left alone. */
  lemma {:induction false} WithDefaultsGet(props: OMap<PropSpec>, entries: seq<(string, Init)>, k: string)
    requires DistinctKeys(entries)
    ensures k in Keys(entries) ==>
      Get(WithDefaults(props, entries), k) ==
        Some(PropSpec(if Get(props, k).Some? then Get(props, k).value.typeName else None, Some(Get(entries, k).value)))
    ensures k !in Keys(entries) ==> Get(WithDefaults(props, entries), k) == Get(props, k)
    decreases |entries|
  {
    if |entries| > 0 {
      var (k0, v0) := entries[0];
      var spec := match Get(props, k0) case Some(s) => s case None => NoSpec;
      var p' := Put(props, k0, spec.(default := Some(v0)));
      assert Keys(entries) == [k0] + Keys(entries[1..]);
      assert DistinctKeys(entries[1..]);
      WithDefaultsGet(p', entries[1..], k);
      if k == k0 {
        assert k !in Keys(entries[1..]);
        PutGetSame(props, k0, spec.(default := Some(v0)));
      } else {
        PutGetOther(props, k0, spec.(default := Some(v0)), k);
      }
    }
  }

  /** Types merge into the descriptors: a known type is set, an unknown one
      leaves the descriptor as it was, defaults stay. */
  lemma {:induction false} WithTypesGet(props: OMap<PropSpec>, entries: seq<(string, Option<string>)>, k: string)
    requires DistinctKeys(entries)
    ensures k in Keys(entries) ==>
      var old_ := if Get(props, k).Some? then Get(props, k).value else NoSpec;
      var t := Get(entries, k).value;
      Get(WithTypes(props, entries), k) == Some(if t.Some? then old_.(typeName := t) else old_)
    ensures k !in Keys(entries) ==> Get(WithTypes(props, entries), k) == Get(props, k)
    decreases |entries|
  {
    if |entries| > 0 {
      var (k0, t0) := entries[0];
      var spec := match Get(props, k0) case Some(s) => s case None => NoSpec;
      var s' := if t0.Some? then spec.(typeName := t0) else spec;
      var p' := Put(props, k0, s');
      assert Keys(entries) == [k0] + Keys(entries[1..]);
      assert DistinctKeys(entries[1..]);
      WithTypesGet(p', entries[1..], k);
      if k == k0 {
        assert k !in Keys(entries[1..]);
        PutGetSame(props, k0, s');
      } else {
        PutGetOther(props, k0, s', k);
      }
    }
  }

  /** Only `render`'s result, never `render` itself, reaches the output; a
      lifecycle method is kept on a component only; every other method goes
      into `methods` on a component and onto the behaviour object elsewhere. */
  lemma MethodRoutes(kind: string, key: string)
    ensures RouteMethod(kind, key) == RenderRoute <==> key == "render"
    ensures RouteMethod(kind, key) == Dropped <==>
      key != "render" && ContainsAny(key, LifecycleNames) && !IsComponent(kind)
    ensures RouteMethod(kind, key) == MethodsEntry <==>
      key != "render" && !ContainsAny(key, LifecycleNames) && IsComponent(kind)
    ensures RouteMethod(kind, key) == DirectProp <==>
      key != "render" && (ContainsAny(key, LifecycleNames) <==> IsComponent(kind))
  {
  }

  /** A method that is emitted is emitted with `setState` renamed. */
  lemma EmittedMethodsUseSetData(st: State, key: string, fn: Fn)
    requires ApplyMethod(st, key, fn).Success?
    ensures var st' := ApplyMethod(st, key, fn).value;
      (|st'.attrs| > |st.attrs| ==> st'.attrs == st.attrs + [Prop(key, FnValue(RenameFn(fn)))] && NoSetStateFn(RenameFn(fn))) &&
      (|st'.methods| > |st.methods| ==> st'.methods == st.methods + [(key, RenameFn(fn))] && NoSetStateFn(RenameFn(fn)))
  {
    RenameFnRemovesSetState(fn);
  }

  /** `render` fails exactly when its first `return` has no argument, or its
      markup holds a valueless attribute on a template element. */
  lemma RenderFails(fn: Fn, templates: OMap<string>)
    ensures RenderMarkup(fn, templates).Failure? <==>
      FirstReturn(fn.body) == Some(None) ||
      (ReturnsJsx(FirstReturn(fn.body)) && Rewrite(FirstReturn(fn.body).value.value.element, templates).Failure?)
  {
  }
}
