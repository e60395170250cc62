/** The role of a module (`output.type`): what the default export makes of
    it. It starts as `local_module`; a function whose first `return` gives JSX
    makes a `template`; a class whose superclass name contains `App`, `Page`,
    `Component` or `Game` takes that name in lower case. */
module Roles {
  import opened Wrappers
  import opened Strings
  import opened Ast

  const LocalModule: string := "local_module"
  const TemplateKind: string := "template"
  const AppKind: string := "app"
  const PageKind: string := "page"
  const ComponentKind: string := "component"
  const GameKind: string := "game"

  /** `/App|Page|Component|Game/`. */
  const RoleNames: seq<string> := ["App", "Page", "Component", "Game"]

  predicate IsTemplate(kind: string) { kind == TemplateKind }
  predicate IsApp(kind: string) { kind == AppKind }
  predicate IsPage(kind: string) { kind == PageKind }
  predicate IsComponent(kind: string) { kind == ComponentKind }
  predicate IsGame(kind: string) { kind == GameKind }

  predicate IsRoleClass(superClass: Option<string>) {
    superClass.Some? && ContainsAny(superClass.value, RoleNames)
  }

  /** `body.find(isReturnStatement)`: what the first `return` among the
      top-level statements returns, if there is such a statement. */
  function FirstReturn(ss: seq<Stmt>): (r: Option<Option<Returned>>)
    ensures r.None? <==> forall i :: 0 <= i < |ss| ==> !ss[i].Return?
    ensures r.Some? ==> exists i :: 0 <= i < |ss| && ss[i] == Return(r.value) && forall j :: 0 <= j < i ==> !ss[j].Return?
    decreases |ss|
  {
    if |ss| == 0 then None
    else if ss[0].Return? then Some(ss[0].argument)
    else
      var r := FirstReturn(ss[1..]);
      assert r.Some? ==> exists i :: 1 <= i < |ss| && ss[i] == Return(r.value) && forall j :: 0 <= j < i ==> !ss[j].Return? by {
        if r.Some? {
          var i :| 0 <= i < |ss[1..]| && ss[1..][i] == Return(r.value) && forall j :: 0 <= j < i ==> !ss[1..][j].Return?;
          assert forall j :: 1 <= j < i + 1 ==> !ss[j].Return? by {
            forall j | 1 <= j < i + 1 ensures !ss[j].Return? { assert ss[j] == ss[1..][j - 1]; }
          }
        }
      }
      assert r.None? ==> forall i :: 0 <= i < |ss| ==> !ss[i].Return? by {
        if r.None? {
          forall i | 0 <= i < |ss| ensures !ss[i].Return? { if i > 0 { assert ss[i] == ss[1..][i - 1]; } }
        }
      }
      r
  }

  predicate ReturnsJsx(r: Option<Option<Returned>>) {
    r.Some? && r.value.Some? && r.value.value.JsxReturn?
  }

  /** The role the `export default` declaration gives the module (the
      declaration's `enter` visitor). An arrow function with an expression
      body has no statement list, and looking one up is a TypeError. */
  function Classify(e: Option<Export>): Result<string> {
    match e
    case None => Success(LocalModule)
    case Some(FuncExport(_, ExpressionBody(_))) => Failure(ExpressionBodiedArrow)
    case Some(FuncExport(_, BlockBody(ss))) =>
      Success(if ReturnsJsx(FirstReturn(ss)) then TemplateKind else LocalModule)
    case Some(ClassExport(_, sup, _)) =>
      Success(if IsRoleClass(sup) then ToLower(sup.value) else LocalModule)
    case Some(OtherExport(_)) => Success(LocalModule)
  }

  /** A function whose first `return` gives JSX is a template, whatever any
      later `return` gives; any other function is a local module. */
  lemma ClassifyFunction(id: Option<string>, ss: seq<Stmt>)
    ensures Classify(Some(FuncExport(id, BlockBody(ss)))) == Success(TemplateKind) <==>
      exists i :: 0 <= i < |ss| && ss[i].Return? && ss[i].argument.Some? && ss[i].argument.value.JsxReturn? &&
        forall j :: 0 <= j < i ==> !ss[j].Return?
    ensures Classify(Some(FuncExport(id, BlockBody(ss)))) != Success(TemplateKind) ==>
      Classify(Some(FuncExport(id, BlockBody(ss)))) == Success(LocalModule)
  {
    var r := FirstReturn(ss);
    if exists i :: 0 <= i < |ss| && ss[i].Return? && ss[i].argument.Some? && ss[i].argument.value.JsxReturn? &&
        forall j :: 0 <= j < i ==> !ss[j].Return? {
      var i :| 0 <= i < |ss| && ss[i].Return? && ss[i].argument.Some? && ss[i].argument.value.JsxReturn? &&
        forall j :: 0 <= j < i ==> !ss[j].Return?;
      assert r.Some?;
      var k :| 0 <= k < |ss| && ss[k] == Return(r.value) && forall j :: 0 <= j < k ==> !ss[j].Return?;
      assert k == i;
    }
  }

  /** A class extending a role class takes the superclass name in lower case,
      so the lower-cased role keyword is part of the role. */
  lemma ClassifyRoleClass(id: Option<string>, sup: string, members: seq<Member>, k: nat)
    requires k < |RoleNames| && Contains(sup, RoleNames[k])
    ensures Classify(Some(ClassExport(id, Some(sup), members))) == Success(ToLower(sup))
    ensures Contains(ToLower(sup), ToLower(RoleNames[k]))
  {
    assert IsRoleClass(Some(sup));
    ToLowerContains(sup, RoleNames[k]);
  }

  /** Extending `App`, `Page`, `Component` or `Game` itself gives exactly the
      roles the rest of the transform tests for. */
  lemma ClassifyExactRoles(id: Option<string>, members: seq<Member>)
    ensures Classify(Some(ClassExport(id, Some("App"), members))) == Success(AppKind)
    ensures Classify(Some(ClassExport(id, Some("Page"), members))) == Success(PageKind)
    ensures Classify(Some(ClassExport(id, Some("Component"), members))) == Success(ComponentKind)
    ensures Classify(Some(ClassExport(id, Some("Game"), members))) == Success(GameKind)
  {
    assert StartsWith("App", "App");
    assert StartsWith("Page", "Page");
    assert StartsWith("Component", "Component");
    assert StartsWith("Game", "Game");
    assert IsRoleClass(Some("App")) by { assert Contains("App", RoleNames[0]); }
    assert IsRoleClass(Some("Page")) by { assert Contains("Page", RoleNames[1]); }
    assert IsRoleClass(Some("Component")) by { assert Contains("Component", RoleNames[2]); }
    assert IsRoleClass(Some("Game")) by { assert Contains("Game", RoleNames[3]); }
    assert ToLower("App") == "app";
    assert ToLower("Page") == "page";
    assert ToLower("Component") == "component";
    assert ToLower("Game") == "game";
  }
}
