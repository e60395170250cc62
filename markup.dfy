/** The JSX visitor: how the JSX a page, component or template returns becomes
    WXML. Attributes are renamed (`wx:` directives, `bind` event handlers) and
    their expression values become `{{...}}` bindings, template literals are
    flattened into text with bindings, expression children become bindings,
    and an element naming an imported template becomes a `<template>`
    element with the template's data. */
module Markup {
  import opened Wrappers
  import opened Strings
  import opened OrderedMaps
  import opened Ast

  // ---------------------------------------------------------------------
  // Printing expressions (the part of Babel's printer the model needs)
  // ---------------------------------------------------------------------

  function Print(e: Expr): string
    decreases e, 1
  {
    match e
    case Ident(n) => n
    case TemplateLit(q, xs) => "`" + PrintPieces(q, xs) + "`"
    case ObjectLit(code, _) => code
    case OtherExpr(code) => code
  }

  /** The body of a template literal: raw pieces with `${...}` between them. */
  function PrintPieces(q: seq<string>, xs: seq<Expr>): string
    decreases xs, 0
  {
    if |xs| == 0 then (if |q| == 0 then "" else q[0])
    else (if |q| == 0 then "" else q[0]) + "${" + Print(xs[0]) + "}" + PrintPieces(if |q| == 0 then [] else q[1..], xs[1..])
  }

  // ---------------------------------------------------------------------
  // Attribute names
  // ---------------------------------------------------------------------

  /** The attribute names the WXML directives are recognised by; the test is
      a substring test, so `for-index` and `for-item` are covered by `for`. */
  const ControlKeywords: seq<string> := ["if", "elif", "else", "for", "key", "for-index", "for-item"]

  /** `/^on(\w*)$/`. */
  predicate IsEventName(name: string) {
    StartsWith(name, "on") && AllWordChars(name[2..])
  }

  /** The WXML name of a JSX attribute. */
  function AttrName(name: string): string {
    if ContainsAny(name, ControlKeywords) then "wx:" + name
    else if IsEventName(name) then "bind" + ToLower(name[2..])
    else name
  }

  /** A control attribute goes into the `wx:` namespace under its own name. */
  lemma ControlAttributeNamespaced(name: string, k: nat)
    requires k < |ControlKeywords| && Contains(name, ControlKeywords[k])
    ensures StartsWith(AttrName(name), "wx:") && AttrName(name)[3..] == name
  {
  }

  /** An event attribute `onXxx` becomes `bindxxx`: the handler name in lower
      case after `bind`. */
  lemma EventAttributeBound(name: string)
    requires IsEventName(name) && !ContainsAny(name, ControlKeywords)
    ensures StartsWith(AttrName(name), "bind")
    ensures |AttrName(name)| == |name| + 2
    ensures NoUpper(AttrName(name)[4..])
    ensures forall i :: 2 <= i < |name| ==> AttrName(name)[i + 2] == LowerChar(name[i])
  {
  }

  /** Any other attribute keeps its name. */
  lemma OtherAttributeKept(name: string)
    requires !ContainsAny(name, ControlKeywords) && !IsEventName(name)
    ensures AttrName(name) == name
  {
  }

  /** The renaming never loses a keyword the attribute name holds, so the
      test for a valueless `else` on the new name agrees with the old one. */
  lemma AttrNameKeepsKeyword(name: string, k: nat)
    requires k < |ControlKeywords| && Contains(name, ControlKeywords[k])
    ensures Contains(AttrName(name), ControlKeywords[k])
  {
    assert ContainsAny(name, ControlKeywords);
    ContainsInfix("wx:", name, "", ControlKeywords[k]);
    assert "wx:" + name + "" == AttrName(name);
  }

  // ---------------------------------------------------------------------
  // Template literals
  // ---------------------------------------------------------------------

  /** `x.name` of an interpolated expression: set for identifiers only. */
  function ExprName(e: Expr): Option<string> {
    if e.Ident? then Some(e.name) else None
  }

  predicate Truthy(s: Option<string>) {
    s.Some? && s.value != ""
  }

  /** `${raw}`: an absent piece prints as `undefined`. */
  function Shown(s: Option<string>): string {
    if s.Some? then s.value else "undefined"
  }

  function At(xs: seq<Option<string>>, i: nat): Option<string> {
    if i < |xs| then xs[i] else None
  }

  function Max(a: nat, b: nat): nat {
    if a < b then b else a
  }

  /** lodash `zip`: pairs up to the longer list, padding with `undefined`.
      Unzipped, the first components are `a` and the second `b`, each
      padded with `undefined` to the longer length. */
  function Zip(a: seq<Option<string>>, b: seq<Option<string>>): (r: seq<(Option<string>, Option<string>)>)
    ensures |r| >= |a| && |r| >= |b| && (|r| == |a| || |r| == |b|)
    ensures forall i :: 0 <= i < |a| ==> r[i].0 == a[i]
    ensures forall i :: |a| <= i < |r| ==> r[i].0.None?
    ensures forall i :: 0 <= i < |b| ==> r[i].1 == b[i]
    ensures forall i :: |b| <= i < |r| ==> r[i].1.None?
  {
    seq(Max(|a|, |b|), i requires 0 <= i < Max(|a|, |b|) => (At(a, i), At(b, i)))
  }

  /** One step of the reduction over the zipped pairs. */
  function FlattenStep(v: string, raw: Option<string>, name: Option<string>): string {
    if !Truthy(raw) && !Truthy(name) then v
    else if Truthy(name) then v + Shown(raw) + "{{" + name.value + "}}"
    else v + Shown(raw)
  }

  function FlattenPairs(v: string, pairs: seq<(Option<string>, Option<string>)>): string
    decreases |pairs|
  {
    if |pairs| == 0 then v else FlattenPairs(FlattenStep(v, pairs[0].0, pairs[0].1), pairs[1..])
  }

  function Names(xs: seq<Expr>): (r: seq<Option<string>>)
    ensures |r| == |xs| && forall i :: 0 <= i < |xs| ==> r[i] == ExprName(xs[i])
  {
    seq(|xs|, i requires 0 <= i < |xs| => ExprName(xs[i]))
  }

  function Raws(q: seq<string>): (r: seq<Option<string>>)
    ensures |r| == |q| && forall i :: 0 <= i < |q| ==> r[i] == Some(q[i])
  {
    seq(|q|, i requires 0 <= i < |q| => Some(q[i]))
  }

  /** The attribute text a template literal value becomes, as the visitor
      computes it: zip the raw pieces with the expression names and reduce. */
  function Flatten(q: seq<string>, xs: seq<Expr>): string {
    FlattenPairs("", Zip(Raws(q), Names(xs)))
  }

  /** What an interpolated expression contributes: a binding for an
      identifier, nothing for any other expression. */
  function Mustache(e: Expr): string {
    if e.Ident? && e.name != "" then "{{" + e.name + "}}" else ""
  }

  /** The reference reading of a template literal in WXML: its raw text with
      every `${name}` turned into `{{name}}`. */
  function Interpolate(q: seq<string>, xs: seq<Expr>): string
    requires |q| == |xs| + 1
    decreases |xs|
  {
    if |xs| == 0 then q[0] else q[0] + Mustache(xs[0]) + Interpolate(q[1..], xs[1..])
  }

  lemma ZipStep(q: seq<string>, xs: seq<Expr>)
    requires |q| == |xs| + 1 && |xs| > 0
    ensures Zip(Raws(q), Names(xs))[0] == (Some(q[0]), ExprName(xs[0]))
    ensures Zip(Raws(q), Names(xs))[1..] == Zip(Raws(q[1..]), Names(xs[1..]))
  {
    var a := Zip(Raws(q), Names(xs))[1..];
    var b := Zip(Raws(q[1..]), Names(xs[1..]));
    assert |a| == |b|;
    forall i | 0 <= i < |a| ensures a[i] == b[i] {
      assert a[i] == (At(Raws(q), i + 1), At(Names(xs), i + 1));
    }
  }

  lemma StepMustache(v: string, raw: string, e: Expr)
    ensures FlattenStep(v, Some(raw), ExprName(e)) == v + raw + Mustache(e)
  {
  }

  lemma FlattenPairsLast(v: string, q: seq<string>, xs: seq<Expr>)
    requires |q| == |xs| + 1 && |xs| == 0
    ensures FlattenPairs(v, Zip(Raws(q), Names(xs))) == v + Interpolate(q, xs)
  {
    var pairs := Zip(Raws(q), Names(xs));
    assert |pairs| == 1 && pairs[0] == (Some(q[0]), None);
    assert FlattenPairs(v, pairs) == FlattenPairs(v + q[0], pairs[1..]);
    assert pairs[1..] == [];
  }

  lemma {:induction false} Concat3(a: string, b: string, c: string, d: string)
    ensures a + b + c + d == a + (b + c + d)
  {
  }

  lemma {:induction false} FlattenPairsFrom(v: string, q: seq<string>, xs: seq<Expr>)
    requires |q| == |xs| + 1
    ensures FlattenPairs(v, Zip(Raws(q), Names(xs))) == v + Interpolate(q, xs)
    decreases |xs|
  {
    if |xs| == 0 {
      FlattenPairsLast(v, q, xs);
    } else {
      var pairs := Zip(Raws(q), Names(xs));
      ZipStep(q, xs);
      var v' := FlattenStep(v, Some(q[0]), ExprName(xs[0]));
      StepMustache(v, q[0], xs[0]);
      assert FlattenPairs(v, pairs) == FlattenPairs(v', pairs[1..]);
      FlattenPairsFrom(v', q[1..], xs[1..]);
      var rest := Interpolate(q[1..], xs[1..]);
      assert Interpolate(q, xs) == q[0] + Mustache(xs[0]) + rest;
      Concat3(v, q[0], Mustache(xs[0]), rest);
    }
  }

  /** Flattening a template literal gives its reference reading. */
  lemma FlattenInterpolates(q: seq<string>, xs: seq<Expr>)
    requires |q| == |xs| + 1
    ensures Flatten(q, xs) == Interpolate(q, xs)
  {
    FlattenPairsFrom("", q, xs);
  }

  // ---------------------------------------------------------------------
  // Attribute values
  // ---------------------------------------------------------------------

  /** The JSX attribute visitor on one attribute. */
  function RewriteAttr(a: Attr): Attr {
    match a
    case SpreadAttr(_) => a
    case Attribute(name, value) =>
      var n := AttrName(name);
      match value
      case StrValue(_) => Attribute(n, value)
      case NoValue => if Contains(n, "else") then Attribute(n, NoValue) else Attribute(n, StrValue("{{true}}"))
      case ExprValue(e) =>
        if e.TemplateLit? then Attribute(n, StrValue(Flatten(e.quasis, e.exprs)))
        else if e.ObjectLit? then Attribute(n, StrValue("{" + e.concise + "}"))
        else if StartsWith(n, "bind") then Attribute(n, StrValue(ReplaceFirst(Print(e), "this.", "")))
        else Attribute(n, StrValue("{{" + Print(e) + "}}"))
  }

  /** An ordinary expression value becomes a binding of its text. */
  lemma ExpressionValueBound(name: string, e: Expr)
    requires !e.TemplateLit? && !e.ObjectLit? && !StartsWith(AttrName(name), "bind")
    ensures RewriteAttr(Attribute(name, ExprValue(e))) == Attribute(AttrName(name), StrValue("{{" + Print(e) + "}}"))
  {
  }

  /** An event handler `{this.handler}` is bound to the handler's name. */
  lemma HandlerValueNamed(name: string, handler: string)
    requires IsEventName(name) && !ContainsAny(name, ControlKeywords)
    ensures RewriteAttr(Attribute(name, ExprValue(OtherExpr("this." + handler)))) == Attribute(AttrName(name), StrValue(handler))
  {
    EventAttributeBound(name);
    var code := "this." + handler;
    assert StartsWith(code, "this.") by { assert code[..5] == "this."; }
    assert code[5..] == handler;
    assert ReplaceFirst(code, "this.", "") == handler;
    assert Print(OtherExpr(code)) == code;
  }

  /** A string value is kept under the new name. */
  lemma StringValueKept(name: string, v: string)
    ensures RewriteAttr(Attribute(name, StrValue(v))) == Attribute(AttrName(name), StrValue(v))
  {
  }

  /** An object literal value becomes its concise text in single braces. */
  lemma ObjectValueBraced(name: string, code: string, concise: string)
    ensures RewriteAttr(Attribute(name, ExprValue(ObjectLit(code, concise)))) ==
      Attribute(AttrName(name), StrValue("{" + concise + "}"))
  {
  }

  /** On a `bind` attribute any other expression names its handler: its
      printed text with the first `this.` removed, or the text itself when
      it holds none. */
  lemma HandlerValueUnprefixed(name: string, e: Expr)
    requires !e.TemplateLit? && !e.ObjectLit? && StartsWith(AttrName(name), "bind")
    ensures RewriteAttr(Attribute(name, ExprValue(e))).Attribute?
    ensures RewriteAttr(Attribute(name, ExprValue(e))).name == AttrName(name)
    ensures forall i: nat :: FirstAt(Print(e), "this.", i) ==>
      RewriteAttr(Attribute(name, ExprValue(e))).value == StrValue(Print(e)[..i] + Print(e)[i + 5..])
    ensures !Contains(Print(e), "this.") ==>
      RewriteAttr(Attribute(name, ExprValue(e))).value == StrValue(Print(e))
  {
    forall i: nat | FirstAt(Print(e), "this.", i)
      ensures ReplaceFirst(Print(e), "this.", "") == Print(e)[..i] + Print(e)[i + 5..]
    {
      ReplaceFirstAt(Print(e), "this.", "", i);
    }
    if !Contains(Print(e), "this.") {
      ReplaceFirstAbsent(Print(e), "this.", "");
    }
  }

  /** No name the renaming gives is an `on` event name any more. */
  lemma AttrNameNotEvent(name: string)
    ensures !IsEventName(AttrName(name))
  {
    var n := AttrName(name);
    if ContainsAny(name, ControlKeywords) {
      assert n[0] == 'w';
    } else if IsEventName(name) {
      assert n[0] == 'b';
    }
  }

  /** An attribute after the visitor: it holds no expression, and its name
      is no event name. */
  predicate SettledAttr(a: Attr) {
    a.Attribute? ==> !a.value.ExprValue? && !IsEventName(a.name)
  }

  lemma RewriteAttrSettles(a: Attr)
    ensures SettledAttr(RewriteAttr(a))
  {
    if a.Attribute? {
      AttrNameNotEvent(a.name);
    }
  }

  /** A valueless attribute is the constant `{{true}}`, except `else`. */
  lemma ValuelessAttribute(name: string)
    ensures Contains(name, "else") ==> RewriteAttr(Attribute(name, NoValue)) == Attribute(AttrName(name), NoValue)
    ensures !ContainsAny(name, ControlKeywords) && !IsEventName(name) ==>
      RewriteAttr(Attribute(name, NoValue)) == Attribute(name, StrValue("{{true}}"))
  {
    if Contains(name, "else") {
      assert ControlKeywords[2] == "else";
      AttrNameKeepsKeyword(name, 2);
    }
  }

  // ---------------------------------------------------------------------
  // Template elements
  // ---------------------------------------------------------------------

  function SpreadName(e: Expr): string {
    if e.Ident? then e.name else "undefined"
  }

  /** The entry one attribute of a template element adds to the template's
      data: a spread, a `name: 'string'` pair, an identifier passed under its
      own name, or `name: expression`; an identifier under another name is
      dropped and a valueless attribute is an error. */
  function DataEntry(a: Attr): Result<Option<string>> {
    match a
    case SpreadAttr(arg) => Success(Some("..." + SpreadName(arg)))
    case Attribute(n, NoValue) => Failure(ValuelessTemplateAttribute(n))
    case Attribute(n, StrValue(v)) => Success(Some(n + ": '" + v + "'"))
    case Attribute(n, ExprValue(e)) =>
      if e.Ident? then (if e.name == n then Success(Some(n)) else Success(None))
      else Success(Some(n + ": " + Print(e)))
  }

  function TemplateData(attrs: seq<Attr>): Result<seq<string>>
    decreases |attrs|
  {
    if |attrs| == 0 then Success([])
    else
      var entry :- DataEntry(attrs[0]);
      var rest :- TemplateData(attrs[1..]);
      Success((if entry.Some? then [entry.value] else []) + rest)
  }

  predicate Valueless(a: Attr) {
    a.Attribute? && a.value.NoValue?
  }

  /** The template data is built unless some attribute has no value. */
  lemma {:induction false} TemplateDataFails(attrs: seq<Attr>)
    ensures TemplateData(attrs).Failure? <==> exists i :: 0 <= i < |attrs| && Valueless(attrs[i])
    decreases |attrs|
  {
    if |attrs| > 0 {
      TemplateDataFails(attrs[1..]);
      if exists i :: 0 <= i < |attrs| && Valueless(attrs[i]) {
        var i :| 0 <= i < |attrs| && Valueless(attrs[i]);
        if i > 0 { assert Valueless(attrs[1..][i - 1]); }
      }
      if exists i :: 0 <= i < |attrs[1..]| && Valueless(attrs[1..][i]) {
        var i :| 0 <= i < |attrs[1..]| && Valueless(attrs[1..][i]);
        assert Valueless(attrs[i + 1]);
      }
    }
  }

  /** The entry each kind of attribute adds to a template's data. */
  lemma DataEntries(n: string, v: string, e: Expr)
    ensures DataEntry(SpreadAttr(e)) == Success(Some("..." + SpreadName(e)))
    ensures DataEntry(Attribute(n, StrValue(v))) == Success(Some(n + ": '" + v + "'"))
    ensures DataEntry(Attribute(n, ExprValue(Ident(n)))) == Success(Some(n))
    ensures e.Ident? && e.name != n ==> DataEntry(Attribute(n, ExprValue(e))) == Success(None)
    ensures !e.Ident? ==> DataEntry(Attribute(n, ExprValue(e))) == Success(Some(n + ": " + Print(e)))
    ensures DataEntry(Attribute(n, NoValue)) == Failure(ValuelessTemplateAttribute(n))
  {
  }

  /** The template data holds exactly the entries its attributes add, at
      most one per attribute. */
  lemma {:induction false} TemplateDataHolds(attrs: seq<Attr>)
    requires TemplateData(attrs).Success?
    ensures |TemplateData(attrs).value| <= |attrs|
    ensures forall x :: x in TemplateData(attrs).value <==>
      exists i :: 0 <= i < |attrs| && DataEntry(attrs[i]) == Success(Some(x))
    decreases |attrs|
  {
    if |attrs| > 0 {
      TemplateDataHolds(attrs[1..]);
      forall x ensures x in TemplateData(attrs).value <==>
        exists i :: 0 <= i < |attrs| && DataEntry(attrs[i]) == Success(Some(x))
      {
        if exists i :: 0 <= i < |attrs[1..]| && DataEntry(attrs[1..][i]) == Success(Some(x)) {
          var i :| 0 <= i < |attrs[1..]| && DataEntry(attrs[1..][i]) == Success(Some(x));
          assert DataEntry(attrs[i + 1]) == Success(Some(x));
        }
        if exists i :: 0 <= i < |attrs| && DataEntry(attrs[i]) == Success(Some(x)) {
          var i :| 0 <= i < |attrs| && DataEntry(attrs[i]) == Success(Some(x));
          if i > 0 {
            assert DataEntry(attrs[1..][i - 1]) == Success(Some(x));
          }
        }
      }
    }
  }

  /** Data passed as `name={name}` appears in the shorthand `name`. */
  lemma {:induction false} TemplateDataShorthand(names: seq<string>)
    ensures TemplateData(seq(|names|, i requires 0 <= i < |names| => Attribute(names[i], ExprValue(Ident(names[i]))))) == Success(names)
    decreases |names|
  {
    var attrs := seq(|names|, i requires 0 <= i < |names| => Attribute(names[i], ExprValue(Ident(names[i]))));
    if |names| > 0 {
      var tail := seq(|names[1..]|, i requires 0 <= i < |names[1..]| => Attribute(names[1..][i], ExprValue(Ident(names[1..][i]))));
      assert attrs[1..] == tail;
      TemplateDataShorthand(names[1..]);
      assert [names[0]] + names[1..] == names;
    }
  }

  // ---------------------------------------------------------------------
  // Elements
  // ---------------------------------------------------------------------

  /** `ImportTemplates[name]` is set (to a non-empty path). */
  predicate IsTemplateName(name: string, templates: OMap<string>) {
    Truthy(Get(templates, name))
  }

  /** The JSX visitor on an element and everything inside it. */
  function Rewrite(el: Element, templates: OMap<string>): Result<Element>
    decreases el, 1
  {
    if IsTemplateName(el.name, templates) then
      var data :- TemplateData(el.attrs);
      var children :- RewriteChildren(el.children, templates);
      Success(Element("template",
        [Attribute("is", StrValue(el.name)), Attribute("data", StrValue("{{" + JoinWith(data, ", ") + "}}"))],
        false, children))
    else
      var children :- RewriteChildren(el.children, templates);
      Success(Element(el.name, seq(|el.attrs|, i requires 0 <= i < |el.attrs| => RewriteAttr(el.attrs[i])), el.selfClosing, children))
  }

  function RewriteChildren(cs: seq<Child>, templates: OMap<string>): Result<seq<Child>>
    decreases cs, 0
  {
    if |cs| == 0 then Success([])
    else
      var first :- RewriteChild(cs[0], templates);
      var rest :- RewriteChildren(cs[1..], templates);
      Success([first] + rest)
  }

  function RewriteChild(c: Child, templates: OMap<string>): Result<Child>
    decreases c, 2
  {
    match c
    case Text(_) => Success(c)
    case Container(e) => Success(Container(Ident("{" + Print(e) + "}")))
    case Elem(el) =>
      var el' :- Rewrite(el, templates);
      Success(Elem(el'))
  }

  /** The element a template invocation becomes: `<template is data>`,
      with both values strings, and not self-closing. */
  predicate TemplateCall(el: Element) {
    el.name == "template" && !el.selfClosing && |el.attrs| == 2 &&
    el.attrs[0].Attribute? && el.attrs[0].name == "is" && el.attrs[0].value.StrValue? &&
    el.attrs[1].Attribute? && el.attrs[1].name == "data" && el.attrs[1].value.StrValue?
  }

  /** WXML as the visitor leaves it: no attribute holds an expression or
      keeps an `on` event name, an element named after an imported template
      is a template invocation, and every expression child is a binding. */
  predicate Settled(el: Element, templates: OMap<string>)
    decreases el, 1
  {
    (forall i :: 0 <= i < |el.attrs| ==> SettledAttr(el.attrs[i])) &&
    (IsTemplateName(el.name, templates) ==> TemplateCall(el)) &&
    SettledChildren(el.children, templates)
  }

  predicate SettledChildren(cs: seq<Child>, templates: OMap<string>)
    decreases cs, 0
  {
    |cs| > 0 ==> SettledChild(cs[0], templates) && SettledChildren(cs[1..], templates)
  }

  predicate SettledChild(c: Child, templates: OMap<string>)
    decreases c, 2
  {
    match c
    case Text(_) => true
    case Container(e) => e.Ident? && StartsWith(e.name, "{")
    case Elem(el) => Settled(el, templates)
  }

  /** An element naming an imported template becomes `<template>` with the
      template's name under `is` and its data, joined, under `data`. */
  lemma TemplateInvoked(el: Element, templates: OMap<string>)
    requires IsTemplateName(el.name, templates) && Rewrite(el, templates).Success?
    ensures TemplateData(el.attrs).Success?
    ensures var r := Rewrite(el, templates).value;
      r.name == "template" && !r.selfClosing &&
      r.attrs == [Attribute("is", StrValue(el.name)),
                  Attribute("data", StrValue("{{" + JoinWith(TemplateData(el.attrs).value, ", ") + "}}"))] &&
      r.children == RewriteChildren(el.children, templates).value
  {
  }

  lemma InvocationAttrsSettled(name: string, data: string)
    ensures SettledAttr(Attribute("is", StrValue(name))) && SettledAttr(Attribute("data", StrValue(data)))
  {
    assert "is"[0] != 'o' && "data"[0] != 'o';
  }

  lemma {:induction false} RewriteSettles(el: Element, templates: OMap<string>)
    requires Rewrite(el, templates).Success?
    ensures Settled(Rewrite(el, templates).value, templates)
    decreases el, 1
  {
    RewriteChildrenSettle(el.children, templates);
    var r := Rewrite(el, templates).value;
    if IsTemplateName(el.name, templates) {
      TemplateInvoked(el, templates);
      InvocationAttrsSettled(el.name, "{{" + JoinWith(TemplateData(el.attrs).value, ", ") + "}}");
      assert forall i :: 0 <= i < |r.attrs| ==> SettledAttr(r.attrs[i]);
    } else {
      assert |r.attrs| == |el.attrs|;
      forall i | 0 <= i < |r.attrs| ensures SettledAttr(r.attrs[i]) {
        assert r.attrs[i] == RewriteAttr(el.attrs[i]);
        RewriteAttrSettles(el.attrs[i]);
      }
    }
  }

  lemma {:induction false} RewriteChildrenSettle(cs: seq<Child>, templates: OMap<string>)
    requires RewriteChildren(cs, templates).Success?
    ensures SettledChildren(RewriteChildren(cs, templates).value, templates)
    decreases cs, 0
  {
    if |cs| > 0 {
      RewriteChildSettles(cs[0], templates);
      RewriteChildrenSettle(cs[1..], templates);
      var r := RewriteChildren(cs, templates).value;
      assert r[0] == RewriteChild(cs[0], templates).value;
      assert r[1..] == RewriteChildren(cs[1..], templates).value;
    }
  }

  lemma {:induction false} RewriteChildSettles(c: Child, templates: OMap<string>)
    requires RewriteChild(c, templates).Success?
    ensures SettledChild(RewriteChild(c, templates).value, templates)
    decreases c, 2
  {
    match c
    case Text(_) =>
    case Container(e) =>
    case Elem(el) => RewriteSettles(el, templates);
  }

  /** Markup with nothing to translate: string-valued attributes under
      ordinary names, no expressions, no imported templates. */
  predicate Plain(el: Element, templates: OMap<string>)
    decreases el, 1
  {
    !IsTemplateName(el.name, templates) &&
    (forall i :: 0 <= i < |el.attrs| ==>
      el.attrs[i].Attribute? && el.attrs[i].value.StrValue? && AttrName(el.attrs[i].name) == el.attrs[i].name) &&
    PlainChildren(el.children, templates)
  }

  predicate PlainChildren(cs: seq<Child>, templates: OMap<string>)
    decreases cs, 0
  {
    |cs| > 0 ==> PlainChild(cs[0], templates) && PlainChildren(cs[1..], templates)
  }

  predicate PlainChild(c: Child, templates: OMap<string>)
    decreases c, 2
  {
    match c
    case Text(_) => true
    case Container(_) => false
    case Elem(el) => Plain(el, templates)
  }

  /** Plain markup passes through unchanged. */
  lemma {:induction false} RewritePlain(el: Element, templates: OMap<string>)
    requires Plain(el, templates)
    ensures Rewrite(el, templates) == Success(el)
    decreases el, 1
  {
    RewritePlainChildren(el.children, templates);
    var attrs := seq(|el.attrs|, i requires 0 <= i < |el.attrs| => RewriteAttr(el.attrs[i]));
    assert attrs == el.attrs;
  }

  lemma {:induction false} RewritePlainChildren(cs: seq<Child>, templates: OMap<string>)
    requires PlainChildren(cs, templates)
    ensures RewriteChildren(cs, templates) == Success(cs)
    decreases cs, 0
  {
    if |cs| > 0 {
      RewritePlainChild(cs[0], templates);
      RewritePlainChildren(cs[1..], templates);
      assert [cs[0]] + cs[1..] == cs;
    }
  }

  lemma {:induction false} RewritePlainChild(c: Child, templates: OMap<string>)
    requires PlainChild(c, templates)
    ensures RewriteChild(c, templates) == Success(c)
    decreases c, 2
  {
    match c
    case Text(_) =>
    case Elem(el) => RewritePlain(el, templates);
  }

  // ---------------------------------------------------------------------
  // Printing WXML
  // ---------------------------------------------------------------------

  function RenderAttr(a: Attr): string {
    match a
    case SpreadAttr(arg) => "{..." + Print(arg) + "}"
    case Attribute(n, NoValue) => n
    case Attribute(n, StrValue(v)) => n + "=\"" + v + "\""
    case Attribute(n, ExprValue(e)) => n + "={" + Print(e) + "}"
  }

  function RenderAttrs(attrs: seq<Attr>): string
    decreases |attrs|
  {
    if |attrs| == 0 then "" else " " + RenderAttr(attrs[0]) + RenderAttrs(attrs[1..])
  }

  /** The markup text of an element (before pretty-printing). */
  function Render(el: Element): (r: string)
    ensures StartsWith(r, "<" + el.name)
    decreases el, 1
  {
    var open := "<" + el.name + RenderAttrs(el.attrs);
    assert StartsWith(open, "<" + el.name) by { assert open[..|"<" + el.name|] == "<" + el.name; }
    if el.selfClosing then
      var r := open + " />";
      assert r[..|"<" + el.name|] == open[..|"<" + el.name|];
      r
    else
      var r := open + ">" + RenderChildren(el.children) + "</" + el.name + ">";
      assert r[..|"<" + el.name|] == open[..|"<" + el.name|];
      r
  }

  function RenderChildren(cs: seq<Child>): string
    decreases cs, 0
  {
    if |cs| == 0 then "" else RenderChild(cs[0]) + RenderChildren(cs[1..])
  }

  function RenderChild(c: Child): string
    decreases c, 2
  {
    match c
    case Text(raw) => raw
    case Container(e) => "{" + Print(e) + "}"
    case Elem(el) => Render(el)
  }

  /** An expression child is printed as a `{{...}}` binding. */
  lemma ContainerBinding(e: Expr, templates: OMap<string>)
    ensures RewriteChild(Container(e), templates).Success?
    ensures RenderChild(RewriteChild(Container(e), templates).value) == "{{" + Print(e) + "}}"
  {
  }
}
