/** The call visitor: every method call `x.setState(...)` becomes
    `x.setData(...)`, the mini program's name for the same operation. It runs
    over the whole module, so it reaches field initialisers, method bodies,
    the kept export and the other top-level statements alike. */
module Rename {
  import opened Wrappers
  import opened Ast

  function RenameCode(c: Code): Code
    decreases c
  {
    match c
    case Call(MemberCallee(o, p), args) =>
      Call(MemberCallee(RenameCode(o), if p == "setState" then "setData" else p),
        seq(|args|, i requires 0 <= i < |args| => RenameCode(args[i])))
    case Call(PlainCallee(f), args) =>
      Call(PlainCallee(RenameCode(f)), seq(|args|, i requires 0 <= i < |args| => RenameCode(args[i])))
    case Node(k, ch) => Node(k, seq(|ch|, i requires 0 <= i < |ch| => RenameCode(ch[i])))
    case Leaf(_) => c
  }

  /** No method call named `setState` anywhere in the code. */
  predicate NoSetState(c: Code)
    decreases c
  {
    match c
    case Call(MemberCallee(o, p), args) =>
      p != "setState" && NoSetState(o) && forall i :: 0 <= i < |args| ==> NoSetState(args[i])
    case Call(PlainCallee(f), args) =>
      NoSetState(f) && forall i :: 0 <= i < |args| ==> NoSetState(args[i])
    case Node(_, ch) => forall i :: 0 <= i < |ch| ==> NoSetState(ch[i])
    case Leaf(_) => true
  }

  /** After the renaming no `setState` call is left. */
  lemma {:induction false} RenameRemovesSetState(c: Code)
    ensures NoSetState(RenameCode(c))
    decreases c
  {
    match c
    case Call(MemberCallee(o, p), args) =>
      RenameRemovesSetState(o);
      forall i | 0 <= i < |args| ensures NoSetState(RenameCode(args[i])) {
        RenameRemovesSetState(args[i]);
      }
    case Call(PlainCallee(f), args) =>
      RenameRemovesSetState(f);
      forall i | 0 <= i < |args| ensures NoSetState(RenameCode(args[i])) {
        RenameRemovesSetState(args[i]);
      }
    case Node(k, ch) =>
      forall i | 0 <= i < |ch| ensures NoSetState(RenameCode(ch[i])) {
        RenameRemovesSetState(ch[i]);
      }
    case Leaf(_) =>
  }

  /** Code without a `setState` call is left exactly as it is. */
  lemma {:induction false} RenameKeepsOtherCode(c: Code)
    requires NoSetState(c)
    ensures RenameCode(c) == c
    decreases c
  {
    match c
    case Call(MemberCallee(o, p), args) =>
      RenameKeepsOtherCode(o);
      forall i | 0 <= i < |args| ensures RenameCode(args[i]) == args[i] {
        RenameKeepsOtherCode(args[i]);
      }
      assert seq(|args|, i requires 0 <= i < |args| => RenameCode(args[i])) == args;
    case Call(PlainCallee(f), args) =>
      RenameKeepsOtherCode(f);
      forall i | 0 <= i < |args| ensures RenameCode(args[i]) == args[i] {
        RenameKeepsOtherCode(args[i]);
      }
      assert seq(|args|, i requires 0 <= i < |args| => RenameCode(args[i])) == args;
    case Node(k, ch) =>
      forall i | 0 <= i < |ch| ensures RenameCode(ch[i]) == ch[i] {
        RenameKeepsOtherCode(ch[i]);
      }
      assert seq(|ch|, i requires 0 <= i < |ch| => RenameCode(ch[i])) == ch;
    case Leaf(_) =>
  }

  /** Renaming twice is renaming once. */
  lemma RenameIdempotent(c: Code)
    ensures RenameCode(RenameCode(c)) == RenameCode(c)
  {
    RenameRemovesSetState(c);
    RenameKeepsOtherCode(RenameCode(c));
  }

  // ---------------------------------------------------------------------
  // The same renaming over the other shapes that hold code
  // ---------------------------------------------------------------------

  function RenameInit(v: Init): Init
    decreases v
  {
    match v
    case ArrayInit(items) => ArrayInit(seq(|items|, i requires 0 <= i < |items| => RenameInit(items[i])))
    case ObjectInit(entries) =>
      ObjectInit(seq(|entries|, i requires 0 <= i < |entries| => (entries[i].0, RenameInit(entries[i].1))))
    case MemberInit(o, p) => MemberInit(RenameInit(o), p)
    case CodeInit(c) => CodeInit(RenameCode(c))
    case _ => v
  }

  function RenameStmt(s: Stmt): Stmt {
    match s
    case Return(Some(CodeReturn(c))) => Return(Some(CodeReturn(RenameCode(c))))
    case Return(_) => s
    case Statement(c) => Statement(RenameCode(c))
  }

  /** A function body, statement by statement: no statement of the result
      calls `setState`, and a statement that did not is kept as it was. */
  function RenameStmts(ss: seq<Stmt>): (r: seq<Stmt>)
    ensures |r| == |ss|
    ensures forall i :: 0 <= i < |r| ==> NoSetStateStmt(r[i])
    ensures forall i :: 0 <= i < |ss| && NoSetStateStmt(ss[i]) ==> r[i] == ss[i]
  {
    assert forall i :: 0 <= i < |ss| ==> NoSetStateStmt(RenameStmt(ss[i])) by {
      forall i | 0 <= i < |ss| ensures NoSetStateStmt(RenameStmt(ss[i])) {
        RenameStmtRemovesSetState(ss[i]);
      }
    }
    assert forall i :: 0 <= i < |ss| && NoSetStateStmt(ss[i]) ==> RenameStmt(ss[i]) == ss[i] by {
      forall i | 0 <= i < |ss| && NoSetStateStmt(ss[i]) ensures RenameStmt(ss[i]) == ss[i] {
        RenameStmtKeeps(ss[i]);
      }
    }
    seq(|ss|, i requires 0 <= i < |ss| => RenameStmt(ss[i]))
  }

  function RenameFn(f: Fn): Fn {
    f.(body := RenameStmts(f.body))
  }

  function RenameMember(m: Member): Member {
    match m
    case Field(k, v) => Field(k, RenameInit(v))
    case Method(k, f) => Method(k, RenameFn(f))
  }

  function RenameExport(e: Export): Export {
    match e
    case ClassExport(id, sup, members) =>
      ClassExport(id, sup, seq(|members|, i requires 0 <= i < |members| => RenameMember(members[i])))
    case FuncExport(id, BlockBody(ss)) => FuncExport(id, BlockBody(RenameStmts(ss)))
    case FuncExport(id, ExpressionBody(c)) => FuncExport(id, ExpressionBody(RenameCode(c)))
    case OtherExport(c) => OtherExport(RenameCode(c))
  }

  predicate NoSetStateInit(v: Init)
    decreases v
  {
    match v
    case ArrayInit(items) => forall i :: 0 <= i < |items| ==> NoSetStateInit(items[i])
    case ObjectInit(entries) => forall i :: 0 <= i < |entries| ==> NoSetStateInit(entries[i].1)
    case MemberInit(o, _) => NoSetStateInit(o)
    case CodeInit(c) => NoSetState(c)
    case _ => true
  }

  predicate NoSetStateStmt(s: Stmt) {
    match s
    case Return(Some(CodeReturn(c))) => NoSetState(c)
    case Return(_) => true
    case Statement(c) => NoSetState(c)
  }

  predicate NoSetStateFn(f: Fn) {
    forall i :: 0 <= i < |f.body| ==> NoSetStateStmt(f.body[i])
  }

  lemma {:induction false} RenameInitRemovesSetState(v: Init)
    ensures NoSetStateInit(RenameInit(v))
    decreases v
  {
    match v
    case ArrayInit(items) =>
      forall i | 0 <= i < |items| ensures NoSetStateInit(RenameInit(items[i])) {
        RenameInitRemovesSetState(items[i]);
      }
    case ObjectInit(entries) =>
      forall i | 0 <= i < |entries| ensures NoSetStateInit(RenameInit(entries[i].1)) {
        RenameInitRemovesSetState(entries[i].1);
      }
    case MemberInit(o, _) => RenameInitRemovesSetState(o);
    case CodeInit(c) => RenameRemovesSetState(c);
    case _ =>
  }

  lemma RenameStmtRemovesSetState(s: Stmt)
    ensures NoSetStateStmt(RenameStmt(s))
  {
    match s
    case Return(Some(CodeReturn(c))) => RenameRemovesSetState(c);
    case Return(_) =>
    case Statement(c) => RenameRemovesSetState(c);
  }

  lemma RenameStmtKeeps(s: Stmt)
    requires NoSetStateStmt(s)
    ensures RenameStmt(s) == s
  {
    match s
    case Return(Some(CodeReturn(c))) => RenameKeepsOtherCode(c);
    case Return(_) =>
    case Statement(c) => RenameKeepsOtherCode(c);
  }

  /** A renamed function body calls `setData`, never `setState`, and a
      body without `setState` calls is kept. */
  lemma RenameFnRemovesSetState(f: Fn)
    ensures NoSetStateFn(RenameFn(f))
    ensures NoSetStateFn(f) ==> RenameFn(f) == f
  {
    if NoSetStateFn(f) {
      assert RenameStmts(f.body) == f.body;
    }
  }
}
