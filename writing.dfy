/** `writeOutput`: the files a transformed module is written to. The entries
    of the memo entry `{id, ...output}` are walked in insertion order; an
    entry is written when its value is truthy and its key matches
    `json|js|wxml|wxss|css`, under `<name>.<key>` with `css` renamed `wxss`.
    A page or a component gets a directory of its own, named after it; any
    other module is written beside where its source sits below the source
    root. The file system itself is not modelled: the files written are a
    sequence of (path, content) pairs. */
module Writing {
  import opened Wrappers
  import opened Strings
  import opened Paths
  import opened Ast

  /** The output root, the source root, and the working directory that
      `path.resolve` and `path.relative` fall back on. */
  datatype BuildPaths = BuildPaths(target: string, src: string, cwd: string)

  /** A value of the memo entry as `writeOutput` reads it: `undefined` and
      `null` are both `Undefined`. */
  datatype Value = Data(text: string) | Config(json: Json) | Script(program: Program) | Undefined

  datatype FileWrite = FileWrite(path: string, content: Value)

  /** JavaScript truthiness. The JSON text is never empty, and the printed
      script is taken to be non-empty (a program with no statements prints
      as the lone strict-mode directive, which the `replace` only removes
      when code follows it), so only an empty string and `Undefined` are
      falsy. */
  predicate IsTruthy(v: Value) {
    match v
    case Data(t) => t != ""
    case Undefined => false
    case _ => true
  }

  /** The alternatives of the key pattern, in its order. */
  const WrittenKeys: seq<string> := ["json", "js", "wxml", "wxss", "css"]

  /** `/json|js|wxml|wxss|css/.test(key)`. */
  predicate IsWrittenKey(key: string) {
    ContainsAny(key, WrittenKeys)
  }

  function Present(key: string, v: Option<string>): seq<(string, Value)> {
    if v.Some? then [(key, Data(v.value))] else []
  }

  /** `Object.entries({id, ...output})`: `id` and `type` first, then the
      keys in the order the transform sets them; `css`, `name` and `wxml` are
      only there when set, `json` and `js` always are. */
  function Entries(id: string, o: Output): seq<(string, Value)> {
    [("id", Data(id)), ("type", Data(o.kind))]
      + Present("css", o.css) + Present("name", o.name) + Present("wxml", o.wxml)
      + [("json", if o.json.Some? then Config(o.json.value) else Undefined),
         ("js", if o.js.Some? then Script(o.js.value) else Undefined)]
  }

  /** The base name of the module's files, and the directory they go to. */
  function Location(id: string, kind: string, paths: BuildPaths): (string, string) {
    var p := Parse(Join([paths.target, Relative(paths.cwd, paths.src, id)]));
    var dir := if Contains(kind, "page") || Contains(kind, "component") then Resolve(paths.cwd, [p.dir, p.name]) else p.dir;
    (p.name, dir)
  }

  function Suffix(key: string): string {
    if key == "css" then "wxss" else key
  }

  function FilePath(dir: string, name: string, suffix: string): string {
    Join([dir, name + "." + suffix])
  }

  /** The suffix and the contents one entry writes, if it writes a file. */
  function EntryWrites(e: (string, Value)): seq<(string, Value)> {
    if IsTruthy(e.1) && IsWrittenKey(e.0) then [(Suffix(e.0), e.1)] else []
  }

  /** The suffixes and contents the entries write, in order. */
  function Writes(es: seq<(string, Value)>): seq<(string, Value)>
    decreases |es|
  {
    if |es| == 0 then []
    else Writes(es[..|es| - 1]) + EntryWrites(es[|es| - 1])
  }

  /** The files `<dir>/<name>.<suffix>` for the given suffixes. */
  function Files(dir: string, name: string, ws: seq<(string, Value)>): (r: seq<FileWrite>)
    ensures |r| == |ws|
    ensures forall i :: 0 <= i < |ws| ==> r[i].content == ws[i].1
    ensures forall i :: 0 <= i < |ws| && PlainSegment(name + "." + ws[i].0) ==>
      DirBase(r[i].path).1 == name + "." + ws[i].0
  {
    assert forall i :: 0 <= i < |ws| && PlainSegment(name + "." + ws[i].0) ==>
      DirBase(FilePath(dir, name, ws[i].0)).1 == name + "." + ws[i].0 by {
      forall i | 0 <= i < |ws| && PlainSegment(name + "." + ws[i].0)
        ensures DirBase(FilePath(dir, name, ws[i].0)).1 == name + "." + ws[i].0
      {
        assert [dir] + [name + "." + ws[i].0] == [dir, name + "." + ws[i].0];
        JoinBase([dir], name + "." + ws[i].0);
      }
    }
    seq(|ws|, i requires 0 <= i < |ws| => FileWrite(FilePath(dir, name, ws[i].0), ws[i].1))
  }

  /** The files `writeOutput` writes for a memo entry; an output without a
      type writes none. */
  function OutputFiles(id: string, o: Output, paths: BuildPaths): seq<FileWrite> {
    if o.kind == "" then []
    else
      var (name, dir) := Location(id, o.kind, paths);
      Files(dir, name, Writes(Entries(id, o)))
  }

  // ---------------------------------------------------------------------
  // Properties
  // ---------------------------------------------------------------------

  lemma FilesSnoc(dir: string, name: string, ws: seq<(string, Value)>, more: seq<(string, Value)>)
    ensures Files(dir, name, ws + more) == Files(dir, name, ws) + Files(dir, name, more)
  {
  }

  lemma {:induction false} WritesAppend(a: seq<(string, Value)>, b: seq<(string, Value)>)
    ensures Writes(a + b) == Writes(a) + Writes(b)
    decreases |b|
  {
    if |b| == 0 {
      assert a + b == a;
    } else {
      assert (a + b)[..|a + b| - 1] == a + b[..|b| - 1];
      WritesAppend(a, b[..|b| - 1]);
    }
  }

  /** A key without `j`, `w` or `c` matches no alternative of the pattern. */
  lemma KeyNotWritten(key: string)
    requires 'j' !in key && 'w' !in key && 'c' !in key
    ensures !ContainsAny(key, WrittenKeys)
  {
    NotContainsFirst(key, "json");
    NotContainsFirst(key, "js");
    NotContainsFirst(key, "wxml");
    NotContainsFirst(key, "wxss");
    NotContainsFirst(key, "css");
    forall i | 0 <= i < |WrittenKeys|
      ensures !Contains(key, WrittenKeys[i])
    {
      if i == 0 {} else if i == 1 {} else if i == 2 {} else if i == 3 {} else {}
    }
  }

  lemma KeyWritten(k: nat)
    requires k < |WrittenKeys|
    ensures ContainsAny(WrittenKeys[k], WrittenKeys)
  {
    assert StartsWith(WrittenKeys[k], WrittenKeys[k]);
  }

  lemma WritesSingle(e: (string, Value))
    ensures Writes([e]) == EntryWrites(e)
  {
    assert [e][..0] == [];
  }

  lemma WritesPair(e: (string, Value), f: (string, Value))
    ensures Writes([e, f]) == EntryWrites(e) + EntryWrites(f)
  {
    assert [e, f][..1] == [e];
    WritesSingle(e);
  }

  /** `id` and `type` are never written. */
  lemma HeadNotWritten(id: string, kind: string)
    ensures Writes([("id", Data(id)), ("type", Data(kind))]) == []
  {
    KeyNotWritten("id");
    KeyNotWritten("type");
    WritesPair(("id", Data(id)), ("type", Data(kind)));
  }

  /** An optional string entry is written, under the given suffix, exactly
      when it is set and non-empty; `name` never is. */
  lemma PresentWritten(key: string, v: Option<string>)
    requires key == "css" || key == "wxml" || key == "name"
    ensures Writes(Present(key, v)) ==
      if key != "name" && v.Some? && v.value != "" then [(Suffix(key), Data(v.value))] else []
  {
    if v.Some? {
      WritesSingle((key, Data(v.value)));
      if key == "css" { KeyWritten(4); } else if key == "wxml" { KeyWritten(2); } else { KeyNotWritten("name"); }
    }
  }

  /** `json` and `js` are written when they are defined. */
  lemma TailWritten(json: Option<Json>, js: Option<Program>)
    ensures Writes([("json", if json.Some? then Config(json.value) else Undefined),
                    ("js", if js.Some? then Script(js.value) else Undefined)]) ==
      (if json.Some? then [("json", Config(json.value))] else [])
      + (if js.Some? then [("js", Script(js.value))] else [])
  {
    KeyWritten(0);
    KeyWritten(1);
    WritesPair(("json", if json.Some? then Config(json.value) else Undefined),
      ("js", if js.Some? then Script(js.value) else Undefined));
  }

  lemma {:induction false} Regroup<T>(a: seq<T>, b: seq<T>, c: seq<T>, d: seq<T>)
    ensures a + b + (c + d) == a + b + c + d
  {
  }

  /** The suffixes and contents written for a memo entry, entry by entry. */
  function ExpectedWrites(o: Output): seq<(string, Value)> {
    (if o.css.Some? && o.css.value != "" then [("wxss", Data(o.css.value))] else [])
    + (if o.wxml.Some? && o.wxml.value != "" then [("wxml", Data(o.wxml.value))] else [])
    + (if o.json.Some? then [("json", Config(o.json.value))] else [])
    + (if o.js.Some? then [("js", Script(o.js.value))] else [])
  }

  lemma {:induction false} Combine(head: seq<(string, Value)>, css: seq<(string, Value)>, nm: seq<(string, Value)>,
                wxml: seq<(string, Value)>, tail: seq<(string, Value)>)
    requires Writes(head) == [] && Writes(nm) == []
    ensures Writes(head + css + nm + wxml + tail) == Writes(css) + Writes(wxml) + Writes(tail)
  {
    var a := head + css;
    WritesAppend(head, css);
    assert Writes(a) == Writes(css);
    var b := a + nm;
    WritesAppend(a, nm);
    assert Writes(b) == Writes(css);
    var c := b + wxml;
    WritesAppend(b, wxml);
    WritesAppend(c, tail);
  }

  lemma {:induction false} EntriesWritten(id: string, o: Output)
    ensures Writes(Entries(id, o)) == ExpectedWrites(o)
  {
    var head := [("id", Data(id)), ("type", Data(o.kind))];
    var css := Present("css", o.css);
    var nm := Present("name", o.name);
    var wxml := Present("wxml", o.wxml);
    var tail := [("json", if o.json.Some? then Config(o.json.value) else Undefined),
                 ("js", if o.js.Some? then Script(o.js.value) else Undefined)];
    assert Entries(id, o) == head + css + nm + wxml + tail;
    HeadNotWritten(id, o.kind);
    PresentWritten("name", o.name);
    Combine(head, css, nm, wxml, tail);
    PresentWritten("css", o.css);
    PresentWritten("wxml", o.wxml);
    TailWritten(o.json, o.js);
    var c := if o.css.Some? && o.css.value != "" then [("wxss", Data(o.css.value))] else [];
    var w := if o.wxml.Some? && o.wxml.value != "" then [("wxml", Data(o.wxml.value))] else [];
    var j := if o.json.Some? then [("json", Config(o.json.value))] else [];
    var sc := if o.js.Some? then [("js", Script(o.js.value))] else [];
    assert Writes(css) == c;
    assert Writes(wxml) == w;
    assert Writes(tail) == j + sc;
    Regroup(c, w, j, sc);
  }

  /** The files written for a memo entry: the stylesheet (renamed `.wxss`)
      and the markup when non-empty, the JSON when there is one, and the
      script unless the module is a template, in that order, all under the
      module's base name in its directory; `id`, `type` and `name` are never
      written, and an output without a type writes nothing. */
  lemma OutputFilesExact(id: string, o: Output, paths: BuildPaths)
    ensures OutputFiles(id, o, paths) ==
      if o.kind == "" then [] else Files(Location(id, o.kind, paths).1, Location(id, o.kind, paths).0, ExpectedWrites(o))
  {
    EntriesWritten(id, o);
  }
}
