/** `gen`: the depth-first walk over the module table that transforms each
    module after its dependencies and writes its files. A memo table of the
    outputs so far is threaded through the walk and updated in place; a module
    already in it is not transformed again. The walk has no cycle check:
    here a rank that decreases along every dependency stands for the
    acyclic table it needs. A module that is missing from the table, or whose
    transform fails, aborts the walk with what was done so far kept. */
module Driver {
  import opened Wrappers
  import opened Ast
  import opened Transform
  import opened Writing
  import opened Scanning
  import Traversal

  /** What the walk reads and never changes: the module table, the
      reverse-reference index, the contents of each module's sibling
      stylesheet (by module id, when the file exists) and the paths. */
  datatype Project = Project(
    modules: map<string, ModuleEntry>,
    referenced: map<string, seq<string>>,
    styles: map<string, string>,
    paths: BuildPaths)

  /** The two steps `gen` takes for a module, kept abstract here: the
      transform and the files written for its output. */
  datatype Steps = Steps(transform: TransformInput -> Result<Output>, write: (string, Output) -> seq<FileWrite>)

  /** The memo table, the files written so far, and the order in which the
      modules were transformed. */
  datatype Built = Built(memo: map<string, Output>, written: seq<FileWrite>, order: seq<string>)

  /** Where a walk ends: what was built, and the error that stopped it. */
  datatype Outcome = Outcome(built: Built, error: Option<Error>)

  /** Every dependency inside the table has a lower rank than the module
      depending on it: the table is acyclic. */
  predicate Ranked(modules: map<string, ModuleEntry>, rank: map<string, nat>) {
    (forall k :: k in modules ==> k in rank) &&
    (forall k, d :: k in modules && d in modules[k].depended && d in modules ==> rank[d] < rank[k])
  }

  /** The memo entries of the module's dependencies. */
  function DependedModules(p: Project, memo: map<string, Output>, id: string): map<string, Output>
    requires id in p.modules
  {
    map d | d in p.modules[id].depended && d in memo :: memo[d]
  }

  /** The argument `transform` gets for a module. */
  function InputFor(p: Project, memo: map<string, Output>, id: string): TransformInput
    requires id in p.modules
  {
    TransformInput(Some(id), p.modules[id].code, DependedModules(p, memo, id),
      if id in p.referenced then p.referenced[id] else [],
      Some(p.paths.src),
      if id in p.styles then Some(p.styles[id]) else None,
      p.paths.cwd)
  }

  /** A module transformed: its output memoised, its files written. */
  function Add(st: Steps, b: Built, id: string, out: Output): Built {
    Built(b.memo[id := out], b.written + st.write(id, out), b.order + [id])
  }

  function RankOf(modules: map<string, ModuleEntry>, rank: map<string, nat>, id: string): nat
    requires Ranked(modules, rank)
  {
    if id in modules then rank[id] + 1 else 0
  }

  /** `gen(id)`: the dependencies first, then the module itself unless it is
      in the memo already. */
  function GenOf(p: Project, st: Steps, rank: map<string, nat>, b: Built, id: string): Outcome
    requires Ranked(p.modules, rank)
    decreases RankOf(p.modules, rank, id), 1, 0
  {
    if id !in p.modules then Outcome(b, Some(UnknownModule(id)))
    else
      var o := GenEach(p, st, rank, b, rank[id], p.modules[id].depended);
      if o.error.Some? || id in o.built.memo then o
      else
        match st.transform(InputFor(p, o.built.memo, id))
        case Failure(e) => Outcome(o.built, Some(e))
        case Success(out) => Outcome(Add(st, o.built, id, out), None)
  }

  /** The `reduce` over a module's dependencies, which stops at the first
      error. */
  function GenEach(p: Project, st: Steps, rank: map<string, nat>, b: Built, r: nat, ids: seq<string>): Outcome
    requires Ranked(p.modules, rank)
    requires forall d :: d in ids && d in p.modules ==> rank[d] < r
    decreases r + 1, 0, |ids|
  {
    if |ids| == 0 then Outcome(b, None)
    else
      var o := GenOf(p, st, rank, b, ids[0]);
      if o.error.Some? then o else GenEach(p, st, rank, o.built, r, ids[1..])
  }

  // ---------------------------------------------------------------------
  // The invariant of the walk
  // ---------------------------------------------------------------------

  /** Every memoised module is in the table, with its dependencies memoised. */
  predicate Closed(p: Project, memo: map<string, Output>) {
    forall k :: k in memo ==> k in p.modules && forall d :: d in p.modules[k].depended ==> d in memo
  }

  /** The memo entry of a module is its transform, given the memo entries of
      its dependencies. */
  ghost predicate Sound(p: Project, st: Steps, memo: map<string, Output>) {
    Closed(p, memo) &&
    forall k :: k in memo ==> st.transform(InputFor(p, memo, k)) == Success(memo[k])
  }

  predicate Distinct(order: seq<string>) {
    forall i, j :: 0 <= i < j < |order| ==> order[i] != order[j]
  }

  /** Each module comes after all of its dependencies in the table. */
  ghost predicate PostOrder(p: Project, order: seq<string>) {
    forall i, d :: 0 <= i < |order| && order[i] in p.modules && d in p.modules[order[i]].depended && d in p.modules ==>
      d in order[..i]
  }

  /** The files of the given modules, in their order. */
  function WrittenFiles(st: Steps, order: seq<string>, memo: map<string, Output>): seq<FileWrite>
    requires forall k :: k in order ==> k in memo
    decreases |order|
  {
    if |order| == 0 then []
    else
      var k := order[|order| - 1];
      WrittenFiles(st, order[..|order| - 1], memo) + st.write(k, memo[k])
  }

  /** What each step of the walk keeps: sound memo entries; each memoised
      module transformed once, after its dependencies; and the files
      written are those of the transformed modules in that order. */
  ghost predicate Inv(p: Project, st: Steps, b: Built) {
    Sound(p, st, b.memo) &&
    Distinct(b.order) &&
    (forall k :: k in b.memo <==> k in b.order) &&
    PostOrder(p, b.order) &&
    b.written == WrittenFiles(st, b.order, b.memo)
  }

  /** The walk only adds: memo entries keep their value, files already
      written stay, and the order grows at its end. */
  ghost predicate Extends(b: Built, c: Built) {
    (forall k :: k in b.memo ==> k in c.memo && c.memo[k] == b.memo[k]) &&
    |b.written| <= |c.written| && c.written[..|b.written|] == b.written &&
    |b.order| <= |c.order| && c.order[..|b.order|] == b.order
  }

  // ---------------------------------------------------------------------
  // Properties
  // ---------------------------------------------------------------------

  lemma ExtendsTrans(a: Built, b: Built, c: Built)
    requires Extends(a, b) && Extends(b, c)
    ensures Extends(a, c)
  {
    assert c.written[..|a.written|] == c.written[..|b.written|][..|a.written|];
    assert c.order[..|a.order|] == c.order[..|b.order|][..|a.order|];
  }

  /** Only the memo entries of a module's dependencies go into its
      transform. */
  lemma InputForAgrees(p: Project, m1: map<string, Output>, m2: map<string, Output>, k: string)
    requires k in p.modules
    requires forall d :: d in p.modules[k].depended ==> d in m1 && d in m2 && m1[d] == m2[d]
    ensures InputFor(p, m1, k) == InputFor(p, m2, k)
  {
    assert DependedModules(p, m1, k) == DependedModules(p, m2, k);
  }

  lemma {:induction false} FilesAgree(st: Steps, order: seq<string>, m1: map<string, Output>, m2: map<string, Output>)
    requires forall k :: k in order ==> k in m1 && k in m2 && m1[k] == m2[k]
    ensures WrittenFiles(st, order, m1) == WrittenFiles(st, order, m2)
    decreases |order|
  {
    if |order| > 0 {
      FilesAgree(st, order[..|order| - 1], m1, m2);
    }
  }

  lemma AddSound(p: Project, st: Steps, rank: map<string, nat>, memo: map<string, Output>, id: string, out: Output)
    requires Ranked(p.modules, rank) && Sound(p, st, memo)
    requires id in p.modules && id !in memo
    requires forall d :: d in p.modules[id].depended ==> d in memo
    requires st.transform(InputFor(p, memo, id)) == Success(out)
    ensures Sound(p, st, memo[id := out])
  {
    var m := memo[id := out];
    assert id !in p.modules[id].depended;
    forall k | k in m
      ensures st.transform(InputFor(p, m, k)) == Success(m[k])
    {
      InputForAgrees(p, memo, m, k);
    }
  }

  lemma AddOrdered(p: Project, order: seq<string>, id: string)
    requires PostOrder(p, order) && id in p.modules
    requires forall d :: d in p.modules[id].depended && d in p.modules ==> d in order
    ensures PostOrder(p, order + [id])
  {
    var c := order + [id];
    forall i, d | 0 <= i < |c| && c[i] in p.modules && d in p.modules[c[i]].depended && d in p.modules
      ensures d in c[..i]
    {
      if i < |order| {
        assert order[i] == c[i];
        assert order[..i] == c[..i];
      } else {
        assert c[..i] == order;
      }
    }
  }

  /** Adding a module appends its files to those already written. */
  lemma AddWritten(st: Steps, b: Built, id: string, out: Output)
    requires forall k :: k in b.order ==> k in b.memo
    requires b.written == WrittenFiles(st, b.order, b.memo) && id !in b.memo
    ensures var c := Add(st, b, id, out);
      (forall k :: k in c.order ==> k in c.memo) && c.written == WrittenFiles(st, c.order, c.memo)
  {
    var c := Add(st, b, id, out);
    FilesAgree(st, b.order, b.memo, c.memo);
    assert c.order[..|c.order| - 1] == b.order;
  }

  /** Adding a new module keeps the order free of repeats and in step with
      the memo. */
  lemma AddDistinct(b: Built, id: string, order: seq<string>)
    requires Distinct(b.order) && (forall k :: k in b.memo <==> k in b.order) && id !in b.memo
    requires order == b.order + [id]
    ensures Distinct(order)
  {
  }

  /** Adding a module only adds. */
  lemma AddExtends(st: Steps, b: Built, id: string, out: Output)
    requires id !in b.memo
    ensures Extends(b, Add(st, b, id, out))
  {
    var c := Add(st, b, id, out);
    assert c.written[..|b.written|] == b.written;
    assert c.order[..|b.order|] == b.order;
  }

  /** Adding a module whose dependencies are all memoised keeps the
      invariant. */
  lemma AddKeeps(p: Project, st: Steps, rank: map<string, nat>, b: Built, id: string, out: Output)
    requires Ranked(p.modules, rank) && Inv(p, st, b)
    requires id in p.modules && id !in b.memo
    requires forall d :: d in p.modules[id].depended ==> d in b.memo
    requires st.transform(InputFor(p, b.memo, id)) == Success(out)
    ensures Inv(p, st, Add(st, b, id, out)) && Extends(b, Add(st, b, id, out))
  {
    var c := Add(st, b, id, out);
    AddSound(p, st, rank, b.memo, id, out);
    AddOrdered(p, b.order, id);
    AddDistinct(b, id, c.order);
    AddWritten(st, b, id, out);
    AddExtends(st, b, id, out);
    assert forall k :: k in c.memo <==> k in c.order;
  }

  /** `gen` keeps the invariant and only adds; when it succeeds, the module
      is memoised. */
  lemma {:induction false} GenKeeps(p: Project, st: Steps, rank: map<string, nat>, b: Built, id: string)
    requires Ranked(p.modules, rank) && Inv(p, st, b)
    ensures var o := GenOf(p, st, rank, b, id);
      Inv(p, st, o.built) && Extends(b, o.built) && (o.error.None? ==> id in o.built.memo)
    decreases RankOf(p.modules, rank, id), 1, 0
  {
    if id in p.modules {
      var o := GenEach(p, st, rank, b, rank[id], p.modules[id].depended);
      GenEachKeeps(p, st, rank, b, rank[id], p.modules[id].depended);
      if o.error.None? && id !in o.built.memo {
        match st.transform(InputFor(p, o.built.memo, id))
        case Failure(e) =>
        case Success(out) =>
          AddKeeps(p, st, rank, o.built, id, out);
          ExtendsTrans(b, o.built, Add(st, o.built, id, out));
      }
    }
  }

  /** The `reduce` keeps the invariant and only adds; when it succeeds, every
      module it visited is memoised. */
  lemma {:induction false} GenEachKeeps(p: Project, st: Steps, rank: map<string, nat>, b: Built, r: nat, ids: seq<string>)
    requires Ranked(p.modules, rank) && Inv(p, st, b)
    requires forall d :: d in ids && d in p.modules ==> rank[d] < r
    ensures var o := GenEach(p, st, rank, b, r, ids);
      Inv(p, st, o.built) && Extends(b, o.built) && (o.error.None? ==> forall d :: d in ids ==> d in o.built.memo)
    decreases r + 1, 0, |ids|
  {
    if |ids| > 0 {
      var o := GenOf(p, st, rank, b, ids[0]);
      GenKeeps(p, st, rank, b, ids[0]);
      if o.error.None? {
        GenEachKeeps(p, st, rank, o.built, r, ids[1..]);
        var o2 := GenEach(p, st, rank, o.built, r, ids[1..]);
        ExtendsTrans(b, o.built, o2.built);
        forall d | d in ids
          ensures o2.error.None? ==> d in o2.built.memo
        {
          if d != ids[0] {
            assert d in ids[1..];
          }
        }
      }
    }
  }

  /** A build from an empty memo table ends with the invariant: each module
      is transformed at most once, from the memo entries of its dependencies,
      after all of them, and the files written are those of the transformed
      modules in that order. When it succeeds, the module is memoised. */
  lemma GenFromScratch(p: Project, st: Steps, rank: map<string, nat>, id: string)
    requires Ranked(p.modules, rank)
    ensures var o := GenOf(p, st, rank, Built(map[], [], []), id);
      Inv(p, st, o.built) && (o.error.None? ==> id in o.built.memo)
  {
    GenKeeps(p, st, rank, Built(map[], [], []), id);
  }

  /** A module already memoised, under the invariant, is not transformed
      again: `gen` changes nothing. */
  lemma {:induction false} GenMemoised(p: Project, st: Steps, rank: map<string, nat>, b: Built, id: string)
    requires Ranked(p.modules, rank) && Closed(p, b.memo) && id in b.memo
    ensures GenOf(p, st, rank, b, id) == Outcome(b, None)
    decreases RankOf(p.modules, rank, id), 1, 0
  {
    GenEachMemoised(p, st, rank, b, rank[id], p.modules[id].depended);
  }

  lemma {:induction false} GenEachMemoised(p: Project, st: Steps, rank: map<string, nat>, b: Built, r: nat, ids: seq<string>)
    requires Ranked(p.modules, rank) && Closed(p, b.memo)
    requires forall d :: d in ids && d in p.modules ==> rank[d] < r
    requires forall d :: d in ids ==> d in b.memo
    ensures GenEach(p, st, rank, b, r, ids) == Outcome(b, None)
    decreases r + 1, 0, |ids|
  {
    if |ids| > 0 {
      GenMemoised(p, st, rank, b, ids[0]);
      GenEachMemoised(p, st, rank, b, r, ids[1..]);
    }
  }

  /** The dependency map a module is transformed with holds exactly the memo
      entries of its dependencies, and the references it gets are its own. */
  lemma TransformedWithDependencies(p: Project, st: Steps, rank: map<string, nat>, b: Built, id: string)
    requires Ranked(p.modules, rank) && Inv(p, st, b) && id in p.modules
    requires var o := GenEach(p, st, rank, b, rank[id], p.modules[id].depended); o.error.None? && id !in o.built.memo
    ensures var memo := GenEach(p, st, rank, b, rank[id], p.modules[id].depended).built.memo;
      var input := InputFor(p, memo, id);
      (forall d :: d in input.dependedModules <==> d in p.modules[id].depended) &&
      (forall d :: d in input.dependedModules ==> input.dependedModules[d] == memo[d]) &&
      (id in p.referenced ==> input.referencedBy == p.referenced[id])
  {
    GenEachKeeps(p, st, rank, b, rank[id], p.modules[id].depended);
  }

  /** The steps the driver takes: the transform, and `writeOutput`. */
  function Real(paths: BuildPaths): Steps {
    Steps(Transformed, (id, o) => OutputFiles(id, o, paths))
  }

  // ---------------------------------------------------------------------
  // The driver's state, updated in place
  // ---------------------------------------------------------------------

  class Builder {
    const project: Project
    var memo: map<string, Output>
    var written: seq<FileWrite>
    ghost var order: seq<string>

    ghost function State(): Built
      reads this
    {
      Built(memo, written, order)
    }

    constructor (project: Project)
      ensures this.project == project && State() == Built(map[], [], [])
    {
      this.project := project;
      memo := map[];
      written := [];
      order := [];
    }

    /** `writeOutput`: nothing for an output without a type, else the
        files of its entries. */
    method WriteOutput(id: string, o: Output)
      modifies this
      ensures State() == old(State()).(written := old(written) + OutputFiles(id, o, project.paths))
    {
      if o.kind != "" {
        var (name, dir) := Location(id, o.kind, project.paths);
        WriteEntries(Entries(id, o), dir, name);
      }
    }

    /** The `forEach` over the entries of a memo entry. */
    method WriteEntries(es: seq<(string, Value)>, dir: string, name: string)
      modifies this
      ensures State() == old(State()).(written := old(written) + Files(dir, name, Writes(es)))
    {
      var i := 0;
      while i < |es|
        invariant 0 <= i <= |es|
        invariant State() == old(State()).(written := old(written) + Files(dir, name, Writes(es[..i])))
      {
        assert es[..i + 1][..i] == es[..i];
        var (key, data) := es[i];
        if IsTruthy(data) && IsWrittenKey(key) {
          FilesSnoc(dir, name, Writes(es[..i]), [(Suffix(key), data)]);
          written := written + [FileWrite(FilePath(dir, name, Suffix(key)), data)];
        } else {
          assert EntryWrites(es[i]) == [];
        }
        i := i + 1;
      }
      assert es[..|es|] == es;
    }

    /** `gen(id)`, on the memo table held here. */
    method Gen(id: string, ghost rank: map<string, nat>) returns (err: Option<Error>)
      requires Ranked(project.modules, rank)
      modifies this
      ensures Outcome(State(), err) == GenOf(project, Real(project.paths), rank, old(State()), id)
      decreases RankOf(project.modules, rank, id), 1
    {
      if id !in project.modules {
        return Some(UnknownModule(id));
      }
      var deps := project.modules[id].depended;
      var i := 0;
      while i < |deps|
        invariant 0 <= i <= |deps|
        invariant GenEach(project, Real(project.paths), rank, State(), rank[id], deps[i..]) == GenEach(project, Real(project.paths), rank, old(State()), rank[id], deps)
      {
        assert deps[i..][0] == deps[i] && deps[i..][1..] == deps[i + 1..];
        err := Gen(deps[i], rank);
        if err.Some? {
          return;
        }
        i := i + 1;
      }
      assert deps[|deps|..] == [];
      if id in memo {
        return None;
      }
      var r := Traversal.Run(InputFor(project, memo, id));
      match r {
        case Failure(e) =>
          return Some(e);
        case Success(out) =>
          memo := memo[id := out];
          WriteOutput(id, out);
          order := order + [id];
          return None;
      }
    }
  }
}
