/** The module table and the reverse-reference index that `scan` builds from
    the bundler's module list. Every module but the bundler's helper module
    gets an entry holding its dependencies (the helper removed) and its code,
    a later module with the same id replacing an earlier one; and for each
    dependency `r` of a module `m`, `referenced[r]` gets the path from `r`
    to `m` appended, in bundle order. The bundling itself is not modelled:
    its module list is the input. */
module Scanning {
  import opened Wrappers
  import opened Paths
  import opened Ast

  /** The id of the helper module the Babel plugin injects into the bundle. */
  const HelperId: string := "rollupPluginBabelHelpers"

  /** One module of the bundle, as the bundler lists it. */
  datatype BundleModule = BundleModule(id: string, dependencies: seq<string>, code: Module)

  /** What the table keeps of a module. */
  datatype ModuleEntry = ModuleEntry(depended: seq<string>, code: Module)

  /** The module table, the reverse-reference index and the main module. */
  datatype Scanned = Scanned(modules: map<string, ModuleEntry>, referenced: map<string, seq<string>>, main: string)

  /** The dependencies without the helper module, in their order. */
  function WithoutHelper(deps: seq<string>): (r: seq<string>)
    ensures forall d :: d in r <==> d in deps && d != HelperId
    ensures |r| <= |deps|
    decreases |deps|
  {
    if |deps| == 0 then []
    else
      var last := deps[|deps| - 1];
      WithoutHelper(deps[..|deps| - 1]) + (if last == HelperId then [] else [last])
  }

  /** The index after the references from module `id` to each of `refIds`. */
  function AddReferences(referenced: map<string, seq<string>>, refIds: seq<string>, id: string, cwd: string): map<string, seq<string>>
    decreases |refIds|
  {
    if |refIds| == 0 then referenced
    else
      var prev := AddReferences(referenced, refIds[..|refIds| - 1], id, cwd);
      var r := refIds[|refIds| - 1];
      if r == HelperId then prev
      else prev[r := (if r in prev then prev[r] else []) + [Relative(cwd, r, id)]]
  }

  /** The module table after the given bundle modules. */
  function ScanModules(bundle: seq<BundleModule>): map<string, ModuleEntry>
    decreases |bundle|
  {
    if |bundle| == 0 then map[]
    else
      var prev := ScanModules(bundle[..|bundle| - 1]);
      var m := bundle[|bundle| - 1];
      if m.id == HelperId then prev else prev[m.id := ModuleEntry(WithoutHelper(m.dependencies), m.code)]
  }

  /** The reverse-reference index after the given bundle modules. */
  function ScanReferenced(bundle: seq<BundleModule>, cwd: string): map<string, seq<string>>
    decreases |bundle|
  {
    if |bundle| == 0 then map[]
    else
      var prev := ScanReferenced(bundle[..|bundle| - 1], cwd);
      var m := bundle[|bundle| - 1];
      if m.id == HelperId then prev else AddReferences(prev, WithoutHelper(m.dependencies), m.id, cwd)
  }

  /** What `scan` returns; the main module is the bundle's last, and an
      empty bundle has none. */
  function ScanOf(bundle: seq<BundleModule>, cwd: string): Result<Scanned> {
    if |bundle| == 0 then Failure(EmptyBundle)
    else Success(Scanned(ScanModules(bundle), ScanReferenced(bundle, cwd), bundle[|bundle| - 1].id))
  }

  /** The `forEach` over one module's dependencies. */
  method AddRefs(referenced: map<string, seq<string>>, deps: seq<string>, id: string, cwd: string)
    returns (r: map<string, seq<string>>)
    ensures r == AddReferences(referenced, deps, id, cwd)
  {
    r := referenced;
    var j := 0;
    while j < |deps|
      invariant 0 <= j <= |deps|
      invariant r == AddReferences(referenced, deps[..j], id, cwd)
    {
      assert deps[..j + 1][..j] == deps[..j];
      var refId := deps[j];
      if refId != HelperId {
        var prev := if refId in r then r[refId] else [];
        r := r[refId := prev + [Relative(cwd, refId, id)]];
      }
      j := j + 1;
    }
    assert deps[..|deps|] == deps;
  }

  /** The `forEach` over the bundle's modules. */
  method Scan(bundle: seq<BundleModule>, cwd: string) returns (r: Result<Scanned>)
    ensures r == ScanOf(bundle, cwd)
  {
    var modules: map<string, ModuleEntry> := map[];
    var referenced: map<string, seq<string>> := map[];
    var i := 0;
    while i < |bundle|
      invariant 0 <= i <= |bundle|
      invariant modules == ScanModules(bundle[..i])
      invariant referenced == ScanReferenced(bundle[..i], cwd)
    {
      var m := bundle[i];
      assert bundle[..i + 1][..i] == bundle[..i];
      if m.id != HelperId {
        var deps := WithoutHelper(m.dependencies);
        referenced := AddRefs(referenced, deps, m.id, cwd);
        modules := modules[m.id := ModuleEntry(deps, m.code)];
      }
      i := i + 1;
    }
    assert bundle[..|bundle|] == bundle;
    if |bundle| == 0 {
      return Failure(EmptyBundle);
    }
    return Success(Scanned(modules, referenced, bundle[|bundle| - 1].id));
  }

  // ---------------------------------------------------------------------
  // Properties
  // ---------------------------------------------------------------------

  /** Some bundle module has the id. */
  predicate Listed(bundle: seq<BundleModule>, k: string) {
    exists i :: 0 <= i < |bundle| && bundle[i].id == k
  }

  /** Module `m` is not the helper, depends on `r`, and `x` is the path
      from `r` to it. */
  predicate RefersAt(m: BundleModule, r: string, x: string, cwd: string) {
    m.id != HelperId && r in m.dependencies && x == Relative(cwd, r, m.id)
  }

  /** Some bundle module refers to `r` by the path `x`. */
  predicate RefersFrom(bundle: seq<BundleModule>, r: string, x: string, cwd: string) {
    exists i :: 0 <= i < |bundle| && RefersAt(bundle[i], r, x, cwd)
  }

  /** A module id has an entry exactly when some bundle module other than
      the helper has it. */
  lemma {:induction false} ScanModulesDomain(bundle: seq<BundleModule>)
    ensures forall k :: k in ScanModules(bundle) <==> k != HelperId && Listed(bundle, k)
    decreases |bundle|
  {
    if |bundle| > 0 {
      var init := bundle[..|bundle| - 1];
      ScanModulesDomain(init);
      forall k ensures Listed(bundle, k) <==> Listed(init, k) || bundle[|bundle| - 1].id == k {
        if Listed(bundle, k) {
          var i :| 0 <= i < |bundle| && bundle[i].id == k;
          if i < |init| {
            assert init[i].id == k;
          }
        }
        if Listed(init, k) {
          var i :| 0 <= i < |init| && init[i].id == k;
          assert bundle[i].id == k;
        }
      }
    }
  }

  /** The entry of a module is the one made from the last bundle module with
      its id: its dependencies without the helper, and its code. */
  lemma {:induction false} ScanModulesLast(bundle: seq<BundleModule>, i: nat)
    requires i < |bundle| && bundle[i].id != HelperId
    requires forall j :: i < j < |bundle| ==> bundle[j].id != bundle[i].id
    ensures bundle[i].id in ScanModules(bundle)
    ensures ScanModules(bundle)[bundle[i].id] == ModuleEntry(WithoutHelper(bundle[i].dependencies), bundle[i].code)
    decreases |bundle|
  {
    if i < |bundle| - 1 {
      var init := bundle[..|bundle| - 1];
      assert init[i] == bundle[i];
      ScanModulesLast(init, i);
    }
  }

  /** The helper module never appears in the table, as a module or as a
      dependency. */
  lemma {:induction false} ScanModulesNoHelper(bundle: seq<BundleModule>)
    ensures HelperId !in ScanModules(bundle)
    ensures forall k :: k in ScanModules(bundle) ==> HelperId !in ScanModules(bundle)[k].depended
    decreases |bundle|
  {
    if |bundle| > 0 {
      ScanModulesNoHelper(bundle[..|bundle| - 1]);
    }
  }

  /** `referenced[r]`, or no paths when `r` has no entry. */
  function RefsOf(referenced: map<string, seq<string>>, r: string): seq<string> {
    if r in referenced then referenced[r] else []
  }

  /** How often `x` is listed in `xs`. */
  function Count(xs: seq<string>, x: string): nat
    decreases |xs|
  {
    if |xs| == 0 then 0 else Count(xs[..|xs| - 1], x) + (if xs[|xs| - 1] == x then 1 else 0)
  }

  function Repeat(x: string, n: nat): (r: seq<string>)
    ensures |r| == n && forall i :: 0 <= i < n ==> r[i] == x
  {
    seq(n, _ => x)
  }

  lemma {:induction false} CountWithoutHelper(deps: seq<string>, r: string)
    requires r != HelperId
    ensures Count(WithoutHelper(deps), r) == Count(deps, r)
    decreases |deps|
  {
    if |deps| > 0 {
      var init := deps[..|deps| - 1];
      var last := deps[|deps| - 1];
      CountWithoutHelper(init, r);
      var w := WithoutHelper(init);
      var tail := if last == HelperId then [] else [last];
      assert WithoutHelper(deps) == w + tail;
      if last == HelperId {
        assert w + tail == w;
      } else {
        assert (w + tail)[..|w + tail| - 1] == w;
      }
    }
  }

  /** One more dependency appends at most one path, under its own key. */
  lemma AddReferencesStep(referenced: map<string, seq<string>>, refIds: seq<string>, id: string, cwd: string, r: string)
    requires |refIds| > 0
    ensures RefsOf(AddReferences(referenced, refIds, id, cwd), r) ==
      RefsOf(AddReferences(referenced, refIds[..|refIds| - 1], id, cwd), r) +
      (if refIds[|refIds| - 1] == r && r != HelperId then [Relative(cwd, r, id)] else [])
  {
    var prev := AddReferences(referenced, refIds[..|refIds| - 1], id, cwd);
    var k := refIds[|refIds| - 1];
    if k == HelperId {
      assert AddReferences(referenced, refIds, id, cwd) == prev;
    } else {
      assert AddReferences(referenced, refIds, id, cwd) == prev[k := RefsOf(prev, k) + [Relative(cwd, k, id)]];
    }
  }

  lemma {:induction false} AddReferencesOrder(referenced: map<string, seq<string>>, refIds: seq<string>, id: string, cwd: string, r: string)
    ensures RefsOf(AddReferences(referenced, refIds, id, cwd), r) ==
      RefsOf(referenced, r) + (if r == HelperId then [] else Repeat(Relative(cwd, r, id), Count(refIds, r)))
    decreases |refIds|
  {
    if |refIds| > 0 {
      var n := |refIds| - 1;
      var init := refIds[..n];
      var x := Relative(cwd, r, id);
      var c := Count(init, r);
      var step := if refIds[n] == r && r != HelperId then [x] else [];
      var rest := if r == HelperId then [] else Repeat(x, c);
      calc {
        RefsOf(AddReferences(referenced, refIds, id, cwd), r);
      == { AddReferencesStep(referenced, refIds, id, cwd, r); }
        RefsOf(AddReferences(referenced, init, id, cwd), r) + step;
      == { AddReferencesOrder(referenced, init, id, cwd, r); }
        RefsOf(referenced, r) + rest + step;
      == { assert rest + step == (if r == HelperId then [] else Repeat(x, Count(refIds, r))); }
        RefsOf(referenced, r) + (if r == HelperId then [] else Repeat(x, Count(refIds, r)));
      }
    }
  }

  /** The references from one module add exactly its path from each of its
      dependencies but the helper, and keep what was there: `referenced[r]`
      keeps its paths and gets the path to the module appended once for
      each time `r` is listed. */
  lemma {:induction false} AddReferencesExact(referenced: map<string, seq<string>>, refIds: seq<string>, id: string, cwd: string)
    ensures forall r :: r in AddReferences(referenced, refIds, id, cwd) <==>
      r in referenced || (r in refIds && r != HelperId)
    ensures forall r, x :: r in AddReferences(referenced, refIds, id, cwd) && x in AddReferences(referenced, refIds, id, cwd)[r] <==>
      (r in referenced && x in referenced[r]) || (r in refIds && r != HelperId && x == Relative(cwd, r, id))
    ensures forall r ::
      RefsOf(AddReferences(referenced, refIds, id, cwd), r) ==
      RefsOf(referenced, r) + (if r == HelperId then [] else Repeat(Relative(cwd, r, id), Count(refIds, r)))
    decreases |refIds|
  {
    forall r
      ensures RefsOf(AddReferences(referenced, refIds, id, cwd), r) ==
        RefsOf(referenced, r) + (if r == HelperId then [] else Repeat(Relative(cwd, r, id), Count(refIds, r)))
    {
      AddReferencesOrder(referenced, refIds, id, cwd, r);
    }
    if |refIds| > 0 {
      var init := refIds[..|refIds| - 1];
      AddReferencesExact(referenced, init, id, cwd);
      assert refIds == init + [refIds[|refIds| - 1]];
    }
  }

  /** A reference from the bundle comes from its prefix or its last module. */
  lemma {:induction false} RefersFromSplit(bundle: seq<BundleModule>, r: string, x: string, cwd: string)
    requires |bundle| > 0 && RefersFrom(bundle, r, x, cwd)
    ensures RefersFrom(bundle[..|bundle| - 1], r, x, cwd) || RefersAt(bundle[|bundle| - 1], r, x, cwd)
  {
    var init := bundle[..|bundle| - 1];
    var i :| 0 <= i < |bundle| && RefersAt(bundle[i], r, x, cwd);
    if i < |init| {
      assert init[i] == bundle[i];
      assert RefersAt(init[i], r, x, cwd);
    } else {
      assert i == |bundle| - 1;
    }
  }

  /** A reference from a prefix of the bundle is one from the bundle. */
  lemma {:induction false} RefersFromInit(bundle: seq<BundleModule>, r: string, x: string, cwd: string)
    requires |bundle| > 0 && RefersFrom(bundle[..|bundle| - 1], r, x, cwd)
    ensures RefersFrom(bundle, r, x, cwd)
  {
    var init := bundle[..|bundle| - 1];
    var i :| 0 <= i < |init| && RefersAt(init[i], r, x, cwd);
    assert bundle[i] == init[i];
  }

  /** A reference from the last module is one from the bundle. */
  lemma {:induction false} RefersFromLast(bundle: seq<BundleModule>, r: string, x: string, cwd: string)
    requires |bundle| > 0 && RefersAt(bundle[|bundle| - 1], r, x, cwd)
    ensures RefersFrom(bundle, r, x, cwd)
  {
    var i := |bundle| - 1;
    assert 0 <= i < |bundle| && RefersAt(bundle[i], r, x, cwd);
  }

  lemma {:induction false} RefersFromSnoc(bundle: seq<BundleModule>, cwd: string)
    requires |bundle| > 0
    ensures forall r, x :: RefersFrom(bundle, r, x, cwd) <==>
      RefersFrom(bundle[..|bundle| - 1], r, x, cwd) || RefersAt(bundle[|bundle| - 1], r, x, cwd)
  {
    forall r, x
      ensures RefersFrom(bundle, r, x, cwd) <==>
        RefersFrom(bundle[..|bundle| - 1], r, x, cwd) || RefersAt(bundle[|bundle| - 1], r, x, cwd)
    {
      if RefersFrom(bundle, r, x, cwd) {
        RefersFromSplit(bundle, r, x, cwd);
      }
      if RefersFrom(bundle[..|bundle| - 1], r, x, cwd) {
        RefersFromInit(bundle, r, x, cwd);
      }
      if RefersAt(bundle[|bundle| - 1], r, x, cwd) {
        RefersFromLast(bundle, r, x, cwd);
      }
    }
  }

  /** The paths `referenced[r]` collects, in bundle order: for each module
      other than the helper, the path from `r` to it once for each time it
      lists `r` among its dependencies. */
  function ReferencesTo(bundle: seq<BundleModule>, r: string, cwd: string): seq<string>
    decreases |bundle|
  {
    if |bundle| == 0 then []
    else
      var m := bundle[|bundle| - 1];
      ReferencesTo(bundle[..|bundle| - 1], r, cwd) +
        (if m.id == HelperId || r == HelperId then [] else Repeat(Relative(cwd, r, m.id), Count(m.dependencies, r)))
  }

  lemma {:induction false} ScanReferencedOrder(bundle: seq<BundleModule>, cwd: string, r: string)
    ensures RefsOf(ScanReferenced(bundle, cwd), r) == ReferencesTo(bundle, r, cwd)
    decreases |bundle|
  {
    if |bundle| > 0 {
      var init := bundle[..|bundle| - 1];
      var m := bundle[|bundle| - 1];
      ScanReferencedOrder(init, cwd, r);
      if m.id != HelperId {
        AddReferencesOrder(ScanReferenced(init, cwd), WithoutHelper(m.dependencies), m.id, cwd, r);
        if r != HelperId {
          CountWithoutHelper(m.dependencies, r);
        }
      }
    }
  }

  /** `referenced[r]` holds exactly the paths from `r` to the bundle modules
      other than the helper that depend on it, in bundle order and once per
      listing. */
  lemma {:induction false} ScanReferencedExact(bundle: seq<BundleModule>, cwd: string)
    ensures forall r, x :: r in ScanReferenced(bundle, cwd) && x in ScanReferenced(bundle, cwd)[r] <==>
      r != HelperId && RefersFrom(bundle, r, x, cwd)
    ensures forall r :: RefsOf(ScanReferenced(bundle, cwd), r) == ReferencesTo(bundle, r, cwd)
    decreases |bundle|
  {
    forall r ensures RefsOf(ScanReferenced(bundle, cwd), r) == ReferencesTo(bundle, r, cwd) {
      ScanReferencedOrder(bundle, cwd, r);
    }
    if |bundle| > 0 {
      var init := bundle[..|bundle| - 1];
      var m := bundle[|bundle| - 1];
      ScanReferencedExact(init, cwd);
      if m.id != HelperId {
        AddReferencesExact(ScanReferenced(init, cwd), WithoutHelper(m.dependencies), m.id, cwd);
      }
      RefersFromSnoc(bundle, cwd);
    }
  }
}
