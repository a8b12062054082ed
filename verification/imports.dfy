/**
 * Collecting the top-level module names a script imports. The parser and
 * its tree walk are outside the model: a script is the sequence of nodes
 * the walk visits, and only the two import statement kinds matter.
 */
module Imports {
  import opened Wrappers
  import opened Text
  import opened Sequences

  /**
   * A node of the walked syntax tree: `import a.b, c` lists its module
   * names; `from a.b import c` has a module, or none for `from . import c`;
   * every other node contributes nothing.
   */
  datatype ImportNode =
    | Import(names: seq<string>)
    | ImportFrom(moduleName: Option<string>)
    | OtherNode

  /** `name.split('.')[0]`: the package an import names. */
  function TopLevel(name: string): (r: string)
    ensures '.' !in r
    ensures r <= name
    ensures '.' !in name ==> r == name
    ensures '.' in name ==> |r| < |name| && name[|r|] == '.'
  {
    Before(name, '.')
  }

  /** The names one node adds to the set, in the order the loop adds them. */
  function NodeNames(node: ImportNode): seq<string>
  {
    match node
    case Import(names) => seq(|names|, i requires 0 <= i < |names| => TopLevel(names[i]))
    case ImportFrom(Some(m)) => if m != "" then [TopLevel(m)] else []
    case _ => []
  }

  /**
   * The names added to `imports`, in walk order and with repetitions; each
   * is a top-level package name, so none has a dot.
   */
  function FoundNames(nodes: seq<ImportNode>): (r: seq<string>)
    ensures forall i :: 0 <= i < |r| ==> '.' !in r[i]
  {
    if nodes == [] then []
    else
      var head, rest := NodeNames(nodes[0]), FoundNames(nodes[1..]);
      assert forall i :: 0 <= i < |head| ==> '.' !in head[i];
      head + rest
  }

  /** `node` makes the loop add `x` to the set. */
  ghost predicate Contributes(node: ImportNode, x: string)
  {
    match node
    case Import(names) => exists n :: n in names && TopLevel(n) == x
    case ImportFrom(Some(m)) => m != "" && TopLevel(m) == x
    case _ => false
  }

  /** The names one node adds are exactly the names it contributes. */
  lemma NodeNamesExactly(node: ImportNode, x: string)
    ensures x in NodeNames(node) <==> Contributes(node, x)
  {
    if node.Import? {
      var names := node.names;
      if x in NodeNames(node) {
        var i :| 0 <= i < |names| && NodeNames(node)[i] == x;
        assert names[i] in names && TopLevel(names[i]) == x;
      }
      if Contributes(node, x) {
        var n :| n in names && TopLevel(n) == x;
        var i :| 0 <= i < |names| && names[i] == n;
        assert NodeNames(node)[i] == x;
      }
    }
  }

  /**
   * A name is collected exactly when some visited node imports a module of
   * that top-level package; no collected name has a dot.
   */
  lemma {:induction false} FoundNamesExactly(nodes: seq<ImportNode>, x: string)
    ensures x in FoundNames(nodes) <==> exists k :: 0 <= k < |nodes| && Contributes(nodes[k], x)
    ensures x in FoundNames(nodes) ==> '.' !in x
  {
    if nodes != [] {
      FoundNamesExactly(nodes[1..], x);
      NodeNamesExactly(nodes[0], x);
      if exists k :: 0 <= k < |nodes| && Contributes(nodes[k], x) {
        var k :| 0 <= k < |nodes| && Contributes(nodes[k], x);
        if k > 0 {
          assert nodes[1..][k - 1] == nodes[k];
        }
      }
      if exists k :: 0 <= k < |nodes[1..]| && Contributes(nodes[1..][k], x) {
        var k :| 0 <= k < |nodes[1..]| && Contributes(nodes[1..][k], x);
        assert nodes[k + 1] == nodes[1..][k];
      }
    }
  }

  // ---------------------------------------------------------------------------
  // Python's ordering of `str` values: code point by code point, a proper
  // prefix first.
  // ---------------------------------------------------------------------------

  predicate Less(a: string, b: string)
  {
    |b| > 0 && (|a| == 0 || a[0] < b[0] || (a[0] == b[0] && Less(a[1..], b[1..])))
  }

  lemma {:induction false} LessIrreflexive(a: string)
    ensures !Less(a, a)
  {
    if |a| > 0 {
      LessIrreflexive(a[1..]);
    }
  }

  lemma {:induction false} LessTransitive(a: string, b: string, c: string)
    requires Less(a, b) && Less(b, c)
    ensures Less(a, c)
  {
    if |a| > 0 && a[0] == b[0] && b[0] == c[0] {
      LessTransitive(a[1..], b[1..], c[1..]);
    }
  }

  lemma {:induction false} LessTotal(a: string, b: string)
    ensures a == b || Less(a, b) || Less(b, a)
  {
    if |a| > 0 && |b| > 0 && a[0] == b[0] {
      LessTotal(a[1..], b[1..]);
      if a[1..] == b[1..] {
        assert a == [a[0]] + a[1..] && b == [b[0]] + b[1..];
      }
    }
  }

  function Elements(s: seq<string>): (r: set<string>)
    ensures forall y :: y in r <==> y in s
  {
    set y | y in s
  }

  lemma ElementsEmpty(s: seq<string>)
    ensures Elements(s) == {} <==> s == []
  {
    if s != [] {
      assert s[0] in Elements(s);
    }
  }

  /** Sorted in increasing order, hence free of duplicates. */
  predicate StrictlySorted(s: seq<string>)
  {
    forall i, j :: 0 <= i < j < |s| ==> Less(s[i], s[j])
  }

  /** Puts `x` into its place in a strictly sorted list unless it is there already. */
  function InsertUnique(x: string, s: seq<string>): (r: seq<string>)
    requires StrictlySorted(s)
    ensures StrictlySorted(r)
    ensures Elements(r) == Elements(s) + {x}
    decreases |s|
  {
    if s == [] then [x]
    else if x == s[0] then s
    else if Less(x, s[0]) then
      assert forall j :: 0 <= j < |s| ==> Less(x, s[j]) by {
        forall j | 0 <= j < |s| ensures Less(x, s[j]) {
          if j > 0 { LessTransitive(x, s[0], s[j]); }
        }
      }
      [x] + s
    else
      LessTotal(x, s[0]);
      var rest := InsertUnique(x, s[1..]);
      assert forall y :: y in rest ==> Less(s[0], y) by {
        forall y | y in rest ensures Less(s[0], y) {
          assert y in s[1..] || y == x;
        }
      }
      [s[0]] + rest
  }

  /** `sorted(set(names))`, built by inserting the names one at a time. */
  function SortedUnique(names: seq<string>): (r: seq<string>)
    ensures StrictlySorted(r)
    ensures Elements(r) == Elements(names)
  {
    if names == [] then []
    else
      var r := InsertUnique(names[|names| - 1], SortedUnique(names[..|names| - 1]));
      assert names == names[..|names| - 1] + [names[|names| - 1]];
      r
  }

  /** A strictly sorted list is determined by its elements: `sorted` of a set has one answer. */
  lemma {:induction false} StrictlySortedUnique(a: seq<string>, b: seq<string>)
    requires StrictlySorted(a) && StrictlySorted(b)
    requires Elements(a) == Elements(b)
    ensures a == b
  {
    ElementsEmpty(a);
    ElementsEmpty(b);
    if a != [] && b != [] {
      assert a[0] in b && b[0] in a;
      if a[0] != b[0] {
        var i :| 0 <= i < |b| && b[i] == a[0];
        var j :| 0 <= j < |a| && a[j] == b[0];
        LessIrreflexive(a[0]);
        LessIrreflexive(b[0]);
        assert Less(b[0], a[0]) && Less(a[0], b[0]);
        LessTransitive(a[0], b[0], a[0]);
      }
      forall y | y in a[1..] ensures y in b[1..] {
        LessIrreflexive(a[0]);
        assert y in b && y != b[0];
      }
      forall y | y in b[1..] ensures y in a[1..] {
        LessIrreflexive(b[0]);
        assert y in a && y != a[0];
      }
      StrictlySortedUnique(a[1..], b[1..]);
      assert a == [a[0]] + a[1..] && b == [b[0]] + b[1..];
    }
  }

  /**
   * The list `analyze_and_add_imports` puts in place of the hidden imports:
   * the collected names, sorted, each once.
   */
  function SortedImports(nodes: seq<ImportNode>): (r: seq<string>)
    ensures StrictlySorted(r) && NoDuplicates(r)
    ensures forall x :: x in r <==> x in FoundNames(nodes)
  {
    var r := SortedUnique(FoundNames(nodes));
    assert forall i, j :: 0 <= i < j < |r| ==> r[i] != r[j] by {
      forall i, j | 0 <= i < j < |r| ensures r[i] != r[j] {
        LessIrreflexive(r[i]);
      }
    }
    assert forall x :: x in r <==> x in Elements(r);
    r
  }

  /** Any sorted, duplicate-free listing of the collected names is this one. */
  lemma SortedImportsIsSortedSet(nodes: seq<ImportNode>, listing: seq<string>)
    requires StrictlySorted(listing)
    requires forall x :: x in listing <==> x in FoundNames(nodes)
    ensures listing == SortedImports(nodes)
  {
    var r := SortedImports(nodes);
    assert Elements(listing) == Elements(r);
    StrictlySortedUnique(listing, r);
  }

  // ---------------------------------------------------------------------------
  // The merge in `analyze_imports`
  // ---------------------------------------------------------------------------

  /**
   * `for imp in found: if imp not in hidden: hidden.append(imp)`, with
   * `found` in the order the loop visits the set.
   */
  function Merged(hidden: seq<string>, found: seq<string>): (r: seq<string>)
    ensures hidden <= r
    ensures forall x :: x in r <==> x in hidden || x in found
  {
    if found == [] then hidden
    else
      var before := Merged(hidden, found[..|found| - 1]);
      var imp := found[|found| - 1];
      assert found == found[..|found| - 1] + [imp];
      if imp in before then before else before + [imp]
  }

  /**
   * The merge keeps the old list as its prefix, appends only names that are
   * not there yet, ends up holding exactly the old names and the found
   * ones, and keeps a duplicate-free list duplicate-free.
   */
  lemma {:induction false} MergedProperties(hidden: seq<string>, found: seq<string>)
    ensures hidden <= Merged(hidden, found)
    ensures forall x :: x in Merged(hidden, found) <==> x in hidden || x in found
    ensures forall k :: |hidden| <= k < |Merged(hidden, found)| ==> Merged(hidden, found)[k] !in hidden
    ensures NoDuplicates(hidden) ==> NoDuplicates(Merged(hidden, found))
  {
    if found != [] {
      var init := found[..|found| - 1];
      MergedProperties(hidden, init);
      assert found == init + [found[|found| - 1]];
    }
  }
}
