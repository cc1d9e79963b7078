/** `subtree_digest`: resolving an `inputs` glob against a verified tree, by an O(depth) descent when
    the glob names one entry and by a walk of the node structure otherwise.

    Object ids are ideal: a directory's id is the list of its children's names, modes and ids. A
    digest is likewise the sequence it hashes. */
module Digest {
  import opened Wrappers
  import opened Orders
  import Segment

  const MODE_DIR: nat := 0x4000

  datatype ObjectId = Blob(content: seq<int>) | TreeOf(labels: seq<Label>)
  datatype Label = Label(name: string, mode: nat, id: ObjectId)

  datatype Entry = Entry(name: string, mode: nat, id: ObjectId, dir: Option<Dir>)
  datatype Dir = Dir(id: ObjectId, entries: seq<Entry>)

  function EntryName(e: Entry): string { e.name }

  function Labels(es: seq<Entry>): seq<Label> {
    if es == [] then [] else [Label(es[0].name, es[0].mode, es[0].id)] + Labels(es[1..])
  }

  predicate ValidName(n: string) { n != "" && '/' !in n }

  /** What the verifier's walk builds: addressed, sorted by name, and typed consistently. */
  ghost predicate WellFormed(d: Dir) {
    && d.id == TreeOf(Labels(d.entries))
    && Ascending(EntryName, TextLess, d.entries)
    && forall i | 0 <= i < |d.entries| :: WellFormedEntry(d.entries[i])
  }

  ghost predicate WellFormedEntry(e: Entry) {
    && ValidName(e.name)
    && (e.dir.Some? <==> e.mode == MODE_DIR)
    && (e.dir.Some? ==> e.id == e.dir.value.id && WellFormed(e.dir.value))
  }

  // ---- Descent ----

  function Find(es: seq<Entry>, name: string): (r: Option<Entry>)
    ensures r.Some? ==> r.value in es && r.value.name == name
    ensures r.None? ==> forall i | 0 <= i < |es| :: es[i].name != name
  {
    if es == [] then None else if es[0].name == name then Some(es[0]) else Find(es[1..], name)
  }

  function Child(d: Dir, name: string): Option<Entry> { Find(d.entries, name) }

  function Descend(root: Dir, path: seq<string>): Option<Entry> {
    if path == [] then None
    else
      var e := Child(root, path[0]);
      if |path| == 1 || e.None? then e
      else if e.value.dir.None? then None
      else Descend(e.value.dir.value, path[1..])
  }

  method DescendTo(root: Dir, path: seq<string>) returns (r: Option<Entry>)
    ensures r == Descend(root, path)
  {
    if path == [] { return None; }
    var dir := root;
    for i := 0 to |path| - 1
      invariant Descend(root, path) == Descend(dir, path[i..])
    {
      assert path[i..][1..] == path[i + 1..];
      var e := Child(dir, path[i]);
      if e.None? || e.value.dir.None? { return None; }
      dir := e.value.dir.value;
    }
    r := Child(dir, path[|path| - 1]);
  }

  lemma ChildIs(d: Dir, e: Entry)
    requires WellFormed(d) && e in d.entries
    ensures Child(d, e.name) == Some(e) && WellFormedEntry(e)
  {
    TextOrder();
    var i :| 0 <= i < |d.entries| && d.entries[i] == e;
    var f := Child(d, e.name);
    var j :| 0 <= j < |d.entries| && d.entries[j] == f.value;
    assert EntryName(d.entries[i]) == EntryName(d.entries[j]);
  }

  lemma ChildWellFormed(d: Dir, name: string)
    requires WellFormed(d) && Child(d, name).Some?
    ensures WellFormedEntry(Child(d, name).value) && Child(d, name).value.name == name
  {
  }

  /** The directory at `path`, the root being at the empty path. */
  function DirAt(root: Dir, path: seq<string>): Option<Dir> {
    if path == [] then Some(root)
    else var e := Descend(root, path); if e.Some? then e.value.dir else None
  }

  lemma {:induction false} DescendWellFormed(root: Dir, path: seq<string>)
    requires WellFormed(root) && Descend(root, path).Some?
    ensures var e := Descend(root, path).value; WellFormedEntry(e) && e.name == path[|path| - 1]
    ensures forall i | 0 <= i < |path| :: ValidName(path[i])
  {
    ChildWellFormed(root, path[0]);
    if |path| > 1 {
      DescendWellFormed(Child(root, path[0]).value.dir.value, path[1..]);
      assert forall i | 0 <= i < |path| :: i > 0 ==> path[i] == path[1..][i - 1];
    }
  }

  // ---- The walk ----

  datatype Matched = Matched(path: string, mode: nat, id: ObjectId)

  function Join(p: seq<string>): string {
    if p == [] then "" else if |p| == 1 then p[0] else p[0] + "/" + Join(p[1..])
  }

  function Collect(pat: seq<string>, d: Dir, prefix: seq<string>): seq<Matched>
    decreases d, |pat|
  {
    if pat == [] then []
    else if pat[0] == "**" then
      if |pat| == 1 then (if d.entries == [] then [] else [Matched(Join(prefix), MODE_DIR, d.id)])
      else Collect(pat[1..], d, prefix) + CollectAll(pat, d.entries, prefix)
    else CollectAll(pat, d.entries, prefix)
  }

  function CollectAll(pat: seq<string>, es: seq<Entry>, prefix: seq<string>): seq<Matched>
    requires pat != []
    decreases es, 0
  {
    if es == [] then [] else CollectEntry(pat, es[0], prefix) + CollectAll(pat, es[1..], prefix)
  }

  function CollectEntry(pat: seq<string>, e: Entry, prefix: seq<string>): seq<Matched>
    requires pat != []
    decreases e, 0
  {
    var here := prefix + [e.name];
    if pat[0] == "**" then
      (if e.dir.Some? then Collect(pat, e.dir.value, here) else [])
    else if !Segment.Accepts(pat[0], e.name) then []
    else if |pat| == 1 then [Matched(Join(here), e.mode, e.id)]
    else if e.dir.Some? then Collect(pat[1..], e.dir.value, here)
    else []
  }

  /** The recursive walk as the code runs it: pushing onto one output list. */
  method Walk(pat: seq<string>, d: Dir, prefix: seq<string>, found: seq<Matched>) returns (out: seq<Matched>)
    ensures out == found + Collect(pat, d, prefix)
    decreases d, |pat|
  {
    out := found;
    if pat == [] { return; }
    if pat[0] == "**" {
      if |pat| == 1 {
        if d.entries != [] { out := out + [Matched(Join(prefix), MODE_DIR, d.id)]; }
        return;
      }
      out := Walk(pat[1..], d, prefix, out);
    }
    out := WalkEntries(pat, d, prefix, out);
  }

  method WalkEntries(pat: seq<string>, d: Dir, prefix: seq<string>, found: seq<Matched>) returns (out: seq<Matched>)
    requires pat != []
    ensures out == found + CollectAll(pat, d.entries, prefix)
    decreases d, 0
  {
    out := found;
    assert d.entries[0..] == d.entries;
    for i := 0 to |d.entries|
      invariant out + CollectAll(pat, d.entries[i..], prefix) == found + CollectAll(pat, d.entries, prefix)
    {
      assert d.entries[i..][0] == d.entries[i] && d.entries[i..][1..] == d.entries[i + 1..];
      out := WalkEntry(pat, d.entries[i], prefix, out);
    }
    assert d.entries[|d.entries|..] == [];
  }

  method WalkEntry(pat: seq<string>, e: Entry, prefix: seq<string>, found: seq<Matched>) returns (out: seq<Matched>)
    requires pat != []
    ensures out == found + CollectEntry(pat, e, prefix)
    decreases e, 0
  {
    out := found;
    if pat[0] == "**" {
      if e.dir.Some? { out := Walk(pat, e.dir.value, prefix + [e.name], out); }
    } else {
      var ok := Segment.SegmentMatches(pat[0], e.name);
      if ok {
        if |pat| == 1 {
          out := out + [Matched(Join(prefix + [e.name]), e.mode, e.id)];
        } else if e.dir.Some? {
          out := Walk(pat[1..], e.dir.value, prefix + [e.name], out);
        }
      }
    }
  }

  // ---- What a pattern selects, declaratively ----

  /** `**` stands for any run of whole segments; every other segment for one name it accepts. */
  ghost predicate Glob(pat: seq<string>, path: seq<string>)
    decreases |pat|
  {
    if pat == [] then path == []
    else if pat[0] == "**" then exists k :: 0 <= k <= |path| && Glob(pat[1..], path[k..])
    else path != [] && Segment.Accepts(pat[0], path[0]) && Glob(pat[1..], path[1..])
  }

  predicate IsDirWithEntries(d: Option<Dir>) { d.Some? && d.value.entries != [] }

  /** A trailing `**` selects each non-empty directory the rest of the pattern names; any other
      pattern selects the entries it names. */
  ghost predicate Selects(pat: seq<string>, root: Dir, path: seq<string>) {
    if pat != [] && pat[|pat| - 1] == "**" then
      Glob(pat[..|pat| - 1], path) && IsDirWithEntries(DirAt(root, path))
    else Glob(pat, path) && Descend(root, path).Some?
  }

  /** The `(path, mode, id)` triple recorded for a resolved path. */
  ghost predicate Hit(root: Dir, prefix: seq<string>, path: seq<string>, m: Matched) {
    if path == [] then m == Matched(Join(prefix), MODE_DIR, root.id)
    else
      var e := Descend(root, path);
      e.Some? && m == Matched(Join(prefix + path), e.value.mode, e.value.id)
  }

  /** One step of the walk, path by path: the recursive reading of `Selects`. */
  ghost predicate Reaches(pat: seq<string>, d: Dir, path: seq<string>)
    decreases |path| + |pat|
  {
    if pat == [] then false
    else if pat[0] == "**" then
      if |pat| == 1 then path == [] && d.entries != []
      else Reaches(pat[1..], d, path) ||
           (path != [] && DirAt(d, path[..1]).Some? && Reaches(pat, DirAt(d, path[..1]).value, path[1..]))
    else
      && path != [] && Segment.Accepts(pat[0], path[0])
      && if |pat| == 1 then |path| == 1 && Child(d, path[0]).Some?
         else DirAt(d, path[..1]).Some? && Reaches(pat[1..], DirAt(d, path[..1]).value, path[1..])
  }

  lemma GlobstarUnfolds(pat: seq<string>, path: seq<string>)
    requires pat != [] && pat[0] == "**"
    ensures Glob(pat, path) <==> Glob(pat[1..], path) || (path != [] && Glob(pat, path[1..]))
  {
    assert path[0..] == path;
    if Glob(pat, path) && !Glob(pat[1..], path) {
      var k :| 0 <= k <= |path| && Glob(pat[1..], path[k..]);
      assert path[1..][k - 1..] == path[k..];
    }
    if path != [] && Glob(pat, path[1..]) {
      var k :| 0 <= k <= |path| - 1 && Glob(pat[1..], path[1..][k..]);
      assert path[1..][k..] == path[k + 1..];
    }
  }

  lemma {:induction false} NamedLastIsNonEmpty(pat: seq<string>, path: seq<string>)
    requires pat != [] && pat[|pat| - 1] != "**" && Glob(pat, path)
    ensures path != []
    decreases |pat|
  {
    if pat[0] == "**" {
      var k :| 0 <= k <= |path| && Glob(pat[1..], path[k..]);
      NamedLastIsNonEmpty(pat[1..], path[k..]);
    }
  }

  lemma DescendStep(d: Dir, path: seq<string>)
    requires path != []
    ensures var sub := DirAt(d, path[..1]);
      && (|path| > 1 ==> Descend(d, path) == if sub.Some? then Descend(sub.value, path[1..]) else None)
      && DirAt(d, path) == if sub.Some? then DirAt(sub.value, path[1..]) else None
  {
    assert path[..1][0] == path[0];
    if |path| == 1 { assert path[..1] == path; }
  }

  lemma {:induction false} ReachesIsSelects(pat: seq<string>, d: Dir, path: seq<string>)
    ensures Reaches(pat, d, path) <==> Selects(pat, d, path)
    decreases |path| + |pat|
  {
    if path != [] { DescendStep(d, path); }
    if pat == [] {
    } else if pat == ["**"] {
      assert pat[..0] == [];
    } else if pat[0] == "**" {
      var init := pat[..|pat| - 1];
      assert init[1..] == pat[1..][..|pat| - 2];
      ReachesIsSelects(pat[1..], d, path);
      GlobstarUnfolds(pat, path);
      GlobstarUnfolds(init, path);
      if path != [] && DirAt(d, path[..1]).Some? { ReachesIsSelects(pat, DirAt(d, path[..1]).value, path[1..]); }
      if path != [] && pat[|pat| - 1] != "**" && Glob(pat, path[1..]) { NamedLastIsNonEmpty(pat, path[1..]); }
    } else if |pat| == 1 {
      if path != [] { assert Glob(pat[1..], path[1..]) <==> path[1..] == []; }
    } else {
      var init := pat[..|pat| - 1];
      assert init[1..] == pat[1..][..|pat| - 2];
      if path != [] && DirAt(d, path[..1]).Some? { ReachesIsSelects(pat[1..], DirAt(d, path[..1]).value, path[1..]); }
      if path != [] && pat[|pat| - 1] != "**" && Glob(pat[1..], path[1..]) { NamedLastIsNonEmpty(pat[1..], path[1..]); }
    }
  }

  lemma {:induction false} CollectAllMembers(pat: seq<string>, es: seq<Entry>, prefix: seq<string>, m: Matched)
    requires pat != []
    ensures m in CollectAll(pat, es, prefix) <==> exists i :: 0 <= i < |es| && m in CollectEntry(pat, es[i], prefix)
  {
    if es != [] {
      CollectAllMembers(pat, es[1..], prefix, m);
      if m in CollectEntry(pat, es[0], prefix) {
      } else if m in CollectAll(pat, es[1..], prefix) {
        var i :| 0 <= i < |es| - 1 && m in CollectEntry(pat, es[1..][i], prefix);
        assert es[i + 1] == es[1..][i];
      }
      if i :| 0 <= i < |es| && m in CollectEntry(pat, es[i], prefix) {
        if i > 0 { assert es[1..][i - 1] == es[i]; }
      }
    }
  }

  /** Entering `name` turns a hit below it into a hit here. */
  lemma HitStep(d: Dir, prefix: seq<string>, path: seq<string>, m: Matched)
    requires WellFormed(d) && path != [] && DirAt(d, path[..1]).Some?
    ensures Hit(d, prefix, path, m) <==> Hit(DirAt(d, path[..1]).value, prefix + path[..1], path[1..], m)
    ensures WellFormed(DirAt(d, path[..1]).value)
  {
    assert path[..1] == [path[0]];
    ChildWellFormed(d, path[0]);
    DescendStep(d, path);
    assert prefix + path[..1] + path[1..] == prefix + path;
    if |path| == 1 { assert prefix + path == prefix + path[..1]; }
  }

  ghost predicate Found(pat: seq<string>, d: Dir, prefix: seq<string>, m: Matched) {
    exists path :: Reaches(pat, d, path) && Hit(d, prefix, path, m)
  }

  /** What one entry contributes: the hits reached through its name by a step of the pattern. */
  ghost predicate FoundVia(pat: seq<string>, d: Dir, e: Entry, prefix: seq<string>, m: Matched)
    requires pat != []
  {
    if pat[0] == "**" then e.dir.Some? && Found(pat, e.dir.value, prefix + [e.name], m)
    else
      && Segment.Accepts(pat[0], e.name)
      && if |pat| == 1 then Hit(d, prefix, [e.name], m)
         else e.dir.Some? && Found(pat[1..], e.dir.value, prefix + [e.name], m)
  }

  lemma FoundGoesThrough(pat: seq<string>, d: Dir, prefix: seq<string>, m: Matched, path: seq<string>) returns (i: nat)
    requires WellFormed(d) && pat != [] && (pat[0] == "**" ==> |pat| > 1 && !Reaches(pat[1..], d, path))
    requires Reaches(pat, d, path) && Hit(d, prefix, path, m)
    ensures i < |d.entries| && FoundVia(pat, d, d.entries[i], prefix, m)
  {
    assert path[..1] == [path[0]];
    var e := Child(d, path[0]).value;
    i :| 0 <= i < |d.entries| && d.entries[i] == e;
    if DirAt(d, path[..1]).Some? { HitStep(d, prefix, path, m); }
    if |path| == 1 { assert path == [e.name]; }
  }

  lemma ThroughIsFound(pat: seq<string>, d: Dir, prefix: seq<string>, m: Matched, i: nat)
    requires WellFormed(d) && pat != [] && (pat[0] == "**" ==> |pat| > 1)
    requires i < |d.entries| && FoundVia(pat, d, d.entries[i], prefix, m)
    ensures Found(pat, d, prefix, m)
  {
    var e := d.entries[i];
    ChildIs(d, e);
    if pat[0] != "**" && |pat| == 1 {
      assert Reaches(pat, d, [e.name]);
    } else {
      var rest := if pat[0] == "**" then pat else pat[1..];
      var sub :| Reaches(rest, e.dir.value, sub) && Hit(e.dir.value, prefix + [e.name], sub, m);
      var path := [e.name] + sub;
      assert path[..1] == [e.name] && path[1..] == sub;
      HitStep(d, prefix, path, m);
      assert Reaches(pat, d, path);
    }
  }

  lemma FoundThroughEntries(pat: seq<string>, d: Dir, prefix: seq<string>, m: Matched)
    requires WellFormed(d) && pat != [] && (pat[0] == "**" ==> |pat| > 1)
    ensures Found(pat, d, prefix, m) <==>
      || (pat[0] == "**" && Found(pat[1..], d, prefix, m))
      || exists i :: 0 <= i < |d.entries| && FoundVia(pat, d, d.entries[i], prefix, m)
  {
    if path :| Reaches(pat, d, path) && Hit(d, prefix, path, m) {
      if pat[0] == "**" && Reaches(pat[1..], d, path) {
        assert Found(pat[1..], d, prefix, m);
      } else {
        var i := FoundGoesThrough(pat, d, prefix, m, path);
      }
    }
    if pat[0] == "**" && Found(pat[1..], d, prefix, m) {
      var path :| Reaches(pat[1..], d, path) && Hit(d, prefix, path, m);
      assert Reaches(pat, d, path);
    }
    if i :| 0 <= i < |d.entries| && FoundVia(pat, d, d.entries[i], prefix, m) { ThroughIsFound(pat, d, prefix, m, i); }
  }

  lemma {:induction false} CollectIsFound(pat: seq<string>, d: Dir, prefix: seq<string>, m: Matched)
    requires WellFormed(d)
    ensures m in Collect(pat, d, prefix) <==> Found(pat, d, prefix, m)
    decreases d, |pat|
  {
    if pat == [] {
    } else if pat == ["**"] {
      assert d.entries != [] ==> Reaches(pat, d, []);
    } else {
      FoundThroughEntries(pat, d, prefix, m);
      CollectAllMembers(pat, d.entries, prefix, m);
      forall i | 0 <= i < |d.entries|
        ensures m in CollectEntry(pat, d.entries[i], prefix) <==> FoundVia(pat, d, d.entries[i], prefix, m)
      {
        var e := d.entries[i];
        ChildIs(d, e);
        if e.dir.Some? {
          var rest := if pat[0] == "**" then pat else pat[1..];
          CollectIsFound(rest, e.dir.value, prefix + [e.name], m);
        }
        assert Descend(d, [e.name]) == Some(e);
      }
      if pat[0] == "**" { CollectIsFound(pat[1..], d, prefix, m); }
    }
  }

  // ---- Sorted, de-duplicated selection ----

  function PathOf(m: Matched): string { m.path }

  function Selection(pat: seq<string>, root: Dir): seq<Matched> {
    SortDedup(PathOf, TextLess, Collect(pat, root, []))
  }

  lemma {:induction false} JoinInjective(p: seq<string>, q: seq<string>)
    requires forall i | 0 <= i < |p| :: ValidName(p[i])
    requires forall i | 0 <= i < |q| :: ValidName(q[i])
    requires Join(p) == Join(q)
    ensures p == q
  {
    if p != [] && q != [] {
      FirstSegment(p, q);
      FirstSegment(q, p);
      assert p[0] == Join(p)[..|p[0]|] && q[0] == Join(q)[..|q[0]|];
      if |p| > 1 && |q| > 1 {
        assert Join(p)[|p[0]| + 1..] == Join(p[1..]) && Join(q)[|q[0]| + 1..] == Join(q[1..]);
        JoinInjective(p[1..], q[1..]);
        assert p == [p[0]] + p[1..] && q == [q[0]] + q[1..];
      }
    }
  }

  lemma FirstSegment(p: seq<string>, q: seq<string>)
    requires p != [] && q != [] && '/' !in p[0] && '/' !in q[0] && Join(p) == Join(q)
    ensures |p[0]| >= |q[0]|
  {
    assert |Join(q)| >= |q[0]| && forall k | 0 <= k < |q[0]| :: Join(q)[k] == q[0][k] && q[0][k] in q[0];
    assert |p| > 1 ==> Join(p)[|p[0]|] == '/';
  }

  /** Two records of one walk with the same path are the same record. */
  lemma PathDetermines(pat: seq<string>, root: Dir, a: Matched, b: Matched)
    requires WellFormed(root) && a in Collect(pat, root, []) && b in Collect(pat, root, []) && a.path == b.path
    ensures a == b
  {
    CollectIsFound(pat, root, [], a);
    CollectIsFound(pat, root, [], b);
    var p :| Reaches(pat, root, p) && Hit(root, [], p, a);
    var q :| Reaches(pat, root, q) && Hit(root, [], q, b);
    assert [] + p == p && [] + q == q;
    if p != [] { DescendWellFormed(root, p); }
    if q != [] { DescendWellFormed(root, q); }
    JoinInjective(p, q);
  }

  /** The walk, sorted and de-duplicated, records exactly the selected paths, once each, in order. */
  lemma WalkIsExact(pat: seq<string>, root: Dir)
    requires WellFormed(root)
    ensures Ascending(PathOf, TextLess, Selection(pat, root))
    ensures forall m :: m in Selection(pat, root) <==> exists path :: Selects(pat, root, path) && Hit(root, [], path, m)
  {
    TextOrder();
    var all, sel := Collect(pat, root, []), Selection(pat, root);
    SortDedupOrdered(PathOf, TextLess, all);
    forall m ensures m in sel <==> exists path :: Selects(pat, root, path) && Hit(root, [], path, m) {
      if m in all {
        SortDedupKeys(PathOf, TextLess, all, m.path);
        var i :| 0 <= i < |all| && all[i] == m;
        assert PathOf(all[i]) == m.path;
        var j :| 0 <= j < |sel| && PathOf(sel[j]) == m.path;
        PathDetermines(pat, root, m, sel[j]);
      }
      CollectIsFound(pat, root, [], m);
      forall path ensures Reaches(pat, root, path) <==> Selects(pat, root, path) { ReachesIsSelects(pat, root, path); }
    }
  }

  // ---- The same, without the matcher ----

  /** `Glob`, each segment matching by the definition of `*` and `?` rather than by the loop. */
  ghost predicate Denotes(pat: seq<string>, path: seq<string>)
    decreases |pat|
  {
    if pat == [] then path == []
    else if pat[0] == "**" then exists k :: 0 <= k <= |path| && Denotes(pat[1..], path[k..])
    else path != [] && Segment.Matches(pat[0], path[0]) && Denotes(pat[1..], path[1..])
  }

  predicate StarFreePath(path: seq<string>) { forall i | 0 <= i < |path| :: '*' !in path[i] }

  /** No name anywhere in the tree contains a `*`. */
  ghost predicate StarFree(d: Dir) { forall i | 0 <= i < |d.entries| :: StarFreeEntry(d.entries[i]) }

  ghost predicate StarFreeEntry(e: Entry) { '*' !in e.name && (e.dir.Some? ==> StarFree(e.dir.value)) }

  lemma {:induction false} GlobDenotes(pat: seq<string>, path: seq<string>)
    requires StarFreePath(path)
    ensures Glob(pat, path) <==> Denotes(pat, path)
    decreases |pat|
  {
    if pat != [] && pat[0] == "**" {
      forall k | 0 <= k <= |path| ensures Glob(pat[1..], path[k..]) <==> Denotes(pat[1..], path[k..]) {
        GlobDenotes(pat[1..], path[k..]);
      }
    } else if pat != [] && path != [] {
      Segment.MatcherIsExactFor(pat[0], path[0]);
      GlobDenotes(pat[1..], path[1..]);
    }
  }

  lemma {:induction false} ResolvedIsStarFree(root: Dir, path: seq<string>)
    requires StarFree(root) && Descend(root, path).Some?
    ensures StarFreePath(path)
  {
    var e := Child(root, path[0]).value;
    var i :| 0 <= i < |root.entries| && root.entries[i] == e;
    if |path| > 1 {
      ResolvedIsStarFree(e.dir.value, path[1..]);
      assert forall k | 1 <= k < |path| :: path[k] == path[1..][k - 1];
    }
  }

  /** `Selects`, by the definition of the wildcards. */
  ghost predicate Declares(pat: seq<string>, root: Dir, path: seq<string>) {
    if pat != [] && pat[|pat| - 1] == "**" then
      Denotes(pat[..|pat| - 1], path) && IsDirWithEntries(DirAt(root, path))
    else Denotes(pat, path) && Descend(root, path).Some?
  }

  lemma SelectsDeclares(pat: seq<string>, root: Dir, path: seq<string>)
    requires StarFree(root)
    ensures Selects(pat, root, path) <==> Declares(pat, root, path)
  {
    if path == [] || Descend(root, path).Some? {
      if path != [] { ResolvedIsStarFree(root, path); }
      GlobDenotes(pat, path);
      if pat != [] { GlobDenotes(pat[..|pat| - 1], path); }
    }
  }

  /** On a tree whose names hold no `*`, the walk yields exactly the paths the pattern denotes, once each and
      in order, with nothing of the matching loop left in the statement. */
  lemma WalkIsDeclared(pat: seq<string>, root: Dir)
    requires WellFormed(root) && StarFree(root)
    ensures Ascending(PathOf, TextLess, Selection(pat, root))
    ensures forall m :: m in Selection(pat, root) <==>
      exists path :: Declares(pat, root, path) && Hit(root, [], path, m)
  {
    WalkIsExact(pat, root);
    forall m ensures m in Selection(pat, root) <==> exists path :: Declares(pat, root, path) && Hit(root, [], path, m) {
      if path :| Selects(pat, root, path) && Hit(root, [], path, m) { SelectsDeclares(pat, root, path); }
      if path :| Declares(pat, root, path) && Hit(root, [], path, m) { SelectsDeclares(pat, root, path); }
    }
  }

  // ---- Descent refines the walk ----

  predicate Plain(seg: string) { '*' !in seg && '?' !in seg }

  predicate PlainPath(p: seq<string>) { forall i | 0 <= i < |p| :: Plain(p[i]) }

  /** What `subtree_digest` records for an exact path or for a directory followed by a globstar: one descent,
      and nothing for a missing entry or an empty directory. The empty path is the whole tree. */
  function DescentSelection(root: Dir, path: seq<string>): seq<Matched> {
    var e := Descend(root, path);
    if e.Some? then
      if e.value.dir.Some? && e.value.dir.value.entries == [] then []
      else [Matched(Join(path), e.value.mode, e.value.id)]
    else if path == [] && root.entries != [] then [Matched("", MODE_DIR, root.id)]
    else []
  }

  lemma {:induction false} PlainGlob(pat: seq<string>, path: seq<string>)
    requires PlainPath(pat)
    ensures Glob(pat, path) <==> path == pat
  {
    if pat != [] {
      assert '*' !in pat[0];
      if path != [] {
        Segment.PlainSegment(pat[0], path[0]);
        PlainGlob(pat[1..], path[1..]);
        assert pat == [pat[0]] + pat[1..] && path == [path[0]] + path[1..];
      }
    }
  }

  /** A walk that can select only `path` yields that one record, or none. */
  lemma SingletonSelection(pat: seq<string>, root: Dir, path: seq<string>, m: Matched)
    requires WellFormed(root)
    requires forall q :: Selects(pat, root, q) ==> q == path
    requires forall x :: Hit(root, [], path, x) ==> x == m
    requires Selects(pat, root, path) ==> Hit(root, [], path, m)
    ensures Selection(pat, root) == if Selects(pat, root, path) then [m] else []
  {
    TextOrder();
    WalkIsExact(pat, root);
    var only := if Selects(pat, root, path) then [m] else [];
    forall x ensures x in Selection(pat, root) <==> x in only {
      if x in only { assert Selects(pat, root, path) && Hit(root, [], path, x); }
    }
    AscendingUnique(PathOf, TextLess, Selection(pat, root), only);
  }

  ghost predicate IsFile(root: Dir, path: seq<string>) {
    var e := Descend(root, path); e.Some? && e.value.dir.None?
  }

  ghost predicate IsEmptyDirEntry(root: Dir, path: seq<string>) {
    var e := Descend(root, path); e.Some? && e.value.dir.Some? && e.value.dir.value.entries == []
  }

  // A directory followed by a globstar, by descent, is what walking that glob selects, unless the
  // path names a file. The empty prefix, a globstar alone, always agrees.
  lemma PrefixDescentRefinesWalk(root: Dir, path: seq<string>)
    requires WellFormed(root) && PlainPath(path)
    ensures DescentSelection(root, path) == Selection(path + ["**"], root) <==> !IsFile(root, path)
  {
    var pat := path + ["**"];
    assert pat[..|pat| - 1] == path;
    forall q ensures Glob(path, q) <==> q == path { PlainGlob(path, q); }
    var e := Descend(root, path);
    if e.Some? { DescendWellFormed(root, path); }
    assert [] + path == path;
    var m := if e.Some? then Matched(Join(path), e.value.mode, e.value.id) else Matched("", MODE_DIR, root.id);
    SingletonSelection(pat, root, path, m);
  }

  /** An exact path by descent is what walking it selects, unless it names an empty directory. */
  lemma ExactDescentRefinesWalk(root: Dir, path: seq<string>)
    requires WellFormed(root) && PlainPath(path) && path != []
    ensures DescentSelection(root, path) == Selection(path, root) <==> !IsEmptyDirEntry(root, path)
  {
    assert path[|path| - 1] != "**" by { assert '*' !in path[|path| - 1]; }
    forall q ensures Glob(path, q) <==> q == path { PlainGlob(path, q); }
    var e := Descend(root, path);
    assert [] + path == path;
    var m := if e.Some? then Matched(Join(path), e.value.mode, e.value.id) else Matched("", MODE_DIR, root.id);
    SingletonSelection(path, root, path, m);
  }

  // ---- Equal digests mean equal content ----

  lemma {:induction false} LabelsAt(es: seq<Entry>, i: nat)
    ensures |Labels(es)| == |es|
    ensures i < |es| ==> Labels(es)[i] == Label(es[i].name, es[i].mode, es[i].id)
  {
    if es != [] { LabelsAt(es[1..], if i == 0 then 0 else i - 1); }
  }

  lemma {:induction false} IdDeterminesDir(a: Dir, b: Dir)
    requires WellFormed(a) && WellFormed(b) && a.id == b.id
    ensures a == b
    decreases a
  {
    LabelsAt(a.entries, 0);
    LabelsAt(b.entries, 0);
    forall i | 0 <= i < |a.entries| ensures a.entries[i] == b.entries[i] {
      LabelsAt(a.entries, i);
      LabelsAt(b.entries, i);
      IdDeterminesEntry(a.entries[i], b.entries[i]);
    }
  }

  lemma {:induction false} IdDeterminesEntry(a: Entry, b: Entry)
    requires WellFormedEntry(a) && WellFormedEntry(b) && a.name == b.name && a.mode == b.mode && a.id == b.id
    ensures a == b
    decreases a
  {
    if a.dir.Some? { IdDeterminesDir(a.dir.value, b.dir.value); }
  }

  datatype Shape = Exact(path: seq<string>) | Prefix(path: seq<string>) | Pattern(segments: seq<string>) {
    function Tag(): nat { match this case Exact(_) => 1 case Prefix(_) => 2 case Pattern(_) => 3 }
  }

  function MatchedBy(shape: Shape, root: Dir): seq<Matched> {
    match shape
    case Exact(p) => DescentSelection(root, p)
    case Prefix(p) => DescentSelection(root, p)
    case Pattern(pat) => Selection(pat, root)
  }

  /** Which paths a parsed glob selects. */
  ghost predicate ShapeSelects(shape: Shape, root: Dir, path: seq<string>) {
    match shape
    case Pattern(pat) => Selects(pat, root, path)
    case _ =>
      path == shape.path && if path == [] then root.entries != []
                            else Descend(root, path).Some? && !IsEmptyDirEntry(root, path)
  }

  lemma MatchedByIsExact(shape: Shape, root: Dir)
    requires WellFormed(root)
    ensures Ascending(PathOf, TextLess, MatchedBy(shape, root))
    ensures forall m :: m in MatchedBy(shape, root) <==>
      exists path :: ShapeSelects(shape, root, path) && Hit(root, [], path, m)
  {
    match shape
    case Pattern(pat) =>
      WalkIsExact(pat, root);
      forall m ensures m in MatchedBy(shape, root) <==>
          exists path :: ShapeSelects(shape, root, path) && Hit(root, [], path, m) {
        if path :| Selects(pat, root, path) && Hit(root, [], path, m) { assert ShapeSelects(shape, root, path); }
      }
    case Exact(p) => DescentIsExact(shape, root);
    case Prefix(p) => DescentIsExact(shape, root);
  }

  lemma DescentIsExact(shape: Shape, root: Dir)
    requires WellFormed(root) && !shape.Pattern?
    ensures forall m :: m in DescentSelection(root, shape.path) <==>
      exists path :: ShapeSelects(shape, root, path) && Hit(root, [], path, m)
  {
    var p := shape.path;
    assert [] + p == p;
    forall m ensures m in DescentSelection(root, p) <==>
        exists path :: ShapeSelects(shape, root, path) && Hit(root, [], path, m) {
      if m in DescentSelection(root, p) { assert ShapeSelects(shape, root, p) && Hit(root, [], p, m); }
      if path :| ShapeSelects(shape, root, path) && Hit(root, [], path, m) { assert m in DescentSelection(root, p); }
    }
  }

  /** Everything a node of the tree is: for the empty path the tree itself. */
  ghost predicate SameAt(a: Dir, b: Dir, path: seq<string>) {
    if path == [] then a == b else Descend(a, path) == Descend(b, path)
  }

  lemma {:induction false} SameBelow(a: Dir, b: Dir, path: seq<string>, more: seq<string>)
    requires SameAt(a, b, path) && (path == [] || Descend(a, path).Some?)
    ensures Descend(a, path + more) == Descend(b, path + more)
    decreases |path|
  {
    if path == [] || more == [] {
      assert [] + more == more && path + [] == path;
    } else {
      DescendStep(a, path + more);
      DescendStep(b, path + more);
      assert (path + more)[..1] == path[..1] && (path + more)[1..] == path[1..] + more;
      DescendStep(a, path);
      DescendStep(b, path);
      var da, db := DirAt(a, path[..1]), DirAt(b, path[..1]);
      if |path| == 1 {
        assert path[..1] == path && path[1..] + more == more;
      } else {
        SameBelow(da.value, db.value, path[1..], more);
      }
    }
  }

  /** One glob digested equally on two trees: both select the same paths, and the trees agree on
      each selected entry and on everything beneath it. */
  lemma EqualDigestsAgree(shape: Shape, a: Dir, b: Dir, path: seq<string>)
    requires WellFormed(a) && WellFormed(b) && MatchedBy(shape, a) == MatchedBy(shape, b)
    requires ShapeSelects(shape, a, path)
    ensures ShapeSelects(shape, b, path) && SameAt(a, b, path)
    ensures forall more :: Descend(a, path + more) == Descend(b, path + more)
  {
    var m, q := SharedHit(shape, a, b, path);
    if path != [] { DescendWellFormed(a, path); }
    if q != [] { DescendWellFormed(b, q); }
    HitPath(a, path, m);
    HitPath(b, q, m);
    JoinInjective(path, q);
    if path == [] {
      IdDeterminesDir(a, b);
    } else {
      IdDeterminesEntry(Descend(a, path).value, Descend(b, path).value);
    }
    forall more ensures Descend(a, path + more) == Descend(b, path + more) { SameBelow(a, b, path, more); }
  }

  lemma HitPath(d: Dir, path: seq<string>, m: Matched)
    requires Hit(d, [], path, m)
    ensures m.path == Join(path)
  {
    assert [] + path == path;
  }

  /** A path selected in one tree is recorded, and its record comes from a path selected in the other. */
  lemma SharedHit(shape: Shape, a: Dir, b: Dir, path: seq<string>) returns (m: Matched, q: seq<string>)
    requires WellFormed(a) && WellFormed(b) && MatchedBy(shape, a) == MatchedBy(shape, b)
    requires ShapeSelects(shape, a, path)
    ensures Hit(a, [], path, m) && ShapeSelects(shape, b, q) && Hit(b, [], q, m)
  {
    MatchedByIsExact(shape, a);
    MatchedByIsExact(shape, b);
    assert [] + path == path;
    m := if path == [] then Matched("", MODE_DIR, a.id)
         else var e := Descend(a, path).value; Matched(Join(path), e.mode, e.id);
    assert Hit(a, [], path, m);
    assert m in MatchedBy(shape, b);
    q :| ShapeSelects(shape, b, q) && Hit(b, [], q, m);
  }

  /** Conversely, trees that select the same paths and agree on them digest equally. */
  lemma AgreementDigestsEqually(shape: Shape, a: Dir, b: Dir)
    requires WellFormed(a) && WellFormed(b)
    requires forall path :: ShapeSelects(shape, a, path) <==> ShapeSelects(shape, b, path)
    requires forall path :: ShapeSelects(shape, a, path) ==> SameAt(a, b, path)
    ensures MatchedBy(shape, a) == MatchedBy(shape, b)
  {
    TextOrder();
    MatchedByIsExact(shape, a);
    MatchedByIsExact(shape, b);
    forall m ensures m in MatchedBy(shape, a) <==> m in MatchedBy(shape, b) {
      if m in MatchedBy(shape, a) {
        var path :| ShapeSelects(shape, a, path) && Hit(a, [], path, m);
        assert ShapeSelects(shape, b, path) && Hit(b, [], path, m);
      }
      if m in MatchedBy(shape, b) {
        var path :| ShapeSelects(shape, b, path) && Hit(b, [], path, m);
        assert ShapeSelects(shape, a, path) && Hit(a, [], path, m);
      }
    }
    AscendingUnique(PathOf, TextLess, MatchedBy(shape, a), MatchedBy(shape, b));
  }

  // ---- Reading a glob ----

  datatype GlobError = Malformed(glob: string) | TooManyGlobstars(limit: nat)

  const MAX_GLOBSTARS: nat := 4

  /** Unicode White_Space, which is what `trim` strips. */
  predicate IsSpace(c: char) {
    || 0x09 <= c as int <= 0x0D || c as int in {0x20, 0x85, 0xA0, 0x1680, 0x2028, 0x2029, 0x202F, 0x205F, 0x3000}
    || 0x2000 <= c as int <= 0x200A
  }

  function Trim(s: string): string {
    if s != "" && IsSpace(s[0]) then Trim(s[1..])
    else if s != "" && IsSpace(s[|s| - 1]) then Trim(s[..|s| - 1])
    else s
  }

  /** The pieces between `/` characters. */
  function Split(s: string): (r: seq<string>)
    ensures r != [] && forall i | 0 <= i < |r| :: '/' !in r[i]
    ensures s != "" && s[0] == '/' ==> r[0] == ""
    ensures s != "" && s[0] != '/' ==> r[0] != ""
  {
    if s == "" then [""]
    else
      var rest := Split(s[1..]);
      if s[0] == '/' then [""] + rest else [[s[0]] + rest[0]] + rest[1..]
  }

  predicate Dots(seg: string) { seg == "." || seg == ".." }

  function NonEmpty(segs: seq<string>): (r: seq<string>)
    ensures forall i | 0 <= i < |r| :: r[i] in segs && r[i] != ""
  {
    if segs == [] then [] else (if segs[0] == "" then [] else [segs[0]]) + NonEmpty(segs[1..])
  }

  function Globstars(segs: seq<string>): nat {
    if segs == [] then 0 else (if segs[0] == "**" then 1 else 0) + Globstars(segs[1..])
  }

  /** When a glob is refused rather than repaired. */
  predicate IsMalformed(glob: string) {
    var t := Trim(glob);
    t == "" || t[0] == '/' || exists i | 0 <= i < |Split(t)| :: Dots(Split(t)[i])
  }

  function Classify(segs: seq<string>): Shape
    requires segs != []
  {
    var init, last := segs[..|segs| - 1], segs[|segs| - 1];
    if last == "**" && PlainPath(init) then Prefix(init)
    else if PlainPath(init) && Plain(last) then Exact(segs)
    else Pattern(segs)
  }

  lemma NonEmptyNext(pieces: seq<string>, i: nat, kept: seq<string>)
    requires i < |pieces|
    ensures var more := if pieces[i] == "" then [] else [pieces[i]];
      (kept + more) + NonEmpty(pieces[i + 1..]) == kept + NonEmpty(pieces[i..])
  {
    assert pieces[i..][0] == pieces[i] && pieces[i..][1..] == pieces[i + 1..];
  }

  method Segments(pieces: seq<string>) returns (r: Option<seq<string>>)
    requires pieces != [] && pieces[0] != ""
    ensures r.None? <==> exists i | 0 <= i < |pieces| :: Dots(pieces[i])
    ensures r.Some? ==> r.value == NonEmpty(pieces) && r.value != []
  {
    var segments: seq<string> := [];
    assert pieces[0..] == pieces;
    for i := 0 to |pieces|
      invariant segments + NonEmpty(pieces[i..]) == NonEmpty(pieces)
      invariant forall k | 0 <= k < i :: !Dots(pieces[k])
      invariant i > 0 ==> segments != []
    {
      NonEmptyNext(pieces, i, segments);
      if pieces[i] == "" { continue; }
      if Dots(pieces[i]) { return None; }
      segments := segments + [pieces[i]];
    }
    assert pieces[|pieces|..] == [];
    r := Some(segments);
  }

  method CountGlobstars(segments: seq<string>) returns (count: nat)
    ensures count == Globstars(segments)
  {
    count := 0;
    assert segments[0..] == segments;
    for i := 0 to |segments|
      invariant count + Globstars(segments[i..]) == Globstars(segments)
    {
      assert segments[i..][0] == segments[i] && segments[i..][1..] == segments[i + 1..];
      if segments[i] == "**" { count := count + 1; }
    }
  }

  method Parse(glob: string) returns (r: Result<Shape, GlobError>)
    ensures r == Err(Malformed(glob)) <==> IsMalformed(glob)
    ensures !IsMalformed(glob) ==>
      var segs := NonEmpty(Split(Trim(glob)));
      if Globstars(segs) > MAX_GLOBSTARS then r == Err(TooManyGlobstars(MAX_GLOBSTARS))
      else segs != [] && r == Ok(Classify(segs))
  {
    var trimmed := Trim(glob);
    if trimmed == "" || trimmed[0] == '/' { return Err(Malformed(glob)); }
    var segments := Segments(Split(trimmed));
    if segments.None? { return Err(Malformed(glob)); }
    var count := CountGlobstars(segments.value);
    if count > MAX_GLOBSTARS { return Err(TooManyGlobstars(MAX_GLOBSTARS)); }
    r := Ok(Classify(segments.value));
  }

  /** The entry a descent treats differently from the walk. */
  ghost predicate DescentDeviates(shape: Shape, root: Dir) {
    match shape
    case Exact(p) => IsEmptyDirEntry(root, p)
    case Prefix(p) => IsFile(root, p)
    case Pattern(_) => false
  }

  /** Whatever shape a glob takes, its digest is what walking its segments would select, apart from
      the two cases the descents treat differently: a file before a globstar, an empty directory. */
  lemma EveryShapeRefinesTheWalk(segs: seq<string>, root: Dir)
    requires WellFormed(root) && segs != []
    ensures MatchedBy(Classify(segs), root) == Selection(segs, root) <==> !DescentDeviates(Classify(segs), root)
  {
    var init, last := segs[..|segs| - 1], segs[|segs| - 1];
    assert segs == init + [last];
    match Classify(segs)
    case Exact(p) =>
      assert PlainPath(segs);
      ExactDescentRefinesWalk(root, segs);
    case Prefix(p) => PrefixDescentRefinesWalk(root, init);
    case Pattern(_) =>
  }
}
