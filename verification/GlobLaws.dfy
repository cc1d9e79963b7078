/** What reading a glob keeps of its text. */
module GlobLaws {
  import opened Digest

  // ---- Trimming ----

  ghost predicate Blank(s: string) { forall i | 0 <= i < |s| :: IsSpace(s[i]) }

  ghost predicate Bare(s: string) { s == "" || (!IsSpace(s[0]) && !IsSpace(s[|s| - 1])) }

  /** `core` is what is left of `s` without the white space at its ends. */
  ghost predicate IsCore(s: string, before: string, core: string, after: string) {
    s == before + core + after && Blank(before) && Blank(after) && Bare(core)
  }

  /** Trimming drops white space at the two ends, all of it, and nothing else. */
  lemma {:induction false} TrimIsCore(s: string) returns (before: string, after: string)
    ensures IsCore(s, before, Trim(s), after)
    decreases |s|
  {
    before, after := "", "";
    if s != "" && IsSpace(s[0]) {
      before, after := TrimIsCore(s[1..]);
      before := [s[0]] + before;
    } else if s != "" && IsSpace(s[|s| - 1]) {
      before, after := TrimIsCore(s[..|s| - 1]);
      after := after + [s[|s| - 1]];
    }
  }

  /** There is one such core, so a glob means the same however it is padded. */
  lemma {:induction false} CoreIsTrim(s: string, before: string, core: string, after: string)
    requires IsCore(s, before, core, after)
    ensures Trim(s) == core
    decreases |s|
  {
    if before != "" {
      assert s[1..] == before[1..] + core + after;
      CoreIsTrim(s[1..], before[1..], core, after);
    } else if core == "" && after != "" {
      assert s[1..] == "" + core + after[1..];
      CoreIsTrim(s[1..], "", core, after[1..]);
    } else if after != "" {
      assert s[..|s| - 1] == before + core + after[..|after| - 1];
      CoreIsTrim(s[..|s| - 1], before, core, after[..|after| - 1]);
    }
  }

  // ---- Splitting ----

  ghost predicate Pieces(p: seq<string>) { p != [] && forall i | 0 <= i < |p| :: '/' !in p[i] }

  lemma JoinGrows(c: char, p: seq<string>)
    requires p != []
    ensures Join([[c] + p[0]] + p[1..]) == [c] + Join(p)
  {
    var q := [[c] + p[0]] + p[1..];
    assert q[0] == [c] + p[0] && q[1..] == p[1..];
    if |p| > 1 { assert [c] + (p[0] + "/" + Join(p[1..])) == [c] + p[0] + "/" + Join(p[1..]); }
  }

  lemma JoinSlash(p: seq<string>)
    requires p != []
    ensures Join([""] + p) == ['/'] + Join(p)
  {
    assert ([""] + p)[1..] == p;
    assert "" + "/" + Join(p) == ['/'] + Join(p);
  }

  /** Splitting loses nothing: putting the `/`s back gives the text. */
  lemma {:induction false} SplitJoins(s: string)
    ensures Join(Split(s)) == s
  {
    if s != "" {
      SplitJoins(s[1..]);
      if s[0] == '/' { JoinSlash(Split(s[1..])); } else { JoinGrows(s[0], Split(s[1..])); }
    }
  }

  lemma SplitNext(c: char, s: string)
    requires c != '/'
    ensures Split([c] + s) == [[c] + Split(s)[0]] + Split(s)[1..]
  {
    assert ([c] + s)[1..] == s;
  }

  lemma SplitSlash(s: string)
    ensures Split(['/'] + s) == [""] + Split(s)
  {
    assert (['/'] + s)[1..] == s;
  }

  /** And there is no other way to cut it: any pieces without a `/` that join to the text are these. */
  lemma {:induction false} JoinSplits(p: seq<string>)
    requires Pieces(p)
    ensures Split(Join(p)) == p
    decreases |p|, |p[0]|
  {
    if p[0] != "" {
      var q := [p[0][1..]] + p[1..];
      assert q[1..] == p[1..] && p == [p[0]] + p[1..] && p[0] == [p[0][0]] + p[0][1..];
      JoinSplits(q);
      JoinGrows(p[0][0], q);
      SplitNext(p[0][0], Join(q));
    } else if |p| > 1 {
      assert p == [""] + p[1..];
      JoinSplits(p[1..]);
      JoinSlash(p[1..]);
      SplitSlash(Join(p[1..]));
    }
  }

  // ---- Dropping the empty pieces ----

  /** How many of the first `n` pieces are not empty. */
  function Kept(segs: seq<string>, n: nat): nat
    requires n <= |segs|
  {
    if n == 0 then 0 else Kept(segs, n - 1) + if segs[n - 1] == "" then 0 else 1
  }

  lemma {:induction false} KeptNext(segs: seq<string>, n: nat)
    requires 0 < n <= |segs|
    ensures Kept(segs, n) == (if segs[0] == "" then 0 else 1) + Kept(segs[1..], n - 1)
  {
    if n > 1 { KeptNext(segs, n - 1); }
  }

  /** Every non-empty piece is kept, once and in order, and nothing else is. */
  lemma {:induction false} NonEmptyKeeps(segs: seq<string>, i: nat)
    requires i < |segs|
    ensures |NonEmpty(segs)| == Kept(segs, |segs|)
    ensures segs[i] != "" ==> Kept(segs, i) < |NonEmpty(segs)| && NonEmpty(segs)[Kept(segs, i)] == segs[i]
  {
    KeptNext(segs, |segs|);
    if i > 0 {
      KeptNext(segs, i);
      NonEmptyKeeps(segs[1..], i - 1);
    } else if |segs| > 1 {
      NonEmptyKeeps(segs[1..], 0);
    }
  }

  // ---- Counting globstars ----

  lemma {:induction false} GlobstarsIs(segs: seq<string>)
    ensures Globstars(segs) == multiset(segs)["**"]
  {
    if segs != [] {
      GlobstarsIs(segs[1..]);
      assert segs == [segs[0]] + segs[1..];
    }
  }

  /** A glob is refused exactly when, without the white space around it, it is empty, absolute or holds a `.`
      or `..` piece: whichever way its text is cut at the `/`s. */
  lemma MalformedIff(glob: string, before: string, core: string, after: string, pieces: seq<string>)
    requires IsCore(glob, before, core, after) && Pieces(pieces) && Join(pieces) == core
    ensures IsMalformed(glob) <==>
      core == "" || core[0] == '/' || exists i | 0 <= i < |pieces| :: pieces[i] == "." || pieces[i] == ".."
  {
    CoreIsTrim(glob, before, core, after);
    JoinSplits(pieces);
    if i :| 0 <= i < |pieces| && (pieces[i] == "." || pieces[i] == "..") { assert Dots(pieces[i]); }
  }
}
