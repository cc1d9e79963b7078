/** Matching one path segment against `*` and `?`: the iterative single-backtrack matcher of the
    subtree digest, beside the textbook recursive definition. */
module Segment {

  /** What `*` (any run of characters) and `?` (one character) mean. */
  predicate Matches(p: string, n: string) {
    if p == [] then n == []
    else if p[0] == '*' then Matches(p[1..], n) || (n != [] && Matches(p, n[1..]))
    else n != [] && (p[0] == '?' || p[0] == n[0]) && Matches(p[1..], n[1..])
  }

  /** Every character of the pattern is spent. */
  predicate OnlyStars(p: string) { forall i | 0 <= i < |p| :: p[i] == '*' }

  /** The matcher's loop from a given point. `star` is -1 before any `*` was taken. */
  predicate Run(p: string, n: string, pi: nat, ni: nat, star: int, resume: nat)
    requires -1 <= star < pi <= |p| && resume <= ni <= |n|
    decreases |p| - star, |n| - resume, |n| - ni
  {
    if ni == |n| then OnlyStars(p[pi..])
    else if pi < |p| && (p[pi] == '?' || p[pi] == n[ni]) then Run(p, n, pi + 1, ni + 1, star, resume)
    else if pi < |p| && p[pi] == '*' then Run(p, n, pi + 1, ni, pi, ni)
    else if star != -1 then Run(p, n, star + 1, resume + 1, star, resume + 1)
    else false
  }

  predicate Accepts(p: string, n: string) { Run(p, n, 0, 0, -1, 0) }

  method SegmentMatches(p: string, n: string) returns (r: bool)
    ensures r == Accepts(p, n)
    ensures '*' !in n ==> r == Matches(p, n)
  {
    if '*' !in n { MatcherIsExactFor(p, n); }
    var pi, ni, star, resume := 0, 0, -1, 0;
    while ni < |n|
      invariant -1 <= star < pi <= |p| && resume <= ni <= |n|
      invariant Run(p, n, pi, ni, star, resume) == Accepts(p, n)
      decreases |p| - star, |n| - resume, |n| - ni
    {
      if pi < |p| && (p[pi] == '?' || p[pi] == n[ni]) {
        pi, ni := pi + 1, ni + 1;
      } else if pi < |p| && p[pi] == '*' {
        star, resume, pi := pi, ni, pi + 1;
      } else if star != -1 {
        pi, resume, ni := star + 1, resume + 1, resume + 1;
      } else {
        return false;
      }
    }
    ghost var first := pi;
    while pi < |p| && p[pi] == '*'
      invariant first <= pi <= |p|
      invariant forall i | first <= i < pi :: p[i] == '*'
    {
      pi := pi + 1;
    }
    if pi < |p| { assert p[first..][pi - first] == p[pi]; }
    r := pi == |p|;
  }

  // ---- Correctness ----

  /** `c` matches `m` character for character, using no `*`. */
  ghost predicate Literal(c: string, m: string) {
    |c| == |m| && forall i | 0 <= i < |c| :: c[i] != '*' && (c[i] == '?' || c[i] == m[i])
  }

  lemma {:induction false} LiteralPeels(c: string, q: string, m: string, rest: string)
    requires Literal(c, m)
    ensures Matches(c + q, m + rest) == Matches(q, rest)
  {
    if c == [] {
      assert c + q == q && m + rest == rest;
    } else {
      LiteralPeels(c[1..], q, m[1..], rest);
      assert (c + q)[1..] == c[1..] + q && (m + rest)[1..] == m[1..] + rest;
    }
  }

  /** A star-free prefix of the pattern can only consume that many characters. */
  lemma {:induction false} StarFreePeels(c: string, q: string, n: string)
    requires '*' !in c && Matches(c + q, n)
    ensures |c| <= |n| && Matches(q, n[|c|..])
  {
    if c == [] {
      assert c + q == q && n[0..] == n;
    } else {
      assert (c + q)[0] == c[0] && (c + q)[1..] == c[1..] + q;
      StarFreePeels(c[1..], q, n[1..]);
      assert n[1..][|c| - 1..] == n[|c|..];
    }
  }

  lemma {:induction false} StarTakes(q: string, n: string, k: nat)
    requires k <= |n| && Matches("*" + q, n[k..])
    ensures Matches("*" + q, n)
  {
    if k > 0 {
      assert n[1..][k - 1..] == n[k..];
      StarTakes(q, n[1..], k - 1);
    } else {
      assert n[0..] == n;
    }
  }

  lemma {:induction false} StarStops(q: string, n: string) returns (k: nat)
    requires Matches("*" + q, n)
    ensures k <= |n| && Matches(q, n[k..])
  {
    assert ("*" + q)[1..] == q;
    if Matches(q, n) {
      k := 0;
      assert n[0..] == n;
    } else {
      k := StarStops(q, n[1..]);
      assert n[1..][k..] == n[k + 1..];
      k := k + 1;
    }
  }

  /** Committing to the first place a chunk fits loses nothing once another `*` follows it. */
  lemma ChunkCommits(c: string, q: string, m: string, rest: string)
    requires Literal(c, m)
    ensures Matches("*" + c + "*" + q, m + rest) == Matches("*" + q, rest)
  {
    var n := m + rest;
    var tail := "*" + q;
    assert "*" + c + "*" + q == "*" + (c + tail);
    LiteralPeels(c, tail, m, rest);
    if Matches(tail, rest) {
      assert n[0..] == n && ("*" + (c + tail))[1..] == c + tail;
    }
    if Matches("*" + (c + tail), n) {
      var k := StarStops(c + tail, n);
      StarFreePeels(c, tail, n[k..]);
      assert n[k..][|c|..] == rest[k..];
      StarTakes(q, rest, k);
    }
  }

  function Demand(p: string): nat { if p == [] then 0 else (if p[0] == '*' then 0 else 1) + Demand(p[1..]) }

  lemma {:induction false} DemandIsMet(p: string, n: string)
    requires Matches(p, n)
    ensures Demand(p) <= |n|
    decreases |p| + |n|
  {
    if p != [] {
      if p[0] == '*' {
        if Matches(p[1..], n) { DemandIsMet(p[1..], n); } else { DemandIsMet(p, n[1..]); }
      } else {
        DemandIsMet(p[1..], n[1..]);
      }
    }
  }

  lemma {:induction false} DemandOfChunk(c: string, q: string)
    ensures '*' !in c ==> Demand(c + q) == |c| + Demand(q)
    ensures Demand(q) == 0 <==> OnlyStars(q)
    decreases |c| + |q|
  {
    if c != [] {
      assert (c + q)[1..] == c[1..] + q;
      DemandOfChunk(c[1..], q);
    } else {
      assert c + q == q;
      if q != [] {
        DemandOfChunk([], q[1..]);
        assert forall i | 0 <= i < |q| :: i > 0 ==> q[i] == q[1..][i - 1];
        assert OnlyStars(q) <==> q[0] == '*' && OnlyStars(q[1..]);
      }
    }
  }

  lemma {:induction false} StarsMatchNothing(p: string)
    ensures Matches(p, "") <==> OnlyStars(p)
  {
    DemandOfChunk("", p);
    if Matches(p, "") { DemandIsMet(p, ""); }
    if OnlyStars(p) && p != [] {
      StarsMatchNothing(p[1..]);
    }
  }

  /** What the loop knows: the answer depends only on the newest `*` and what followed it. */
  ghost predicate Committed(p: string, n: string, pi: nat, ni: nat, star: int, resume: nat)
    requires -1 <= star < pi <= |p| && resume <= ni <= |n|
  {
    if star == -1 then Matches(p, n) == Matches(p[pi..], n[ni..])
    else
      && p[star] == '*'
      && Literal(p[star + 1..pi], n[resume..ni])
      && Matches(p, n) == Matches(p[star..], n[resume..])
  }

  lemma StarUnfolds(p: string, n: string, pi: nat, ni: nat, star: int, resume: nat)
    requires 0 <= star < pi <= |p| && resume <= ni <= |n| && p[star] == '*'
    requires Literal(p[star + 1..pi], n[resume..ni])
    ensures p[star..] == "*" + p[star + 1..pi] + p[pi..]
    ensures n[resume..] == n[resume..ni] + n[ni..]
    ensures Matches(p[star + 1..], n[resume..]) == Matches(p[pi..], n[ni..])
    ensures Matches(p[star..], n[resume..]) ==
            (Matches(p[pi..], n[ni..]) || (resume < |n| && Matches(p[star..], n[resume + 1..])))
  {
    assert p[star + 1..] == p[star + 1..pi] + p[pi..];
    LiteralPeels(p[star + 1..pi], p[pi..], n[resume..ni], n[ni..]);
    assert p[star..][1..] == p[star + 1..];
    if resume < |n| { assert n[resume..][1..] == n[resume + 1..]; }
  }

  lemma EndOfName(p: string, n: string, pi: nat, star: int, resume: nat)
    requires -1 <= star < pi <= |p| && resume <= |n| && Committed(p, n, pi, |n|, star, resume)
    ensures OnlyStars(p[pi..]) == Matches(p, n)
  {
    StarsMatchNothing(p[pi..]);
    if star != -1 {
      var c, q := p[star + 1..pi], p[pi..];
      StarUnfolds(p, n, pi, |n|, star, resume);
      if Matches(p, n) {
        DemandIsMet("*" + c + q, n[resume..]);
        assert ("*" + c + q)[1..] == c + q;
        DemandOfChunk(c, q);
      }
    }
  }

  lemma LiteralStep(p: string, n: string, pi: nat, ni: nat, star: int, resume: nat)
    requires -1 <= star < pi < |p| && resume <= ni < |n| && Committed(p, n, pi, ni, star, resume)
    requires n[ni] != '*' && (p[pi] == '?' || p[pi] == n[ni])
    ensures Committed(p, n, pi + 1, ni + 1, star, resume)
  {
    if star == -1 {
      assert p[pi..][1..] == p[pi + 1..] && n[ni..][1..] == n[ni + 1..];
    } else {
      assert p[star + 1..pi + 1] == p[star + 1..pi] + [p[pi]] && n[resume..ni + 1] == n[resume..ni] + [n[ni]];
    }
  }

  lemma StarStep(p: string, n: string, pi: nat, ni: nat, star: int, resume: nat)
    requires -1 <= star < pi < |p| && resume <= ni < |n| && Committed(p, n, pi, ni, star, resume)
    requires p[pi] == '*'
    ensures Committed(p, n, pi + 1, ni, pi, ni)
  {
    assert p[pi + 1..pi + 1] == "" == n[ni..ni];
    if star != -1 {
      StarUnfolds(p, n, pi, ni, star, resume);
      assert p[pi..] == "*" + p[pi + 1..];
      ChunkCommits(p[star + 1..pi], p[pi + 1..], n[resume..ni], n[ni..]);
      assert "*" + p[star + 1..pi] + "*" + p[pi + 1..] == p[star..];
    }
  }

  lemma BacktrackStep(p: string, n: string, pi: nat, ni: nat, star: int, resume: nat)
    requires 0 <= star < pi <= |p| && resume <= ni < |n| && Committed(p, n, pi, ni, star, resume)
    requires pi < |p| ==> p[pi] != '?' && p[pi] != n[ni] && p[pi] != '*'
    ensures Committed(p, n, star + 1, resume + 1, star, resume + 1)
  {
    StarUnfolds(p, n, pi, ni, star, resume);
    assert p[star + 1..star + 1] == "" == n[resume + 1..resume + 1];
    assert n[ni..][0] == n[ni];
    if pi < |p| { assert p[pi..][0] == p[pi]; }
  }

  lemma {:induction false} RunIsCorrect(p: string, n: string, pi: nat, ni: nat, star: int, resume: nat)
    requires '*' !in n
    requires -1 <= star < pi <= |p| && resume <= ni <= |n| && Committed(p, n, pi, ni, star, resume)
    ensures Run(p, n, pi, ni, star, resume) == Matches(p, n)
    decreases |p| - star, |n| - resume, |n| - ni
  {
    if ni == |n| {
      EndOfName(p, n, pi, star, resume);
    } else if pi < |p| && (p[pi] == '?' || p[pi] == n[ni]) {
      assert n[ni] in n;
      LiteralStep(p, n, pi, ni, star, resume);
      RunIsCorrect(p, n, pi + 1, ni + 1, star, resume);
    } else if pi < |p| && p[pi] == '*' {
      StarStep(p, n, pi, ni, star, resume);
      RunIsCorrect(p, n, pi + 1, ni, pi, ni);
    } else if star != -1 {
      BacktrackStep(p, n, pi, ni, star, resume);
      RunIsCorrect(p, n, star + 1, resume + 1, star, resume + 1);
    }
  }

  lemma MatcherIsExactFor(p: string, n: string)
    requires '*' !in n
    ensures Accepts(p, n) == Matches(p, n)
  {
    assert p[0..] == p && n[0..] == n;
    RunIsCorrect(p, n, 0, 0, -1, 0);
  }

  // ---- Names that contain `*` ----

  function Wild(k: nat): (w: string)
    ensures |w| == k && forall i | 0 <= i < k :: w[i] == '?'
  {
    if k == 0 then "" else "?" + Wild(k - 1)
  }

  /** While the loop reads the prefix that matches literally it never records a `*`. */
  lemma {:induction false} LiteralRun(p: string, n: string, pi: nat)
    requires |n| < |p| && pi <= |n| && p[|n|] != '*'
    requires forall i | pi <= i < |n| :: p[i] == '?' || p[i] == n[i]
    ensures !Run(p, n, pi, pi, -1, 0)
    decreases |n| - pi
  {
    if pi == |n| {
      assert p[pi..][0] == p[pi];
    } else {
      LiteralRun(p, n, pi + 1);
    }
  }

  lemma LiteralStarFools(n: string, k: nat)
    requires k < |n| && n[k] == '*'
    ensures var p := Wild(k) + "*" + Wild(|n| - k); Matches(p, n) && !Accepts(p, n)
  {
    var p := Wild(k) + "*" + Wild(|n| - k);
    LiteralRun(p, n, 0);
    var q := "*" + Wild(|n| - k);
    assert p == Wild(k) + q && n == n[..k] + n[k..];
    LiteralPeels(Wild(k), q, n[..k], n[k..]);
    assert Wild(|n| - k) + "" == Wild(|n| - k) && n[k..] + "" == n[k..];
    LiteralPeels(Wild(|n| - k), "", n[k..], "");
    assert q[1..] == Wild(|n| - k);
  }

  /** The matcher agrees with the definition on every pattern exactly for names without a `*`. */
  lemma MatcherIsExactIff(n: string)
    ensures (forall p: string :: Accepts(p, n) == Matches(p, n)) <==> '*' !in n
  {
    if '*' !in n {
      forall p: string ensures Accepts(p, n) == Matches(p, n) { MatcherIsExactFor(p, n); }
    } else {
      var k :| 0 <= k < |n| && n[k] == '*';
      LiteralStarFools(n, k);
    }
  }

  /** A segment with no wildcard accepts its own spelling and nothing else, whatever the name holds. */
  lemma {:induction false} PlainRun(p: string, n: string, k: nat)
    requires '*' !in p && '?' !in p && k <= |p| && k <= |n|
    ensures Run(p, n, k, k, -1, 0) == (p[k..] == n[k..])
    decreases |n| - k
  {
    if k == |n| {
      if k < |p| { assert p[k..][0] == p[k]; }
    } else if k < |p| && p[k] == n[k] {
      PlainRun(p, n, k + 1);
      assert p[k..] == [p[k]] + p[k + 1..] && n[k..] == [n[k]] + n[k + 1..];
    } else if k < |p| {
      assert p[k..][0] != n[k..][0];
    }
  }

  lemma PlainSegment(p: string, n: string)
    requires '*' !in p && '?' !in p
    ensures Accepts(p, n) <==> p == n
  {
    PlainRun(p, n, 0);
    assert p[0..] == p && n[0..] == n;
  }
}
