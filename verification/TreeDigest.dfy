/** What equal subtree digests mean: the fold's bytes, the matched lists and the trees, joined. */
module TreeDigest {
  import opened Wrappers
  import Bytes
  import Digest
  import DigestFold

  /** How the program writes a path and an object id as bytes. */
  datatype Codec = Codec(text: string -> Bytes.Text, id: Digest.ObjectId -> Bytes.Text)

  /** Among the records of the two lists, equal path bytes mean equal paths and equal id bytes equal ids. */
  ghost predicate Faithful(c: Codec, ms: seq<Digest.Matched>, ns: seq<Digest.Matched>) {
    forall m, n | m in ms && n in ns ::
        (c.text(m.path) == c.text(n.path) ==> m.path == n.path) && (c.id(m.id) == c.id(n.id) ==> m.id == n.id)
  }

  function Recorded(c: Codec, m: Digest.Matched): DigestFold.Record {
    DigestFold.Record(c.text(m.path), m.mode, c.id(m.id))
  }

  function AllRecorded(c: Codec, ms: seq<Digest.Matched>): (r: seq<DigestFold.Record>)
    ensures |r| == |ms| && forall i | 0 <= i < |ms| :: r[i] == Recorded(c, ms[i])
  {
    if ms == [] then [] else [Recorded(c, ms[0])] + AllRecorded(c, ms[1..])
  }

  function Selected(c: Codec, glob: string, shape: Digest.Shape, root: Digest.Dir): DigestFold.Selection {
    DigestFold.Selection(shape.Tag() as Bytes.Byte, c.text(glob), AllRecorded(c, Digest.MatchedBy(shape, root)))
  }

  /** What `subtree_digest` hashes for a glob of that shape. */
  function Folded(c: Codec, glob: string, shape: Digest.Shape, root: Digest.Dir): Bytes.Text {
    DigestFold.Fold(Selected(c, glob, shape, root))
  }

  lemma RecordsAreInjective(c: Codec, a: seq<Digest.Matched>, b: seq<Digest.Matched>)
    requires Faithful(c, a, b) && AllRecorded(c, a) == AllRecorded(c, b)
    ensures a == b
  {
    var ra, rb := AllRecorded(c, a), AllRecorded(c, b);
    assert |a| == |ra| && |b| == |rb|;
    forall i | 0 <= i < |a| ensures a[i] == b[i] {
      assert ra[i] == Recorded(c, a[i]) && rb[i] == Recorded(c, b[i]) && a[i] in a && b[i] in b;
    }
  }

  lemma FoldedIsMatched(c: Codec, glob: string, shape: Digest.Shape, a: Digest.Dir, b: Digest.Dir)
    requires Faithful(c, Digest.MatchedBy(shape, a), Digest.MatchedBy(shape, b))
    requires DigestFold.Fits(Selected(c, glob, shape, a)) && DigestFold.Fits(Selected(c, glob, shape, b))
    ensures Folded(c, glob, shape, a) == Folded(c, glob, shape, b) <==>
      Digest.MatchedBy(shape, a) == Digest.MatchedBy(shape, b)
  {
    if Folded(c, glob, shape, a) == Folded(c, glob, shape, b) {
      DigestFold.UnfoldFold(Selected(c, glob, shape, a));
      DigestFold.UnfoldFold(Selected(c, glob, shape, b));
      RecordsAreInjective(c, Digest.MatchedBy(shape, a), Digest.MatchedBy(shape, b));
    }
  }

  /** The trees select the same paths and agree on each. */
  ghost predicate Agree(shape: Digest.Shape, a: Digest.Dir, b: Digest.Dir) {
    && (forall path :: Digest.ShapeSelects(shape, a, path) <==> Digest.ShapeSelects(shape, b, path))
    && (forall path :: Digest.ShapeSelects(shape, a, path) ==> Digest.SameAt(a, b, path))
  }

  /** Short of a collision between the two hashed inputs, or between two ids they record, one glob digests
      equally on two trees exactly when they select the same paths and agree on each; and then they agree
      beneath each as well. */
  lemma DigestsEqualIff<H>(h: Bytes.Text -> H, c: Codec, glob: string, shape: Digest.Shape, a: Digest.Dir,
                           b: Digest.Dir)
    requires Faithful(c, Digest.MatchedBy(shape, a), Digest.MatchedBy(shape, b)) && Digest.WellFormed(a) &&
             Digest.WellFormed(b)
    requires DigestFold.Fits(Selected(c, glob, shape, a)) && DigestFold.Fits(Selected(c, glob, shape, b))
    requires h(Folded(c, glob, shape, a)) == h(Folded(c, glob, shape, b)) ==>
      Folded(c, glob, shape, a) == Folded(c, glob, shape, b)
    ensures h(Folded(c, glob, shape, a)) == h(Folded(c, glob, shape, b)) <==> Agree(shape, a, b)
    ensures Agree(shape, a, b) ==>
      forall path, more | Digest.ShapeSelects(shape, a, path) ::
          Digest.Descend(a, path + more) == Digest.Descend(b, path + more)
  {
    FoldedIsMatched(c, glob, shape, a, b);
    if Digest.MatchedBy(shape, a) == Digest.MatchedBy(shape, b) { MatchedAgree(shape, a, b); }
    if Agree(shape, a, b) { Digest.AgreementDigestsEqually(shape, a, b); }
  }

  lemma MatchedAgree(shape: Digest.Shape, a: Digest.Dir, b: Digest.Dir)
    requires Digest.WellFormed(a) && Digest.WellFormed(b) && Digest.MatchedBy(shape, a) == Digest.MatchedBy(shape, b)
    ensures Agree(shape, a, b)
    ensures forall path, more | Digest.ShapeSelects(shape, a, path) ::
      Digest.Descend(a, path + more) == Digest.Descend(b, path + more)
  {
    forall path ensures Digest.ShapeSelects(shape, a, path) <==> Digest.ShapeSelects(shape, b, path) {
      if Digest.ShapeSelects(shape, a, path) { Digest.EqualDigestsAgree(shape, a, b, path); }
      if Digest.ShapeSelects(shape, b, path) { Digest.EqualDigestsAgree(shape, b, a, path); }
    }
    forall path | Digest.ShapeSelects(shape, a, path) ensures Digest.SameAt(a, b, path) {
      Digest.EqualDigestsAgree(shape, a, b, path);
    }
    forall path, more | Digest.ShapeSelects(shape, a, path) ensures Digest.Descend(a, path + more) ==
        Digest.Descend(b, path + more) {
      Digest.EqualDigestsAgree(shape, a, b, path);
    }
  }
}
