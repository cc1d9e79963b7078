/** The bytes a subtree digest is computed over, and why two selections never share them. */
module DigestFold {
  import opened Wrappers
  import opened Bytes

  /** One selected entry: its path, its `u32` mode, its 32-byte object id. */
  datatype Record = Record(path: Text, mode: nat, id: Text)

  datatype Selection = Selection(shape: Byte, glob: Text, matched: seq<Record>)

  /** `hull-ci/subtree-digest/v1` */
  const DOMAIN: Text :=
    [104, 117, 108, 108, 45, 99, 105, 47, 115, 117, 98, 116, 114, 101, 101, 45, 100, 105, 103, 101, 115, 116, 47, 118,
        49]

  /** Bytes in a `u32`. */
  const U32_BYTES: nat := 4

  predicate RecordFits(r: Record) { FitsU64(|r.path|) && r.mode < 0x1_0000_0000 && |r.id| == 32 }

  predicate Fits(s: Selection) {
    FitsU64(|s.glob|) && FitsU64(|s.matched|) && forall k | 0 <= k < |s.matched| :: RecordFits(s.matched[k])
  }

  function Mode(n: nat): (b: Text)
    ensures |b| == 4
  {
    LittleEndian(n, U32_BYTES)
  }

  function PutRecords(m: seq<Record>): Text {
    if m == [] then [] else Prefixed(m[0].path) + (Mode(m[0].mode) + (m[0].id + PutRecords(m[1..])))
  }

  function Fold(s: Selection): Text {
    DOMAIN + ([s.shape] + (Prefixed(s.glob) + (U64(|s.matched|) + PutRecords(s.matched))))
  }

  function TakeRecords(b: Text, n: nat): Option<seq<Record>> {
    if n == 0 then (if b == [] then Some([]) else None)
    else
      match TakePrefixed(b)
      case None => None
      case Some(p) =>
        if |p.1| < 36 then None
        else
          match TakeRecords(p.1[36..], n - 1)
          case None => None
          case Some(rest) => Some([Record(p.0, ValueOf(p.1[..4]), p.1[4..36])] + rest)
  }

  function Unfold(b: Text): Option<Selection> {
    var k := |DOMAIN|;
    if |b| <= k || b[..k] != DOMAIN then None
    else
      match TakePrefixed(b[k + 1..])
      case None => None
      case Some(g) =>
        match TakeU64(g.1)
        case None => None
        case Some(n) =>
          match TakeRecords(n.1, n.0)
          case None => None
          case Some(m) => Some(Selection(b[k], g.0, m))
  }

  lemma RecordSplits(r: Record, more: Text)
    requires RecordFits(r)
    ensures var tail := Mode(r.mode) + (r.id + more);
      |tail| >= 36 && ValueOf(tail[..4]) == r.mode && tail[4..36] == r.id && tail[36..] == more
  {
    var mode := Mode(r.mode);
    var tail := mode + (r.id + more);
    assert Pow256(4) == 0x1_0000_0000 by { assert Pow256(2) == 0x1_0000; }
    LittleEndianReads(r.mode, U32_BYTES);
    assert tail[..4] == mode;
  }

  lemma Headed(domain: Text, shape: Byte, body: Text)
    ensures var b := domain + ([shape] + body);
      |b| > |domain| && b[..|domain|] == domain && b[|domain|] == shape && b[|domain| + 1..] == body
  {
  }

  lemma {:induction false} TakesRecords(m: seq<Record>)
    requires forall k | 0 <= k < |m| :: RecordFits(m[k])
    ensures TakeRecords(PutRecords(m), |m|) == Some(m)
  {
    if m != [] {
      var more := PutRecords(m[1..]);
      TakesPrefixed(m[0].path, Mode(m[0].mode) + (m[0].id + more));
      RecordSplits(m[0], more);
      TakesRecords(m[1..]);
      assert [m[0]] + m[1..] == m;
    }
  }

  /** The folded bytes determine the shape, the glob and every matched record, in order. */
  lemma UnfoldFold(s: Selection)
    requires Fits(s)
    ensures Unfold(Fold(s)) == Some(s)
  {
    var records := PutRecords(s.matched);
    var counted := U64(|s.matched|) + records;
    Headed(DOMAIN, s.shape, Prefixed(s.glob) + counted);
    TakesPrefixed(s.glob, counted);
    TakesU64(|s.matched|, records);
    TakesRecords(s.matched);
  }
}
