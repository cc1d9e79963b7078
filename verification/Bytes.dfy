/** Bytes, and the length-prefixed little-endian framing that every digest in the repository is
    computed over, with the reader that undoes it. */
module Bytes {
  import opened Wrappers

  newtype Byte = x: int | 0 <= x < 256

  type Text = seq<Byte>

  function Pow256(k: nat): nat { if k == 0 then 1 else 256 * Pow256(k - 1) }

  /** `n as u64` is lossless. */
  predicate FitsU64(n: nat) { n < 0x1_0000_0000_0000_0000 }

  lemma U64Range()
    ensures Pow256(8) == 0x1_0000_0000_0000_0000
  {
    assert Pow256(4) == 0x1_0000_0000 by { assert Pow256(2) == 0x1_0000; }
    assert Pow256(6) == 0x1_0000 * Pow256(4);
  }

  /** `to_le_bytes`, `k` bytes wide. */
  function LittleEndian(n: nat, k: nat): (b: Text)
    ensures |b| == k
    decreases k
  {
    if k == 0 then [] else [(n % 256) as Byte] + LittleEndian(n / 256, k - 1)
  }

  function ValueOf(b: Text): nat { if b == [] then 0 else b[0] as int + 256 * ValueOf(b[1..]) }

  lemma {:induction false} LittleEndianReads(n: nat, k: nat)
    requires n < Pow256(k)
    ensures ValueOf(LittleEndian(n, k)) == n
    decreases k
  {
    if k > 0 { LittleEndianReads(n / 256, k - 1); }
  }

  /** Bytes in a `u64`. */
  const U64_BYTES: nat := 8

  function U64(n: nat): (b: Text)
    ensures |b| == 8
  {
    LittleEndian(n, U64_BYTES)
  }

  lemma U64Reads(n: nat)
    requires FitsU64(n)
    ensures ValueOf(U64(n)) == n
  {
    U64Range();
    LittleEndianReads(n, U64_BYTES);
  }

  /** A length-prefixed byte string. */
  function Prefixed(b: Text): Text { U64(|b|) + b }

  // ---- Tagged items ----

  /** The three framings a digest is fed: one field, a counted list, a counted list of pairs. */
  datatype Item =
    | Field(tag: Byte, bytes: Text)
    | Many(tag: Byte, items: seq<Text>)
    | Pairs(tag: Byte, pairs: seq<(Text, Text)>)

  datatype Kind = AField(tag: Byte) | AMany(tag: Byte) | APairs(tag: Byte)

  function KindOf(i: Item): Kind {
    match i case Field(t, _) => AField(t) case Many(t, _) => AMany(t) case Pairs(t, _) => APairs(t)
  }

  predicate ItemFits(i: Item) {
    match i
    case Field(_, b) => FitsU64(|b|)
    case Many(_, s) => FitsU64(|s|) && forall k | 0 <= k < |s| :: FitsU64(|s[k]|)
    case Pairs(_, s) => FitsU64(|s|) && forall k | 0 <= k < |s| :: FitsU64(|s[k].0|) && FitsU64(|s[k].1|)
  }

  function PutMany(s: seq<Text>): Text { if s == [] then [] else Prefixed(s[0]) + PutMany(s[1..]) }

  function PutPairs(s: seq<(Text, Text)>): Text {
    if s == [] then [] else Prefixed(s[0].0) + (Prefixed(s[0].1) + PutPairs(s[1..]))
  }

  function Put(i: Item): Text {
    match i
    case Field(t, b) => [t] + Prefixed(b)
    case Many(t, s) => [t] + (U64(|s|) + PutMany(s))
    case Pairs(t, s) => [t] + (U64(|s|) + PutPairs(s))
  }

  function PutAll(items: seq<Item>): Text { if items == [] then [] else Put(items[0]) + PutAll(items[1..]) }

  // ---- Reading back ----

  function TakeU64(b: Text): Option<(nat, Text)> {
    if |b| < 8 then None else Some((ValueOf(b[..8]), b[8..]))
  }

  function TakePrefixed(b: Text): Option<(Text, Text)> {
    match TakeU64(b)
    case None => None
    case Some(r) => if |r.1| < r.0 then None else Some((r.1[..r.0], r.1[r.0..]))
  }

  function TakeMany(b: Text, n: nat): Option<(seq<Text>, Text)> {
    if n == 0 then Some(([], b))
    else
      match TakePrefixed(b)
      case None => None
      case Some(x) =>
        match TakeMany(x.1, n - 1)
        case None => None
        case Some(r) => Some(([x.0] + r.0, r.1))
  }

  function TakePairs(b: Text, n: nat): Option<(seq<(Text, Text)>, Text)>
    decreases n
  {
    if n == 0 then Some(([], b))
    else
      match TakePrefixed(b)
      case None => None
      case Some(x) =>
        match TakePrefixed(x.1)
        case None => None
        case Some(y) =>
          match TakePairs(y.1, n - 1)
          case None => None
          case Some(r) => Some(([(x.0, y.0)] + r.0, r.1))
  }

  function Take(k: Kind, b: Text): Option<(Item, Text)> {
    if b == [] || b[0] != k.tag then None
    else
      match k
      case AField(t) => (match TakePrefixed(b[1..]) case None => None case Some(r) => Some((Field(t, r.0), r.1)))
      case AMany(t) => (
        match TakeU64(b[1..])
        case None => None
        case Some(n) => match TakeMany(n.1, n.0) case None => None case Some(r) => Some((Many(t, r.0), r.1)))
      case APairs(t) => (
        match TakeU64(b[1..])
        case None => None
        case Some(n) => match TakePairs(n.1, n.0) case None => None case Some(r) => Some((Pairs(t, r.0), r.1)))
  }

  function TakeAll(kinds: seq<Kind>, b: Text): Option<(seq<Item>, Text)>
    decreases |kinds|
  {
    if kinds == [] then Some(([], b))
    else
      match Take(kinds[0], b)
      case None => None
      case Some(i) =>
        match TakeAll(kinds[1..], i.1)
        case None => None
        case Some(r) => Some(([i.0] + r.0, r.1))
  }

  lemma TakesU64(n: nat, rest: Text)
    requires FitsU64(n)
    ensures TakeU64(U64(n) + rest) == Some((n, rest))
  {
    U64Reads(n);
    assert (U64(n) + rest)[..8] == U64(n) && (U64(n) + rest)[8..] == rest;
  }

  lemma TakesPrefixed(b: Text, rest: Text)
    requires FitsU64(|b|)
    ensures TakePrefixed(Prefixed(b) + rest) == Some((b, rest))
  {
    assert Prefixed(b) + rest == U64(|b|) + (b + rest);
    TakesU64(|b|, b + rest);
    assert (b + rest)[..|b|] == b && (b + rest)[|b|..] == rest;
  }

  lemma {:induction false} TakesMany(s: seq<Text>, rest: Text)
    requires forall k | 0 <= k < |s| :: FitsU64(|s[k]|)
    ensures TakeMany(PutMany(s) + rest, |s|) == Some((s, rest))
  {
    if s == [] {
      assert PutMany(s) + rest == rest;
    } else {
      assert PutMany(s) + rest == Prefixed(s[0]) + (PutMany(s[1..]) + rest);
      TakesPrefixed(s[0], PutMany(s[1..]) + rest);
      TakesMany(s[1..], rest);
      assert [s[0]] + s[1..] == s;
    }
  }

  lemma {:induction false} TakesPairs(s: seq<(Text, Text)>, rest: Text)
    requires forall k | 0 <= k < |s| :: FitsU64(|s[k].0|) && FitsU64(|s[k].1|)
    ensures TakePairs(PutPairs(s) + rest, |s|) == Some((s, rest))
  {
    if s == [] {
      assert PutPairs(s) + rest == rest;
    } else {
      var more := PutPairs(s[1..]) + rest;
      assert PutPairs(s) + rest == Prefixed(s[0].0) + (Prefixed(s[0].1) + more);
      TakesPrefixed(s[0].0, Prefixed(s[0].1) + more);
      TakesPrefixed(s[0].1, more);
      TakesPairs(s[1..], rest);
      assert [(s[0].0, s[0].1)] + s[1..] == s;
    }
  }

  lemma Framed(t: Byte, head: Text, body: Text, rest: Text)
    ensures var b := [t] + (head + body) + rest; b != [] && b[0] == t && b[1..] == head + (body + rest)
  {
    assert head + body + rest == head + (body + rest);
  }

  lemma TakesField(t: Byte, x: Text, rest: Text)
    requires FitsU64(|x|)
    ensures Take(AField(t), Put(Field(t, x)) + rest) == Some((Field(t, x), rest))
  {
    Framed(t, Prefixed(x), [], rest);
    assert Prefixed(x) + [] == Prefixed(x) && [] + rest == rest;
    TakesPrefixed(x, rest);
  }

  lemma TakesList(t: Byte, s: seq<Text>, rest: Text)
    requires ItemFits(Many(t, s))
    ensures Take(AMany(t), Put(Many(t, s)) + rest) == Some((Many(t, s), rest))
  {
    var head, body := U64(|s|), PutMany(s);
    Framed(t, head, body, rest);
    TakesU64(|s|, body + rest);
    TakesMany(s, rest);
  }

  lemma TakesPairList(t: Byte, s: seq<(Text, Text)>, rest: Text)
    requires ItemFits(Pairs(t, s))
    ensures Take(APairs(t), Put(Pairs(t, s)) + rest) == Some((Pairs(t, s), rest))
  {
    var head, body := U64(|s|), PutPairs(s);
    Framed(t, head, body, rest);
    TakesU64(|s|, body + rest);
    TakesPairs(s, rest);
  }

  lemma Takes(i: Item, rest: Text)
    requires ItemFits(i)
    ensures Take(KindOf(i), Put(i) + rest) == Some((i, rest))
  {
    match i
    case Field(t, x) => TakesField(t, x, rest);
    case Many(t, s) => TakesList(t, s, rest);
    case Pairs(t, s) => TakesPairList(t, s, rest);
  }

  ghost predicate KindsOf(items: seq<Item>, kinds: seq<Kind>) {
    |items| == |kinds| && forall k | 0 <= k < |items| :: KindOf(items[k]) == kinds[k] && ItemFits(items[k])
  }

  /** Reading under the right schema recovers exactly the items that were written. */
  lemma Regrouped(a: Text, b: Text, c: Text)
    ensures (a + b) + c == a + (b + c)
  {
  }

  lemma {:induction false} TakesAll(items: seq<Item>, kinds: seq<Kind>, rest: Text)
    requires KindsOf(items, kinds)
    ensures TakeAll(kinds, PutAll(items) + rest) == Some((items, rest))
  {
    if items == [] {
      assert PutAll(items) + rest == rest;
    } else {
      Regrouped(Put(items[0]), PutAll(items[1..]), rest);
      Takes(items[0], PutAll(items[1..]) + rest);
      TakesAll(items[1..], kinds[1..], rest);
      assert [items[0]] + items[1..] == items;
    }
  }
}
