/**
 Re-segmentation of an uploaded file: verified chunks of any sizes arrive in
 order and leave as fixed-size segments that depend only on the content.
 SHA-256 is an injective constructor.
 */
module ArtifactSegments {

  type Byte = b: int | 0 <= b < 256

  datatype Digest = Sha(content: seq<Byte>)
  datatype Descriptor = Descriptor(part: nat, size: nat, sha: Digest)
  datatype Incoming = Incoming(part: nat, bytes: seq<Byte>)

  function Concat(parts: seq<seq<Byte>>): seq<Byte> {
    if parts == [] then [] else Concat(parts[..|parts| - 1]) + parts[|parts| - 1]
  }

  function Content(chunks: seq<Incoming>): seq<Byte> {
    if chunks == [] then [] else Content(chunks[..|chunks| - 1]) + chunks[|chunks| - 1].bytes
  }

  /** The file cut every n bytes; only the last piece may be shorter. */
  function Cut(b: seq<Byte>, n: nat): seq<seq<Byte>>
    requires n > 0
    decreases |b|
  {
    if b == [] then [] else if |b| <= n then [b] else [b[..n]] + Cut(b[n..], n)
  }

  /** The full-size pieces alone. */
  function Whole(b: seq<Byte>, n: nat): seq<seq<Byte>>
    requires n > 0
    decreases |b|
  {
    if |b| < n then [] else [b[..n]] + Whole(b[n..], n)
  }

  /** What is left after the full-size pieces. */
  function Rest(b: seq<Byte>, n: nat): (r: seq<Byte>)
    requires n > 0
    ensures |r| < n
    decreases |b|
  {
    if |b| < n then b else Rest(b[n..], n)
  }

  lemma {:induction false} CutIsWholeThenRest(b: seq<Byte>, n: nat)
    requires n > 0
    ensures Cut(b, n) == Whole(b, n) + (if Rest(b, n) == [] then [] else [Rest(b, n)])
    decreases |b|
  {
    if |b| > n {
      CutIsWholeThenRest(b[n..], n);
    } else if |b| == n {
      assert b[..n] == b && b[n..] == [];
    }
  }

  /** More bytes extend the pieces already cut and never change them. */
  lemma {:induction false} WholeExtends(a: seq<Byte>, b: seq<Byte>, n: nat)
    requires n > 0
    ensures Whole(a + b, n) == Whole(a, n) + Whole(Rest(a, n) + b, n)
    ensures Rest(a + b, n) == Rest(Rest(a, n) + b, n)
    decreases |a|
  {
    if |a| >= n {
      assert (a + b)[..n] == a[..n] && (a + b)[n..] == a[n..] + b;
      WholeExtends(a[n..], b, n);
    }
  }

  lemma {:induction false} ConcatPrepends(x: seq<Byte>, parts: seq<seq<Byte>>)
    ensures Concat([x] + parts) == x + Concat(parts)
    decreases |parts|
  {
    if parts != [] {
      assert ([x] + parts)[..|parts|] == [x] + parts[..|parts| - 1];
      ConcatPrepends(x, parts[..|parts| - 1]);
    } else {
      assert ([x] + parts)[..0] == [];
    }
  }

  function CeilingDivide(a: nat, n: nat): nat
    requires n > 0
  {
    (a + n - 1) / n
  }

  lemma AtLeast(n: nat, d: int)
    requires d >= 1
    ensures n * d >= n
  {
    assert n * d == n * (d - 1) + n && n * (d - 1) >= 0;
  }

  lemma Quotient(x: nat, n: nat, q: nat, r: nat)
    requires n > 0 && x == n * q + r && r < n
    ensures x / n == q
  {
    var p, m := x / n, x % n;
    assert x == n * p + m;
    assert n * (p - q) == r - m && n * (q - p) == m - r;
    if p > q { AtLeast(n, p - q); }
    if q > p { AtLeast(n, q - p); }
  }

  lemma OneMorePiece(a: nat, n: nat)
    requires n > 0 && a >= n
    ensures CeilingDivide(a, n) == 1 + CeilingDivide(a - n, n)
  {
    var x := a - n + n - 1;
    assert x + n == n * (x / n + 1) + x % n;
    Quotient(x + n, n, x / n + 1, x % n);
  }

  lemma {:induction false} CutCount(b: seq<Byte>, n: nat)
    requires n > 0
    ensures |Cut(b, n)| == CeilingDivide(|b|, n)
    decreases |b|
  {
    if |b| <= n {
      SmallQuotient(|b|, n);
    } else {
      CutCount(b[n..], n);
      OneMorePiece(|b|, n);
    }
  }

  lemma {:induction false} CutContent(b: seq<Byte>, n: nat)
    requires n > 0
    ensures Concat(Cut(b, n)) == b
    ensures forall i :: 0 <= i < |Cut(b, n)| ==> 1 <= |Cut(b, n)[i]| <= n && (i + 1 < |Cut(b, n)| ==> |Cut(b, n)[i]| == n)
    decreases |b|
  {
    if b != [] && |b| <= n {
      assert [b][..0] == [];
    } else if b != [] {
      CutContent(b[n..], n);
      ConcatPrepends(b[..n], Cut(b[n..], n));
    }
  }

  /** The cut loses and reorders nothing, and has exactly ceil(size / n) pieces, all but the last full. */
  lemma CutIsExact(b: seq<Byte>, n: nat)
    requires n > 0
    ensures Concat(Cut(b, n)) == b
    ensures |Cut(b, n)| == CeilingDivide(|b|, n)
    ensures forall i :: 0 <= i < |Cut(b, n)| ==> 1 <= |Cut(b, n)[i]| <= n && (i + 1 < |Cut(b, n)| ==> |Cut(b, n)[i]| == n)
  {
    CutCount(b, n);
    CutContent(b, n);
  }

  lemma MorePieces(n: nat, a: nat, b: nat)
    ensures a <= b ==> n * a <= n * b
  {
  }

  /** The smallest segment the executor accepts and the largest file a node may be configured for. */
  const MINIMUM_SEGMENT_BYTES: nat := 16_384
  const MAXIMUM_ARTIFACT_BYTES: nat := 256 * 1024 * 1024

  /** No assignment a node accepts has more than 16,384 segments. */
  lemma FewSegments(b: seq<Byte>, n: nat)
    requires n >= MINIMUM_SEGMENT_BYTES && |b| <= MAXIMUM_ARTIFACT_BYTES
    ensures |Cut(b, n)| <= 16_384
  {
    CutCount(b, n);
    var x, q := |b| + n - 1, CeilingDivide(|b|, n);
    assert x == n * q + x % n;
    MorePieces(n, 16_385, q);
  }

  lemma SmallQuotient(a: nat, n: nat)
    requires n > 0 && a <= n
    ensures CeilingDivide(a, n) == if a == 0 then 0 else 1
  {
    if a == 0 { Quotient(n - 1, n, 0, n - 1); } else { Quotient(a + n - 1, n, 1, a - 1); }
  }

  // ---------------------------------------------------------------- manifest

  predicate Matches(d: Descriptor, c: Incoming) { c.part == d.part && |c.bytes| == d.size && Sha(c.bytes) == d.sha }

  /** The first k chunks are the first k declared ones. */
  predicate MatchesTo(ds: seq<Descriptor>, cs: seq<Incoming>, k: nat) {
    k <= |ds| && k <= |cs| && forall i :: 0 <= i < k ==> Matches(ds[i], cs[i])
  }

  predicate Covers(ds: seq<Descriptor>, cs: seq<Incoming>, size: nat) {
    |cs| == |ds| && MatchesTo(ds, cs, |cs|) && |Content(cs)| == size
  }

  lemma ContentGrows(cs: seq<Incoming>, k: nat)
    requires k < |cs|
    ensures Content(cs[..k + 1]) == Content(cs[..k]) + cs[k].bytes
  {
    assert cs[..k + 1][..k] == cs[..k];
  }

  /** The loop's buffer before and after one piece is taken off. */
  lemma OnePiece(pending: seq<Byte>, n: nat)
    requires n > 0 && |pending| >= n
    ensures Whole(pending, n) == [pending[..n]] + Whole(pending[n..], n) && Rest(pending, n) == Rest(pending[n..], n)
  {
  }

  /**
   Yields exactly the cut of the whole file when the chunks cover the manifest.
   Otherwise it fails, having yielded only full segments of the verified prefix.
   */
  method ByteSegments(ds: seq<Descriptor>, size: nat, chunks: seq<Incoming>, n: nat)
    returns (ok: bool, segments: seq<seq<Byte>>, ghost verified: nat)
    requires n > 0
    ensures ok <==> Covers(ds, chunks, size)
    ensures ok ==> segments == Cut(Content(chunks), n)
    ensures MatchesTo(ds, chunks, verified)
    ensures !ok ==> segments == Whole(Content(chunks[..verified]), n)
  {
    segments := [];
    verified := 0;
    var index, pending: seq<Byte>, total := 0, [], 0;
    assert chunks[..0] == [];
    while index < |chunks|
      invariant 0 <= index <= |chunks| && verified == index && MatchesTo(ds, chunks, index)
      invariant |pending| < n && total == |Content(chunks[..index])|
      invariant segments == Whole(Content(chunks[..index]), n) && pending == Rest(Content(chunks[..index]), n)
    {
      var incoming := chunks[index];
      if index >= |ds| || incoming.part != ds[index].part { return false, segments, verified; }
      if |incoming.bytes| != ds[index].size || Sha(incoming.bytes) != ds[index].sha { return false, segments, verified; }
      ghost var before := Content(chunks[..index]);
      ContentGrows(chunks, index);
      WholeExtends(before, incoming.bytes, n);
      ghost var yielded := segments;
      total := total + |incoming.bytes|;
      pending := pending + incoming.bytes;
      ghost var buffer := pending;
      while |pending| >= n
        invariant segments + Whole(pending, n) == yielded + Whole(buffer, n)
        invariant Rest(pending, n) == Rest(buffer, n)
        decreases |pending|
      {
        OnePiece(pending, n);
        segments, pending := segments + [pending[..n]], pending[n..];
      }
      index, verified := index + 1, verified + 1;
    }
    assert chunks[..|chunks|] == chunks;
    CutIsWholeThenRest(Content(chunks), n);
    if index != |ds| || total != size { return false, segments, verified; }
    if |pending| > 0 { segments := segments + [pending]; }
    ok := true;
  }
}
