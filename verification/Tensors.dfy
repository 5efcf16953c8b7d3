/**
 * Tensors as nested sequences, and the shape operations GridNet applies to
 * them: concatenation along the first axis (torch.cat), splitting into
 * contiguous pieces (Tensor.narrow, and torch.reshape of the first axis),
 * row-major flattening of three leading axes, and the two axis permutations
 * (0,3,1,2) and (0,2,3,1).
 */
module Tensors {

  function Min(a: int, b: int): int { if a <= b then a else b }

  /** Every part has exactly `w` elements. */
  predicate AllLength<T>(parts: seq<seq<T>>, w: nat) {
    forall k :: 0 <= k < |parts| ==> |parts[k]| == w
  }

  /** `t` is a rectangular tensor of shape (d0, d1). */
  predicate Rect2<T>(t: seq<seq<T>>, d0: nat, d1: nat) {
    |t| == d0 && AllLength(t, d1)
  }

  /** `t` is a rectangular tensor of shape (d0, d1, d2). */
  predicate Rect3<T>(t: seq<seq<seq<T>>>, d0: nat, d1: nat, d2: nat) {
    |t| == d0 && forall a :: 0 <= a < d0 ==> Rect2(t[a], d1, d2)
  }

  /** `t` is a rectangular tensor of shape (d0, d1, d2, d3). */
  predicate Rect4<T>(t: seq<seq<seq<seq<T>>>>, d0: nat, d1: nat, d2: nat, d3: nat) {
    |t| == d0 && forall a :: 0 <= a < d0 ==> Rect3(t[a], d1, d2, d3)
  }

  /** torch.cat along the first axis: the parts one after another. */
  function Concat<T>(parts: seq<seq<T>>): seq<T> {
    if |parts| == 0 then [] else parts[0] + Concat(parts[1..])
  }

  lemma {:induction false} ConcatLength<T>(parts: seq<seq<T>>, w: nat)
    requires AllLength(parts, w)
    ensures |Concat(parts)| == |parts| * w
  {
    if |parts| > 0 {
      ConcatLength(parts[1..], w);
    }
  }

  /** Row-major addressing: part i, element j sits at i * w + j. */
  lemma {:induction false} ConcatIndex<T>(parts: seq<seq<T>>, w: nat, i: nat, j: nat)
    requires AllLength(parts, w)
    requires i < |parts| && j < w
    ensures |Concat(parts)| == |parts| * w
    ensures i * w + j < |parts| * w
    ensures Concat(parts)[i * w + j] == parts[i][j]
  {
    ConcatLength(parts, w);
    if i > 0 {
      ConcatIndex(parts[1..], w, i - 1, j);
      assert i * w + j == w + ((i - 1) * w + j);
    }
  }

  /** A property of every element of every part holds of every element of the concatenation. */
  lemma {:induction false} ConcatForall<T>(parts: seq<seq<T>>, p: T -> bool)
    requires forall a, k :: 0 <= a < |parts| && 0 <= k < |parts[a]| ==> p(parts[a][k])
    ensures forall q :: 0 <= q < |Concat(parts)| ==> p(Concat(parts)[q])
  {
    if |parts| > 0 {
      ConcatForall(parts[1..], p);
      assert forall q :: 0 <= q < |Concat(parts[1..])| ==>
        Concat(parts)[|parts[0]| + q] == Concat(parts[1..])[q];
    }
  }

  /** Concatenating sequences of rows of width w gives rows of width w. */
  lemma {:induction false} ConcatKeepsWidth<T>(x: seq<seq<seq<T>>>, w: nat)
    requires forall a :: 0 <= a < |x| ==> AllLength(x[a], w)
    ensures AllLength(Concat(x), w)
  {
    if |x| > 0 {
      ConcatKeepsWidth(x[1..], w);
    }
  }

  /**
   * Splits `s` into contiguous pieces of `n` elements, the last one possibly
   * shorter: the pieces `narrow(count, min(n, len - count))` for
   * count = 0, n, 2n, ...
   */
  function Chunks<T>(s: seq<T>, n: nat): (r: seq<seq<T>>)
    requires n >= 1
    ensures |r| <= |s|
    decreases |s|
  {
    if |s| == 0 then []
    else
      var len := Min(n, |s|);
      [s[..len]] + Chunks(s[len..], n)
  }

  /**
   * The pieces concatenate back to s, none is empty, none is longer than n,
   * and all but the last have exactly n elements.
   */
  lemma {:induction false} ChunksSpec<T>(s: seq<T>, n: nat)
    requires n >= 1
    ensures Concat(Chunks(s, n)) == s
    ensures forall k :: 0 <= k < |Chunks(s, n)| ==> 1 <= |Chunks(s, n)[k]| <= n
    ensures forall k :: 0 <= k < |Chunks(s, n)| - 1 ==> |Chunks(s, n)[k]| == n
    decreases |s|
  {
    if |s| > 0 {
      var len := Min(n, |s|);
      var rest := Chunks(s[len..], n);
      ChunksSpec(s[len..], n);
      assert ([s[..len]] + rest)[1..] == rest;
      assert s[..len] + s[len..] == s;
    }
  }

  /** Every element of every piece is an element of s. */
  lemma {:induction false} ChunksMembers<T>(s: seq<T>, n: nat)
    requires n >= 1
    ensures forall k, j :: 0 <= k < |Chunks(s, n)| && 0 <= j < |Chunks(s, n)[k]| ==> Chunks(s, n)[k][j] in s
    decreases |s|
  {
    if |s| > 0 {
      var len := Min(n, |s|);
      var rest := Chunks(s[len..], n);
      ChunksMembers(s[len..], n);
      var r := Chunks(s, n);
      assert r == [s[..len]] + rest;
      forall k, j | 0 <= k < |r| && 0 <= j < |r[k]| ensures r[k][j] in s {
        if k == 0 {
          assert r[k][j] == s[j];
        } else {
          assert r[k] == rest[k - 1];
          var x := r[k][j];
          assert x in s[len..];
          var i :| 0 <= i < |s[len..]| && s[len..][i] == x;
          assert s[len + i] == x;
        }
      }
    }
  }

  lemma {:induction false} MulAtLeast(k: int, d: int)
    requires k >= 1 && d > 0
    ensures k * d >= d
    decreases k
  {
    if k > 1 {
      MulAtLeast(k - 1, d);
      assert k * d == (k - 1) * d + d;
    }
  }

  /** Quotient and remainder are determined by x == q * d + r with 0 <= r < d. */
  lemma DivisionUnique(x: int, d: int, q: int, r: int)
    requires d > 0 && 0 <= r < d && x == q * d + r
    ensures x / d == q && x % d == r
  {
    var q', r' := x / d, x % d;
    assert x == q' * d + r';
    if q > q' {
      MulAtLeast(q - q', d);
    } else if q < q' {
      MulAtLeast(q' - q, d);
    }
  }

  lemma DivisionStep(x: int, d: int)
    requires x >= 0 && d >= 1
    ensures (x + d) / d == x / d + 1
  {
    DivisionUnique(x + d, d, x / d + 1, x % d);
  }

  /** There are ceil(|s| / n) pieces. */
  lemma {:induction false} ChunksCount<T>(s: seq<T>, n: nat)
    requires n >= 1
    ensures |Chunks(s, n)| == (|s| + n - 1) / n
    decreases |s|
  {
    if |s| == 0 {
      DivisionUnique(n - 1, n, 0, n - 1);
    } else {
      var len := Min(n, |s|);
      assert |Chunks(s, n)| == 1 + |Chunks(s[len..], n)|;
      if |s| <= n {
        assert |s[len..]| == 0;
        DivisionUnique(|s| + n - 1, n, 1, |s| - 1);
      } else {
        ChunksCount(s[n..], n);
        assert |s[n..]| + n - 1 == |s| - 1;
        DivisionStep(|s| - 1, n);
      }
    }
  }

  /** A sequence of m * n elements splits into exactly m pieces of n. */
  lemma {:induction false} ChunksExact<T>(s: seq<T>, n: nat, m: nat)
    requires n >= 1 && |s| == m * n
    ensures Rect2(Chunks(s, n), m, n)
    decreases m
  {
    if m > 0 {
      MulAtLeast(m, n);
      var rest := s[n..];
      assert |rest| == (m - 1) * n;
      ChunksExact(rest, n, m - 1);
      assert Chunks(s, n) == [s[..n]] + Chunks(rest, n);
    }
  }

  /** Piece k of an exact split holds elements k * n .. k * n + n - 1. */
  lemma ChunksExactIndex<T>(s: seq<T>, n: nat, m: nat, k: nat, j: nat)
    requires n >= 1 && |s| == m * n && k < m && j < n
    ensures Rect2(Chunks(s, n), m, n)
    ensures k * n + j < |s|
    ensures Chunks(s, n)[k][j] == s[k * n + j]
  {
    ChunksExact(s, n, m);
    ChunksSpec(s, n);
    ConcatIndex(Chunks(s, n), n, k, j);
  }

  /** Splitting undoes concatenation of equal-width parts. */
  lemma {:induction false} ChunksOfConcat<T>(parts: seq<seq<T>>, w: nat)
    requires w >= 1 && AllLength(parts, w)
    ensures Chunks(Concat(parts), w) == parts
  {
    if |parts| > 0 {
      ConcatLength(parts, w);
      var s := Concat(parts);
      assert s == parts[0] + Concat(parts[1..]);
      assert s[..w] == parts[0];
      assert s[w..] == Concat(parts[1..]);
      ChunksOfConcat(parts[1..], w);
      assert parts == [parts[0]] + parts[1..];
    }
  }

  /** Row-major flattening of the three leading axes: torch.reshape(x, (-1,) + rest). */
  function Flatten3<T>(x: seq<seq<seq<T>>>): seq<T> {
    Concat(Concat(x))
  }

  /** Row-major inverse of Flatten3: torch.reshape(s, (-1, h, w) + rest). */
  function Unflatten3<T>(s: seq<T>, h: nat, w: nat): seq<seq<seq<T>>>
    requires h >= 1 && w >= 1
  {
    Chunks(Chunks(s, w), h)
  }

  /** Element (b, i, j) of a (B, H, W) grid lands at flat position (b * H + i) * W + j. */
  lemma Flatten3Index<T>(x: seq<seq<seq<T>>>, bs: nat, h: nat, w: nat, b: nat, i: nat, j: nat)
    requires Rect3(x, bs, h, w)
    requires b < bs && i < h && j < w
    ensures |Flatten3(x)| == bs * h * w
    ensures 0 <= (b * h + i) * w + j < bs * h * w
    ensures Flatten3(x)[(b * h + i) * w + j] == x[b][i][j]
  {
    ConcatIndex(x, h, b, i);
    ConcatKeepsWidth(x, w);
    ConcatIndex(Concat(x), w, b * h + i, j);
  }

  lemma RowIndexBound(b: nat, i: nat, m: nat, h: nat)
    requires b < m && i < h
    ensures 0 <= b * h + i < m * h
  {
    MulAtLeast(m - b, h);
    assert m * h == b * h + (m - b) * h;
  }

  /** A (d0, d1, d2, d3) tensor is in particular a (d0, d1, d2) grid of rows. */
  lemma Rect4Rect3<T>(t: seq<seq<seq<seq<T>>>>, d0: nat, d1: nat, d2: nat, d3: nat)
    requires Rect4(t, d0, d1, d2, d3)
    ensures Rect3(t, d0, d1, d2)
  {
    forall a | 0 <= a < d0 ensures Rect2(t[a], d1, d2) {
      assert Rect3(t[a], d1, d2, d3);
    }
  }

  /** Unflatten3 of m * h * w elements has shape (m, h, w). */
  lemma Unflatten3Shape<T>(s: seq<T>, h: nat, w: nat, m: nat)
    requires h >= 1 && w >= 1 && |s| == m * h * w
    ensures Rect2(Chunks(s, w), m * h, w)
    ensures Rect3(Unflatten3(s, h, w), m, h, w)
  {
    var rows := Chunks(s, w);
    ChunksExact(s, w, m * h);
    ChunksExact(rows, h, m);
    var g := Chunks(rows, h);
    forall b | 0 <= b < m ensures Rect2(g[b], h, w) {
      forall i | 0 <= i < h ensures |g[b][i]| == w {
        RowIndexBound(b, i, m, h);
        ChunksExactIndex(rows, h, m, b, i);
      }
    }
  }

  /** Unflatten3 puts flat element (b * h + i) * w + j at (b, i, j). */
  lemma Unflatten3Index<T>(s: seq<T>, h: nat, w: nat, m: nat, b: nat, i: nat, j: nat)
    requires h >= 1 && w >= 1 && |s| == m * h * w
    requires b < m && i < h && j < w
    ensures Rect3(Unflatten3(s, h, w), m, h, w)
    ensures 0 <= (b * h + i) * w + j < |s|
    ensures Unflatten3(s, h, w)[b][i][j] == s[(b * h + i) * w + j]
  {
    Unflatten3Shape(s, h, w, m);
    RowIndexBound(b, i, m, h);
    var row: nat, rows: nat := b * h + i, m * h;
    ChunksExactIndex(Chunks(s, w), h, m, b, i);
    ChunksExactIndex(s, w, rows, row, j);
  }

  /** Flattening then unflattening a rectangular grid gives the grid back. */
  lemma FlattenRoundTrip<T>(x: seq<seq<seq<T>>>, bs: nat, h: nat, w: nat)
    requires h >= 1 && w >= 1 && Rect3(x, bs, h, w)
    ensures |Flatten3(x)| == bs * h * w
    ensures Unflatten3(Flatten3(x), h, w) == x
  {
    ConcatLength(x, h);
    ConcatKeepsWidth(x, w);
    ConcatLength(Concat(x), w);
    ChunksOfConcat(Concat(x), w);
    ChunksOfConcat(x, h);
  }

  /** Unflattening then flattening gives the flat sequence back. */
  lemma UnflattenRoundTrip<T>(s: seq<T>, h: nat, w: nat)
    requires h >= 1 && w >= 1
    ensures Flatten3(Unflatten3(s, h, w)) == s
  {
    ChunksSpec(s, w);
    ChunksSpec(Chunks(s, w), h);
  }

  /** One image permuted from (H, W, C) to (C, H, W). */
  function ImageFirst<T>(g: seq<seq<seq<T>>>, h: nat, w: nat, c: nat): (r: seq<seq<seq<T>>>)
    requires Rect3(g, h, w, c)
    ensures Rect3(r, c, h, w)
  {
    seq(c, k requires 0 <= k < c =>
      seq(h, i requires 0 <= i < h =>
        seq(w, j requires 0 <= j < w => g[i][j][k])))
  }

  /** One image permuted from (C, H, W) to (H, W, C). */
  function ImageLast<T>(t: seq<seq<seq<T>>>, c: nat, h: nat, w: nat): (r: seq<seq<seq<T>>>)
    requires Rect3(t, c, h, w)
    ensures Rect3(r, h, w, c)
  {
    seq(h, i requires 0 <= i < h =>
      seq(w, j requires 0 <= j < w =>
        seq(c, k requires 0 <= k < c => t[k][i][j])))
  }

  /** Tensor.permute((0, 3, 1, 2)): channel-last (B, H, W, C) to channel-first (B, C, H, W), image by image. */
  function ChannelFirst<T>(g: seq<seq<seq<seq<T>>>>, bs: nat, h: nat, w: nat, c: nat): (r: seq<seq<seq<seq<T>>>>)
    requires Rect4(g, bs, h, w, c)
    ensures Rect4(r, bs, c, h, w)
    decreases bs
  {
    if bs == 0 then []
    else ChannelFirst(g[..bs - 1], bs - 1, h, w, c) + [ImageFirst(g[bs - 1], h, w, c)]
  }

  /** Tensor.permute((0, 2, 3, 1)): channel-first (B, C, H, W) to channel-last (B, H, W, C), image by image. */
  function ChannelLast<T>(t: seq<seq<seq<seq<T>>>>, bs: nat, c: nat, h: nat, w: nat): (r: seq<seq<seq<seq<T>>>>)
    requires Rect4(t, bs, c, h, w)
    ensures Rect4(r, bs, h, w, c)
    decreases bs
  {
    if bs == 0 then []
    else ChannelLast(t[..bs - 1], bs - 1, c, h, w) + [ImageLast(t[bs - 1], c, h, w)]
  }

  /** Entry [b][k][i][j] of the channel-first tensor is entry [b][i][j][k] of the channel-last one. */
  lemma {:induction false} ChannelFirstAt<T>(g: seq<seq<seq<seq<T>>>>, bs: nat, h: nat, w: nat, c: nat, b: nat, k: nat, i: nat, j: nat)
    requires Rect4(g, bs, h, w, c) && b < bs && k < c && i < h && j < w
    ensures ChannelFirst(g, bs, h, w, c)[b][k][i][j] == g[b][i][j][k]
    decreases bs
  {
    if b < bs - 1 {
      ChannelFirstAt(g[..bs - 1], bs - 1, h, w, c, b, k, i, j);
    }
  }

  /** Entry [b][i][j][k] of the channel-last tensor is entry [b][k][i][j] of the channel-first one. */
  lemma {:induction false} ChannelLastAt<T>(t: seq<seq<seq<seq<T>>>>, bs: nat, c: nat, h: nat, w: nat, b: nat, i: nat, j: nat, k: nat)
    requires Rect4(t, bs, c, h, w) && b < bs && i < h && j < w && k < c
    ensures ChannelLast(t, bs, c, h, w)[b][i][j][k] == t[b][k][i][j]
    decreases bs
  {
    if b < bs - 1 {
      ChannelLastAt(t[..bs - 1], bs - 1, c, h, w, b, i, j, k);
    }
  }

  /** Channel-first then channel-last gives a channel-last grid back. */
  lemma PermuteRoundTrip<T>(g: seq<seq<seq<seq<T>>>>, bs: nat, h: nat, w: nat, c: nat)
    requires Rect4(g, bs, h, w, c)
    ensures ChannelLast(ChannelFirst(g, bs, h, w, c), bs, c, h, w) == g
  {
    var r := ChannelLast(ChannelFirst(g, bs, h, w, c), bs, c, h, w);
    forall b | 0 <= b < bs ensures r[b] == g[b] {
      forall i | 0 <= i < h ensures r[b][i] == g[b][i] {
        forall j | 0 <= j < w ensures r[b][i][j] == g[b][i][j] {
          forall k | 0 <= k < c ensures r[b][i][j][k] == g[b][i][j][k] {
            ChannelFirstAt(g, bs, h, w, c, b, k, i, j);
            ChannelLastAt(ChannelFirst(g, bs, h, w, c), bs, c, h, w, b, i, j, k);
          }
        }
      }
    }
  }

  /** The other way round: channel-last then channel-first gives back a channel-first tensor. */
  lemma PermuteRoundTripChannels<T>(t: seq<seq<seq<seq<T>>>>, bs: nat, c: nat, h: nat, w: nat)
    requires Rect4(t, bs, c, h, w)
    ensures ChannelFirst(ChannelLast(t, bs, c, h, w), bs, h, w, c) == t
  {
    var r := ChannelFirst(ChannelLast(t, bs, c, h, w), bs, h, w, c);
    forall b | 0 <= b < bs ensures r[b] == t[b] {
      forall k | 0 <= k < c ensures r[b][k] == t[b][k] {
        forall i | 0 <= i < h ensures r[b][k][i] == t[b][k][i] {
          forall j | 0 <= j < w ensures r[b][k][i][j] == t[b][k][i][j] {
            ChannelLastAt(t, bs, c, h, w, b, i, j, k);
            ChannelFirstAt(ChannelLast(t, bs, c, h, w), bs, h, w, c, b, k, i, j);
          }
        }
      }
    }
  }
}
