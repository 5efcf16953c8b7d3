/**
 * GridNet.patch_predictions: the batch of patch grids is flattened into one
 * list of patches, the list is classified (in one call, or in pieces of at
 * most atonce_patch_limit patches whose results are concatenated), and the
 * per-patch scores are reshaped back onto the grid with the class axis moved
 * in front of the two grid axes.
 *
 * A patch is an opaque value of type P (a channels x height x width tensor);
 * the patch classifier is a function from a list of patches to a list of
 * score rows.
 */
module GridNet {
  import opened Errors
  import opened Tensors

  /** Class scores (logits) for one patch. */
  type Logits = seq<real>

  /** A (batch, n_classes, grid_height, grid_width) tensor of scores. */
  type ScoreGrid = seq<seq<seq<seq<real>>>>

  /** The attributes of a GridNet that patch_predictions reads. */
  datatype Config = Config(
    gridHeight: nat,
    gridWidth: nat,
    nClasses: nat,
    atoncePatchLimit: Option<int>)

  /** The classifier's interface: one row of nClasses scores per patch. */
  ghost predicate ClassifierShape<P(!new)>(classify: seq<P> -> seq<Logits>, nClasses: nat) {
    forall s: seq<P> :: |classify(s)| == |s| && AllLength(classify(s), nClasses)
  }

  /**
   * The classifier treats the patches of a list independently of each other,
   * as a network whose normalization layers are in evaluation mode does.
   */
  ghost predicate BatchIndependent<P(!new)>(classify: seq<P> -> seq<Logits>) {
    forall a: seq<P>, b: seq<P> :: classify(a + b) == classify(a) + classify(b)
  }

  /** The classifier applied to each piece separately. */
  function ClassifyEach<P>(classify: seq<P> -> seq<Logits>, pieces: seq<seq<P>>): seq<seq<Logits>> {
    seq(|pieces|, k requires 0 <= k < |pieces| => classify(pieces[k]))
  }

  lemma ClassifyEachCons<P>(classify: seq<P> -> seq<Logits>, piece: seq<P>, pieces: seq<seq<P>>)
    ensures ClassifyEach(classify, [piece] + pieces) == [classify(piece)] + ClassifyEach(classify, pieces)
  {
    assert ClassifyEach(classify, [piece] + pieces)[1..] == ClassifyEach(classify, pieces);
  }

  /** The pieces the chunk loop has still to classify once its counter is at `count`. */
  function PiecesFrom<P>(patchList: seq<P>, limit: nat, count: nat): seq<seq<P>>
    requires limit >= 1
  {
    Chunks(patchList[Min(count, |patchList|)..], limit)
  }

  /** One pass of the chunk loop splits off the piece narrow(count, min(limit, len - count)). */
  lemma ChunkStep<P>(patchList: seq<P>, limit: nat, count: nat)
    requires limit >= 1 && count < |patchList|
    ensures PiecesFrom(patchList, limit, count)
         == [patchList[count..count + Min(limit, |patchList| - count)]] + PiecesFrom(patchList, limit, count + limit)
  {
    var rest := patchList[count..];
    var length := Min(limit, |patchList| - count);
    assert rest[..length] == patchList[count..count + length];
    assert rest[length..] == patchList[Min(count + limit, |patchList|)..];
  }

  /** The chunk loop's invariant survives one pass. */
  lemma ChunkLoopStep<P>(classify: seq<P> -> seq<Logits>, patchList: seq<P>, limit: nat, count: nat,
                         cpChunks: seq<seq<Logits>>)
    requires limit >= 1 && count < |patchList|
    requires cpChunks + ClassifyEach(classify, PiecesFrom(patchList, limit, count))
          == ClassifyEach(classify, Chunks(patchList, limit))
    ensures var tmp := patchList[count..count + Min(limit, |patchList| - count)];
      (cpChunks + [classify(tmp)]) + ClassifyEach(classify, PiecesFrom(patchList, limit, count + limit))
      == ClassifyEach(classify, Chunks(patchList, limit))
  {
    var tmp := patchList[count..count + Min(limit, |patchList| - count)];
    var later := PiecesFrom(patchList, limit, count + limit);
    ChunkStep(patchList, limit, count);
    ClassifyEachCons(classify, tmp, later);
    assert (cpChunks + [classify(tmp)]) + ClassifyEach(classify, later)
        == cpChunks + ([classify(tmp)] + ClassifyEach(classify, later));
  }

  /**
   * The chunk loop: while count < len(patch_list), classify
   * narrow(count, min(limit, len - count)), append the result, and advance
   * count by limit.
   */
  method ClassifyInChunks<P>(classify: seq<P> -> seq<Logits>, patchList: seq<P>, limit: nat)
    returns (cpChunks: seq<seq<Logits>>)
    requires limit >= 1
    ensures cpChunks == ClassifyEach(classify, Chunks(patchList, limit))
  {
    cpChunks := [];
    var count: nat := 0;
    PiecesAtStart(patchList, limit);
    while count < |patchList|
      invariant cpChunks + ClassifyEach(classify, PiecesFrom(patchList, limit, count))
             == ClassifyEach(classify, Chunks(patchList, limit))
      decreases |patchList| - count
    {
      var length := Min(limit, |patchList| - count);
      var tmp := patchList[count..count + length];
      var chunk := classify(tmp);
      ChunkLoopStep(classify, patchList, limit, count, cpChunks);
      cpChunks := cpChunks + [chunk];
      count := count + limit;
    }
    PiecesAtEnd(classify, patchList, limit, count, cpChunks);
  }

  /** Before the first pass every piece is still to be classified. */
  lemma PiecesAtStart<P>(patchList: seq<P>, limit: nat)
    requires limit >= 1
    ensures PiecesFrom(patchList, limit, 0) == Chunks(patchList, limit)
  {
    assert patchList[0..] == patchList;
  }

  /** Once the counter has passed the end nothing is left, so the chunks collected are all of them. */
  lemma PiecesAtEnd<P>(classify: seq<P> -> seq<Logits>, patchList: seq<P>, limit: nat, count: nat,
                       cpChunks: seq<seq<Logits>>)
    requires limit >= 1 && count >= |patchList|
    requires cpChunks + ClassifyEach(classify, PiecesFrom(patchList, limit, count))
          == ClassifyEach(classify, Chunks(patchList, limit))
    ensures cpChunks == ClassifyEach(classify, Chunks(patchList, limit))
  {
    assert patchList[Min(count, |patchList|)..] == [];
    assert PiecesFrom(patchList, limit, count) == [];
    assert cpChunks + ClassifyEach(classify, []) == cpChunks;
  }

  /**
   * The loop counter after a number of passes: it moves by `limit` while it
   * is below the number of patches.
   */
  function CountAfter(passes: nat, patches: nat, limit: int): int {
    if passes == 0 then 0
    else
      var count := CountAfter(passes - 1, patches, limit);
      if count < patches then count + limit else count
  }

  /** With a limit of 0 and at least one patch, the counter never moves and the loop never ends. */
  lemma {:induction false} ZeroLimitNeverAdvances(passes: nat, patches: nat)
    requires patches >= 1
    ensures CountAfter(passes, patches, 0) == 0 < patches
  {
    if passes > 0 {
      ZeroLimitNeverAdvances(passes - 1, patches);
    }
  }

  /** Ten patches with a limit of four are classified in pieces of 4, 4 and 2. */
  lemma TenPatchesLimitFour<P>(s: seq<P>)
    requires |s| == 10
    ensures |Chunks(s, 4)| == 3
    ensures |Chunks(s, 4)[0]| == 4 && |Chunks(s, 4)[1]| == 4 && |Chunks(s, 4)[2]| == 2
  {
    var tail := s[4..][4..];
    assert |tail| == 2 && tail[..2] == tail;
    assert Chunks(tail, 4) == [tail] + Chunks(tail[2..], 4);
    assert Chunks(tail[2..], 4) == [];
    assert Chunks(s[4..], 4) == [s[4..][..4]] + Chunks(tail, 4);
    assert Chunks(s, 4) == [s[..4]] + Chunks(s[4..], 4);
  }

  /** The flat list of score rows built at lines 75-94, before the final reshape. */
  function FlatPredictions<P>(classify: seq<P> -> seq<Logits>, patchList: seq<P>, limit: Option<int>): seq<Logits>
    requires limit.Some? ==> limit.value >= 1
  {
    match limit
    case None => classify(patchList)
    case Some(n) => Concat(ClassifyEach(classify, Chunks(patchList, n)))
  }

  /** Classifying piece by piece keeps one row of nClasses scores per patch. */
  lemma {:induction false} ClassifyEachShape<P(!new)>(classify: seq<P> -> seq<Logits>, pieces: seq<seq<P>>, nClasses: nat)
    requires ClassifierShape(classify, nClasses)
    ensures |Concat(ClassifyEach(classify, pieces))| == |Concat(pieces)|
    ensures AllLength(Concat(ClassifyEach(classify, pieces)), nClasses)
  {
    if |pieces| > 0 {
      ClassifyEachShape(classify, pieces[1..], nClasses);
      assert ClassifyEach(classify, pieces)[1..] == ClassifyEach(classify, pieces[1..]);
      assert pieces == [pieces[0]] + pieces[1..];
      ClassifyEachCons(classify, pieces[0], pieces[1..]);
      assert |classify(pieces[0])| == |pieces[0]| && AllLength(classify(pieces[0]), nClasses);
    }
  }

  /** Whatever the classifier, the flat predictions have one row of nClasses scores per patch. */
  lemma FlatPredictionsShape<P(!new)>(classify: seq<P> -> seq<Logits>, patchList: seq<P>, limit: Option<int>, nClasses: nat)
    requires limit.Some? ==> limit.value >= 1
    requires ClassifierShape(classify, nClasses)
    ensures |FlatPredictions(classify, patchList, limit)| == |patchList|
    ensures AllLength(FlatPredictions(classify, patchList, limit), nClasses)
  {
    if limit.Some? {
      ClassifyEachShape(classify, Chunks(patchList, limit.value), nClasses);
      ChunksSpec(patchList, limit.value);
    }
  }

  /**
   * For a batch-independent classifier, classifying in pieces and
   * concatenating gives exactly the scores of one call on the whole list.
   */
  lemma {:induction false} ChunkedEqualsUnchunked<P(!new)>(classify: seq<P> -> seq<Logits>, patchList: seq<P>, limit: nat)
    requires limit >= 1 && BatchIndependent(classify)
    ensures Concat(ClassifyEach(classify, Chunks(patchList, limit))) == classify(patchList)
    decreases |patchList|
  {
    if |patchList| == 0 {
      assert classify(patchList + patchList) == classify(patchList) + classify(patchList);
      assert patchList + patchList == patchList;
    } else {
      var length := Min(limit, |patchList|);
      var head, tail := patchList[..length], patchList[length..];
      ChunkedEqualsUnchunked(classify, tail, limit);
      ClassifyEachCons(classify, head, Chunks(tail, limit));
      var each := ClassifyEach(classify, Chunks(patchList, limit));
      assert each == [classify(head)] + ClassifyEach(classify, Chunks(tail, limit));
      assert each[1..] == ClassifyEach(classify, Chunks(tail, limit));
      assert patchList == head + tail;
      assert classify(head + tail) == classify(head) + classify(tail);
    }
  }

  /** Whether the limit is set or not, a batch-independent classifier gives the same flat predictions. */
  lemma LimitDoesNotChangePredictions<P(!new)>(classify: seq<P> -> seq<Logits>, patchList: seq<P>, limit: Option<int>)
    requires limit.Some? ==> limit.value >= 1
    requires BatchIndependent(classify)
    ensures FlatPredictions(classify, patchList, limit) == FlatPredictions(classify, patchList, None)
  {
    if limit.Some? {
      ChunkedEqualsUnchunked(classify, patchList, limit.value);
    }
  }

  /** A batch-independent classifier scores each patch as it would score that patch alone. */
  lemma RowWise<P(!new)>(classify: seq<P> -> seq<Logits>, s: seq<P>, k: nat, nClasses: nat)
    requires BatchIndependent(classify) && ClassifierShape(classify, nClasses)
    requires k < |s|
    ensures |classify(s)| == |s| && |classify([s[k]])| == 1
    ensures classify(s)[k] == classify([s[k]])[0]
  {
    var before, rest := s[..k], s[k + 1..];
    assert s == before + ([s[k]] + rest);
    assert classify(s) == classify(before) + classify([s[k]] + rest);
    assert classify([s[k]] + rest) == classify([s[k]]) + classify(rest);
  }

  /** Why patch_predictions fails for n flattened patches, or None when it does not. */
  function PredictionFailure(net: Config, n: nat): Option<Error> {
    if net.atoncePatchLimit.Some? && n == 0 then
      Some(EmptyConcat)     // the loop body never runs and torch.cat gets an empty list
    else if net.atoncePatchLimit.Some? && net.atoncePatchLimit.value < 0 then
      Some(NegativeLength)  // the first narrow asks for a negative length
    else if net.gridHeight == 0 || net.gridWidth == 0 || net.nClasses == 0
         || n % (net.gridHeight * net.gridWidth) != 0 then
      Some(ShapeError)      // (-1, H, W, n_classes) does not fit the scores
    else
      None
  }

  /**
   * patch_predictions: flatten, classify (whole or in pieces), reshape to
   * (-1, H, W, n_classes) and permute to (-1, n_classes, H, W).
   */
  method PatchPredictions<P(!new)>(net: Config, classify: seq<P> -> seq<Logits>, x: seq<seq<seq<P>>>)
    returns (r: Result<ScoreGrid>)
    requires ClassifierShape(classify, net.nClasses)
    // with a limit of 0 the chunk loop never terminates on a non-empty list
    requires net.atoncePatchLimit == Some(0) ==> |Flatten3(x)| == 0
    ensures r.Ok? <==> PredictionFailure(net, |Flatten3(x)|) == None
    ensures r.Err? ==> PredictionFailure(net, |Flatten3(x)|) == Some(r.error)
    ensures r.Ok? ==>
      var h, w, c := net.gridHeight, net.gridWidth, net.nClasses;
      var bs := |Flatten3(x)| / (h * w);
      && Rect4(r.value, bs, c, h, w)
      && Flatten3(ChannelLast(r.value, bs, c, h, w))
         == FlatPredictions(classify, Flatten3(x), net.atoncePatchLimit)
  {
    var patchList := Flatten3(x);
    var h, w, c := net.gridHeight, net.gridWidth, net.nClasses;
    var predList: seq<Logits>;
    match net.atoncePatchLimit {
      case None =>
        predList := classify(patchList);
      case Some(limit) =>
        var cpChunks := [];
        if limit >= 1 {
          cpChunks := ClassifyInChunks(classify, patchList, limit);
          assert |patchList| > 0 ==> |Chunks(patchList, limit)| > 0;
        } else if |patchList| > 0 {
          return Err(NegativeLength);
        }
        if |cpChunks| == 0 {
          return Err(EmptyConcat);
        }
        predList := Concat(cpChunks);
    }
    FlatPredictionsShape(classify, patchList, net.atoncePatchLimit, c);
    if h == 0 || w == 0 || c == 0 || |predList| % (h * w) != 0 {
      return Err(ShapeError);
    }
    r := Ok(ToScoreGrid(predList, h, w, c));
  }

  /**
   * Lines 96-97: reshape the flat score rows to (-1, H, W, n_classes) and
   * permute to (-1, n_classes, H, W). Undoing the permutation and flattening
   * gives the rows back in their original order.
   */
  function ToScoreGrid(predList: seq<Logits>, h: nat, w: nat, c: nat): (r: ScoreGrid)
    requires h >= 1 && w >= 1 && AllLength(predList, c) && |predList| % (h * w) == 0
    ensures Rect4(r, |predList| / (h * w), c, h, w)
    ensures Flatten3(ChannelLast(r, |predList| / (h * w), c, h, w)) == predList
  {
    var bs := |predList| / (h * w);
    assert |predList| == bs * h * w by {
      assert |predList| == (h * w) * bs + |predList| % (h * w);
    }
    var grid := Unflatten3(predList, h, w);
    GridCells(predList, h, w, c, bs);
    PermuteRoundTrip(grid, bs, h, w, c);
    UnflattenRoundTrip(predList, h, w);
    ChannelFirst(grid, bs, h, w, c)
  }

  /** Reshaping rows of width c to (-1, h, w) gives a (bs, h, w, c) tensor. */
  lemma GridCells(predList: seq<Logits>, h: nat, w: nat, c: nat, bs: nat)
    requires h >= 1 && w >= 1 && AllLength(predList, c) && |predList| == bs * h * w
    ensures Rect4(Unflatten3(predList, h, w), bs, h, w, c)
  {
    var rows := Chunks(predList, w);
    var grid := Unflatten3(predList, h, w);
    Unflatten3Shape(predList, h, w, bs);
    ChunksMembers(predList, w);
    ChunksMembers(rows, h);
    forall b, i, j | 0 <= b < bs && 0 <= i < h && 0 <= j < w ensures |grid[b][i][j]| == c {
      assert grid[b][i] in rows;
      var r :| 0 <= r < |rows| && rows[r] == grid[b][i];
      assert grid[b][i][j] in predList;
      var p :| 0 <= p < |predList| && predList[p] == grid[b][i][j];
    }
  }

  /** A (bs, H, W) grid of patches flattens to a list whose length divided by H * W is bs. */
  lemma GridBatchSize<P>(x: seq<seq<seq<P>>>, bs: nat, h: nat, w: nat)
    requires h >= 1 && w >= 1 && Rect3(x, bs, h, w)
    ensures |Flatten3(x)| == bs * h * w
    ensures |Flatten3(x)| % (h * w) == 0 && |Flatten3(x)| / (h * w) == bs
  {
    FlattenRoundTrip(x, bs, h, w);
    DivisionUnique(|Flatten3(x)|, h * w, bs, 0);
  }

  /**
   * The output of patch_predictions, indexed [b][k][i][j], is class k of the
   * score row of flat patch (b * H + i) * W + j, which for a batch-independent
   * classifier is the row it gives patch x[b][i][j] on its own.
   */
  lemma PatchPredictionAt<P(!new)>(net: Config, classify: seq<P> -> seq<Logits>, x: seq<seq<seq<P>>>,
                                   bs: nat, out: ScoreGrid, b: nat, k: nat, i: nat, j: nat)
    requires ClassifierShape(classify, net.nClasses) && BatchIndependent(classify)
    requires net.atoncePatchLimit.Some? ==> net.atoncePatchLimit.value >= 1
    requires Rect3(x, bs, net.gridHeight, net.gridWidth)
    requires Rect4(out, bs, net.nClasses, net.gridHeight, net.gridWidth)
    requires Flatten3(ChannelLast(out, bs, net.nClasses, net.gridHeight, net.gridWidth))
             == FlatPredictions(classify, Flatten3(x), net.atoncePatchLimit)
    requires b < bs && k < net.nClasses && i < net.gridHeight && j < net.gridWidth
    ensures (b * net.gridHeight + i) * net.gridWidth + j < |classify(Flatten3(x))|
    ensures out[b][k][i][j] == classify(Flatten3(x))[(b * net.gridHeight + i) * net.gridWidth + j][k]
    ensures |classify([x[b][i][j]])| == 1
    ensures out[b][k][i][j] == classify([x[b][i][j]])[0][k]
  {
    var h, w, c := net.gridHeight, net.gridWidth, net.nClasses;
    LimitDoesNotChangePredictions(classify, Flatten3(x), net.atoncePatchLimit);
    ScoreAt(out, bs, c, h, w, classify(Flatten3(x)), b, k, i, j);
    PatchRow(classify, x, bs, h, w, c, b, i, j);
  }

  /** Row (b * H + i) * W + j of the scores of the flattened grid is the score row of patch x[b][i][j] alone. */
  lemma PatchRow<P(!new)>(classify: seq<P> -> seq<Logits>, x: seq<seq<seq<P>>>, bs: nat, h: nat, w: nat, c: nat,
                          b: nat, i: nat, j: nat)
    requires ClassifierShape(classify, c) && BatchIndependent(classify)
    requires Rect3(x, bs, h, w) && b < bs && i < h && j < w
    ensures (b * h + i) * w + j < |classify(Flatten3(x))|
    ensures |classify([x[b][i][j]])| == 1
    ensures classify(Flatten3(x))[(b * h + i) * w + j] == classify([x[b][i][j]])[0]
  {
    Flatten3Index(x, bs, h, w, b, i, j);
    var p: nat := (b * h + i) * w + j;
    RowWise(classify, Flatten3(x), p, c);
  }

  /** In a score grid whose channel-last flattening is `rows`, entry [b][k][i][j] is rows[(b * h + i) * w + j][k]. */
  lemma ScoreAt(out: ScoreGrid, bs: nat, c: nat, h: nat, w: nat, rows: seq<Logits>, b: nat, k: nat, i: nat, j: nat)
    requires Rect4(out, bs, c, h, w) && Flatten3(ChannelLast(out, bs, c, h, w)) == rows
    requires b < bs && k < c && i < h && j < w
    ensures (b * h + i) * w + j < |rows|
    ensures |rows[(b * h + i) * w + j]| == c
    ensures out[b][k][i][j] == rows[(b * h + i) * w + j][k]
  {
    var g := ChannelLast(out, bs, c, h, w);
    Rect4Rect3(g, bs, h, w, c);
    Flatten3Index(g, bs, h, w, b, i, j);
    ChannelLastAt(out, bs, c, h, w, b, i, j, k);
  }
}
