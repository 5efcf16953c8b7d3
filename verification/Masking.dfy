/**
 * The per-batch statistics of train_model: the check that the score grid and
 * the label grid have the same spatial size, the loss's check that every kept
 * label is a class index, the flattening of both to one
 * row per grid cell, the foreground mask (label > 0) with the shift of the
 * kept labels to 0-based classes, the arg-max prediction, and the counts of
 * correct and of foreground cells.
 */
module Masking {
  import opened Errors
  import opened Tensors

  /**
   * One batch as train_model sees it: the model's scores, of shape
   * (batchSize, nClasses, outHeight, outWidth), and the label grids, of shape
   * (batchSize, labelHeight, labelWidth). Label 0 is background; 1..nClasses
   * are the foreground classes. The scores are given: the forward pass that
   * produces them is taken to return.
   */
  datatype Batch = Batch(
    batchSize: nat,
    nClasses: nat,
    outHeight: nat,
    outWidth: nat,
    labelHeight: nat,
    labelWidth: nat,
    outputs: seq<seq<seq<seq<real>>>>,
    labels: seq<seq<seq<int>>>)
  {
    /** Both tensors have the shapes recorded beside them, and there is at least one class. */
    predicate Valid() {
      && nClasses >= 1
      && Rect4(outputs, batchSize, nClasses, outHeight, outWidth)
      && Rect3(labels, batchSize, labelHeight, labelWidth)
    }

    /** The assertion before the loss: outputs.shape[2:] == labels.shape[1:]. */
    predicate SameGrid() {
      outHeight == labelHeight && outWidth == labelWidth
    }

    /**
     * No label is above nClasses, so every kept label minus one is a class
     * index the cross-entropy loss accepts.
     */
    predicate LabelsInRange()
      requires Valid()
    {
      forall b, i, j :: 0 <= b < batchSize && 0 <= i < labelHeight && 0 <= j < labelWidth ==> labels[b][i][j] <= nClasses
    }

    /** The batch gets through the assertion and the loss. */
    predicate Scores()
      requires Valid()
    {
      SameGrid() && LabelsInRange()
    }
  }

  /** The positions of the foreground labels (label > 0), in increasing order. */
  function ForegroundIndices(labels: seq<int>): (r: seq<nat>)
    ensures |r| <= |labels|
    ensures forall k :: 0 <= k < |r| ==> r[k] < |labels|
    decreases |labels|
  {
    if |labels| == 0 then []
    else
      var n := |labels| - 1;
      var before := ForegroundIndices(labels[..n]);
      if labels[n] > 0 then before + [n] else before
  }

  /**
   * The foreground indices are exactly the positions whose label is positive,
   * each once and in increasing order.
   */
  lemma {:induction false} ForegroundIndicesSpec(labels: seq<int>)
    ensures forall k :: 0 <= k < |ForegroundIndices(labels)| ==> labels[ForegroundIndices(labels)[k]] > 0
    ensures forall k, l :: 0 <= k < l < |ForegroundIndices(labels)| ==>
      ForegroundIndices(labels)[k] < ForegroundIndices(labels)[l]
    ensures forall p :: 0 <= p < |labels| && labels[p] > 0 ==> p in ForegroundIndices(labels)
    decreases |labels|
  {
    if |labels| > 0 {
      var n := |labels| - 1;
      ForegroundIndicesSpec(labels[..n]);
      assert forall p :: 0 <= p < n ==> labels[..n][p] == labels[p];
    }
  }

  /**
   * outputs[labels > 0] and labels[labels > 0] - 1: the rows and labels of
   * the foreground positions, in their original order, labels shifted down
   * by one.
   */
  function MaskForeground<R>(rows: seq<R>, labels: seq<int>): (r: (seq<R>, seq<int>))
    requires |rows| == |labels|
    ensures |r.0| == |r.1| == |ForegroundIndices(labels)|
    decreases |labels|
  {
    if |labels| == 0 then ([], [])
    else
      var n := |labels| - 1;
      var before := MaskForeground(rows[..n], labels[..n]);
      if labels[n] > 0 then (before.0 + [rows[n]], before.1 + [labels[n] - 1]) else before
  }

  /**
   * The k-th kept row and the k-th kept label are the row and the label, shifted
   * down by one to a class index that is at least 0, of the k-th foreground position.
   */
  lemma {:induction false} MaskForegroundSpec<R>(rows: seq<R>, labels: seq<int>)
    requires |rows| == |labels|
    ensures forall k :: 0 <= k < |MaskForeground(rows, labels).1| ==>
      && MaskForeground(rows, labels).0[k] == rows[ForegroundIndices(labels)[k]]
      && MaskForeground(rows, labels).1[k] == labels[ForegroundIndices(labels)[k]] - 1
      && MaskForeground(rows, labels).1[k] >= 0
    decreases |labels|
  {
    if |labels| > 0 {
      var n := |labels| - 1;
      var m, fi := MaskForeground(rows, labels), ForegroundIndices(labels);
      var before, fb := MaskForeground(rows[..n], labels[..n]), ForegroundIndices(labels[..n]);
      MaskForegroundSpec(rows[..n], labels[..n]);
      MaskSnoc(rows, labels);
      assert fi == if labels[n] > 0 then fb + [n] else fb;
      forall k | 0 <= k < |m.1|
        ensures m.0[k] == rows[fi[k]] && m.1[k] == labels[fi[k]] - 1 && m.1[k] >= 0
      {
        if k < |before.1| {
          assert m.0[k] == before.0[k] == rows[..n][fb[k]];
          assert m.1[k] == before.1[k] == labels[..n][fb[k]] - 1;
        }
      }
    }
  }

  /**
   * torch.max(row, 0) index: the first position holding the largest score.
   * Every row the model builds has n_classes >= 1 scores; an empty row gives 0.
   */
  function Argmax(row: seq<real>): (r: nat)
    ensures |row| >= 1 ==> r < |row|
    decreases |row|
  {
    if |row| <= 1 then 0
    else
      var n := |row| - 1;
      var m := Argmax(row[..n]);
      if row[n] > row[m] then n else m
  }

  /** The arg-max holds a largest score, and every earlier score is strictly smaller. */
  lemma {:induction false} ArgmaxSpec(row: seq<real>)
    requires |row| >= 1
    ensures forall j :: 0 <= j < |row| ==> row[j] <= row[Argmax(row)]
    ensures forall j :: 0 <= j < Argmax(row) ==> row[j] < row[Argmax(row)]
    decreases |row|
  {
    if |row| > 1 {
      var n := |row| - 1;
      ArgmaxSpec(row[..n]);
      assert forall j :: 0 <= j < n ==> row[..n][j] == row[j];
    }
  }

  /** torch.sum(preds == labels): how many rows' arg-max equals their label. */
  function CountCorrect(rows: seq<seq<real>>, labels: seq<int>): (r: nat)
    requires |rows| == |labels|
    ensures r <= |rows|
    decreases |rows|
  {
    if |rows| == 0 then 0
    else
      var n := |rows| - 1;
      var before := CountCorrect(rows[..n], labels[..n]);
      if Argmax(rows[n]) == labels[n] then before + 1 else before
  }

  /** Every row counts exactly when every row's arg-max equals its label. */
  lemma {:induction false} CountCorrectAll(rows: seq<seq<real>>, labels: seq<int>)
    requires |rows| == |labels|
    ensures CountCorrect(rows, labels) == |rows| <==> forall k :: 0 <= k < |rows| ==> Argmax(rows[k]) == labels[k]
    decreases |rows|
  {
    if |rows| > 0 {
      var n := |rows| - 1;
      assert forall k :: 0 <= k < n ==> rows[..n][k] == rows[k] && labels[..n][k] == labels[k];
      CountCorrectAll(rows[..n], labels[..n]);
    }
  }

  /**
   * The score rows and labels of a batch, one per grid cell in row-major
   * order: outputs.permute(0, 2, 3, 1) reshaped to (-1, n_classes), and the
   * labels reshaped to (-1,).
   */
  function CellRows(batch: Batch): (r: (seq<seq<real>>, seq<int>))
    requires batch.Valid() && batch.SameGrid()
    ensures |r.0| == |r.1|
  {
    CellRowsShape(batch);
    (Flatten3(ChannelLast(batch.outputs, batch.batchSize, batch.nClasses, batch.outHeight, batch.outWidth)),
     Flatten3(batch.labels))
  }

  /** One row of nClasses scores and one label per grid cell. */
  lemma CellRowsShape(batch: Batch)
    requires batch.Valid() && batch.SameGrid()
    ensures var bs, c, h, w := batch.batchSize, batch.nClasses, batch.outHeight, batch.outWidth;
      var g := ChannelLast(batch.outputs, bs, c, h, w);
      && |Flatten3(g)| == |Flatten3(batch.labels)| == bs * h * w
      && AllLength(Flatten3(g), c)
  {
    var bs, c, h, w := batch.batchSize, batch.nClasses, batch.outHeight, batch.outWidth;
    var g := ChannelLast(batch.outputs, bs, c, h, w);
    ConcatLength(g, h);
    ConcatKeepsWidth(g, w);
    ConcatLength(Concat(g), w);
    ConcatLength(batch.labels, h);
    ConcatKeepsWidth(batch.labels, w);
    ConcatLength(Concat(batch.labels), w);
    RowsKeepWidth(g, bs, h, w, c);
  }

  /** Flattening a (bs, h, w, c) tensor gives rows of width c. */
  lemma RowsKeepWidth(g: seq<seq<seq<seq<real>>>>, bs: nat, h: nat, w: nat, c: nat)
    requires Rect4(g, bs, h, w, c)
    ensures AllLength(Flatten3(g), c)
  {
    ConcatForall(g, (row: seq<seq<real>>) => AllLength(row, c));
    ConcatKeepsWidth(Concat(g), c);
  }

  /** One batch's contribution: running_corrects and running_foreground increase by these. */
  datatype Stats = Stats(corrects: nat, foreground: nat)

  /**
   * The counts of one batch in a single pass over its cells: a cell with
   * label 0 is skipped; a foreground cell counts, and counts as correct when
   * its arg-max is its label minus one.
   */
  function Tally(rows: seq<seq<real>>, labels: seq<int>): (r: Stats)
    requires |rows| == |labels|
    ensures r.corrects <= r.foreground <= |rows|
    decreases |rows|
  {
    if |rows| == 0 then Stats(0, 0)
    else
      var n := |rows| - 1;
      var before := Tally(rows[..n], labels[..n]);
      if labels[n] <= 0 then before
      else if Argmax(rows[n]) == labels[n] - 1 then Stats(before.corrects + 1, before.foreground + 1)
      else Stats(before.corrects, before.foreground + 1)
  }

  /** Masking one more cell keeps it exactly when its label is positive. */
  lemma MaskSnoc<R>(rows: seq<R>, labels: seq<int>)
    requires |rows| == |labels| > 0
    ensures var n := |rows| - 1;
      var before := MaskForeground(rows[..n], labels[..n]);
      MaskForeground(rows, labels) ==
        if labels[n] > 0 then (before.0 + [rows[n]], before.1 + [labels[n] - 1]) else before
  {
  }

  /** Counting one more row adds one exactly when its arg-max is its label. */
  lemma CountSnoc(rows: seq<seq<real>>, labels: seq<int>, row: seq<real>, target: int)
    requires |rows| == |labels|
    ensures CountCorrect(rows + [row], labels + [target]) ==
      CountCorrect(rows, labels) + if Argmax(row) == target then 1 else 0
  {
    assert (rows + [row])[..|rows|] == rows;
    assert (labels + [target])[..|labels|] == labels;
  }

  /**
   * The single pass counts what the source computes with tensors: the
   * number of rows kept by the foreground mask, and how many of them have
   * their arg-max equal to their shifted label.
   */
  lemma {:induction false} TallyMasked(rows: seq<seq<real>>, labels: seq<int>)
    requires |rows| == |labels|
    ensures var m := MaskForeground(rows, labels);
      Tally(rows, labels) == Stats(CountCorrect(m.0, m.1), |m.1|)
    decreases |rows|
  {
    if |rows| > 0 {
      var n := |rows| - 1;
      var before := MaskForeground(rows[..n], labels[..n]);
      TallyMasked(rows[..n], labels[..n]);
      MaskSnoc(rows, labels);
      TallySnoc(rows, labels);
      if labels[n] > 0 {
        CountSnoc(before.0, before.1, rows[n], labels[n] - 1);
      }
    }
  }

  /** Tallying one more cell: a foreground cell adds one, and one more correct when its arg-max is its label minus one. */
  lemma TallySnoc(rows: seq<seq<real>>, labels: seq<int>)
    requires |rows| == |labels| > 0
    ensures var n := |rows| - 1;
      var t := Tally(rows[..n], labels[..n]);
      var hit := if labels[n] > 0 && Argmax(rows[n]) == labels[n] - 1 then 1 else 0;
      Tally(rows, labels) == if labels[n] <= 0 then t else Stats(t.corrects + hit, t.foreground + 1)
  {
  }

  /**
   * Lines 227-237 and 256-257 for one batch: fail the assertion when the grids
   * differ in size, fail the loss when a label is above nClasses, otherwise
   * mask the background and count the correct and the foreground cells.
   */
  function BatchStats(batch: Batch): (r: Result<Stats>)
    requires batch.Valid()
    ensures r.Err? <==> !batch.Scores()
    ensures r.Err? ==> r.error == if batch.SameGrid() then TargetOutOfBounds else DimensionMismatch
    ensures r.Ok? ==> r.value.corrects <= r.value.foreground
  {
    if !batch.SameGrid() then Err(DimensionMismatch)
    else if !batch.LabelsInRange() then Err(TargetOutOfBounds)
    else
      var cells := CellRows(batch);
      Ok(Tally(cells.0, cells.1))
  }

  /**
   * A batch that passes the assertion adds torch.sum(preds == labels) over the
   * masked rows to running_corrects, and the number of masked rows, its
   * foreground cells, to running_foreground, unless a label above nClasses
   * makes the loss fail.
   */
  lemma BatchStatsMasked(batch: Batch)
    requires batch.Valid() && batch.SameGrid()
    ensures var cells := CellRows(batch);
      var m := MaskForeground(cells.0, cells.1);
      && |m.1| == |ForegroundIndices(cells.1)|
      && BatchStats(batch) == if batch.LabelsInRange() then Ok(Stats(CountCorrect(m.0, m.1), |m.1|)) else Err(TargetOutOfBounds)
  {
    var cells := CellRows(batch);
    TallyMasked(cells.0, cells.1);
  }

  /**
   * The k-th kept row and the k-th kept label come from the same grid cell:
   * if the k-th foreground position is cell (b, i, j), the kept row holds the
   * scores outputs[b][.][i][j] and the kept label is labels[b][i][j] - 1.
   */
  lemma MaskedCellAligned(batch: Batch, k: nat, b: nat, i: nat, j: nat)
    requires batch.Valid() && batch.SameGrid()
    requires b < batch.batchSize && i < batch.outHeight && j < batch.outWidth
    requires k < |ForegroundIndices(CellRows(batch).1)|
    requires ForegroundIndices(CellRows(batch).1)[k] == (b * batch.outHeight + i) * batch.outWidth + j
    ensures batch.labels[b][i][j] > 0
    ensures MaskForeground(CellRows(batch).0, CellRows(batch).1).1[k] == batch.labels[b][i][j] - 1
    ensures |MaskForeground(CellRows(batch).0, CellRows(batch).1).0[k]| == batch.nClasses
    ensures forall cls :: 0 <= cls < batch.nClasses ==>
      MaskForeground(CellRows(batch).0, CellRows(batch).1).0[k][cls] == batch.outputs[b][cls][i][j]
  {
    var bs, c, h, w := batch.batchSize, batch.nClasses, batch.outHeight, batch.outWidth;
    var g := ChannelLast(batch.outputs, bs, c, h, w);
    var cells := CellRows(batch);
    assert cells == (Flatten3(g), Flatten3(batch.labels));
    CellRowsShape(batch);
    Flatten3Index(g, bs, h, w, b, i, j);
    Flatten3Index(batch.labels, bs, h, w, b, i, j);
    MaskForegroundSpec(cells.0, cells.1);
    forall cls | 0 <= cls < c
      ensures MaskForeground(cells.0, cells.1).0[k][cls] == batch.outputs[b][cls][i][j]
    {
      ChannelLastAt(batch.outputs, bs, c, h, w, b, i, j, cls);
    }
  }

  /** Every foreground cell of the batch is kept: its position is among the foreground indices. */
  lemma ForegroundCellKept(batch: Batch, b: nat, i: nat, j: nat)
    requires batch.Valid() && batch.SameGrid()
    requires b < batch.batchSize && i < batch.outHeight && j < batch.outWidth
    requires batch.labels[b][i][j] > 0
    ensures (b * batch.outHeight + i) * batch.outWidth + j in ForegroundIndices(CellRows(batch).1)
  {
    var labels := Flatten3(batch.labels);
    var p := (b * batch.outHeight + i) * batch.outWidth + j;
    Flatten3Index(batch.labels, batch.batchSize, batch.outHeight, batch.outWidth, b, i, j);
    assert p < |labels| && labels[p] > 0;
    ForegroundIndicesSpec(labels);
    assert CellRows(batch).1 == labels;
  }
}
