/** The postprocessor of `run_detection`: rescales the resolved boxes to the original image,
    applies the confidence threshold to boxes, scores and classes with one mask, and builds the
    `DetectionResult`. */
module Postprocessing {
  import opened Wrappers
  import opened Tensors
  import opened Resolver

  /** The detection container: three sequences that, once built by the pipeline, have equal length. */
  datatype DetectionResult = DetectionResult(boxes: seq<Box>, scores: seq<real>, classes: seq<int>)

  function Ones(n: nat): (r: seq<real>)
    ensures |r| == n && forall i :: 0 <= i < n ==> r[i] == 1.0
  {
    seq(n, i => 1.0)
  }

  function Zeros(n: nat): (r: seq<int>)
    ensures |r| == n && forall i :: 0 <= i < n ==> r[i] == 0
  {
    seq(n, i => 0)
  }

  /** The container's constructor: a missing field gets its default (no boxes, scores of one,
      class zero), sized by the boxes. */
  function NewDetectionResult(boxes: Option<seq<Box>>, scores: Option<seq<real>>, classes: Option<seq<int>>)
    : (r: DetectionResult)
    ensures r.boxes == (if boxes.Some? then boxes.value else [])
    ensures scores.Some? ==> r.scores == scores.value
    ensures scores.None? ==> |r.scores| == |r.boxes| && forall i :: 0 <= i < |r.scores| ==> r.scores[i] == 1.0
    ensures classes.Some? ==> r.classes == classes.value
    ensures classes.None? ==> |r.classes| == |r.boxes| && forall i :: 0 <= i < |r.classes| ==> r.classes[i] == 0
  {
    var b := if boxes.Some? then boxes.value else [];
    DetectionResult(b,
      if scores.Some? then scores.value else Ones(|b|),
      if classes.Some? then classes.value else Zeros(|b|))
  }

  /** Boxes mapped from the square model input back to the original image: x columns (0 and 2)
      times `sx`, y columns (1 and 3) times `sy`, one output row per input row. */
  function Rescaled(boxes: seq<Box>, sx: real, sy: real): (r: seq<Box>)
    ensures |r| == |boxes|
    ensures forall i :: 0 <= i < |r| ==>
      r[i].x1 == boxes[i].x1 * sx && r[i].x2 == boxes[i].x2 * sx &&
      r[i].y1 == boxes[i].y1 * sy && r[i].y2 == boxes[i].y2 * sy
  {
    seq(|boxes|, i requires 0 <= i < |boxes| =>
      Box(boxes[i].x1 * sx, boxes[i].y1 * sy, boxes[i].x2 * sx, boxes[i].y2 * sy))
  }

  function ScaleX(b: Box, sx: real): Box
  {
    b.(x1 := b.x1 * sx, x2 := b.x2 * sx)
  }

  function ScaleY(b: Box, sy: real): Box
  {
    b.(y1 := b.y1 * sy, y2 := b.y2 * sy)
  }

  /** Column-wise in-place rescaling: first the x columns by `sx`, then the y columns by `sy`. */
  method RescaleInPlace(a: array<Box>, sx: real, sy: real)
    modifies a
    ensures a[..] == Rescaled(old(a[..]), sx, sy)
  {
    ghost var orig := a[..];
    for i := 0 to a.Length
      invariant forall k :: 0 <= k < i ==> a[k] == ScaleX(orig[k], sx)
      invariant forall k :: i <= k < a.Length ==> a[k] == orig[k]
    {
      a[i] := ScaleX(a[i], sx);
    }
    for i := 0 to a.Length
      invariant forall k :: 0 <= k < i ==> a[k] == ScaleY(ScaleX(orig[k], sx), sy)
      invariant forall k :: i <= k < a.Length ==> a[k] == ScaleX(orig[k], sx)
    {
      a[i] := ScaleY(a[i], sy);
    }
    assert forall k :: 0 <= k < a.Length ==> a[..][k] == Rescaled(orig, sx, sy)[k];
  }

  /** The boolean mask `scores >= threshold`. */
  function KeepMask(scores: seq<real>, threshold: real): (keep: seq<bool>)
    ensures |keep| == |scores|
    ensures forall i :: 0 <= i < |keep| ==> (keep[i] <==> scores[i] >= threshold)
  {
    seq(|scores|, i requires 0 <= i < |scores| => scores[i] >= threshold)
  }

  /** Positions selected by a mask, in increasing order: exactly the positions where it is true. */
  function KeptIndices(keep: seq<bool>): (r: seq<nat>)
    ensures forall j :: 0 <= j < |r| ==> r[j] < |keep| && keep[r[j]]
    ensures forall j, l :: 0 <= j < l < |r| ==> r[j] < r[l]
    ensures forall i :: 0 <= i < |keep| && keep[i] ==> i in r
  {
    if |keep| == 0 then []
    else
      var front := KeptIndices(keep[..|keep| - 1]);
      if keep[|keep| - 1] then front + [|keep| - 1] else front
  }

  /** Boolean-mask indexing `s[keep]`. */
  function Compress<T>(s: seq<T>, keep: seq<bool>): (r: seq<T>)
    requires |s| == |keep|
    ensures |r| == |KeptIndices(keep)|
    ensures forall j :: 0 <= j < |r| ==> r[j] == s[KeptIndices(keep)[j]]
  {
    var idx := KeptIndices(keep);
    seq(|idx|, j requires 0 <= j < |idx| => s[idx[j]])
  }

  /** The scores the threshold is applied to: the resolved ones, or 1.0 for every row. */
  function ScoresToFilter(sel: Selection): (r: seq<real>)
    requires sel.Aligned() && sel.boxes.Some?
    ensures |r| == |sel.boxes.value|
  {
    if sel.scores.Some? then sel.scores.value else Ones(|sel.boxes.value|)
  }

  /** Reference definition of the postprocessor. */
  function Postprocessed(sel: Selection, sx: real, sy: real, threshold: real): (r: Option<DetectionResult>)
    requires sel.Aligned()
    ensures sel.boxes.None? ==> r.None?
    ensures r.Some? ==>
      (|r.value.boxes| > 0 && |r.value.scores| == |r.value.boxes| && |r.value.classes| == |r.value.boxes|)
  {
    match sel.boxes
    case None => None
    case Some(src) =>
      var rows := Rescaled(src, sx, sy);
      var scores := ScoresToFilter(sel);
      var keep := KeepMask(scores, threshold);
      var classes :=
        if sel.classes.Some? && |sel.classes.value| == |keep| then Some(Compress(sel.classes.value, keep))
        else None;
      var kept := Compress(rows, keep);
      if |kept| == 0 then None
      else Some(NewDetectionResult(Some(kept), Some(Compress(scores, keep)), classes))
  }

  /** The postprocessor on a fresh copy of the boxes, rescaled in place and then masked. */
  method Postprocess(sel: Selection, sx: real, sy: real, threshold: real) returns (res: Option<DetectionResult>)
    requires sel.Aligned()
    ensures res == Postprocessed(sel, sx, sy, threshold)
  {
    if sel.boxes.None? {
      return None;
    }
    var src := sel.boxes.value;
    var boxes := new Box[|src|](i requires 0 <= i < |src| => src[i]);
    assert boxes[..] == src;
    RescaleInPlace(boxes, sx, sy);
    var scores := if sel.scores.None? then Ones(boxes.Length) else sel.scores.value;
    var keep := KeepMask(scores, threshold);
    var keptBoxes := Compress(boxes[..], keep);
    var keptScores := Compress(scores, keep);
    var classes: Option<seq<int>>;
    if sel.classes.Some? && |sel.classes.value| == |keep| {
      classes := Some(Compress(sel.classes.value, keep));
    } else {
      classes := None;
    }
    if |keptBoxes| == 0 {
      return None;
    }
    res := Some(NewDetectionResult(Some(keptBoxes), Some(keptScores), classes));
  }

  /** A mask that is true everywhere keeps every position. */
  lemma {:induction false} KeptAll(keep: seq<bool>)
    requires forall i :: 0 <= i < |keep| ==> keep[i]
    ensures |KeptIndices(keep)| == |keep|
  {
    if |keep| > 0 {
      KeptAll(keep[..|keep| - 1]);
    }
  }

  /** A mask selects no position exactly when it is false everywhere. */
  lemma KeptNoneIffAllFalse(keep: seq<bool>)
    ensures |KeptIndices(keep)| == 0 <==> forall i :: 0 <= i < |keep| ==> !keep[i]
  {
  }

  /** Thresholding: a row survives exactly when its score is at least the threshold (the
      boundary is inclusive), survivors keep their relative order, and each surviving box keeps
      its own score; nothing surviving gives `None`. */
  lemma PostprocessKeepsPassingRows(sel: Selection, sx: real, sy: real, threshold: real)
    requires sel.Aligned() && sel.boxes.Some?
    ensures var rows := Rescaled(sel.boxes.value, sx, sy);
      var scores := ScoresToFilter(sel);
      var kept := KeptIndices(KeepMask(scores, threshold));
      var r := Postprocessed(sel, sx, sy, threshold);
      (forall i :: 0 <= i < |rows| ==> (i in kept <==> scores[i] >= threshold)) &&
      (forall j, l :: 0 <= j < l < |kept| ==> kept[j] < kept[l]) &&
      (r.None? <==> forall i :: 0 <= i < |rows| ==> scores[i] < threshold) &&
      (r.Some? ==>
         |r.value.boxes| == |kept| &&
         forall j :: 0 <= j < |kept| ==>
           r.value.boxes[j] == rows[kept[j]] && r.value.scores[j] == scores[kept[j]] &&
           r.value.scores[j] >= threshold)
  {
    var rows := Rescaled(sel.boxes.value, sx, sy);
    var scores := ScoresToFilter(sel);
    var keep := KeepMask(scores, threshold);
    var kept := KeptIndices(keep);
    KeptNoneIffAllFalse(keep);
    assert Postprocessed(sel, sx, sy, threshold).None? <==> |Compress(rows, keep)| == 0;
  }

  /** Classes are filtered with the same mask when they have one entry per row; otherwise they
      are dropped and the result's classes default to zero. */
  lemma PostprocessClasses(sel: Selection, sx: real, sy: real, threshold: real)
    requires sel.Aligned() && sel.boxes.Some?
    requires Postprocessed(sel, sx, sy, threshold).Some?
    ensures var r := Postprocessed(sel, sx, sy, threshold).value;
      var kept := KeptIndices(KeepMask(ScoresToFilter(sel), threshold));
      if sel.classes.Some? && |sel.classes.value| == |sel.boxes.value| then
        forall j :: 0 <= j < |r.classes| ==> r.classes[j] == sel.classes.value[kept[j]]
      else
        forall j :: 0 <= j < |r.classes| ==> r.classes[j] == 0
  {
  }

  /** Without resolved scores every row gets score 1.0, so with a threshold of at most 1.0 every
      box survives. */
  lemma PostprocessMissingScores(sel: Selection, sx: real, sy: real, threshold: real)
    requires sel.Aligned() && sel.boxes.Some? && sel.scores.None?
    ensures var r := Postprocessed(sel, sx, sy, threshold);
      (r.Some? ==> forall j :: 0 <= j < |r.value.scores| ==> r.value.scores[j] == 1.0) &&
      (threshold <= 1.0 && |sel.boxes.value| > 0 ==>
         r.Some? && r.value.boxes == Rescaled(sel.boxes.value, sx, sy))
  {
    var keep := KeepMask(ScoresToFilter(sel), threshold);
    if threshold <= 1.0 && |sel.boxes.value| > 0 {
      KeptAll(keep);
      var kept := KeptIndices(keep);
      forall j | 0 <= j < |kept| ensures kept[j] == j {
        KeptIsIdentity(kept, |keep|, j);
      }
    }
  }

  /** A strictly increasing sequence of `n` indices below `n` is `0, 1, ..., n - 1`. */
  lemma {:induction false} KeptIsIdentity(kept: seq<nat>, n: nat, j: nat)
    requires |kept| == n && j < n
    requires forall k :: 0 <= k < n ==> kept[k] < n
    requires forall k, l :: 0 <= k < l < n ==> kept[k] < kept[l]
    ensures kept[j] == j
  {
    LowerBound(kept, j);
    UpperBound(kept, n, j);
  }

  lemma {:induction false} LowerBound(kept: seq<nat>, j: nat)
    requires j < |kept|
    requires forall k, l :: 0 <= k < l < |kept| ==> kept[k] < kept[l]
    ensures kept[j] >= j
  {
    if j > 0 {
      LowerBound(kept, j - 1);
    }
  }

  lemma {:induction false} UpperBound(kept: seq<nat>, n: nat, j: nat)
    requires |kept| == n && j < n
    requires forall k :: 0 <= k < n ==> kept[k] < n
    requires forall k, l :: 0 <= k < l < n ==> kept[k] < kept[l]
    ensures kept[j] <= j
    decreases n - j
  {
    if j < n - 1 {
      UpperBound(kept, n, j + 1);
    }
  }
}
