/** The output schema resolver (`_select_arrays`): recovers boxes, scores and classes from an
    ordered list of model outputs using only their shapes and element types. */
module Resolver {
  import opened Wrappers
  import opened Tensors

  /** The shape tests the resolver applies to a (squeezed) output. */
  datatype Query =
    | CombinedRows      // (N,5) or (N,6): [x1,y1,x2,y2,score(,class)]
    | RowsWithClass     // (N,6)
    | BoxRows           // (N,4)
    | ScoreVector(n: nat)  // (n,) with a floating-point element type
    | ClassVector(n: nat)  // (n,) with an integer element type

  predicate Matches(t: Tensor, q: Query)
    ensures Matches(t, q) && (q.CombinedRows? || q.RowsWithClass? || q.BoxRows?) ==>
      IsMatrix(t) && 4 <= Width(t) <= 6 && |t.data| == Rows(t) * Width(t)
    ensures Matches(t, q) && q.CombinedRows? ==> Width(t) >= 5
    ensures Matches(t, q) && q.RowsWithClass? ==> Width(t) == 6
    ensures Matches(t, q) && (q.ScoreVector? || q.ClassVector?) ==> |t.shape| == 1 && |t.data| == q.n
  {
    match q
    case CombinedRows => |t.shape| == 2 && (MatrixSize(t); t.shape[1] == 5 || t.shape[1] == 6)
    case RowsWithClass => |t.shape| == 2 && (MatrixSize(t); t.shape[1] == 6)
    case BoxRows => |t.shape| == 2 && (MatrixSize(t); t.shape[1] == 4)
    case ScoreVector(n) => |t.shape| == 1 && (VectorSize(t); t.shape[0] == n && t.dtype == Float)
    case ClassVector(n) => |t.shape| == 1 && (VectorSize(t); t.shape[0] == n && t.dtype == Int)
  }

  /** Index of the first element of `s` that passes `q`, if any. */
  function FirstIndex(s: seq<Tensor>, q: Query): (r: Option<nat>)
    ensures r.Some? ==> r.value < |s| && Matches(s[r.value], q)
    ensures r.Some? ==> forall j :: 0 <= j < r.value ==> !Matches(s[j], q)
    ensures r.None? <==> forall j :: 0 <= j < |s| ==> !Matches(s[j], q)
  {
    if |s| == 0 then None
    else if Matches(s[0], q) then Some(0)
    else
      match FirstIndex(s[1..], q)
      case None => None
      case Some(k) => Some(k + 1)
  }

  /** The list comprehension `[o for o in s if q(o)]`. */
  function Filter(s: seq<Tensor>, q: Query): (r: seq<Tensor>)
    ensures |r| <= |s|
    ensures forall t :: t in r ==> t in s && Matches(t, q)
  {
    if |s| == 0 then []
    else if Matches(s[0], q) then [s[0]] + Filter(s[1..], q)
    else Filter(s[1..], q)
  }

  /** Taking `candidates[0]` of a filtered list is taking the first match. */
  lemma {:induction false} FilterHeadIsFirst(s: seq<Tensor>, q: Query)
    ensures |Filter(s, q)| > 0 <==> FirstIndex(s, q).Some?
    ensures |Filter(s, q)| > 0 ==> Filter(s, q)[0] == s[FirstIndex(s, q).value]
  {
    if |s| > 0 && !Matches(s[0], q) {
      FilterHeadIsFirst(s[1..], q);
    }
  }

  /** The resolver's answer; a missing field is `None`. */
  datatype Selection = Selection(boxes: Option<seq<Box>>, scores: Option<seq<real>>, classes: Option<seq<int>>)
  {
    /** Scores, when present, have one entry per box. */
    predicate Aligned()
    {
      (boxes.None? ==> scores.None? && classes.None?) &&
      (boxes.Some? && scores.Some? ==> |scores.value| == |boxes.value|)
    }
  }

  /** Every output with its batch dimension squeezed. */
  function Squeezed(outputs: seq<Tensor>): (r: seq<Tensor>)
    ensures |r| == |outputs|
    ensures forall i :: 0 <= i < |r| ==> r[i] == SqueezeBatch(outputs[i])
  {
    seq(|outputs|, i requires 0 <= i < |outputs| => SqueezeBatch(outputs[i]))
  }

  /** Box rows of a matched (N,4), (N,5) or (N,6) tensor. */
  function BoxesFrom(t: Tensor): (r: seq<Box>)
    requires Matches(t, CombinedRows) || Matches(t, BoxRows)
    ensures |r| == Rows(t)
  {
    BoxesOf(t)
  }

  /** Scores of the first score vector of length `n`, if any (the score fallback). */
  function ScoreFallback(sq: seq<Tensor>, n: nat): (r: Option<seq<real>>)
    ensures r.Some? ==> |r.value| == n
  {
    match FirstIndex(sq, ScoreVector(n))
    case None => None
    case Some(k) => VectorSize(sq[k]); Some(sq[k].data)
  }

  /** Classes of the first integer vector of length `n`, if any (the class fallback). */
  function ClassFallback(sq: seq<Tensor>, n: nat): (r: Option<seq<int>>)
    ensures r.Some? ==> |r.value| == n
  {
    match FirstIndex(sq, ClassVector(n))
    case None => None
    case Some(k) => VectorSize(sq[k]); Some(TruncAll(sq[k].data))
  }

  /** Reference definition of the resolver: each field comes from the FIRST output, in list
      order, that can supply it; the `(N,4)`, score and class fallbacks only fill gaps. */
  function Resolve(outputs: seq<Tensor>): (r: Selection)
    ensures r.Aligned()
    ensures r.boxes.None? <==>
      forall j :: 0 <= j < |outputs| ==>
        !Matches(SqueezeBatch(outputs[j]), CombinedRows) && !Matches(SqueezeBatch(outputs[j]), BoxRows)
  {
    var sq := Squeezed(outputs);
    var combined := FirstIndex(sq, CombinedRows);
    var withClass := FirstIndex(sq, RowsWithClass);
    var boxTable := FirstIndex(sq, BoxRows);
    if combined.Some? then
      var t := sq[combined.value];
      var boxes := BoxesFrom(t);
      Selection(Some(boxes), Some(Column(t, 4)),
        if withClass.Some? then Some(TruncAll(Column(sq[withClass.value], 5)))
        else ClassFallback(sq, |boxes|))
    else if boxTable.Some? then
      var boxes := BoxesFrom(sq[boxTable.value]);
      Selection(Some(boxes), ScoreFallback(sq, |boxes|), ClassFallback(sq, |boxes|))
    else
      Selection(None, None, None)
  }

  /** The combined-row pass: every (N,5)/(N,6) output is looked at, and each field keeps the
      value of the first output that supplied it. */
  method CombinedPass(squeezed: seq<Tensor>)
    returns (boxes: Option<seq<Box>>, scores: Option<seq<real>>, classes: Option<seq<int>>)
    ensures var k := FirstIndex(squeezed, CombinedRows);
      boxes == (if k.Some? then Some(BoxesFrom(squeezed[k.value])) else None) &&
      scores == (if k.Some? then Some(Column(squeezed[k.value], 4)) else None)
    ensures var k := FirstIndex(squeezed, RowsWithClass);
      classes == if k.Some? then Some(TruncAll(Column(squeezed[k.value], 5))) else None
  {
    boxes, scores, classes := None, None, None;
    ghost var combined: Option<nat> := None;
    ghost var withClass: Option<nat> := None;
    for i := 0 to |squeezed|
      invariant combined.None? ==> forall j :: 0 <= j < i ==> !Matches(squeezed[j], CombinedRows)
      invariant combined.Some? ==> combined.value < i && Matches(squeezed[combined.value], CombinedRows)
      invariant combined.Some? ==> forall j :: 0 <= j < combined.value ==> !Matches(squeezed[j], CombinedRows)
      invariant withClass.None? ==> forall j :: 0 <= j < i ==> !Matches(squeezed[j], RowsWithClass)
      invariant withClass.Some? ==> withClass.value < i && Matches(squeezed[withClass.value], RowsWithClass)
      invariant withClass.Some? ==> forall j :: 0 <= j < withClass.value ==> !Matches(squeezed[j], RowsWithClass)
      invariant boxes == if combined.Some? then Some(BoxesFrom(squeezed[combined.value])) else None
      invariant scores == if combined.Some? then Some(Column(squeezed[combined.value], 4)) else None
      invariant classes == if withClass.Some? then Some(TruncAll(Column(squeezed[withClass.value], 5))) else None
    {
      var out := squeezed[i];
      if |out.shape| == 2 && (out.shape[1] == 5 || out.shape[1] == 6) {
        var b := BoxesOf(out);
        var s := Column(out, 4);
        var c: Option<seq<int>> := if out.shape[1] == 6 then Some(TruncAll(Column(out, 5))) else None;
        if boxes.None? { combined := Some(i); }
        if classes.None? && c.Some? { withClass := Some(i); }
        boxes := if boxes.None? then Some(b) else boxes;
        scores := if scores.None? then Some(s) else scores;
        classes := if classes.None? && c.Some? then c else classes;
      }
    }
    assert combined == FirstIndex(squeezed, CombinedRows);
    assert withClass == FirstIndex(squeezed, RowsWithClass);
  }

  /** The imperative resolver: the combined-row pass, then the `(N,4)`, score and class
      fallbacks over filtered candidate lists. */
  method SelectArrays(outputs: seq<Tensor>) returns (sel: Selection)
    ensures sel == Resolve(outputs)
  {
    var squeezed := Squeezed(outputs);
    var boxes, scores, classes := CombinedPass(squeezed);
    ghost var combined := FirstIndex(squeezed, CombinedRows);
    assert combined.None? ==> FirstIndex(squeezed, RowsWithClass).None?;

    if boxes.None? {
      var candidates := Filter(squeezed, BoxRows);
      FilterHeadIsFirst(squeezed, BoxRows);
      if |candidates| > 0 {
        boxes := Some(BoxesFrom(candidates[0]));
      }
    }

    if boxes.Some? && scores.None? {
      var n := |boxes.value|;
      var candScores := Filter(squeezed, ScoreVector(n));
      FilterHeadIsFirst(squeezed, ScoreVector(n));
      if |candScores| > 0 {
        scores := Some(candScores[0].data);
      }
    }

    if boxes.Some? && classes.None? {
      var n := |boxes.value|;
      var candClasses := Filter(squeezed, ClassVector(n));
      FilterHeadIsFirst(squeezed, ClassVector(n));
      if |candClasses| > 0 {
        classes := Some(TruncAll(candClasses[0].data));
      }
    }
    sel := Selection(boxes, scores, classes);
  }

  /** `FirstIndex` is determined by the first-match property. */
  lemma FirstIndexAt(s: seq<Tensor>, q: Query, k: nat)
    requires k < |s| && Matches(s[k], q)
    requires forall j :: 0 <= j < k ==> !Matches(s[j], q)
    ensures FirstIndex(s, q) == Some(k)
  {
  }

  /** The first combined (N,5)/(N,6) output supplies the boxes (columns 0-3) and the scores
      (column 4); later combined outputs never replace them. */
  lemma ResolveFirstCombinedWins(outputs: seq<Tensor>, k: nat)
    requires k < |outputs| && Matches(SqueezeBatch(outputs[k]), CombinedRows)
    requires forall j :: 0 <= j < k ==> !Matches(SqueezeBatch(outputs[j]), CombinedRows)
    ensures Resolve(outputs).boxes == Some(BoxesOf(SqueezeBatch(outputs[k])))
    ensures Resolve(outputs).scores == Some(Column(SqueezeBatch(outputs[k]), 4))
  {
  }

  /** Classes come from column 5 of the first (N,6) output, even when an earlier (N,5)
      output supplied the boxes. */
  lemma ResolveClassesFromFirstWide(outputs: seq<Tensor>, k: nat)
    requires k < |outputs| && Matches(SqueezeBatch(outputs[k]), RowsWithClass)
    requires forall j :: 0 <= j < k ==> !Matches(SqueezeBatch(outputs[j]), RowsWithClass)
    ensures Resolve(outputs).classes == Some(TruncAll(Column(SqueezeBatch(outputs[k]), 5)))
  {
  }

  /** Without an (N,6) output, classes can only come from a 1-D integer output with one
      entry per box. */
  lemma ResolveClassesOnlyFromWide(outputs: seq<Tensor>)
    requires forall j :: 0 <= j < |outputs| ==> !Matches(SqueezeBatch(outputs[j]), RowsWithClass)
    ensures var r := Resolve(outputs);
      r.classes.Some? ==>
        (r.boxes.Some? &&
         exists k :: 0 <= k < |outputs| && Matches(SqueezeBatch(outputs[k]), ClassVector(|r.boxes.value|)) &&
           r.classes.value == TruncAll(SqueezeBatch(outputs[k]).data))
  {
  }

  /** The (N,4) fallback is used only when no output is combined, and then the first (N,4)
      output supplies the boxes. */
  lemma ResolveBoxFallback(outputs: seq<Tensor>, k: nat)
    requires forall j :: 0 <= j < |outputs| ==> !Matches(SqueezeBatch(outputs[j]), CombinedRows)
    requires k < |outputs| && Matches(SqueezeBatch(outputs[k]), BoxRows)
    requires forall j :: 0 <= j < k ==> !Matches(SqueezeBatch(outputs[j]), BoxRows)
    ensures Resolve(outputs).boxes == Some(BoxesOf(SqueezeBatch(outputs[k])))
  {
  }

  /** When boxes come from an (N,4) output, the scores are the first 1-D floating-point output
      of length N, and are missing exactly when there is none. */
  lemma ResolveScoreFallback(outputs: seq<Tensor>)
    requires forall j :: 0 <= j < |outputs| ==> !Matches(SqueezeBatch(outputs[j]), CombinedRows)
    requires Resolve(outputs).boxes.Some?
    ensures var n := |Resolve(outputs).boxes.value|;
      (Resolve(outputs).scores.Some? <==>
         exists k :: 0 <= k < |outputs| && Matches(SqueezeBatch(outputs[k]), ScoreVector(n))) &&
      forall k :: 0 <= k < |outputs| && Matches(SqueezeBatch(outputs[k]), ScoreVector(n)) &&
                  (forall j :: 0 <= j < k ==> !Matches(SqueezeBatch(outputs[j]), ScoreVector(n))) ==>
        Resolve(outputs).scores == Some(SqueezeBatch(outputs[k]).data)
  {
  }

  /** When no (N,6) output exists, the classes are the first 1-D integer output whose length
      is the number of boxes. */
  lemma ResolveClassFallback(outputs: seq<Tensor>, k: nat)
    requires forall j :: 0 <= j < |outputs| ==> !Matches(SqueezeBatch(outputs[j]), RowsWithClass)
    requires Resolve(outputs).boxes.Some?
    requires k < |outputs| && Matches(SqueezeBatch(outputs[k]), ClassVector(|Resolve(outputs).boxes.value|))
    requires forall j :: 0 <= j < k ==>
      !Matches(SqueezeBatch(outputs[j]), ClassVector(|Resolve(outputs).boxes.value|))
    ensures Resolve(outputs).classes == Some(TruncAll(SqueezeBatch(outputs[k]).data))
  {
    var sq := Squeezed(outputs);
    assert FirstIndex(sq, RowsWithClass).None?;
    FirstIndexAt(sq, ClassVector(|Resolve(outputs).boxes.value|), k);
  }
}
