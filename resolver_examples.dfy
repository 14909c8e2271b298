/** Concrete output layouts and what the resolver makes of them. */
module ResolverExamples {
  import opened Wrappers
  import opened Tensors
  import opened Resolver

  /** A batched single-row combined output `(1,1,6)` is squeezed to `(1,6)` and read as one
      detection with box, score and class. */
  lemma BatchedCombinedRow()
    ensures var t: Tensor := NdArray([1, 1, 6], Float, [10.0, 10.0, 50.0, 50.0, 0.9, 0.0]);
      Resolve([t]) == Selection(Some([Box(10.0, 10.0, 50.0, 50.0)]), Some([0.9]), Some([0]))
  {
    var t: Tensor := NdArray([1, 1, 6], Float, [10.0, 10.0, 50.0, 50.0, 0.9, 0.0]);
    var sq := Squeezed([t]);
    assert sq[0].shape == [1, 6];
    FirstIndexAt(sq, CombinedRows, 0);
    FirstIndexAt(sq, RowsWithClass, 0);
    assert BoxesOf(sq[0]) == [Box(10.0, 10.0, 50.0, 50.0)];
    assert Column(sq[0], 4) == [0.9];
    assert TruncAll(Column(sq[0], 5)) == [0];
  }

  /** An unbatched single-row combined output `(1,6)` loses its row dimension to the batch
      squeeze, becomes `(6,)`, and yields no detections at all. */
  lemma UnbatchedSingleRowIsLost()
    ensures var t: Tensor := NdArray([1, 6], Float, [10.0, 10.0, 50.0, 50.0, 0.9, 0.0]);
      Resolve([t]) == Selection(None, None, None)
  {
    var t: Tensor := NdArray([1, 6], Float, [10.0, 10.0, 50.0, 50.0, 0.9, 0.0]);
    assert SqueezeBatch(t).shape == [6];
  }

  const SplitBoxes: Tensor := NdArray([2, 4], Float, [1.0, 2.0, 3.0, 4.0, 5.0, 6.0, 7.0, 8.0])
  const SplitScores: Tensor := NdArray([2], Float, [0.5, 0.25])
  const SplitClasses: Tensor := NdArray([2], Int, [0.0, 1.0])

  /** Which roles each of the three split outputs can play: only the `(N,4)` table is a box
      table, only the float vector a score vector and only the integer vector a class vector. */
  lemma SplitRoles(outs: seq<Tensor>, i: nat, j: nat, k: nat)
    requires |outs| == 3 && i < 3 && j < 3 && k < 3 && i != j && j != k && i != k
    requires outs[i] == SplitBoxes && outs[j] == SplitScores && outs[k] == SplitClasses
    ensures forall m :: 0 <= m < 3 ==> SqueezeBatch(outs[m]) == outs[m]
    ensures forall m :: 0 <= m < 3 ==> !Matches(outs[m], CombinedRows) && !Matches(outs[m], RowsWithClass)
    ensures forall m :: 0 <= m < 3 ==> (Matches(outs[m], BoxRows) <==> m == i)
    ensures forall m :: 0 <= m < 3 ==> (Matches(outs[m], ScoreVector(2)) <==> m == j)
    ensures forall m :: 0 <= m < 3 ==> (Matches(outs[m], ClassVector(2)) <==> m == k)
  {
    assert SqueezeBatch(SplitBoxes) == SplitBoxes;
    assert SqueezeBatch(SplitScores) == SplitScores;
    assert SqueezeBatch(SplitClasses) == SplitClasses;
    forall m | 0 <= m < 3
      ensures outs[m] == SplitBoxes || outs[m] == SplitScores || outs[m] == SplitClasses
    {
      assert m == i || m == j || m == k;
    }
  }

  /** Split outputs: `(N,4)` boxes, a float `(N,)` score vector and an integer `(N,)` class vector
      are recovered and stay aligned by row, whichever of the six orders the model returns them in. */
  lemma SplitOutputs(outs: seq<Tensor>, i: nat, j: nat, k: nat)
    requires |outs| == 3 && i < 3 && j < 3 && k < 3 && i != j && j != k && i != k
    requires outs[i] == SplitBoxes && outs[j] == SplitScores && outs[k] == SplitClasses
    ensures Resolve(outs) ==
      Selection(Some([Box(1.0, 2.0, 3.0, 4.0), Box(5.0, 6.0, 7.0, 8.0)]), Some([0.5, 0.25]), Some([0, 1]))
  {
    SplitRoles(outs, i, j, k);
    ResolveBoxFallback(outs, i);
    assert BoxesOf(SplitBoxes) == [Box(1.0, 2.0, 3.0, 4.0), Box(5.0, 6.0, 7.0, 8.0)];
    ResolveScoreFallback(outs);
    ResolveClassFallback(outs, k);
    assert TruncAll(SplitClasses.data) == [0, 1];
  }

  /** An `(N,5)` output followed by an `(M,6)` output: boxes and scores come from the first,
      classes from the second, so the class list need not have one entry per box. */
  lemma ClassesMayMisalign()
    ensures var five: Tensor := NdArray([2, 5], Float, [0.0, 0.0, 1.0, 1.0, 0.5, 2.0, 2.0, 3.0, 3.0, 0.5]);
      var six: Tensor := NdArray([3, 6], Float, [0.0, 0.0, 1.0, 1.0, 0.5, 0.0,
                                                 0.0, 0.0, 1.0, 1.0, 0.5, 0.0,
                                                 0.0, 0.0, 1.0, 1.0, 0.5, 0.0]);
      var r := Resolve([five, six]);
      r.boxes.Some? && r.classes.Some? && |r.boxes.value| == 2 && |r.classes.value| == 3
  {
  }
}
