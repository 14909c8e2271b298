/** Worked scenarios through the whole detection pipeline. */
module PipelineExamples {
  import opened Wrappers
  import opened Tensors
  import opened Resolver
  import opened InferenceInputs
  import opened Postprocessing
  import opened Detection

  lemma SingleTrueMask()
    ensures KeptIndices([true]) == [0]
  {
    assert [true][..0] == [];
  }

  /** A threshold equal to the score keeps the row; the x columns scale by 2, the y columns by 1. */
  lemma ThresholdBoundaryIsInclusive()
    ensures Postprocessed(Selection(Some([Box(0.0, 0.0, 320.0, 320.0)]), Some([0.3]), None), 2.0, 1.0, 0.3)
         == Some(DetectionResult([Box(0.0, 0.0, 640.0, 320.0)], [0.3], [0]))
  {
    var rows := Rescaled([Box(0.0, 0.0, 320.0, 320.0)], 2.0, 1.0);
    assert rows == [Box(0.0, 0.0, 640.0, 320.0)];
    var keep := KeepMask([0.3], 0.3);
    assert keep == [true];
    SingleTrueMask();
    assert Compress(rows, keep) == rows;
    assert Compress([0.3], keep) == [0.3];
    assert Zeros(1) == [0];
  }

  /** A model with an image input and an `(N,2)` size input gets the image and `[[640,640]]`. */
  lemma SizeInputGetsResizedSide(image: Tensor)
    ensures var declared := [DeclaredInput("images", [Fixed(1), Fixed(3), Fixed(640), Fixed(640)], "tensor(float)"),
                             DeclaredInput("orig_target_sizes", [Unknown, Fixed(2)], "tensor(int64)")];
      Feeds(declared, image) ==
        Success(map["images" := image, "orig_target_sizes" := NdArray([1, 2], Int, [640.0, 640.0])])
  {
    var declared := [DeclaredInput("images", [Fixed(1), Fixed(3), Fixed(640), Fixed(640)], "tensor(float)"),
                     DeclaredInput("orig_target_sizes", [Unknown, Fixed(2)], "tensor(int64)")];
    assert FeedsUpTo(declared, image, 1) == map["images" := image];
    assert AuxFeed(declared[1]) == NdArray([1, 2], Int, [640.0, 640.0]);
    assert FeedsUpTo(declared, image, 2) == map["images" := image][declared[1].name := AuxFeed(declared[1])];
  }

  /** A 1280x640 image and a batched `(1,1,6)` output `[[320,320,640,640,0.95,0]]` with
      threshold 0.3 give one egg at `[640,320,1280,640]` with confidence 0.95. */
  lemma SingleEggEndToEnd(image: Tensor)
    ensures var out: Tensor := NdArray([1, 1, 6], Float, [320.0, 320.0, 640.0, 640.0, 0.95, 0.0]);
      var session := Session([DeclaredInput("images", [Fixed(1), Fixed(3), Fixed(640), Fixed(640)], "tensor(float)")],
                             m => Success([out]));
      Detect(Success(LoadedImage(image, 1280, 640)), session, 0.3) ==
        Success(DetectionOutput(Some(DetectionResult([Box(640.0, 320.0, 1280.0, 640.0)], [0.95], [0])), ["egg"]))
  {
    var out: Tensor := NdArray([1, 1, 6], Float, [320.0, 320.0, 640.0, 640.0, 0.95, 0.0]);
    assert ScaleFactors(LoadedImage(image, 1280, 640)) == (2.0, 1.0);
    BatchedEggOutputResolved(out);
    SingleEggPostprocess();
  }

  lemma SingleEggPostprocess()
    ensures Postprocessed(Selection(Some([Box(320.0, 320.0, 640.0, 640.0)]), Some([0.95]), Some([0])), 2.0, 1.0, 0.3)
         == Some(DetectionResult([Box(640.0, 320.0, 1280.0, 640.0)], [0.95], [0]))
  {
    var rows := Rescaled([Box(320.0, 320.0, 640.0, 640.0)], 2.0, 1.0);
    assert rows == [Box(640.0, 320.0, 1280.0, 640.0)];
    var keep := KeepMask([0.95], 0.3);
    assert keep == [true];
    SingleTrueMask();
    assert Compress(rows, keep) == rows;
    assert Compress([0.95], keep) == [0.95];
    assert Compress([0], keep) == [0];
  }

  lemma BatchedEggOutputResolved(out: Tensor)
    requires out == NdArray([1, 1, 6], Float, [320.0, 320.0, 640.0, 640.0, 0.95, 0.0])
    ensures Resolve([out]) == Selection(Some([Box(320.0, 320.0, 640.0, 640.0)]), Some([0.95]), Some([0]))
  {
    var sq := Squeezed([out]);
    assert sq[0].shape == [1, 6];
    FirstIndexAt(sq, CombinedRows, 0);
    FirstIndexAt(sq, RowsWithClass, 0);
    assert BoxesOf(sq[0]) == [Box(320.0, 320.0, 640.0, 640.0)];
    assert Column(sq[0], 4) == [0.95];
    assert TruncAll(Column(sq[0], 5)) == [0];
  }

  /** An empty `(0,4)` box output means no eggs: a successful answer without a result. */
  lemma EmptyBoxTableMeansNoEggs(image: Tensor)
    ensures var out: Tensor := NdArray([0, 4], Float, []);
      var session := Session([DeclaredInput("images", [Fixed(1), Fixed(3), Fixed(640), Fixed(640)], "tensor(float)")],
                             m => Success([out]));
      Detect(Success(LoadedImage(image, 1280, 640)), session, 0.3) == Success(DetectionOutput(None, ["egg"]))
  {
    var out: Tensor := NdArray([0, 4], Float, []);
    var sq := Squeezed([out]);
    assert sq == [out];
    FirstIndexAt(sq, BoxRows, 0);
    assert BoxesOf(out) == [];
  }
}
