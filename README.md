# Egg-detection output normalisation, modelled in Dafny

This project models the serving core of an egg-counting inference service. A detection model's
raw output tensors vary by export in count, order and shape. The core recovers from them one
canonical set of boxes, scores and classes, rescaled to the original image, thresholded, and
reported as `{egg_count, detections[...]}`.

The model follows `utils/detection.py` (its copy `flask-app/utils/detection.py` is
identical line for line) and the `count_eggs` handler of `app.py`:

- `tensors.dfy` (`Tensors`): arrays as shape + element-type tag + row-major data. The subset
  type `Tensor` says the data length is the product of the shape. Also the batch squeeze,
  box rows and columns, and the `astype(int64)` truncation.
- `resolver.dfy` (`Resolver`): the output schema resolver `_select_arrays`. `Resolve` is a
  reference definition by first occurrence. `SelectArrays` and `CombinedPass` are the
  imperative loop and list comprehensions, proved equal to it.
- `inputs.dfy` (`InferenceInputs`): filling the model's declared inputs. The image goes to the
  first input; each extra input gets `[[640,640]]`, `[640,640]` or a scalar `1`.
- `postprocess.dfy` (`Postprocessing`): in-place rescaling on an array, the inclusive threshold
  mask on boxes, scores and classes, and the `DetectionResult` defaults.
- `detection.dfy` (`Detection`): `run_detection` as one composition. The model session is a
  parameter: its declared inputs and its `run` function.
- `app.py` is modelled in `app.dfy` (`App`): body validation, error mapping and the response.
- `resolver_examples.dfy`, `pipeline_examples.dfy`: concrete layouts and end-to-end scenarios.

An unbatched `(1,6)` combined output is squeezed to `(6,)` and the resolver finds no boxes
(`ResolverExamples.UnbatchedSingleRowIsLost`); a batched `(1,1,6)` output gives one detection
(`ResolverExamples.BatchedCombinedRow`).

## Model

| member | source | states |
|---|---|---|
| `Tensors.SqueezeBatch` | utils/detection.py:54-58 | the first dimension is dropped exactly when the rank is at least 2 and it is 1; otherwise the array is unchanged; data and element type are never altered |
| `Tensors.TruncAll` | utils/detection.py:77 | `astype(int64)` keeps the length and truncates each value toward zero |
| `Tensors.TruncToInt` | utils/detection.py:101 | the integer lies within one of the real, on the side of zero |
| `Tensors.BoxesOf` | utils/detection.py:75 | one box per row, made of columns 0-3 of that row |
| `Tensors.Column` | utils/detection.py:76 | one entry per row, the element in the given column |
| `Resolver.Matches` | utils/detection.py:74-101 | a table test implies a 2-D output of width 4 to 6 whose data has rows times width entries (width at least 5 for a combined table, 6 with classes); a vector test of length n implies a 1-D output with n entries |
| `Resolver.Squeezed` | utils/detection.py:70 | same length as the outputs, each element squeezed |
| `Resolver.FirstIndex` | utils/detection.py:85-87 | the index returned is the first one matching the test; `None` exactly when nothing matches |
| `Resolver.FilterHeadIsFirst` | utils/detection.py:85-87 | a candidate list is non-empty exactly when some output matches, and its head is the first match in list order |
| `Resolver.Filter` | utils/detection.py:92 | every candidate is an output that passes the test |
| `Resolver.ScoreFallback` | utils/detection.py:90-94 | a fallback score vector has exactly `n` entries |
| `Resolver.ClassFallback` | utils/detection.py:97-101 | a fallback class vector has exactly `n` entries |
| `Resolver.BoxesFrom` | utils/detection.py:75 | a matched table gives one box per row |
| `Resolver.Resolve` | utils/detection.py:61-103 | scores and classes never appear without boxes; scores have one entry per box; boxes are missing exactly when no squeezed output is 2-D with last dimension 4, 5 or 6 |
| `Resolver.CombinedPass` | utils/detection.py:73-81 | boxes and scores come from the first `(N,5)`/`(N,6)` output, classes from the first `(N,6)` output; later outputs never overwrite a field |
| `Resolver.SelectArrays` | utils/detection.py:61-103 | the imperative resolver returns exactly `Resolve` of its input list, so the same list always gives the same triple |
| `Resolver.FirstIndexAt` | utils/detection.py:85-87 | the first match is determined by the first-match property |
| `Resolver.ResolveFirstCombinedWins` | utils/detection.py:73-79 | boxes are columns 0-3 and scores column 4 of the first combined output |
| `Resolver.ResolveClassesFromFirstWide` | utils/detection.py:77-80 | classes are column 5 of the first `(N,6)` output, even when an earlier `(N,5)` output gave the boxes |
| `Resolver.ResolveClassesOnlyFromWide` | utils/detection.py:77-80 | without an `(N,6)` output, classes can only come from a 1-D integer output of length N |
| `Resolver.ResolveBoxFallback` | utils/detection.py:84-87 | with no combined output, boxes come from the first `(N,4)` output |
| `Resolver.ResolveScoreFallback` | utils/detection.py:90-94 | with `(N,4)` boxes, scores are the first 1-D float output of length N and are missing iff none exists |
| `Resolver.ResolveClassFallback` | utils/detection.py:97-101 | with no `(N,6)` output, classes are the first 1-D integer output of length N |
| `ResolverExamples.BatchedCombinedRow` | utils/detection.py:54-80 | a `(1,1,6)` output gives one box, its score and its class |
| `ResolverExamples.UnbatchedSingleRowIsLost` | utils/detection.py:54-58 | a `(1,6)` output is squeezed to `(6,)` and yields no boxes |
| `ResolverExamples.SplitRoles` | utils/detection.py:84-101 | of the three split outputs, none is a combined table, only the `(N,4)` one passes the box test, only the float vector the score test and only the integer vector the class test |
| `ResolverExamples.SplitOutputs` | utils/detection.py:84-101 | separate `(N,4)`, float `(N,)` and integer `(N,)` outputs are all recovered and aligned, in any of the six list orders |
| `ResolverExamples.ClassesMayMisalign` | utils/detection.py:73-80 | an `(N,5)` then an `(M,6)` output give N boxes but M classes |
| `InferenceInputs.AuxFeed` | flask-app/utils/detection.py:132-147 | an extra input receives either the int pair `[640,640]` (shape `(1,2)` or `(2,)`) or a scalar holding 1 |
| `InferenceInputs.AuxFeedPolicy` | flask-app/utils/detection.py:132-147 | `(?,2)` gets `[[640,640]]`; otherwise 1-D of length 2 or unknown gets `[640,640]`, both int; else scalar 1, float iff the declared type is `tensor(float)` |
| `InferenceInputs.FeedsKeys` | flask-app/utils/detection.py:122-147 | the input mapping holds exactly the declared names |
| `InferenceInputs.FeedsValueAt` | flask-app/utils/detection.py:122-147 | each name holds the value of the last declared input carrying it |
| `InferenceInputs.Feeds` | flask-app/utils/detection.py:122-147 | no declared input is the `IndexError` `list index out of range`; otherwise the mapping's keys are exactly the declared names |
| `InferenceInputs.FirstInputGetsImage` | flask-app/utils/detection.py:122-123 | the first declared input receives the image tensor |
| `InferenceInputs.BuildInputs` | flask-app/utils/detection.py:122-147 | the loop builds exactly `Feeds`; no declared input is an `IndexError` |
| `Postprocessing.NewDetectionResult` | flask-app/utils/detection.py:19-22 | missing boxes become empty; missing scores become ones and missing classes zeros, sized by the boxes |
| `Postprocessing.Rescaled` | flask-app/utils/detection.py:162-163 | same row count; columns 0 and 2 times `sx`, columns 1 and 3 times `sy` |
| `Postprocessing.RescaleInPlace` | flask-app/utils/detection.py:160-163 | after the two column passes the array holds the rescaled boxes |
| `Postprocessing.KeepMask` | flask-app/utils/detection.py:168 | position i is kept iff its score is at least the threshold |
| `Postprocessing.KeptIndices` | flask-app/utils/detection.py:169-170 | the kept positions are in increasing order, all pass the mask, and every passing position is among them |
| `Postprocessing.Compress` | flask-app/utils/detection.py:169-170 | the j-th kept element is the element at the j-th kept position |
| `Postprocessing.ScoresToFilter` | flask-app/utils/detection.py:166-167 | the scores the threshold is applied to (the resolved ones or 1.0 per row) have one entry per box |
| `Postprocessing.Postprocessed` | flask-app/utils/detection.py:155-183 | no boxes give `None`; a result is non-empty with boxes, scores and classes of equal length |
| `Postprocessing.Postprocess` | flask-app/utils/detection.py:155-183 | the array-based postprocessor returns exactly `Postprocessed` |
| `Postprocessing.KeptNoneIffAllFalse` | flask-app/utils/detection.py:176-177 | nothing is kept exactly when the mask is false everywhere |
| `Postprocessing.PostprocessKeepsPassingRows` | flask-app/utils/detection.py:166-177 | a row survives iff score >= threshold; survivors keep their order and their own scores; no survivor gives `None` |
| `Postprocessing.PostprocessClasses` | flask-app/utils/detection.py:171-174 | classes of matching length are masked like the rows; otherwise they are dropped and default to zero |
| `Postprocessing.PostprocessMissingScores` | flask-app/utils/detection.py:166-167 | without scores every row scores 1.0, so with threshold at most 1.0 every box survives |
| `Postprocessing.KeptAll` | flask-app/utils/detection.py:169 | an all-true mask keeps every position |
| `Detection.ScaleFactors` | utils/detection.py:48-49 | `sx * 640` is the original width and `sy * 640` the original height |
| `Detection.Detect` | utils/detection.py:106-183 | labels are always `["egg"]`; image and missing-input failures propagate; a result has equal-length, non-empty fields |
| `Detection.RunDetection` | utils/detection.py:106-183 | the staged method returns exactly `Detect` |
| `Detection.NoCandidateOutputsGiveNoDetections` | utils/detection.py:153-157 | outputs with no 2-D last-dimension 4-6 tensor give a successful `None` |
| `Detection.ReportedScoresPassThreshold` | utils/detection.py:165-179 | every reported score is at least the threshold, one per box |
| `App.Truthy` | app.py:65 | a JSON value is falsy exactly when it is null, false, 0, the empty string, the empty list or the empty object |
| `App.ImagePath` | app.py:63-65 | a path is present iff the body is an object whose `image_path` is truthy |
| `App.StatusCode` | app.py:66 | 200 iff a count; 400 iff a bad request |
| `App.Confidence` | app.py:96 | the confidence of box i is its score when there is one and 1.0 otherwise; with one score per box it is always the box's own score |
| `App.Reports` | app.py:76-102 | a response is a count exactly when detection succeeded, with status 200, and 500 otherwise; a count equals the number of records and ids run from 1 |
| `App.ReportsDeterministic` | app.py:76-102 | a detection outcome determines its response |
| `App.CountEggs` | app.py:62-102 | no path gives 400; a detection exception gives 500 with its message; `None` gives count 0, no records and the info text; otherwise count = boxes and record i is `(i+1, box i, score i or 1.0)` |
| `App.PipelineReportsOwnScores` | app.py:91-100 | a pipeline count is positive, ids run from 1, and each confidence is at least the threshold |
| `PipelineExamples.ThresholdBoundaryIsInclusive` | flask-app/utils/detection.py:160-170 | score equal to threshold is kept; `[0,0,320,320]` with `sx=2, sy=1` becomes `[0,0,640,320]` |
| `PipelineExamples.SizeInputGetsResizedSide` | flask-app/utils/detection.py:122-136 | an image input and an `(N,2)` input get the image and `[[640,640]]` |
| `PipelineExamples.SingleEggEndToEnd` | utils/detection.py:119-183 | a 1280x640 image and `[[320,320,640,640,0.95,0]]` at threshold 0.3 give one egg `[640,320,1280,640]`, score 0.95, class 0 |
| `PipelineExamples.EmptyBoxTableMeansNoEggs` | utils/detection.py:153-177 | an empty `(0,4)` output gives a successful "no detections" |

## Left out

- Image decoding, bilinear resize and `[0,1]` normalisation (`utils/detection.py:34-46`): foreign library calls and floating point. The loaded image is a parameter (`Detection.LoadedImage`); only the scale factors are modelled.
- The inference runtime: `session.get_inputs()` is a list of declared inputs and `session.run` a function parameter whose `Failure` models a runtime exception.
- float32/int64 casts: values are exact reals and unbounded integers; `astype` is modelled only as truncation toward zero, with no 64-bit range or NaN.
- `isinstance(shape, list)` is taken as always true, as the runtime always reports shapes as lists.
- The silent skip when building a scalar `1` fails is not modelled: building a float32 or int64 scalar cannot fail, so the input is always supplied.
- `download_file_if_needed`, the global session, `initialize_sessions` and `validate_session`: file/URL I/O and process-wide state. Localisation is a parameter whose failure is an exception outside the handler's `try`; session creation failures are not modelled.
- `App.CountEggs`: a truthy non-string `image_path` is modelled as one fixed escaping exception, not the exact Python message.
- Flask routing, `request.get_json()` content-type errors, CORS, `/health`, the `timer` decorator, `config.py`, `prepare_dataset.py` and `train_egg_detection.py`: framework, configuration and offline scripts outside the detection core.
