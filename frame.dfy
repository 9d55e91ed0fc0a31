/**
 * One frame's pass over the detector's output: the nested loop that draws one
 * annotation per detection and raises the frame's non-food flag.
 */
module Frame {
  import opened Food

  /** A bounding box (x1, y1, x2, y2) in frame pixels, as handed to the
      drawing calls once the detector's coordinates are cut to integers. */
  datatype Box = Box(x1: int, y1: int, x2: int, y2: int)

  /** One detected object: its label (the class name looked up in the
      detector's label table), and a box and confidence that are only passed
      on to the drawing calls. */
  datatype Detection = Detection(name: string, box: Box, confidence: real)

  /** What the loop draws for one detection: a rectangle at `box` and the
      caption "label confidence", both in `colour`. */
  datatype Annotation = Annotation(name: string, box: Box, confidence: real, colour: Colour)

  /** The annotation drawn for one detection. */
  function Annotate(d: Detection): (a: Annotation)
    ensures a.name == d.name && a.box == d.box && a.confidence == d.confidence
    ensures a.colour == FoodColour <==> IsFood(d.name)
    ensures a.colour == NonFoodColour <==> !IsFood(d.name)
  {
    Annotation(d.name, d.box, d.confidence, BoxColour(d.name))
  }

  /** The detections of a frame in the order the loops visit them: result by
      result, and within a result in box order. */
  function Flatten(results: seq<seq<Detection>>): seq<Detection>
  {
    if results == [] then [] else Flatten(results[..|results| - 1]) + results[|results| - 1]
  }

  /** The loops visit a detection exactly when it belongs to one of the
      frame's results. */
  lemma {:induction false} FlattenMembers(results: seq<seq<Detection>>)
    ensures forall d :: d in Flatten(results) <==> exists i :: 0 <= i < |results| && d in results[i]
  {
    if results != [] {
      var init := results[..|results| - 1];
      FlattenMembers(init);
      assert forall i :: 0 <= i < |init| ==> init[i] == results[i];
    }
  }

  /** The flag after lines 70-71 have run over `ds`, starting from `start`:
      each non-food label sets it, nothing clears it. */
  function ScanFlag(start: bool, ds: seq<Detection>): bool
  {
    if ds == [] then start
    else if !IsFood(ds[|ds| - 1].name) then true
    else ScanFlag(start, ds[..|ds| - 1])
  }

  /** Some detection of `ds` has a label outside the food list. */
  ghost predicate SomeNonFood(ds: seq<Detection>)
  {
    exists d :: d in ds && !IsFood(d.name)
  }

  /** The scan ends with the flag it started with, or-ed with "some label is
      not food". Starting from false, as line 47 does every frame, the flag
      is exactly "some label is not food". */
  lemma {:induction false} ScanFlagMeaning(start: bool, ds: seq<Detection>)
    ensures ScanFlag(start, ds) <==> start || SomeNonFood(ds)
  {
    if ds != [] {
      var init, last := ds[..|ds| - 1], ds[|ds| - 1];
      assert ds == init + [last];
      ScanFlagMeaning(start, init);
      if SomeNonFood(ds) && IsFood(last.name) {
        var d :| d in ds && !IsFood(d.name);
        assert d in init;
      }
    }
  }

  /** Once the flag is set, later detections never clear it. */
  lemma {:induction false} FlagStaysSet(ds: seq<Detection>)
    ensures ScanFlag(true, ds)
  {
    if ds != [] && IsFood(ds[|ds| - 1].name) {
      FlagStaysSet(ds[..|ds| - 1]);
    }
  }

  /** A frame with no results, or whose results hold no boxes, has no
      detections and leaves the flag false. */
  lemma {:induction false} NoDetectionsNoFlag(results: seq<seq<Detection>>)
    requires forall i :: 0 <= i < |results| ==> results[i] == []
    ensures Flatten(results) == []
    ensures !ScanFlag(false, Flatten(results))
  {
    if results != [] {
      NoDetectionsNoFlag(results[..|results| - 1]);
    }
  }

  /** The annotations drawn for `ds`, one per detection, in order. */
  function AnnotateAll(ds: seq<Detection>): (drawn: seq<Annotation>)
    ensures |drawn| == |ds|
  {
    if ds == [] then [] else AnnotateAll(ds[..|ds| - 1]) + [Annotate(ds[|ds| - 1])]
  }

  /** The k-th annotation is the one drawn for the k-th detection. */
  lemma {:induction false} AnnotateAllAt(ds: seq<Detection>, k: nat)
    requires k < |ds|
    ensures AnnotateAll(ds)[k] == Annotate(ds[k])
  {
    if k < |ds| - 1 {
      AnnotateAllAt(ds[..|ds| - 1], k);
    }
  }

  /** "Some detection of the frame is not food", stated over the flattened
      detections and over the results and boxes the loops index. */
  lemma FlattenNonFood(results: seq<seq<Detection>>)
    ensures SomeNonFood(Flatten(results)) <==>
      exists i, j :: 0 <= i < |results| && 0 <= j < |results[i]| && !IsFood(results[i][j].name)
  {
    FlattenMembers(results);
    if SomeNonFood(Flatten(results)) {
      var d :| d in Flatten(results) && !IsFood(d.name);
      var i :| 0 <= i < |results| && d in results[i];
      var j :| 0 <= j < |results[i]| && results[i][j] == d;
    }
    if exists i, j :: 0 <= i < |results| && 0 <= j < |results[i]| && !IsFood(results[i][j].name) {
      var i, j :| 0 <= i < |results| && 0 <= j < |results[i]| && !IsFood(results[i][j].name);
      assert results[i][j] in results[i];
      assert results[i][j] in Flatten(results);
    }
  }

  /** What the frame's annotations and flag mean: one annotation per visited
      detection, in order, and the flag exactly when some box of some result
      has a non-food label. */
  lemma FrameVerdictMeaning(results: seq<seq<Detection>>)
    ensures var ds := Flatten(results);
      && |AnnotateAll(ds)| == |ds|
      && (forall k :: 0 <= k < |ds| ==> AnnotateAll(ds)[k] == Annotate(ds[k]))
      && (ScanFlag(false, ds) <==>
          exists i, j :: 0 <= i < |results| && 0 <= j < |results[i]| && !IsFood(results[i][j].name))
  {
    ghost var ds := Flatten(results);
    forall k | 0 <= k < |ds| ensures AnnotateAll(ds)[k] == Annotate(ds[k]) {
      AnnotateAllAt(ds, k);
    }
    ScanFlagMeaning(false, ds);
    FlattenNonFood(results);
  }

  /** Appending one detection appends its annotation and applies lines 70-71
      to the flag once more. */
  lemma StepOne(start: bool, ds: seq<Detection>, d: Detection)
    ensures AnnotateAll(ds + [d]) == AnnotateAll(ds) + [Annotate(d)]
    ensures ScanFlag(start, ds + [d]) == (ScanFlag(start, ds) || !IsFood(d.name))
  {
    assert (ds + [d])[..|ds|] == ds;
  }

  /** The detections visited after r + 1 results are those after r results
      followed by the boxes of result r. */
  lemma FlattenStep(results: seq<seq<Detection>>, r: nat)
    requires r < |results|
    ensures Flatten(results[..r + 1]) == Flatten(results[..r]) + results[r]
  {
    assert results[..r + 1][..r] == results[..r];
  }

  /** Annotating two stretches of detections in turn annotates their
      concatenation. */
  lemma {:induction false} AnnotateAllAppend(xs: seq<Detection>, ys: seq<Detection>)
    ensures AnnotateAll(xs + ys) == AnnotateAll(xs) + AnnotateAll(ys)
    decreases |ys|
  {
    if ys == [] {
      assert xs + ys == xs;
    } else {
      var init, last := ys[..|ys| - 1], ys[|ys| - 1];
      assert xs + ys == (xs + init) + [last];
      assert ys == init + [last];
      StepOne(false, xs + init, last);
      StepOne(false, init, last);
      AnnotateAllAppend(xs, init);
    }
  }

  /** Scanning two stretches of detections in turn, the second starting from
      the flag the first left, scans their concatenation. */
  lemma {:induction false} ScanFlagAppend(start: bool, xs: seq<Detection>, ys: seq<Detection>)
    ensures ScanFlag(start, xs + ys) == ScanFlag(ScanFlag(start, xs), ys)
    decreases |ys|
  {
    if ys == [] {
      assert xs + ys == xs;
    } else {
      var init, last := ys[..|ys| - 1], ys[|ys| - 1];
      assert xs + ys == (xs + init) + [last];
      assert ys == init + [last];
      StepOne(start, xs + init, last);
      StepOne(ScanFlag(start, xs), init, last);
      ScanFlagAppend(start, xs, init);
    }
  }

  /** The inner loop over the boxes of one result (lines 55-71): it appends
      one annotation per box, in box order, and applies the non-food test of
      lines 70-71 to the flag once per box. */
  method EvaluateResult(boxes: seq<Detection>, annotations: seq<Annotation>, nonFoodDetected: bool)
    returns (annotations': seq<Annotation>, nonFoodDetected': bool)
    ensures annotations' == annotations + AnnotateAll(boxes)
    ensures nonFoodDetected' == ScanFlag(nonFoodDetected, boxes)
  {
    annotations', nonFoodDetected' := annotations, nonFoodDetected;
    ghost var seen: seq<Detection> := [];
    var i := 0;
    while i < |boxes|
      invariant 0 <= i <= |boxes|
      invariant seen == boxes[..i]
      invariant annotations' == annotations + AnnotateAll(seen)
      invariant nonFoodDetected' == ScanFlag(nonFoodDetected, seen)
    {
      var d := boxes[i];
      var colour := BoxColour(d.name);
      assert Annotation(d.name, d.box, d.confidence, colour) == Annotate(d);
      annotations' := annotations' + [Annotation(d.name, d.box, d.confidence, colour)];
      if !IsFood(d.name) {
        nonFoodDetected' := true;
      }
      StepOne(nonFoodDetected, seen, d);
      seen := seen + [d];
      i := i + 1;
    }
    assert boxes[..i] == boxes;
  }

  /** The nested loop of one frame (lines 47 and 50-71). The box and the
      caption are drawn in place on the frame by the source; here each
      drawing is the annotation record appended to `annotations`. The flag
      starts false, so the verdict depends on this frame alone. */
  method EvaluateFrame(results: seq<seq<Detection>>)
    returns (annotations: seq<Annotation>, nonFoodDetected: bool)
    ensures annotations == AnnotateAll(Flatten(results))
    ensures |annotations| == |Flatten(results)|
    ensures forall k :: 0 <= k < |annotations| ==> annotations[k] == Annotate(Flatten(results)[k])
    ensures nonFoodDetected == ScanFlag(false, Flatten(results))
    ensures nonFoodDetected <==>
      exists i, j :: 0 <= i < |results| && 0 <= j < |results[i]| && !IsFood(results[i][j].name)
  {
    nonFoodDetected := false;
    annotations := [];
    var r := 0;
    while r < |results|
      invariant 0 <= r <= |results|
      invariant annotations == AnnotateAll(Flatten(results[..r]))
      invariant nonFoodDetected == ScanFlag(false, Flatten(results[..r]))
    {
      ghost var done := Flatten(results[..r]);
      annotations, nonFoodDetected := EvaluateResult(results[r], annotations, nonFoodDetected);
      FlattenStep(results, r);
      AnnotateAllAppend(done, results[r]);
      ScanFlagAppend(false, done, results[r]);
      r := r + 1;
    }
    assert results[..r] == results;
    FrameVerdictMeaning(results);
  }
}
