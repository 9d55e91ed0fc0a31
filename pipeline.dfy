/**
 * One pass of the main loop between inference and display (lines 46-77):
 * evaluate the frame's detections, then let the alert gate decide on banner
 * and sound.
 */
module Pipeline {
  import opened Food
  import opened Frame
  import opened Alert

  /** The text drawn at the top left of a flagged frame. */
  const BannerText := "Non-Food Item Detected!"
  /** Its colour, (0, 0, 255) in OpenCV's blue-green-red order. */
  const BannerColour := Colour(0, 0, 255)

  /** What is drawn over the frame besides the per-detection annotations. */
  datatype Overlay = NoBanner | Banner(text: string, colour: Colour)

  /** One frame. The flag starts false (line 47), so the verdict depends on
      this frame's detections alone; the banner is drawn whenever the frame is
      flagged; an alert starts only if the frame is flagged and no earlier
      alert is still running. */
  method ProcessFrame(gate: AlertGate, results: seq<seq<Detection>>)
    returns (annotations: seq<Annotation>, overlay: Overlay, startAlert: bool)
    requires gate.Valid()
    modifies gate
    ensures gate.Valid()
    ensures annotations == AnnotateAll(Flatten(results))
    ensures var flagged := exists i, j :: 0 <= i < |results| && 0 <= j < |results[i]| && !IsFood(results[i][j].name);
      && (overlay == if flagged then Banner(BannerText, BannerColour) else NoBanner)
      && (startAlert <==> flagged && !old(gate.busy))
      && gate.History == old(gate.History) + [Verdict(flagged)]
    ensures gate.busy <==> old(gate.busy) || startAlert
  {
    var nonFoodDetected;
    annotations, nonFoodDetected := EvaluateFrame(results);
    var banner;
    banner, startAlert := gate.OnVerdict(nonFoodDetected);
    overlay := if banner then Banner(BannerText, BannerColour) else NoBanner;
  }
}
