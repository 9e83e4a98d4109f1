/**
 * Client-side image normalisation. An uploaded image whose data URL is estimated
 * above 4 MiB, or whose width or height exceeds 2048 pixels, is redrawn with its
 * longer side clamped to 2048 and re-encoded as JPEG at falling quality until the
 * estimate fits or the quality reaches its floor; a result still above 5 MiB is
 * refused, anything else becomes the session's image.
 *
 * The canvas encoder is a function parameter from (width, height, quality) to the
 * data URL; the decoded image is given as its natural width and height.
 */
module ImageUpload {
  import opened Wrappers
  import opened State

  /** The re-encoding budget, 4 MiB. */
  const MaxSize: real := 4194304.0
  /** The hard ceiling, 5 MiB. */
  const HardCap: real := 5242880.0
  /** The longest side allowed, in pixels. */
  const MaxDimension: real := 2048.0
  /** The loop's floor `0.3`, as the IEEE double it is. */
  const QualityFloor: real := 0.299999999999999988897769753748434595763683319091796875

  /** `s.length * 0.75`: the decoded-bytes estimate of a base64 data URL. */
  function Estimate(s: string): real {
    |s| as real * 0.75
  }

  /**
   * The value of `quality` after `k` executions of `quality -= 0.1` from `0.9`, each
   * value the exact IEEE double the subtraction yields.
   */
  function Quality(k: nat): real
    requires k <= 7
  {
    if k == 0 then 0.90000000000000002220446049250313080847263336181640625
    else if k == 1 then 0.8000000000000000444089209850062616169452667236328125
    else if k == 2 then 0.70000000000000006661338147750939242541790008544921875
    else if k == 3 then 0.600000000000000088817841970012523233890533447265625
    else if k == 4 then 0.50000000000000011102230246251565404236316680908203125
    else if k == 5 then 0.4000000000000001332267629550187848508358001708984375
    else if k == 6 then 0.30000000000000015543122344752191565930843353271484375
    else 0.2000000000000001498801083243961329571902751922607421875
  }

  /**
   * Each step lowers the quality, by a tenth up to rounding; the first seven values lie
   * above the floor and the eighth below it, so the loop cannot step past it.
   */
  lemma QualitySteps(k: nat)
    requires k < 7
    ensures Quality(k + 1) < Quality(k)
    ensures -1.0 / 1000000000000000.0 < Quality(k) - Quality(k + 1) - 0.1 < 1.0 / 1000000000000000.0
    ensures Quality(k) > QualityFloor
    ensures Quality(7) <= QualityFloor
  {
  }

  /** `currentSize > maxSize || img.width > 2048 || img.height > 2048`. */
  predicate NeedsReencode(dataUrl: string, width: nat, height: nat) {
    Estimate(dataUrl) > MaxSize || width as real > MaxDimension || height as real > MaxDimension
  }

  /**
   * The canvas size: unchanged when both sides fit; otherwise the longer side becomes
   * 2048 and the other keeps the aspect ratio (a square takes the second branch).
   */
  function ClampDimensions(width: nat, height: nat): (r: (real, real))
    ensures width as real <= MaxDimension && height as real <= MaxDimension ==> r == (width as real, height as real)
    ensures width as real > MaxDimension || height as real > MaxDimension ==>
              && (width > height ==> r.0 == MaxDimension)
              && (width <= height ==> r.1 == MaxDimension)
              && 0.0 <= r.0 <= MaxDimension && 0.0 <= r.1 <= MaxDimension
              && r.0 * height as real == r.1 * width as real
  {
    var w := width as real;
    var h := height as real;
    if w > MaxDimension || h > MaxDimension then
      if w > h then (MaxDimension, (h / w) * MaxDimension)
      else ((w / h) * MaxDimension, MaxDimension)
    else (w, h)
  }

  /** A square image larger than the limit becomes 2048 by 2048. */
  lemma SquareClamp(side: nat)
    requires side as real > MaxDimension
    ensures ClampDimensions(side, side) == (MaxDimension, MaxDimension)
  {
  }

  /**
   * The quality-descent loop from step `k` on: encode, and step down while the estimate
   * exceeds the budget and the quality is above the floor. Yields the last encoding
   * and the number of steps taken from 0.9.
   */
  function Compress(encode: (real, real, real) -> string, width: real, height: real, k: nat): (r: (string, nat))
    requires k <= 7
    ensures k <= r.1 <= 7
    ensures r.0 == encode(width, height, Quality(r.1))
    ensures Estimate(r.0) <= MaxSize || Quality(r.1) <= QualityFloor
    ensures forall j | k <= j < r.1 :: Estimate(encode(width, height, Quality(j))) > MaxSize && Quality(j) > QualityFloor
    decreases 7 - k
  {
    var payload := encode(width, height, Quality(k));
    if Estimate(payload) > MaxSize && Quality(k) > QualityFloor then
      Compress(encode, width, height, k + 1)
    else
      (payload, k)
  }

  /**
   * The source's `while` loop over `quality` and `compressedResult`: the result is the
   * first encoding within budget, or the one at the lowest quality tried, after at most
   * eight encodings.
   */
  method CompressToBudget(encode: (real, real, real) -> string, width: real, height: real)
    returns (payload: string, quality: real, steps: nat)
    ensures (payload, steps) == Compress(encode, width, height, 0)
    ensures steps <= 7 && quality == Quality(steps)
    ensures Estimate(payload) <= MaxSize || quality <= QualityFloor
  {
    steps := 0;
    quality := Quality(0);
    payload := encode(width, height, quality);
    while Estimate(payload) > MaxSize && quality > QualityFloor
      invariant steps <= 7 && quality == Quality(steps)
      invariant payload == encode(width, height, quality)
      invariant Compress(encode, width, height, steps) == Compress(encode, width, height, 0)
      decreases 7 - steps
    {
      steps := steps + 1;
      quality := Quality(steps);
      payload := encode(width, height, quality);
    }
  }

  datatype UploadOutcome =
    | NoData                    // the reader produced no result
    | DecodeFailed              // the image could not be loaded
    | CanvasUnsupported         // re-encoding was needed but no 2D context exists
    | TooLarge(size: real)      // the final estimate exceeds 5 MiB
    | Accepted(payload: string, resized: bool)

  /** What one upload ends in, from the data URL read, the decoded size and the encoder. */
  function UploadDecision(dataUrl: string, decoded: Option<(nat, nat)>, canvasAvailable: bool,
                          encode: (real, real, real) -> string): UploadOutcome
  {
    if dataUrl == "" then NoData
    else if decoded.None? then DecodeFailed
    else
      var (w, h) := decoded.value;
      if NeedsReencode(dataUrl, w, h) && !canvasAvailable then CanvasUnsupported
      else
        var resized := NeedsReencode(dataUrl, w, h);
        var (cw, ch) := ClampDimensions(w, h);
        var final := if resized then Compress(encode, cw, ch, 0).0 else dataUrl;
        if Estimate(final) > HardCap then TooLarge(Estimate(final)) else Accepted(final, resized)
  }

  /**
   * An image that needs no re-encoding is stored as it was read, never resized, and
   * never refused; only a re-encoded image can exceed the ceiling.
   */
  lemma SmallImageKeptAsIs(dataUrl: string, w: nat, h: nat, canvasAvailable: bool, encode: (real, real, real) -> string)
    requires dataUrl != "" && !NeedsReencode(dataUrl, w, h)
    ensures UploadDecision(dataUrl, Some((w, h)), canvasAvailable, encode) == Accepted(dataUrl, false)
  {
  }

  /** Whatever is accepted fits under 5 MiB; a refusal only follows a re-encoding. */
  lemma AcceptedWithinCeiling(dataUrl: string, decoded: Option<(nat, nat)>, canvasAvailable: bool, encode: (real, real, real) -> string)
    ensures var o := UploadDecision(dataUrl, decoded, canvasAvailable, encode);
            && (o.Accepted? ==> Estimate(o.payload) <= HardCap && (o.resized <==> NeedsReencode(dataUrl, decoded.value.0, decoded.value.1)))
            && (o.TooLarge? ==> o.size > HardCap && NeedsReencode(dataUrl, decoded.value.0, decoded.value.1))
  {
  }

  /**
   * When only the byte estimate triggers re-encoding, the encoder sees the original
   * dimensions; when a side is too large it sees the clamped ones.
   */
  lemma BudgetOnlyKeepsDimensions(dataUrl: string, w: nat, h: nat, encode: (real, real, real) -> string)
    requires dataUrl != "" && Estimate(dataUrl) > MaxSize && w as real <= MaxDimension && h as real <= MaxDimension
    ensures var o := UploadDecision(dataUrl, Some((w, h)), true, encode);
            var (p, k) := Compress(encode, w as real, h as real, 0);
            o == (if Estimate(p) > HardCap then TooLarge(Estimate(p)) else Accepted(p, true))
  {
  }

  /** The upload widget's elements the handlers change. */
  class UploadPanel {
    var inputValue: string
    var previewSrc: string
    var uploadAreaShown: bool
    var previewShown: bool
    var analyzeDisabled: bool

    constructor()
      ensures inputValue == "" && previewSrc == "" && uploadAreaShown && !previewShown && analyzeDisabled
    {
      inputValue := "";
      previewSrc := "";
      uploadAreaShown := true;
      previewShown := false;
      analyzeDisabled := true;
    }
  }

  /**
   * The reader's and the image's load handlers: decide, and on acceptance store the
   * payload as the session's image, show it and enable the analyze button. Every other
   * outcome leaves the session and the widget as they were.
   */
  method HandleImageUpload(session: Session, panel: UploadPanel, dataUrl: string, decoded: Option<(nat, nat)>,
                           canvasAvailable: bool, encode: (real, real, real) -> string)
    returns (outcome: UploadOutcome)
    modifies session`uploadedImageData, panel
    ensures outcome == UploadDecision(dataUrl, decoded, canvasAvailable, encode)
    ensures outcome.Accepted? ==> && session.uploadedImageData == Some(outcome.payload)
                                   && panel.previewSrc == outcome.payload && !panel.analyzeDisabled
                                   && !panel.uploadAreaShown && panel.previewShown
                                   && panel.inputValue == old(panel.inputValue)
    ensures !outcome.Accepted? ==> session.uploadedImageData == old(session.uploadedImageData) && unchanged(panel)
  {
    if dataUrl == "" {
      return NoData;
    }
    if decoded.None? {
      return DecodeFailed;
    }
    var (w, h) := decoded.value;
    var finalResult := dataUrl;
    var wasResized := false;
    if NeedsReencode(dataUrl, w, h) {
      if !canvasAvailable {
        return CanvasUnsupported;
      }
      var (width, height) := ClampDimensions(w, h);
      var compressed, quality, steps := CompressToBudget(encode, width, height);
      finalResult := compressed;
      wasResized := true;
    }
    var finalSize := Estimate(finalResult);
    if finalSize > HardCap {
      return TooLarge(finalSize);
    }
    panel.previewSrc := finalResult;
    session.uploadedImageData := Some(finalResult);
    panel.uploadAreaShown := false;
    panel.previewShown := true;
    panel.analyzeDisabled := false;
    outcome := Accepted(finalResult, wasResized);
  }

  /** The remove button: the input and preview are cleared, the image dropped, analyze disabled. */
  method RemoveImage(session: Session, panel: UploadPanel)
    modifies session`uploadedImageData, panel
    ensures session.uploadedImageData == None && !session.HasImage()
    ensures panel.inputValue == "" && panel.previewSrc == ""
    ensures panel.uploadAreaShown && !panel.previewShown && panel.analyzeDisabled
  {
    panel.inputValue := "";
    panel.previewSrc := "";
    panel.uploadAreaShown := true;
    panel.previewShown := false;
    session.uploadedImageData := None;
    panel.analyzeDisabled := true;
  }
}
