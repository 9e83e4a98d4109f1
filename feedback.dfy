/**
 * The feedback widget under the results: a row of rating stars painted from the current
 * rating (or the hovered star), a comment box, and a submit button that sends the rating
 * and trimmed comment with the session's ids, unless both are empty, and thanks the
 * user whatever happens to the request.
 *
 * Each star's `data-value` is given as the integer it parses to; the session id (a
 * random UUID or a timestamp-based id) and the submission time are parameters.
 */
module Feedback {
  import opened Wrappers
  import opened Text
  import opened State

  /** A star button: its value and its active, hover and `aria-pressed` states. */
  datatype Star = Star(value: int, active: bool, hover: bool, ariaPressed: bool)

  /** The JSON body the widget posts. */
  datatype FeedbackPayload = FeedbackPayload(
    rating: Option<int>, comment: string, modeId: string, promptId: string,
    submodeId: string, sessionId: string, timestamp: string)

  const SubmitLabel := "Send feedback"
  const SendingLabel := "Sending..."

  class FeedbackWidget {
    /** The page load's session id, chosen once. */
    const sessionId: string
    const stars: array<Star>
    var currentRating: int
    /** Whether the initialisation found the stars and attached the listeners. */
    var wired: bool
    var widgetShown: bool
    var formShown: bool
    var thanksShown: bool
    var comment: string
    var submitDisabled: bool
    var submitLabel: string

    /** The module as loaded: the rating 0 and nothing wired yet. */
    constructor(sessionId: string, stars: array<Star>)
      ensures this.sessionId == sessionId && this.stars == stars
      ensures currentRating == 0 && !wired && !widgetShown && formShown && !thanksShown
      ensures comment == "" && !submitDisabled && submitLabel == SubmitLabel
    {
      this.sessionId := sessionId;
      this.stars := stars;
      currentRating := 0;
      wired := false;
      widgetShown := false;
      formShown := true;
      thanksShown := false;
      comment := "";
      submitDisabled := false;
      submitLabel := SubmitLabel;
    }

    /**
     * The stars at rest: exactly the stars up to the current rating are active and
     * pressed, and none is hovered.
     */
    predicate Settled()
      reads this, stars
    {
      forall k | 0 <= k < stars.Length ::
        && stars[k].active == (stars[k].value <= currentRating)
        && stars[k].ariaPressed == (stars[k].value <= currentRating)
        && !stars[k].hover
    }
  }

  /**
   * `paintStars(upTo, isHover)`. A hover paint marks the stars up to `upTo` as hovered
   * and keeps the active ones at the current rating; a plain paint makes the stars up to
   * `upTo` active and clears every hover. Either way a star is pressed exactly when its
   * value is at most the current rating, and keeps its value.
   */
  method PaintStars(w: FeedbackWidget, upTo: int, isHover: bool)
    modifies w.stars
    ensures forall k | 0 <= k < w.stars.Length ::
              && w.stars[k].value == old(w.stars[k].value)
              && w.stars[k].ariaPressed == (w.stars[k].value <= w.currentRating)
              && (isHover ==> w.stars[k].hover == (w.stars[k].value <= upTo) && w.stars[k].active == (w.stars[k].value <= w.currentRating))
              && (!isHover ==> w.stars[k].active == (w.stars[k].value <= upTo) && !w.stars[k].hover)
  {
    var i := 0;
    while i < w.stars.Length
      invariant 0 <= i <= w.stars.Length
      invariant forall k | 0 <= k < i ::
                  && w.stars[k].value == old(w.stars[k].value)
                  && w.stars[k].ariaPressed == (w.stars[k].value <= w.currentRating)
                  && (isHover ==> w.stars[k].hover == (w.stars[k].value <= upTo) && w.stars[k].active == (w.stars[k].value <= w.currentRating))
                  && (!isHover ==> w.stars[k].active == (w.stars[k].value <= upTo) && !w.stars[k].hover)
      invariant forall k | i <= k < w.stars.Length :: w.stars[k] == old(w.stars[k])
    {
      var v := w.stars[i].value;
      var filled := v <= upTo;
      if isHover {
        w.stars[i] := w.stars[i].(hover := filled, active := v <= w.currentRating);
      } else {
        w.stars[i] := w.stars[i].(active := filled, hover := false);
      }
      w.stars[i] := w.stars[i].(ariaPressed := v <= w.currentRating);
      i := i + 1;
    }
  }

  /** `setRating`: the rating is stored and the stars settle on it. */
  method SetRating(w: FeedbackWidget, value: int)
    modifies w`currentRating, w.stars
    ensures w.currentRating == value
    ensures w.Settled()
    ensures forall k | 0 <= k < w.stars.Length :: w.stars[k].value == old(w.stars[k].value)
  {
    w.currentRating := value;
    PaintStars(w, value, false);
  }

  /** `initFeedback`: the listeners are attached only when there are stars. */
  method InitFeedback(w: FeedbackWidget)
    modifies w`wired
    ensures w.stars.Length > 0 ==> w.wired
    ensures w.stars.Length == 0 ==> w.wired == old(w.wired)
  {
    if w.stars.Length == 0 {
      return;
    }
    w.wired := true;
  }

  /** A star's click listener: the star's value becomes the rating. */
  method OnStarClick(w: FeedbackWidget, k: nat)
    requires k < w.stars.Length
    modifies w`currentRating, w.stars
    ensures w.wired ==> w.currentRating == old(w.stars[k].value) && w.Settled()
    ensures forall j | 0 <= j < w.stars.Length :: w.stars[j].value == old(w.stars[j].value)
    ensures !w.wired ==> unchanged(w) && unchanged(w.stars)
  {
    if w.wired {
      SetRating(w, w.stars[k].value);
    }
  }

  /** A star's mouse-enter listener: a hover paint up to the star's value. */
  method OnStarEnter(w: FeedbackWidget, k: nat)
    requires k < w.stars.Length
    modifies w.stars
    ensures w.wired ==> forall j | 0 <= j < w.stars.Length ::
              && w.stars[j].hover == (w.stars[j].value <= old(w.stars[k].value))
              && w.stars[j].active == w.stars[j].ariaPressed == (w.stars[j].value <= w.currentRating)
    ensures forall j | 0 <= j < w.stars.Length :: w.stars[j].value == old(w.stars[j].value)
    ensures !w.wired ==> unchanged(w.stars)
  {
    if w.wired {
      PaintStars(w, w.stars[k].value, true);
    }
  }

  /** A star's mouse-leave listener: the stars settle back on the rating. */
  method OnStarLeave(w: FeedbackWidget)
    modifies w.stars
    ensures w.wired ==> w.Settled()
    ensures forall j | 0 <= j < w.stars.Length :: w.stars[j].value == old(w.stars[j].value)
    ensures !w.wired ==> unchanged(w.stars)
  {
    if w.wired {
      PaintStars(w, w.currentRating, false);
    }
  }

  /** `showThanks`: the form is hidden and the thanks shown. */
  method ShowThanks(w: FeedbackWidget)
    modifies w`formShown, w`thanksShown
    ensures !w.formShown && w.thanksShown
  {
    w.formShown := false;
    w.thanksShown := true;
  }

  /** The payload: the rating when positive, else `null`; the trimmed comment; the session's ids. */
  function PayloadFor(rating: int, comment: string, modeId: string, promptId: string, submodeId: string,
                      sessionId: string, timestamp: string): (p: FeedbackPayload)
    ensures p.rating.Some? <==> rating > 0
    ensures p.rating.Some? ==> p.rating.value == rating
  {
    FeedbackPayload(if rating > 0 then Some(rating) else None, Trim(comment),
                    modeId, promptId, submodeId, sessionId, timestamp)
  }

  /**
   * The submit listener. With the rating 0 and a blank comment nothing is sent;
   * otherwise the button is disabled, reads `Sending...`, and the payload is posted.
   * A failed post is swallowed: in every case the thanks are shown.
   */
  method SubmitClick(w: FeedbackWidget, session: Session, timestamp: string) returns (sent: Option<FeedbackPayload>)
    requires w.wired
    modifies w`formShown, w`thanksShown, w`submitDisabled, w`submitLabel
    ensures !w.formShown && w.thanksShown
    ensures sent.None? <==> w.currentRating == 0 && IsBlank(w.comment)
    ensures sent.None? ==> w.submitDisabled == old(w.submitDisabled) && w.submitLabel == old(w.submitLabel)
    ensures sent.Some? ==> && sent.value == PayloadFor(w.currentRating, w.comment, session.modeId, session.promptId,
                                                       session.submodeId, w.sessionId, timestamp)
                           && w.submitDisabled && w.submitLabel == SendingLabel
  {
    var comment := Trim(w.comment);
    BlankIffTrimEmpty(w.comment);
    if w.currentRating == 0 && comment == [] {
      ShowThanks(w);
      return None;
    }
    w.submitDisabled := true;
    w.submitLabel := SendingLabel;
    sent := Some(PayloadFor(w.currentRating, w.comment, session.modeId, session.promptId, session.submodeId, w.sessionId, timestamp));
    ShowThanks(w);
  }

  /** `showFeedbackWidget`. */
  method ShowFeedbackWidget(w: FeedbackWidget)
    modifies w`widgetShown
    ensures w.widgetShown
  {
    w.widgetShown := true;
  }

  /**
   * `resetFeedbackWidget`: the widget hidden with its form back, the comment cleared,
   * the button restored, and the rating 0 with the stars settled on it.
   */
  method ResetFeedbackWidget(w: FeedbackWidget)
    modifies w`widgetShown, w`formShown, w`thanksShown, w`comment, w`submitDisabled, w`submitLabel, w`currentRating, w.stars
    ensures !w.widgetShown && w.formShown && !w.thanksShown && w.comment == ""
    ensures !w.submitDisabled && w.submitLabel == SubmitLabel
    ensures w.currentRating == 0 && w.Settled()
    ensures forall k | 0 <= k < w.stars.Length :: w.stars[k].value == old(w.stars[k].value)
  {
    w.widgetShown := false;
    w.formShown := true;
    w.thanksShown := false;
    w.comment := "";
    w.submitDisabled := false;
    w.submitLabel := SubmitLabel;
    w.currentRating := 0;
    PaintStars(w, 0, false);
  }

  /** After a reset no star valued 1 or more is active or pressed. */
  lemma ResetClearsStars(w: FeedbackWidget)
    requires w.currentRating == 0 && w.Settled()
    ensures forall k | 0 <= k < w.stars.Length && w.stars[k].value >= 1 :: !w.stars[k].active && !w.stars[k].ariaPressed
  {
  }
}
