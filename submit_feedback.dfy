/**
 * The feedback endpoint. It always answers 200 `{success: true}`. When both
 * credentials are configured and the body is JSON, it forwards one normalised record
 * to the feedback table; whatever the table answers, or whatever throws, is only
 * logged.
 *
 * The credentials (the runtime's, else the process's), the body as parsed, the
 * current time and the table's outcome are parameters; the forwarded request is part
 * of the result.
 */
module SubmitFeedback {
  import opened Wrappers
  import Feedback
  import AnalyzeArtwork

  /** What `rating` holds in the body: a JSON number, or anything else (absent, `null`, a string, ...). */
  datatype RatingInput = NumberValue(n: real) | NotANumber

  /** The body's fields; a string field that is absent or not a string is `None`. */
  datatype FeedbackBody = FeedbackBody(
    rating: RatingInput, comment: Option<string>, modeId: Option<string>, promptId: Option<string>,
    submodeId: Option<string>, sessionId: Option<string>, timestamp: Option<string>)

  /** The record's `fields`, as the table receives them. */
  datatype FeedbackRecord = FeedbackRecord(
    rating: Option<real>, comment: string, mode: string, prompt: string,
    subMode: string, sessionId: string, timestamp: string)

  /** The request to the table: its URL, its `Authorization` header and the one record. */
  datatype Forward = Forward(url: string, authorization: string, record: FeedbackRecord)

  /** How the forwarded request ended; none of these changes the answer. */
  datatype Upstream = UpstreamOk | UpstreamError(text: string) | UpstreamThrew

  datatype Outcome = Outcome(status: nat, success: bool, forwarded: Option<Forward>)

  const TableUrlPrefix := "https://api.airtable.com/v0/"
  const TableUrlSuffix := "/HG%20Feedback"

  /** `value || ''` on an optional string. */
  function OrEmpty(v: Option<string>): string {
    v.GetOr("")
  }

  /** `typeof rating === 'number' && rating > 0 ? rating : null`. */
  function NormaliseRating(rating: RatingInput): (r: Option<real>)
    ensures r.Some? <==> rating.NumberValue? && rating.n > 0.0
    ensures r.Some? ==> r.value == rating.n
  {
    if rating.NumberValue? && rating.n > 0.0 then Some(rating.n) else None
  }

  /** The record's fields from the body: the rating checked, the strings defaulted, the timestamp `now` when missing. */
  function Normalise(body: FeedbackBody, now: string): FeedbackRecord {
    FeedbackRecord(
      NormaliseRating(body.rating), OrEmpty(body.comment), OrEmpty(body.modeId), OrEmpty(body.promptId),
      OrEmpty(body.submodeId), OrEmpty(body.sessionId), AnalyzeArtwork.Or(OrEmpty(body.timestamp), now))
  }

  /**
   * A missing or empty string field becomes the empty string, a present one is kept,
   * and a missing or empty timestamp is replaced by the current time.
   */
  lemma NormaliseDefaults(body: FeedbackBody, now: string)
    ensures var r := Normalise(body, now);
            && (body.comment.None? ==> r.comment == "") && (body.comment.Some? ==> r.comment == body.comment.value)
            && (body.modeId.None? ==> r.mode == "") && (body.modeId.Some? ==> r.mode == body.modeId.value)
            && (body.promptId.None? ==> r.prompt == "") && (body.promptId.Some? ==> r.prompt == body.promptId.value)
            && (body.submodeId.None? ==> r.subMode == "") && (body.submodeId.Some? ==> r.subMode == body.submodeId.value)
            && (body.sessionId.None? ==> r.sessionId == "") && (body.sessionId.Some? ==> r.sessionId == body.sessionId.value)
            && (body.timestamp.None? || body.timestamp.value == "" ==> r.timestamp == now)
            && (body.timestamp.Some? && body.timestamp.value != "" ==> r.timestamp == body.timestamp.value)
  {
  }

  /**
   * The `POST` handler. Without both credentials, or with a body that is not JSON,
   * nothing is forwarded; otherwise the normalised record is sent with the base id in
   * the URL and the key as a bearer token. The answer is 200 with `success: true` on
   * every path, whatever `upstream` is.
   */
  function HandleFeedback(runtimeKey: string, processKey: string, runtimeBase: string, processBase: string,
                          body: Option<FeedbackBody>, now: string, upstream: Upstream): (o: Outcome)
    ensures o.status == 200 && o.success
    ensures o.forwarded.Some? <==> AnalyzeArtwork.Or(runtimeKey, processKey) != "" && AnalyzeArtwork.Or(runtimeBase, processBase) != "" && body.Some?
    ensures o.forwarded.Some? ==>
              o.forwarded.value == Forward(TableUrlPrefix + AnalyzeArtwork.Or(runtimeBase, processBase) + TableUrlSuffix,
                                           "Bearer " + AnalyzeArtwork.Or(runtimeKey, processKey),
                                           Normalise(body.value, now))
  {
    var key := AnalyzeArtwork.Or(runtimeKey, processKey);
    var baseId := AnalyzeArtwork.Or(runtimeBase, processBase);
    if key == "" || baseId == "" then Outcome(200, true, None)
    else if body.None? then Outcome(200, true, None)
    else
      var forward := Forward(TableUrlPrefix + baseId + TableUrlSuffix, "Bearer " + key, Normalise(body.value, now));
      match upstream
      case UpstreamOk => Outcome(200, true, Some(forward))
      case UpstreamError(_) => Outcome(200, true, Some(forward))
      case UpstreamThrew => Outcome(200, true, Some(forward))
  }

  /** The table's outcome never reaches the caller: any two outcomes give the same answer. */
  lemma UpstreamIgnored(runtimeKey: string, processKey: string, runtimeBase: string, processBase: string,
                        body: Option<FeedbackBody>, now: string, u1: Upstream, u2: Upstream)
    ensures HandleFeedback(runtimeKey, processKey, runtimeBase, processBase, body, now, u1)
            == HandleFeedback(runtimeKey, processKey, runtimeBase, processBase, body, now, u2)
  {
  }

  /** The body the widget's payload becomes once serialised and parsed. */
  function BodyOf(p: Feedback.FeedbackPayload): FeedbackBody {
    FeedbackBody(
      if p.rating.Some? then NumberValue(p.rating.value as real) else NotANumber,
      Some(p.comment), Some(p.modeId), Some(p.promptId), Some(p.submodeId), Some(p.sessionId), Some(p.timestamp))
  }

  /**
   * What the widget sends is stored as sent: a positive rating arrives as that number
   * and a rating of 0 as `null`; the comment, the ids and the timestamp arrive
   * unchanged, the current time standing in only for an empty timestamp.
   */
  lemma WidgetPayloadStoredAsSent(rating: int, comment: string, modeId: string, promptId: string, submodeId: string,
                                  sessionId: string, timestamp: string, now: string)
    ensures var p := Feedback.PayloadFor(rating, comment, modeId, promptId, submodeId, sessionId, timestamp);
            var r := Normalise(BodyOf(p), now);
            && (r.rating.Some? <==> rating > 0)
            && (rating > 0 ==> r.rating.value == rating as real)
            && r.comment == p.comment && r.mode == modeId && r.prompt == promptId
            && r.subMode == submodeId && r.sessionId == sessionId
            && (timestamp != "" ==> r.timestamp == timestamp)
            && (timestamp == "" ==> r.timestamp == now)
  {
  }
}
