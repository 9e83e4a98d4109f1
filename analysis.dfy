/**
 * The analyze button and the back-to-form button. A click with an image and either a
 * non-blank custom prompt or a checked mode sends the form to the analysis endpoint;
 * an OK reply is shown and stored, with the metadata the export buttons need, and any
 * other outcome returns to the form with the session as it was.
 *
 * The request's outcome is a parameter; the alerts, the console and the scrolling are
 * not modelled.
 */
module Analysis {
  import opened Wrappers
  import opened Text
  import opened State
  import opened Page
  import opened FormInteractions
  import AnalyzeArtwork

  /** The values the click handler reads from the form. */
  datatype FormValues = FormValues(
    title: string, artist: string, year: string, medium: string, dimensions: string,
    artistStatement: string, contextNote: string, customPrompt: string,
    radios: seq<ModeRadio>, lens: string, lensOptions: seq<LensOption>)

  /** The JSON body the click handler posts. */
  datatype AnalysisRequest = AnalysisRequest(
    image: string, title: string, artist: string, year: string, medium: string, dimensions: string,
    artistStatement: string, contextNote: string, mode: string, customPrompt: string, lens: string)

  function Snapshot(form: AnalysisForm): FormValues
    reads form, form.radios
  {
    FormValues(form.title, form.artist, form.year, form.medium, form.dimensions,
               form.artistStatement, form.contextNote, form.customPrompt,
               form.radios[..], form.lensValue, form.lensOptions)
  }

  /** The validation: a custom prompt with content, or a checked mode. */
  predicate ShouldSend(v: FormValues) {
    !IsBlank(v.customPrompt) || FirstChecked(v.radios).Some?
  }

  /** The checked radio's value, `strategic` when none is checked or its value is empty. */
  function ModeOf(v: FormValues): (r: string)
    ensures r != ""
    ensures FirstChecked(v.radios).None? ==> r == "strategic"
    ensures FirstChecked(v.radios).Some? && v.radios[FirstChecked(v.radios).value].value != "" ==>
              r == v.radios[FirstChecked(v.radios).value].value
  {
    match FirstChecked(v.radios)
    case Some(k) => AnalyzeArtwork.Or(v.radios[k].value, "strategic")
    case None => "strategic"
  }

  /** The request body: the image, the form values with their defaults, the mode and the lens. */
  function RequestFor(image: string, v: FormValues): AnalysisRequest {
    AnalysisRequest(image, AnalyzeArtwork.Or(v.title, "Untitled"), AnalyzeArtwork.Or(v.artist, "Unknown Artist"),
                    v.year, v.medium, v.dimensions, v.artistStatement, v.contextNote,
                    ModeOf(v), v.customPrompt, v.lens)
  }

  /** The fields of the request the endpoint reads. */
  function ServerView(req: AnalysisRequest): AnalyzeArtwork.Request {
    AnalyzeArtwork.Request(req.image, req.title, req.artist, req.year, req.medium, req.dimensions, req.mode, req.customPrompt)
  }

  /** The first option whose value is `value` (`querySelector('option[value="…"]')`). */
  function FindOption(options: seq<LensOption>, value: string): (r: Option<nat>)
    ensures r.Some? ==> r.value < |options| && options[r.value].value == value
    ensures r.Some? ==> forall k | 0 <= k < r.value :: options[k].value != value
    ensures r.None? ==> forall k | 0 <= k < |options| :: options[k].value != value
  {
    FindIndex(options, (o: LensOption) => o.value == value)
  }

  /** The mode's display name: the heading of the checked radio's card, else the mode id. */
  function ModeName(v: FormValues): string {
    var mode := ModeOf(v);
    match FirstChecked(v.radios)
    case Some(k) => (match v.radios[k].cardLabel
                     case Some(heading) => AnalyzeArtwork.Or(heading, mode)
                     case None => mode)
    case None => mode
  }

  /** The lens's display name: the text of its option, else its value; empty without a lens or an option. */
  function LensName(v: FormValues): string {
    if v.lens == "" then ""
    else match FindOption(v.lensOptions, v.lens)
      case Some(k) => AnalyzeArtwork.Or(v.lensOptions[k].text, v.lens)
      case None => ""
  }

  /** The metadata stored next to a successful analysis. */
  function MetadataFor(v: FormValues, timestamp: string): Metadata {
    Metadata(AnalyzeArtwork.Or(v.title, "Untitled"), AnalyzeArtwork.Or(v.artist, "Unknown Artist"),
             v.year, v.medium, v.dimensions, ModeName(v), LensName(v), v.customPrompt, timestamp)
  }

  /**
   * The metadata names a mode whatever the form holds: a checked mode by its card's
   * heading, falling back to its id; no checked mode as `strategic`.
   */
  lemma ModeNameNeverEmpty(v: FormValues)
    ensures ModeName(v) != ""
    ensures FirstChecked(v.radios).None? ==> ModeName(v) == "strategic"
    ensures var k := FirstChecked(v.radios);
            k.Some? && v.radios[k.value].cardLabel.Some? && v.radios[k.value].cardLabel.value != "" ==>
              ModeName(v) == v.radios[k.value].cardLabel.value
  {
  }

  /**
   * The lens name is empty exactly when no lens is chosen or no option carries the
   * chosen value; otherwise it is the option's text, or the value when that is empty.
   */
  lemma LensNameCases(v: FormValues)
    ensures LensName(v) == "" <==> v.lens == "" || FindOption(v.lensOptions, v.lens).None?
    ensures var k := FindOption(v.lensOptions, v.lens);
            v.lens != "" && k.Some? && v.lensOptions[k.value].text != "" ==> LensName(v) == v.lensOptions[k.value].text
  {
  }

  /**
   * Whatever the click sends the endpoint accepts as far as the request goes: it carries
   * an image, so the endpoint never answers 400; it takes the custom branch exactly when
   * the form's custom prompt has content, and the studio-critique branch exactly when
   * it has none and the checked mode is `wip`.
   */
  lemma SentRequestsCarryImage(image: string, v: FormValues, apiKey: string,
                               modes: seq<AnalyzeArtwork.AnalysisMode>, prose: AnalyzeArtwork.Prose)
    requires image != "" && ShouldSend(v)
    ensures var req := ServerView(RequestFor(image, v));
            var p := AnalyzeArtwork.PlanRequest(apiKey, Some(req), modes, prose);
            && !(p.Answer? && p.response.status == 400)
            && (AnalyzeArtwork.BranchOf(req) == AnalyzeArtwork.Custom <==> !IsBlank(v.customPrompt))
            && (AnalyzeArtwork.BranchOf(req) == AnalyzeArtwork.Wip <==>
                  IsBlank(v.customPrompt) && v.radios[FirstChecked(v.radios).value].value == "wip")
  {
  }

  /**
   * The analyze button's click listener, `reply` standing for how the request ends.
   * Without an image nothing happens. Without a custom prompt or checked mode the form
   * is shown again and nothing is sent. Otherwise the request is sent; an OK reply is
   * shown in the results panel and stored with its metadata, anything else brings the
   * form back and leaves the session as it was.
   */
  method AnalyzeClick(session: Session, form: AnalysisForm, reply: ApiReply, timestamp: string)
    returns (sent: Option<AnalysisRequest>)
    modifies session`rawMarkdownContent, session`analysisMetadata
    modifies form`formShown, form`loadingShown, form`resultsShown, form`resultsHtml
    ensures sent.Some? <==> old(session.HasImage()) && ShouldSend(old(Snapshot(form)))
    ensures sent.Some? ==> sent.value == RequestFor(old(session.uploadedImageData).value, old(Snapshot(form)))
    ensures !old(session.HasImage()) ==> unchanged(session) && unchanged(form)
    ensures old(session.HasImage()) && !ShouldSend(old(Snapshot(form))) ==>
              && unchanged(session) && form.formShown && !form.loadingShown
              && form.resultsShown == old(form.resultsShown) && form.resultsHtml == old(form.resultsHtml)
    ensures sent.Some? && reply.Answered? ==>
              && session.rawMarkdownContent == reply.raw
              && session.analysisMetadata == Some(MetadataFor(old(Snapshot(form)), timestamp))
              && form.resultsHtml == reply.html && form.resultsShown && !form.loadingShown && !form.formShown
    ensures sent.Some? && !reply.Answered? ==>
              && unchanged(session) && form.formShown && !form.loadingShown
              && form.resultsShown == old(form.resultsShown) && form.resultsHtml == old(form.resultsHtml)
    ensures old(session.Valid()) ==> session.Valid()
  {
    if !session.HasImage() {
      return None;
    }
    var v := Snapshot(form);
    if !ShouldSend(v) {
      form.loadingShown := false;
      form.formShown := true;
      return None;
    }
    form.formShown := false;
    form.loadingShown := true;
    sent := Some(RequestFor(session.uploadedImageData.value, v));
    match reply
    case Answered(raw, html) =>
      form.resultsHtml := html;
      session.rawMarkdownContent := raw;
      session.analysisMetadata := Some(MetadataFor(v, timestamp));
      form.loadingShown := false;
      form.resultsShown := true;
    case _ =>
      form.loadingShown := false;
      form.formShown := true;
  }

  /**
   * The back-to-form listener: the form comes back, the results go, the custom prompt
   * is cleared, every mode unchecked and both sections un-dimmed. The session, and with
   * it the last analysis and its metadata, is not touched.
   */
  method BackToForm(form: AnalysisForm)
    modifies form`formShown, form`resultsShown, form`customPrompt, form`customSectionInactive, form`modesSectionInactive, form.radios
    ensures form.formShown && !form.resultsShown && form.customPrompt == ""
    ensures forall k | 0 <= k < form.radios.Length :: form.radios[k] == old(form.radios[k]).(checked := false)
    ensures !form.customSectionInactive && !form.modesSectionInactive
    ensures !ShouldSend(Snapshot(form)) && Exclusive(form)
  {
    form.formShown := true;
    form.resultsShown := false;
    form.customPrompt := "";
    UncheckAll(form.radios);
    form.customSectionInactive := false;
    form.modesSectionInactive := false;
  }
}
