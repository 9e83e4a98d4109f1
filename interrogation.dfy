/**
 * Follow-up questions about an analysis. A non-blank question, asked once an answer is
 * stored in the session's outputs, is sent with the first stored answer's raw Markdown.
 * The analysis handler never stores into the outputs, so that first answer is a lens or
 * follow-up answer, never the main analysis (`FollowUpAfterAnalysis`). An OK reply is
 * appended to the session's outputs and rendered as a new turn whose question is
 * HTML-escaped. The submit button is enabled again however the request ends.
 *
 * The request's outcome is a parameter; the alerts, the console, the focus and the
 * scrolling are not modelled.
 */
module Interrogation {
  import opened Wrappers
  import opened Text
  import opened State
  import Page
  import Analysis
  import AnalyzeArtwork

  // ---------------------------------------------------------------------------
  // HTML escaping

  /** `escapeHtml`: `&`, then `<`, then `>`, then `"` replaced by their entities. */
  function EscapeHtml(s: string): string {
    ReplaceAll(ReplaceAll(ReplaceAll(ReplaceAll(s, "&", "&amp;"), "<", "&lt;"), ">", "&gt;"), "\"", "&quot;")
  }

  /** The inverse chain: `&quot;`, then `&gt;`, then `&lt;`, and `&amp;` last. */
  function UnescapeHtml(s: string): string {
    ReplaceAll(ReplaceAll(ReplaceAll(ReplaceAll(s, "&quot;", "\""), "&gt;", ">"), "&lt;", "<"), "&amp;", "&")
  }

  /** The text each character stands for once all four replacements have run. */
  function EscapeChar(c: char): string {
    if c == '&' then "&amp;"
    else if c == '<' then "&lt;"
    else if c == '>' then "&gt;"
    else if c == '"' then "&quot;"
    else [c]
  }

  /** Each character as itself. */
  function Plain(c: char): string {
    [c]
  }

  /** Each character after the first replacement: only `&` is escaped. */
  function AfterAmp(c: char): string {
    if c == '&' then "&amp;" else [c]
  }

  /** Each character after the second replacement: `&` and `<` are escaped. */
  function AfterLt(c: char): string {
    if c == '&' then "&amp;" else if c == '<' then "&lt;" else [c]
  }

  /** Each character after the third replacement: `&`, `<` and `>` are escaped. */
  function AfterGt(c: char): string {
    if c == '&' then "&amp;" else if c == '<' then "&lt;" else if c == '>' then "&gt;" else [c]
  }

  /** The texts `token` gives the characters of `s`, concatenated. */
  function Concat(s: string, token: char -> string): string {
    if s == [] then [] else token(s[0]) + Concat(s[1..], token)
  }

  /**
   * No occurrence of `pat` can start inside `t`, whatever follows it: every character
   * of `t` differs from the pattern's first, or is followed inside `t` by one that
   * differs from the pattern's second.
   */
  predicate Inert(t: string, pat: string)
    requires |pat| > 0
  {
    forall i | 0 <= i < |t| :: t[i] != pat[0] || (|pat| >= 2 && i + 1 < |t| && t[i + 1] != pat[1])
  }

  lemma InertKeeps(t: string, r: string, pat: string, rep: string)
    requires |pat| > 0 && Inert(t, pat)
    ensures ReplaceAll(t + r, pat, rep) == t + ReplaceAll(r, pat, rep)
  {
    forall i | 0 <= i < |t| ensures !OccursAt(t + r, pat, i) {
      if i + |pat| <= |t + r| {
        var w := (t + r)[i..i + |pat|];
        assert w[0] == t[i];
        if t[i] == pat[0] {
          assert w[1] == t[i + 1];
        }
      }
    }
    ReplaceAllKeeps(t, r, pat, rep);
  }

  /**
   * One replacement over a concatenation of tokens: a token equal to the pattern becomes
   * the replacement, an inert token stays, and the scan never straddles two tokens.
   */
  lemma {:induction false} ReplaceTokens(s: string, token: char -> string, next: char -> string, pat: string, rep: string)
    requires |pat| > 0
    requires forall c :: (token(c) == pat && next(c) == rep) || (Inert(token(c), pat) && next(c) == token(c))
    ensures ReplaceAll(Concat(s, token), pat, rep) == Concat(s, next)
  {
    if s != [] {
      ReplaceTokens(s[1..], token, next, pat, rep);
      if token(s[0]) == pat && next(s[0]) == rep {
        ReplaceAllAtMatch(Concat(s[1..], token), pat, rep);
      } else {
        InertKeeps(token(s[0]), Concat(s[1..], token), pat, rep);
      }
    }
  }

  lemma {:induction false} ConcatPlain(s: string)
    ensures Concat(s, Plain) == s
  {
    if s != [] {
      ConcatPlain(s[1..]);
    }
  }

  lemma EscapeAmp(s: string)
    ensures ReplaceAll(Concat(s, Plain), "&", "&amp;") == Concat(s, AfterAmp)
  {
    forall c ensures (Plain(c) == "&" && AfterAmp(c) == "&amp;") || (Inert(Plain(c), "&") && AfterAmp(c) == Plain(c)) {
    }
    ReplaceTokens(s, Plain, AfterAmp, "&", "&amp;");
  }

  lemma EscapeLt(s: string)
    ensures ReplaceAll(Concat(s, AfterAmp), "<", "&lt;") == Concat(s, AfterLt)
  {
    forall c ensures (AfterAmp(c) == "<" && AfterLt(c) == "&lt;") || (Inert(AfterAmp(c), "<") && AfterLt(c) == AfterAmp(c)) {
    }
    ReplaceTokens(s, AfterAmp, AfterLt, "<", "&lt;");
  }

  lemma EscapeGt(s: string)
    ensures ReplaceAll(Concat(s, AfterLt), ">", "&gt;") == Concat(s, AfterGt)
  {
    forall c ensures (AfterLt(c) == ">" && AfterGt(c) == "&gt;") || (Inert(AfterLt(c), ">") && AfterGt(c) == AfterLt(c)) {
    }
    ReplaceTokens(s, AfterLt, AfterGt, ">", "&gt;");
  }

  lemma EscapeQuot(s: string)
    ensures ReplaceAll(Concat(s, AfterGt), "\"", "&quot;") == Concat(s, EscapeChar)
  {
    forall c ensures (AfterGt(c) == "\"" && EscapeChar(c) == "&quot;") || (Inert(AfterGt(c), "\"") && EscapeChar(c) == AfterGt(c)) {
    }
    ReplaceTokens(s, AfterGt, EscapeChar, "\"", "&quot;");
  }

  lemma UnescapeQuot(s: string)
    ensures ReplaceAll(Concat(s, EscapeChar), "&quot;", "\"") == Concat(s, AfterGt)
  {
    forall c ensures (EscapeChar(c) == "&quot;" && AfterGt(c) == "\"") || (Inert(EscapeChar(c), "&quot;") && AfterGt(c) == EscapeChar(c)) {
    }
    ReplaceTokens(s, EscapeChar, AfterGt, "&quot;", "\"");
  }

  lemma UnescapeGt(s: string)
    ensures ReplaceAll(Concat(s, AfterGt), "&gt;", ">") == Concat(s, AfterLt)
  {
    forall c ensures (AfterGt(c) == "&gt;" && AfterLt(c) == ">") || (Inert(AfterGt(c), "&gt;") && AfterLt(c) == AfterGt(c)) {
    }
    ReplaceTokens(s, AfterGt, AfterLt, "&gt;", ">");
  }

  lemma UnescapeLt(s: string)
    ensures ReplaceAll(Concat(s, AfterLt), "&lt;", "<") == Concat(s, AfterAmp)
  {
    forall c ensures (AfterLt(c) == "&lt;" && AfterAmp(c) == "<") || (Inert(AfterLt(c), "&lt;") && AfterAmp(c) == AfterLt(c)) {
    }
    ReplaceTokens(s, AfterLt, AfterAmp, "&lt;", "<");
  }

  lemma UnescapeAmp(s: string)
    ensures ReplaceAll(Concat(s, AfterAmp), "&amp;", "&") == Concat(s, Plain)
  {
    forall c ensures (AfterAmp(c) == "&amp;" && Plain(c) == "&") || (Inert(AfterAmp(c), "&amp;") && Plain(c) == AfterAmp(c)) {
    }
    ReplaceTokens(s, AfterAmp, Plain, "&amp;", "&");
  }

  /** Escaping replaces each character by its entity or by itself, independently of its neighbours. */
  lemma EscapeHtmlPerCharacter(s: string)
    ensures EscapeHtml(s) == Concat(s, EscapeChar)
  {
    ConcatPlain(s);
    EscapeAmp(s);
    EscapeLt(s);
    EscapeGt(s);
    EscapeQuot(s);
  }

  /** Unescaping undoes escaping because `&` is escaped first and unescaped last. */
  lemma EscapeHtmlRoundTrip(s: string)
    ensures UnescapeHtml(EscapeHtml(s)) == s
  {
    EscapeHtmlPerCharacter(s);
    UnescapeQuot(s);
    UnescapeGt(s);
    UnescapeLt(s);
    UnescapeAmp(s);
    ConcatPlain(s);
  }

  lemma {:induction false} ConcatAvoids(s: string, token: char -> string, x: char)
    requires forall c :: x !in token(c)
    ensures x !in Concat(s, token)
  {
    if s != [] {
      ConcatAvoids(s[1..], token, x);
    }
  }

  /** No character escapes to text holding `<`, `>` or `"`. */
  lemma EscapeCharAvoids(x: char)
    requires x == '<' || x == '>' || x == '"'
    ensures forall c :: x !in EscapeChar(c)
  {
    forall c ensures x !in EscapeChar(c) {
      if c == '&' {
        assert EscapeChar(c) == "&amp;";
      }
    }
  }

  lemma {:induction false} ConcatLonger(s: string)
    ensures |Concat(s, EscapeChar)| >= |s|
  {
    if s != [] {
      ConcatLonger(s[1..]);
    }
  }

  lemma {:induction false} ConcatOfOrdinary(s: string)
    requires forall i | 0 <= i < |s| :: s[i] !in "&<>\""
    ensures Concat(s, EscapeChar) == s
  {
    if s != [] {
      ConcatOfOrdinary(s[1..]);
    }
  }

  /**
   * The escaped text holds no `<`, `>` or `"`, is never shorter than the input, and a
   * text without any of the four special characters comes back unchanged.
   */
  lemma EscapeHtmlSafe(s: string)
    ensures '<' !in EscapeHtml(s) && '>' !in EscapeHtml(s) && '"' !in EscapeHtml(s)
    ensures |EscapeHtml(s)| >= |s|
    ensures (forall i | 0 <= i < |s| :: s[i] !in "&<>\"") ==> EscapeHtml(s) == s
  {
    EscapeHtmlPerCharacter(s);
    EscapeCharAvoids('<');
    ConcatAvoids(s, EscapeChar, '<');
    EscapeCharAvoids('>');
    ConcatAvoids(s, EscapeChar, '>');
    EscapeCharAvoids('"');
    ConcatAvoids(s, EscapeChar, '"');
    ConcatLonger(s);
    if forall i | 0 <= i < |s| :: s[i] !in "&<>\"" {
      ConcatOfOrdinary(s);
    }
  }

  // ---------------------------------------------------------------------------
  // The follow-up panel

  /** The body posted for a follow-up, besides its constant `interrogationMode: true`. */
  datatype InterrogationRequest = InterrogationRequest(priorAnalysis: string, userQuestion: string)

  /** A rendered turn: the escaped question, the answer's HTML and the output it shows. */
  datatype Turn = Turn(questionHtml: string, answerHtml: string, outputIndex: nat)

  class InterrogationPanel {
    var input: string
    var submitDisabled: bool
    var loadingShown: bool
    var history: seq<Turn>

    constructor()
      ensures input == "" && !submitDisabled && !loadingShown && history == []
    {
      input := "";
      submitDisabled := false;
      loadingShown := false;
      history := [];
    }
  }

  /** The `try` block's last steps: an OK reply is stored as the next output and rendered as a turn. */
  method RecordTurn(session: Session, panel: InterrogationPanel, question: string, reply: ApiReply)
    modifies session`outputs, panel`history
    ensures reply.Answered? ==>
              && session.outputs == old(session.outputs) + [Output(reply.raw, reply.html)]
              && panel.history == old(panel.history) + [Turn(EscapeHtml(question), reply.html, |old(session.outputs)|)]
    ensures !reply.Answered? ==> session.outputs == old(session.outputs) && panel.history == old(panel.history)
  {
    if reply.Answered? {
      var outputIndex := session.AppendOutput(Output(reply.raw, reply.html));
      panel.history := panel.history + [Turn(EscapeHtml(question), reply.html, outputIndex)];
    }
  }

  /**
   * `submitInterrogation`, `reply` standing for how the request ends. A blank question
   * or an empty output list sends nothing and changes nothing. Otherwise the trimmed
   * question is sent with the first stored answer (`outputs[0]`) and the textarea is
   * cleared; an OK reply is appended as the next output and rendered as a turn; the
   * button is enabled and the spinner hidden however the request ends.
   */
  method SubmitInterrogation(session: Session, panel: InterrogationPanel, reply: ApiReply)
    returns (sent: Option<InterrogationRequest>)
    modifies session`outputs, panel
    ensures sent.None? <==> IsBlank(old(panel.input)) || old(session.outputs) == []
    ensures sent.None? ==> session.outputs == old(session.outputs) && unchanged(panel)
    ensures sent.Some? ==> && sent.value == InterrogationRequest(old(session.outputs)[0].raw, Trim(old(panel.input)))
                           && panel.input == "" && !panel.submitDisabled && !panel.loadingShown
    ensures sent.Some? && reply.Answered? ==>
              && session.outputs == old(session.outputs) + [Output(reply.raw, reply.html)]
              && panel.history == old(panel.history) + [Turn(EscapeHtml(Trim(old(panel.input))), reply.html, |old(session.outputs)|)]
    ensures sent.Some? && !reply.Answered? ==> session.outputs == old(session.outputs) && panel.history == old(panel.history)
  {
    var question := Trim(panel.input);
    BlankIffTrimEmpty(panel.input);
    if question == [] || |session.outputs| == 0 {
      return None;
    }
    var priorAnalysis := session.outputs[0].raw;
    panel.submitDisabled := true;
    panel.input := "";
    panel.loadingShown := true;
    sent := Some(InterrogationRequest(priorAnalysis, question));
    RecordTurn(session, panel, question, reply);
    panel.submitDisabled := false;
    panel.loadingShown := false;
  }

  /**
   * A follow-up asked right after the main analysis, before any answer is stored, sends
   * nothing: the analysis handler writes the raw Markdown and the metadata but never
   * the outputs, so the follow-up handler still finds them empty.
   */
  method FollowUpAfterAnalysis(session: Session, form: Page.AnalysisForm, panel: InterrogationPanel,
                               analysisReply: ApiReply, followUpReply: ApiReply, timestamp: string)
    returns (sent: Option<InterrogationRequest>)
    requires session.outputs == []
    modifies session`rawMarkdownContent, session`analysisMetadata, session`outputs
    modifies form`formShown, form`loadingShown, form`resultsShown, form`resultsHtml, panel
    ensures sent.None?
  {
    var analysisSent := Analysis.AnalyzeClick(session, form, analysisReply, timestamp);
    sent := SubmitInterrogation(session, panel, followUpReply);
  }

  /**
   * The endpoint reads only its analysis fields, none of which a follow-up carries, so
   * it sees a request without an image.
   */
  function ServerView(req: InterrogationRequest): AnalyzeArtwork.Request {
    AnalyzeArtwork.Request("", "", "", "", "", "", "", "")
  }

  /**
   * With the endpoint as it stands a configured server refuses every follow-up with
   * 400 `No image provided`, and the panel then keeps its outputs.
   */
  lemma FollowUpsRefused(req: InterrogationRequest, apiKey: string,
                         modes: seq<AnalyzeArtwork.AnalysisMode>, prose: AnalyzeArtwork.Prose)
    requires apiKey != ""
    ensures AnalyzeArtwork.PlanRequest(apiKey, Some(ServerView(req)), modes, prose)
            == AnalyzeArtwork.Answer(AnalyzeArtwork.Response(400, AnalyzeArtwork.Rejected(AnalyzeArtwork.NoImageMessage)))
  {
  }
}
