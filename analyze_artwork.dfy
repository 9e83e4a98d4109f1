/**
 * The analysis endpoint: it checks its configuration and the request, picks the
 * analysis mode, builds the system prompt (framework text followed by the
 * instructions of one of three branches), splits the uploaded data URL into media
 * type and payload, calls the language model, and answers with the reply rendered
 * as HTML next to the raw Markdown.
 *
 * The model call is not performed here: `PlanRequest` computes either the early
 * response or the exact call to make, and `Complete` turns the call's outcome, given
 * as a parameter, into the response.
 */
module AnalyzeArtwork {
  import opened Wrappers
  import opened Text
  import opened Markdown

  /** The JSON body's fields; a missing or falsy field is the empty string, and every field is taken to be a string. */
  datatype Request = Request(
    image: string, title: string, artist: string, year: string, medium: string,
    dimensions: string, mode: string, customPrompt: string)

  /** An entry of the analysis-mode data file. */
  datatype AnalysisMode = AnalysisMode(id: string, name: string, description: string)

  /**
   * The long fixed passages of the prompt: the framework text (which also embeds the
   * drivers and principles data) and the guidance that closes each branch.
   */
  datatype Prose = Prose(framework: string, customGuidance: string, wipGuidance: string, genericGuidance: string)

  /** Why a request ended in the 500 response. */
  datatype Fault = MissingApiKey | MalformedBody | NoModes | ServiceFailure(message: string)

  datatype Reply =
    | Analysis(analysis: string, raw: string)
    | Rejected(error: string)
    | Failed(error: string, fault: Fault)

  datatype Response = Response(status: nat, reply: Reply)

  /** The language-model request: one image block and one text block, under a system prompt. */
  datatype ServiceCall = ServiceCall(
    model: string, maxTokens: nat, system: string,
    mediaType: Option<string>, data: Option<string>, userText: string)

  /** What the endpoint does before the model is called: answer at once, or make the call. */
  datatype Plan = Answer(response: Response) | Call(call: ServiceCall)

  /** A content block of the model's reply; only text blocks carry analysis text. */
  datatype Block = TextBlock(text: string) | OtherBlock

  datatype ServiceOutcome = Replied(blocks: seq<Block>) | Threw(message: string)

  datatype Branch = Custom | Wip | Generic

  const FailureMessage := "Failed to analyze artwork"
  const NoImageMessage := "No image provided"
  const ModelName := "claude-sonnet-4-20250514"
  const MaxTokens := 4096
  const UserText := "Please analyze this artwork using the Hidden Grammar framework as described in the system prompt."

  /** `value || fallback` for a string. */
  function Or(value: string, fallback: string): string {
    if value == "" then fallback else value
  }

  /** `s` occurs somewhere in `t`. */
  predicate Contains(t: string, s: string) {
    exists i | 0 <= i <= |t| :: OccursAt(t, s, i)
  }

  lemma ContainsMiddle(a: string, s: string, b: string)
    ensures Contains(a + s + b, s)
  {
    assert (a + s + b)[|a|..|a| + |s|] == s;
    assert OccursAt(a + s + b, s, |a|);
  }

  // ---------------------------------------------------------------------------
  // Mode selection

  /** The index of the first mode whose id is `id`. */
  function FindMode(modes: seq<AnalysisMode>, id: string): (r: Option<nat>)
    ensures r.Some? ==> r.value < |modes| && modes[r.value].id == id
    ensures r.Some? ==> forall k | 0 <= k < r.value :: modes[k].id != id
    ensures r.None? ==> forall k | 0 <= k < |modes| :: modes[k].id != id
  {
    FindIndex(modes, (m: AnalysisMode) => m.id == id)
  }

  /**
   * `modes.find(m => m.id === mode) || modes[0]`: the first mode with the requested id,
   * else the first mode; nothing when the list is empty.
   */
  function SelectMode(modes: seq<AnalysisMode>, id: string): (r: Option<AnalysisMode>)
    ensures r.None? <==> modes == []
    ensures r.Some? ==> r.value in modes
    ensures (exists k | 0 <= k < |modes| :: modes[k].id == id) ==> r.Some? && r.value.id == id
    ensures modes != [] && (forall k | 0 <= k < |modes| :: modes[k].id != id) ==> r == Some(modes[0])
  {
    match FindMode(modes, id)
    case Some(k) => Some(modes[k])
    case None => if modes == [] then None else Some(modes[0])
  }

  // ---------------------------------------------------------------------------
  // The instructions

  /**
   * The custom branch is taken when the custom prompt has non-white-space content,
   * before the mode is looked at; otherwise the raw mode id `wip` picks the studio
   * critique, and every other id the generic template of the selected mode.
   */
  function BranchOf(req: Request): Branch {
    if !IsBlank(req.customPrompt) then Custom
    else if req.mode == "wip" then Wip
    else Generic
  }

  /** One bullet of the context block. */
  function ContextLine(key: string, value: string): string {
    "- **" + key + ":** " + value + "\n"
  }

  /** Title, artist, year and medium, each with its fallback; only the year's differs between branches. */
  function ContextLines(req: Request, yearFallback: string): string {
    ContextLine("Artwork Title", Or(req.title, "Untitled"))
    + ContextLine("Artist", Or(req.artist, "Unknown Artist"))
    + ContextLine("Year", Or(req.year, yearFallback))
    + ContextLine("Medium", Or(req.medium, "Not specified"))
  }

  const CustomHeader := "\n# YOUR TASK (Custom Analysis)\n\nThe user has requested a custom analysis with the following instructions:\n\n"
  const CustomContextHeader := "\n\n**Context Information:**\n"
  const WipHeader := "\n# YOUR TASK: WIP Mode (Studio Critique)\n\n**Context:**\n"
  const ContextHeader := "\n\n**Context:**\n"

  function CustomInstructions(req: Request, prose: Prose): string {
    CustomHeader + req.customPrompt + CustomContextHeader + ContextLines(req, "Not specified")
    + ContextLine("Dimensions", Or(req.dimensions, "Not specified")) + "\n" + prose.customGuidance
  }

  function WipInstructions(req: Request, prose: Prose): string {
    WipHeader + ContextLines(req, "Work in Progress") + "\n" + prose.wipGuidance
  }

  function GenericInstructions(req: Request, mode: AnalysisMode, prose: Prose): string {
    "\n# YOUR TASK: " + mode.name + "\n\n" + mode.description + ContextHeader
    + ContextLines(req, "Not specified") + "\n" + prose.genericGuidance + mode.name + "."
  }

  /**
   * The instructions appended to the framework text; `None` where the generic branch
   * reads the name of a selected mode that does not exist (an empty mode list), which
   * throws in the source.
   */
  function Instructions(req: Request, modes: seq<AnalysisMode>, prose: Prose): (r: Option<string>)
    ensures r.None? <==> BranchOf(req) == Generic && modes == []
  {
    match BranchOf(req)
    case Custom => Some(CustomInstructions(req, prose))
    case Wip => Some(WipInstructions(req, prose))
    case Generic =>
      match SelectMode(modes, req.mode)
      case None => None
      case Some(m) => Some(GenericInstructions(req, m, prose))
  }

  // ---------------------------------------------------------------------------
  // The data URL

  /** `image.split(';')[0].split(':')[1]`: the media type of a data URL, `None` for `undefined`. */
  function MediaType(image: string): Option<string> {
    match Piece(image, ';', 0)
    case None => None
    case Some(head) => Piece(head, ':', 1)
  }

  /** `image.split(',')[1]`: the text between the first and the second comma. */
  function Payload(image: string): Option<string> {
    Piece(image, ',', 1)
  }

  /** Two pieces around one separator split back into those pieces. */
  lemma SplitPair(a: string, sep: char, b: string)
    requires sep !in a && sep !in b
    ensures Split(a + [sep] + b, sep) == [a, b]
  {
    assert Join([a, b], sep) == a + [sep] + b by {
      assert [a, b][1..] == [b];
    }
    SplitJoin([a, b], sep);
  }

  /** The media type half of `DataUrlRoundTrip`. */
  lemma DataUrlMediaType(mediaType: string, payload: string)
    requires ';' !in mediaType && ':' !in mediaType
    requires ';' !in payload
    ensures MediaType("data:" + mediaType + ";base64," + payload) == Some(mediaType)
  {
    var head := "data:" + mediaType;
    var tail := "base64," + payload;
    assert "data:" + mediaType + ";base64," + payload == head + [';'] + tail;
    assert ';' !in tail;
    SplitPair(head, ';', tail);
    assert head == "data" + [':'] + mediaType;
    SplitPair("data", ':', mediaType);
  }

  /** The payload half of `DataUrlRoundTrip`. */
  lemma DataUrlPayload(mediaType: string, payload: string)
    requires ',' !in mediaType && ',' !in payload
    ensures Payload("data:" + mediaType + ";base64," + payload) == Some(payload)
  {
    var head := "data:" + mediaType + ";base64";
    assert "data:" + mediaType + ";base64," + payload == head + [','] + payload;
    assert ',' !in head;
    SplitPair(head, ',', payload);
  }

  /**
   * A base64 data URL built from a media type and a payload is split back into exactly
   * those two, provided neither contains the separators the split uses.
   */
  lemma DataUrlRoundTrip(mediaType: string, payload: string)
    requires ';' !in mediaType && ':' !in mediaType && ',' !in mediaType
    requires ',' !in payload && ';' !in payload
    ensures MediaType("data:" + mediaType + ";base64," + payload) == Some(mediaType)
    ensures Payload("data:" + mediaType + ";base64," + payload) == Some(payload)
  {
    DataUrlMediaType(mediaType, payload);
    DataUrlPayload(mediaType, payload);
  }

  /** A data URL without a comma has no payload: the model receives `undefined`. */
  lemma NoCommaNoPayload(image: string)
    requires ',' !in image
    ensures Payload(image).None?
  {
  }

  // ---------------------------------------------------------------------------
  // The request

  /**
   * Everything the endpoint decides before the model is called. An empty key fails
   * before the body is read; a body that is not JSON fails; a body without image is
   * refused with 400; otherwise the call carries the framework followed by the
   * branch's instructions, the media type and the payload of the data URL.
   */
  function PlanRequest(apiKey: string, body: Option<Request>, modes: seq<AnalysisMode>, prose: Prose): (p: Plan)
    ensures apiKey == "" ==> p == Answer(Response(500, Failed(FailureMessage, MissingApiKey)))
    ensures apiKey != "" && body.None? ==> p == Answer(Response(500, Failed(FailureMessage, MalformedBody)))
    ensures apiKey != "" && body.Some? && body.value.image == "" ==> p == Answer(Response(400, Rejected(NoImageMessage)))
    ensures p.Call? <==> apiKey != "" && body.Some? && body.value.image != "" && (BranchOf(body.value) != Generic || modes != [])
    ensures p.Call? ==> && p.call.system == prose.framework + Instructions(body.value, modes, prose).value
                        && StartsWith(p.call.system, prose.framework)
                        && p.call.mediaType == MediaType(body.value.image)
                        && p.call.data == Payload(body.value.image)
                        && p.call.userText == UserText && p.call.model == ModelName && p.call.maxTokens == MaxTokens
    ensures p.Answer? ==> p.response.status in {400, 500}
  {
    if apiKey == "" then Answer(Response(500, Failed(FailureMessage, MissingApiKey)))
    else if body.None? then Answer(Response(500, Failed(FailureMessage, MalformedBody)))
    else
      var req := body.value;
      if req.image == "" then Answer(Response(400, Rejected(NoImageMessage)))
      else match Instructions(req, modes, prose)
        case None => Answer(Response(500, Failed(FailureMessage, NoModes)))
        case Some(instructions) =>
          var system := prose.framework + instructions;
          assert system[..|prose.framework|] == prose.framework;
          Call(ServiceCall(ModelName, MaxTokens, system, MediaType(req.image), Payload(req.image), UserText))
  }

  /** The texts of the text blocks, in order. */
  function Texts(blocks: seq<Block>): (r: seq<string>)
    ensures |r| <= |blocks|
  {
    if blocks == [] then []
    else match blocks[0]
      case TextBlock(t) => [t] + Texts(blocks[1..])
      case OtherBlock => Texts(blocks[1..])
  }

  /** `parts.join(sep)`. */
  function JoinWith(parts: seq<string>, sep: string): string {
    if |parts| == 0 then ""
    else if |parts| == 1 then parts[0]
    else parts[0] + sep + JoinWith(parts[1..], sep)
  }

  /** Every part appears in the joined text. */
  lemma {:induction false} JoinWithContains(parts: seq<string>, sep: string, k: nat)
    requires k < |parts|
    ensures Contains(JoinWith(parts, sep), parts[k])
    decreases |parts|
  {
    if |parts| == 1 {
      ContainsMiddle([], parts[0], []);
      assert [] + parts[0] + [] == parts[0];
    } else if k == 0 {
      ContainsMiddle([], parts[0], sep + JoinWith(parts[1..], sep));
      assert [] + parts[0] + (sep + JoinWith(parts[1..], sep)) == JoinWith(parts, sep);
    } else {
      JoinWithContains(parts[1..], sep, k - 1);
      assert parts[1..][k - 1] == parts[k];
      assert JoinWith(parts, sep) == (parts[0] + sep) + JoinWith(parts[1..], sep);
      ContainsInSuffix(parts[0] + sep, JoinWith(parts[1..], sep), parts[k]);
    }
  }

  /** Text found after a prefix is found in the whole. */
  lemma ContainsInSuffix(pre: string, rest: string, s: string)
    requires Contains(rest, s)
    ensures Contains(pre + rest, s)
  {
    var i :| 0 <= i <= |rest| && OccursAt(rest, s, i);
    assert (pre + rest)[|pre| + i..|pre| + i + |s|] == rest[i..i + |s|];
    assert OccursAt(pre + rest, s, |pre| + i);
  }

  /** The analysis text: the text blocks of the reply joined by blank lines. */
  function AnalysisText(blocks: seq<Block>): string {
    JoinWith(Texts(blocks), "\n\n")
  }

  /** Every text block of the reply is kept in the analysis text. */
  lemma AnalysisTextKeepsBlocks(blocks: seq<Block>, k: nat)
    requires k < |Texts(blocks)|
    ensures Contains(AnalysisText(blocks), Texts(blocks)[k])
  {
    JoinWithContains(Texts(blocks), "\n\n", k);
  }

  /** A reply of one text block is returned as it is. */
  lemma SingleBlockReply(t: string)
    ensures AnalysisText([TextBlock(t)]) == t
  {
    assert [TextBlock(t)][1..] == [];
  }

  /** The response once the model call returned or threw. */
  function Complete(outcome: ServiceOutcome): (r: Response)
    ensures r.status == 200 <==> outcome.Replied?
    ensures outcome.Replied? ==> r.reply == Analysis(MarkdownToHtml(AnalysisText(outcome.blocks)), AnalysisText(outcome.blocks))
    ensures outcome.Threw? ==> r == Response(500, Failed(FailureMessage, ServiceFailure(outcome.message)))
  {
    match outcome
    case Replied(blocks) =>
      var text := AnalysisText(blocks);
      Response(200, Analysis(MarkdownToHtml(text), text))
    case Threw(message) => Response(500, Failed(FailureMessage, ServiceFailure(message)))
  }

  /** The `POST` handler as a whole, for a given outcome of the model call. */
  function HandleAnalyze(apiKey: string, body: Option<Request>, modes: seq<AnalysisMode>, prose: Prose, outcome: ServiceOutcome): Response {
    match PlanRequest(apiKey, body, modes, prose)
    case Answer(r) => r
    case Call(_) => Complete(outcome)
  }

  /**
   * The endpoint answers 200, 400 or 500; 200 exactly when the key is set, the body is
   * JSON with an image, the instructions could be built and the model replied, and then
   * the HTML is the rendering of the raw text and holds no blank line.
   */
  lemma ResponseStatuses(apiKey: string, body: Option<Request>, modes: seq<AnalysisMode>, prose: Prose, outcome: ServiceOutcome)
    ensures HandleAnalyze(apiKey, body, modes, prose, outcome).status in {200, 400, 500}
    ensures HandleAnalyze(apiKey, body, modes, prose, outcome).status == 200
            <==> PlanRequest(apiKey, body, modes, prose).Call? && outcome.Replied?
    ensures var r := HandleAnalyze(apiKey, body, modes, prose, outcome);
            r.status == 200 ==> r.reply.Analysis? && r.reply.analysis == MarkdownToHtml(r.reply.raw) && NoBlankLine(r.reply.analysis)
  {
    var r := HandleAnalyze(apiKey, body, modes, prose, outcome);
    if r.status == 200 {
      OutputHasNoBlankLine(r.reply.raw);
    }
  }

  lemma ContainsWithin(a: string, b: string, c: string, s: string)
    requires Contains(b, s)
    ensures Contains(a + b + c, s)
  {
    var i :| 0 <= i <= |b| && OccursAt(b, s, i);
    assert (a + b + c)[|a| + i..|a| + i + |s|] == b[i..i + |s|];
    assert OccursAt(a + b + c, s, |a| + i);
  }

  /** The custom and studio-critique instructions do not depend on the mode list. */
  lemma InstructionsIgnoreModes(req: Request, modes: seq<AnalysisMode>, prose: Prose)
    requires BranchOf(req) != Generic
    ensures Instructions(req, modes, prose) == Instructions(req, [], prose)
  {
  }

  /** The custom instructions quote the custom prompt. */
  lemma CustomInstructionsQuotePrompt(req: Request, prose: Prose)
    ensures Contains(CustomInstructions(req, prose), req.customPrompt)
  {
    var tail := CustomContextHeader + ContextLines(req, "Not specified")
                + ContextLine("Dimensions", Or(req.dimensions, "Not specified")) + "\n" + prose.customGuidance;
    assert CustomInstructions(req, prose) == CustomHeader + req.customPrompt + tail;
    ContainsMiddle(CustomHeader, req.customPrompt, tail);
  }

  /**
   * A custom prompt with content is passed to the model verbatim, and the custom and
   * studio-critique branches never consult the mode list: the call is the same for any list.
   */
  lemma CustomPromptVerbatim(apiKey: string, req: Request, modes: seq<AnalysisMode>, prose: Prose)
    requires apiKey != "" && req.image != "" && BranchOf(req) != Generic
    ensures PlanRequest(apiKey, Some(req), modes, prose).Call?
    ensures PlanRequest(apiKey, Some(req), modes, prose) == PlanRequest(apiKey, Some(req), [], prose)
    ensures BranchOf(req) == Custom ==> Contains(PlanRequest(apiKey, Some(req), modes, prose).call.system, req.customPrompt)
  {
    InstructionsIgnoreModes(req, modes, prose);
    var p := PlanRequest(apiKey, Some(req), modes, prose);
    assert p.call.system == prose.framework + Instructions(req, modes, prose).value;
    if BranchOf(req) == Custom {
      CustomInstructionsQuotePrompt(req, prose);
      ContainsWithin(prose.framework, CustomInstructions(req, prose), [], req.customPrompt);
      assert prose.framework + CustomInstructions(req, prose) + [] == p.call.system;
    }
  }

  /**
   * The custom branch is taken exactly when the trimmed custom prompt is not empty; a
   * blank one is ignored, and the mode id `wip` then selects the studio critique
   * whatever the mode list holds.
   */
  lemma BlankCustomPromptIgnored(req: Request)
    ensures BranchOf(req) == Custom <==> Trim(req.customPrompt) != []
    ensures Trim(req.customPrompt) == [] ==> BranchOf(req) == (if req.mode == "wip" then Wip else Generic)
  {
    BlankIffTrimEmpty(req.customPrompt);
  }

  /** The year line of the context block, with the year's fallback. */
  lemma YearInContext(req: Request, yearFallback: string)
    ensures Contains(ContextLines(req, yearFallback), ContextLine("Year", Or(req.year, yearFallback)))
  {
    var head := ContextLine("Artwork Title", Or(req.title, "Untitled")) + ContextLine("Artist", Or(req.artist, "Unknown Artist"));
    var tail := ContextLine("Medium", Or(req.medium, "Not specified"));
    ContainsMiddle(head, ContextLine("Year", Or(req.year, yearFallback)), tail);
  }

  lemma CustomInstructionsHoldYear(req: Request, prose: Prose)
    ensures Contains(CustomInstructions(req, prose), ContextLine("Year", Or(req.year, "Not specified")))
  {
    var lines := ContextLines(req, "Not specified");
    YearInContext(req, "Not specified");
    var head := CustomHeader + req.customPrompt + CustomContextHeader;
    var tail := ContextLine("Dimensions", Or(req.dimensions, "Not specified")) + "\n" + prose.customGuidance;
    assert CustomInstructions(req, prose) == head + lines + tail;
    ContainsWithin(head, lines, tail, ContextLine("Year", Or(req.year, "Not specified")));
  }

  lemma WipInstructionsHoldYear(req: Request, prose: Prose)
    ensures Contains(WipInstructions(req, prose), ContextLine("Year", Or(req.year, "Work in Progress")))
  {
    var lines := ContextLines(req, "Work in Progress");
    YearInContext(req, "Work in Progress");
    assert WipInstructions(req, prose) == WipHeader + lines + ("\n" + prose.wipGuidance);
    ContainsWithin(WipHeader, lines, "\n" + prose.wipGuidance, ContextLine("Year", Or(req.year, "Work in Progress")));
  }

  lemma GenericInstructionsHoldYear(req: Request, m: AnalysisMode, prose: Prose)
    ensures Contains(GenericInstructions(req, m, prose), ContextLine("Year", Or(req.year, "Not specified")))
  {
    var lines := ContextLines(req, "Not specified");
    YearInContext(req, "Not specified");
    var head := "\n# YOUR TASK: " + m.name + "\n\n" + m.description + ContextHeader;
    var tail := "\n" + prose.genericGuidance + m.name + ".";
    assert GenericInstructions(req, m, prose) == head + lines + tail;
    ContainsWithin(head, lines, tail, ContextLine("Year", Or(req.year, "Not specified")));
  }

  /** Each branch's instructions hold its year line. */
  lemma InstructionsHoldYear(req: Request, modes: seq<AnalysisMode>, prose: Prose)
    requires Instructions(req, modes, prose).Some?
    ensures var fallback := if BranchOf(req) == Wip then "Work in Progress" else "Not specified";
            Contains(Instructions(req, modes, prose).value, ContextLine("Year", Or(req.year, fallback)))
  {
    match BranchOf(req)
    case Custom => CustomInstructionsHoldYear(req, prose);
    case Wip => WipInstructionsHoldYear(req, prose);
    case Generic => GenericInstructionsHoldYear(req, SelectMode(modes, req.mode).value, prose);
  }

  /**
   * A missing year is reported as work in progress in the studio critique and as not
   * specified elsewhere; a given year is passed as it is.
   */
  lemma YearLine(apiKey: string, req: Request, modes: seq<AnalysisMode>, prose: Prose)
    requires PlanRequest(apiKey, Some(req), modes, prose).Call?
    ensures var system := PlanRequest(apiKey, Some(req), modes, prose).call.system;
            && (req.year == "" && BranchOf(req) == Wip ==> Contains(system, ContextLine("Year", "Work in Progress")))
            && (req.year == "" && BranchOf(req) != Wip ==> Contains(system, ContextLine("Year", "Not specified")))
            && (req.year != "" ==> Contains(system, ContextLine("Year", req.year)))
  {
    var system := PlanRequest(apiKey, Some(req), modes, prose).call.system;
    var ins := Instructions(req, modes, prose).value;
    assert system == prose.framework + ins;
    InstructionsHoldYear(req, modes, prose);
    var fallback := if BranchOf(req) == Wip then "Work in Progress" else "Not specified";
    ContainsWithin(prose.framework, ins, [], ContextLine("Year", Or(req.year, fallback)));
    assert prose.framework + ins + [] == system;
  }
}
