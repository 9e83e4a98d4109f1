# Artwork analyzer — a verified model

This project models the artwork-analysis tool of the "Artists Are Jerks" site in Dafny.
A visitor uploads an image of an artwork and the browser normalises it. The visitor then
picks an analysis mode or writes a custom prompt, optionally with a lens. A server
endpoint turns the request into instructions for a language model and renders the
model's Markdown reply as HTML.

After the results are shown, the page offers more controls:

- follow-up questions about the analysis;
- a lens modifier that re-runs the analysis through a chosen lens;
- four exports of the analysis;
- a feedback widget whose submissions a second endpoint forwards to a feedback table.

It also models the toolkit catalogue that lists the modes by use case.

Each source file is one Dafny module:

| module | source |
|---|---|
| `ToolkitModes` | `src/data/toolkit-modes.js` |
| `AnalyzeArtwork` | the analysis endpoint, `src/pages/api/analyze-artwork.ts` |
| `Markdown` | its `markdownToHTML` |
| `SubmitFeedback` | `src/pages/api/submit-feedback.ts` |
| `State` | the shared session record of `state.ts` |
| `ImageUpload`, `FormInteractions`, `Analysis`, `Interrogation`, `LensModifier`, `Feedback`, `Exports` | the client scripts of the same names |

Three more modules hold shared pieces:

- `Wrappers` holds the optional value that stands for `null`/`undefined`. It also holds `FindIndex`, the one first-match search behind every `find`, `findIndex` and list `querySelector` of the code. `FindMode`, `FindLens`, `FindOption`, `FindById` and `FirstChecked` are instances of it, each keyed on its own field.
- `Page` holds the analysis form that several scripts share.
- `Text` holds the JavaScript string operations the code relies on:
  - `trim` and the `\s` class;
  - `split` on one character;
  - a global replacement of a literal;
  - `toLowerCase`.

The modules take different shapes:

- The pure code is modelled as functions and lemmas: the endpoint, the Markdown converter, the catalogue, the slug and the feedback normalisation.
- Browser state that the scripts mutate is modelled as classes: the session record, the form, the upload widget, the follow-up panel, the lens widget and the feedback widget.
- Event listeners are modelled as methods with `modifies` clauses on exactly the fields they write.
- Loops are kept as loops with invariants:
  - the JPEG quality descent;
  - painting the stars;
  - unchecking the radios;
  - building the grouped dropdown.

The network, the language model and the clock are parameters. So are the browser's
decoders, and the outcome of each request (`ApiReply`: OK with the reply's fields,
not OK, or thrown).

The client and the server disagree about the request format, so the model follows the
server code.

- The analysis endpoint reads only `image`, `title`, `artist`, `year`, `medium`, `dimensions`, `mode` and `customPrompt`.
- A follow-up question is posted as `{interrogationMode, priorAnalysis, userQuestion}`. It carries no image, so the endpoint as written answers every follow-up with 400 (`Interrogation.FollowUpsRefused`).
- A lens request carries `image`, `fields` and `promptText`. The endpoint analyses it as a plain request with the first mode's generic template and never sees the lens's prompt (`LensModifier.LensPromptUnused`).

The model keeps this server behaviour and does not invent an interrogation template
that the code does not have.

The record's declaration in `state.ts` reserves `outputs[0]` for the main analysis, but
no code stores it there. The analysis handler writes only `rawMarkdownContent` and
`analysisMetadata`. The only writes to `outputs` are the pushes of follow-up answers and
lens answers. So a follow-up asked right after an analysis only raises the "No analysis
to interrogate" alert (`Interrogation.FollowUpAfterAnalysis`). Once a lens answer exists,
that answer is `outputs[0]` and a follow-up sends it as `priorAnalysis`. The model keeps
this.

## Model

| member | source | states |
|---|---|---|
| ToolkitModes.FlattenAt | src/data/toolkit-modes.js:591-597 | mode `j` of bucket `i` is the flat index's entry at (modes in earlier buckets) + `j`, tagged with bucket `i`: bucket order, then mode order |
| ToolkitModes.FlattenFrom | src/data/toolkit-modes.js:591-597 | every entry of the flat index is some bucket's mode tagged with that bucket |
| ToolkitModes.FlattenDistinct | src/data/toolkit-modes.js:591-597 | ids distinct within and across buckets stay distinct in the flat index |
| ToolkitModes.CatalogueIdsDistinct | src/data/toolkit-modes.js:19-585 | the catalogue has 38 modes and no two share an id |
| ToolkitModes.FindById | src/data/toolkit-modes.js:600 | `find`: the first entry with the id, or none exactly when no entry has it |
| ToolkitModes.GetModeById | src/data/toolkit-modes.js:599-601 | the result has the requested id and is an entry of the flat index; `null` exactly when no entry has the id |
| ToolkitModes.GetModeByIdFindsEntry | src/data/toolkit-modes.js:599-601 | looking up any entry's own id returns that entry |
| ToolkitModes.LiveModesLinkToTool | src/data/toolkit-modes.js:8-15 | a mode links to the analysis tool exactly when it is live; the other modes carry no link |
| AnalyzeArtwork.FindMode | src/pages/api/analyze-artwork.ts:42 | the first mode with the id; none exactly when no mode has it |
| AnalyzeArtwork.SelectMode | src/pages/api/analyze-artwork.ts:42 | the mode with the requested id when there is one, else the first mode; nothing only for an empty list |
| AnalyzeArtwork.Instructions | src/pages/api/analyze-artwork.ts:316-322 | instructions can be built except in the generic branch with no modes, where reading the selected mode's name throws |
| AnalyzeArtwork.BlankCustomPromptIgnored | src/pages/api/analyze-artwork.ts:45-180 | the custom branch is taken exactly when the trimmed prompt is not empty; otherwise the id `wip` picks the studio critique and any other id the generic template |
| AnalyzeArtwork.DataUrlRoundTrip | src/pages/api/analyze-artwork.ts:48-49 | a data URL built from a media type and a payload splits back into exactly those two |
| AnalyzeArtwork.NoCommaNoPayload | src/pages/api/analyze-artwork.ts:48 | a data URL without a comma yields no payload (`undefined`) |
| AnalyzeArtwork.PlanRequest | src/pages/api/analyze-artwork.ts:22-49 | a missing key or a non-JSON body gives 500; a missing image gives 400; otherwise the model is called with the framework followed by the branch's instructions |
| AnalyzeArtwork.InstructionsIgnoreModes | src/pages/api/analyze-artwork.ts:104-315 | the custom and studio-critique instructions do not depend on the mode list |
| AnalyzeArtwork.CustomInstructionsQuotePrompt | src/pages/api/analyze-artwork.ts:112 | the custom instructions contain the custom prompt |
| AnalyzeArtwork.CustomPromptVerbatim | src/pages/api/analyze-artwork.ts:106-177 | with a key and an image, the custom and studio-critique branches always call the model, the same way for any mode list; a custom prompt reaches the system text verbatim |
| AnalyzeArtwork.CustomInstructionsHoldYear | src/pages/api/analyze-artwork.ts:117 | the custom context shows the year, or `Not specified` |
| AnalyzeArtwork.WipInstructionsHoldYear | src/pages/api/analyze-artwork.ts:187 | the studio critique shows the year, or `Work in Progress` |
| AnalyzeArtwork.GenericInstructionsHoldYear | src/pages/api/analyze-artwork.ts:326 | the generic context shows the year, or `Not specified` |
| AnalyzeArtwork.YearLine | src/pages/api/analyze-artwork.ts:117-326 | every call's system text holds its branch's year line with that branch's fallback |
| AnalyzeArtwork.JoinWithContains | src/pages/api/analyze-artwork.ts:459 | every part appears in the joined text |
| AnalyzeArtwork.AnalysisTextKeepsBlocks | src/pages/api/analyze-artwork.ts:456-459 | every text block of the model's reply appears in the analysis text |
| AnalyzeArtwork.SingleBlockReply | src/pages/api/analyze-artwork.ts:456-459 | a one-block reply is the analysis text as it is |
| AnalyzeArtwork.Complete | src/pages/api/analyze-artwork.ts:455-491 | 200 exactly when the model replied, with the raw text and its HTML rendering; a thrown call gives 500 with its message |
| AnalyzeArtwork.ResponseStatuses | src/pages/api/analyze-artwork.ts:13-491 | the endpoint answers only 200, 400 or 500; 200 exactly when key, body, image, instructions and reply all succeed, and then the HTML holds no blank line |
| Markdown.FindClose | src/pages/api/analyze-artwork.ts:505-508 | the lazy `(.*?)` stops at the first closing delimiter on the same line, and fails when every later one lies past a line break |
| Markdown.WrapList | src/pages/api/analyze-artwork.ts:512 | either one `<ul>` wraps the span from the first `<li>` to the last `</li>` after it, or no such span exists and the text is unchanged |
| Markdown.ParagraphBreaksRemoveBlankLines | src/pages/api/analyze-artwork.ts:515 | replacing `\n\n` by a paragraph boundary leaves no double newline |
| Markdown.ReplaceAllKeepsNoBlankLine | src/pages/api/analyze-artwork.ts:519-522 | a clean-up whose replacement neither starts nor ends with a newline creates no blank line |
| Markdown.CloseHeadingsKeepsNoBlankLine | src/pages/api/analyze-artwork.ts:520 | dropping `</p>` after a heading close creates no blank line |
| Markdown.OutputHasNoBlankLine | src/pages/api/analyze-artwork.ts:496-525 | for every reply, the HTML holds no blank line |
| Markdown.RewriteLinesUnchanged | src/pages/api/analyze-artwork.ts:500-511 | a line rewrite leaves text alone when the marker's first character is absent |
| Markdown.EmphasisUnchanged | src/pages/api/analyze-artwork.ts:505-508 | an emphasis rewrite leaves text alone when the delimiter never occurs |
| Markdown.PlainTextIsOneParagraph | src/pages/api/analyze-artwork.ts:496-525 | text without markup characters or blank lines comes out as one `<p>` around the text, verbatim |
| Markdown.HeadingLevels | src/pages/api/analyze-artwork.ts:500-502 | a line opening with `### `, `## ` or `# ` becomes a heading of that level without the marker (deepest first); other lines are untouched |
| Markdown.BoldPair | src/pages/api/analyze-artwork.ts:505-508 | `**t**` becomes `<strong>t</strong>`, so bold wins over italic |
| Markdown.ItalicPair | src/pages/api/analyze-artwork.ts:505-508 | `*t*` becomes `<em>t</em>` |
| Text.BlankIffTrimEmpty | src/scripts/ai-analyze/form-interactions.ts:28 | `trim()` is empty exactly when the text is all white space |
| Text.JoinSplit | src/pages/api/analyze-artwork.ts:48-49 | joining the pieces of a `split` with the separator restores the text |
| Text.SplitJoin | src/pages/api/analyze-artwork.ts:48-49 | splitting a join of separator-free pieces restores the pieces |
| Text.Lower | src/scripts/ai-analyze/exports.ts:57 | `toLowerCase` keeps the length; no `A`-`Z` is left in the result; every capital becomes the small letter 32 code points above it; every character that is not a capital is unchanged |
| Text.LowerIdempotent | src/scripts/ai-analyze/exports.ts:57 | lower-casing twice gives the same text as lower-casing once |
| State.Session.constructor | src/scripts/ai-analyze/state.ts:3-20 | the page-load state: no image, empty ids, prompt, fields and outputs |
| State.Session.AppendOutput | src/scripts/ai-analyze/interrogation.ts:59-60 | `push`: the new output lands at the old length and earlier outputs are unchanged |
| ImageUpload.QualitySteps | src/scripts/ai-analyze/image-upload.ts:135-141 | each `quality -= 0.1` lowers the quality by a tenth up to rounding; seven values lie above the 0.3 floor and the eighth does not |
| ImageUpload.ClampDimensions | src/scripts/ai-analyze/image-upload.ts:115-128 | sizes within 2048 are kept; otherwise the longer side becomes 2048 and the other keeps the aspect ratio |
| ImageUpload.SquareClamp | src/scripts/ai-analyze/image-upload.ts:120-127 | an oversized square becomes 2048 by 2048 |
| ImageUpload.Compress | src/scripts/ai-analyze/image-upload.ts:134-141 | the descent stops at the first encoding within 4 MiB or at the floor; every earlier quality was over budget and above the floor |
| ImageUpload.CompressToBudget | src/scripts/ai-analyze/image-upload.ts:134-144 | the `while` loop returns the encoding and quality the descent specifies, within budget or at the floor, after at most eight encodings |
| ImageUpload.SmallImageKeptAsIs | src/scripts/ai-analyze/image-upload.ts:98-159 | an image within 4 MiB and 2048 pixels is stored as read, never resized or refused |
| ImageUpload.AcceptedWithinCeiling | src/scripts/ai-analyze/image-upload.ts:150-155 | whatever is accepted is within 5 MiB; a refusal only follows a re-encoding |
| ImageUpload.BudgetOnlyKeepsDimensions | src/scripts/ai-analyze/image-upload.ts:106-132 | when only the byte estimate triggers re-encoding, the encoder gets the original dimensions |
| ImageUpload.HandleImageUpload | src/scripts/ai-analyze/image-upload.ts:88-171 | an accepted image becomes the session's image, is previewed and enables analyze; any other outcome changes nothing |
| ImageUpload.RemoveImage | src/scripts/ai-analyze/image-upload.ts:79-86 | the input and preview are cleared, the image dropped and analyze disabled |
| Page.FirstChecked | src/scripts/ai-analyze/analysis.ts:30 | `:checked`: the first checked radio; none exactly when no radio is checked |
| Page.UncheckAll | src/scripts/ai-analyze/analysis.ts:137-139 | every radio ends unchecked and keeps its value and card, so none is checked |
| FormInteractions.LensPreview | src/scripts/ai-analyze/form-interactions.ts:16 | a prompt of up to 150 characters is shown whole; a longer one as its first 150 and `...` |
| FormInteractions.PreviewKeepsPrefix | src/scripts/ai-analyze/form-interactions.ts:16 | the preview starts with the prompt's first (up to 150) characters |
| FormInteractions.ShortPromptsDistinguished | src/scripts/ai-analyze/form-interactions.ts:16-17 | two prompts of at most 150 characters with the same description are equal |
| FormInteractions.LongPromptsShareDescription | src/scripts/ai-analyze/form-interactions.ts:16-17 | long prompts that agree on their first 150 characters are shown alike |
| FormInteractions.OnLensChange | src/scripts/ai-analyze/form-interactions.ts:10-24 | the chosen option's prompt is previewed and highlighted; without a prompt the grey placeholder is shown |
| FormInteractions.OnCustomInput | src/scripts/ai-analyze/form-interactions.ts:27-38 | a non-blank prompt unchecks every mode and dims the modes section; either way no checked mode coexists with a non-blank prompt |
| FormInteractions.OnModeChange | src/scripts/ai-analyze/form-interactions.ts:41-51 | checking a mode clears the custom prompt and dims its section; the exclusivity of prompt and mode is preserved |
| Analysis.ModeOf | src/scripts/ai-analyze/analysis.ts:30-31 | the checked radio's value, or `strategic`; never empty |
| Analysis.FindOption | src/scripts/ai-analyze/analysis.ts:97 | the first option with the value, or none when no option has it |
| Analysis.ModeNameNeverEmpty | src/scripts/ai-analyze/analysis.ts:86-92 | the stored mode name is the card heading when there is one, else the mode id, else `strategic`; never empty |
| Analysis.LensNameCases | src/scripts/ai-analyze/analysis.ts:95-101 | the lens name is empty exactly when no lens is chosen or no option matches; otherwise it is the option's text |
| Analysis.SentRequestsCarryImage | src/scripts/ai-analyze/analysis.ts:35-64 | a sent request is never refused with 400; the endpoint takes the custom branch exactly when the prompt is non-blank, and the studio critique exactly when it is blank and the mode is `wip` |
| Analysis.AnalyzeClick | src/scripts/ai-analyze/analysis.ts:15-125 | it sends exactly when there is an image and a non-blank prompt or a checked mode, with the defaulted fields. An OK reply stores the raw text and metadata and shows the results. Any other outcome brings back the form and leaves the session as it was. The session invariant is kept |
| Analysis.BackToForm | src/scripts/ai-analyze/analysis.ts:127-146 | the form returns with no prompt and no checked mode, both sections usable, so a click would send nothing |
| Interrogation.EscapeAmp | src/scripts/ai-analyze/interrogation.ts:118 | the `&` pass turns every `&` into `&amp;` and touches nothing else |
| Interrogation.EscapeLt | src/scripts/ai-analyze/interrogation.ts:119 | the `<` pass escapes `<` without disturbing the entities already produced |
| Interrogation.EscapeGt | src/scripts/ai-analyze/interrogation.ts:120 | the `>` pass escapes `>` without disturbing the entities already produced |
| Interrogation.EscapeQuot | src/scripts/ai-analyze/interrogation.ts:121 | the `"` pass escapes `"` without disturbing the entities already produced |
| Interrogation.EscapeHtmlPerCharacter | src/scripts/ai-analyze/interrogation.ts:116-122 | escaping replaces each character by its entity or itself, independently of its neighbours |
| Interrogation.EscapeHtmlRoundTrip | src/scripts/ai-analyze/interrogation.ts:116-122 | unescaping in reverse order recovers the question exactly, because `&` is escaped first |
| Interrogation.EscapeHtmlSafe | src/scripts/ai-analyze/interrogation.ts:116-122 | the escaped question holds no `<`, `>` or `"`, is never shorter, and ordinary text is unchanged |
| Interrogation.RecordTurn | src/scripts/ai-analyze/interrogation.ts:58-63 | an OK reply is appended as the next output and rendered as a turn pointing at it; otherwise nothing is recorded |
| Interrogation.SubmitInterrogation | src/scripts/ai-analyze/interrogation.ts:22-73 | nothing is sent exactly when the question is blank or no answer is stored in the outputs. Otherwise the trimmed question goes with `outputs[0].raw` and the input is cleared. An OK reply becomes a new output and turn. The button is re-enabled in every case |
| Interrogation.FollowUpAfterAnalysis | src/scripts/ai-analyze/interrogation.ts:26-28 | a follow-up asked right after the main analysis, with no answer stored yet, sends nothing: the analysis handler never writes the outputs |
| Interrogation.FollowUpsRefused | src/scripts/ai-analyze/interrogation.ts:40-56 | the endpoint as written answers every follow-up with 400 `No image provided` |
| LensModifier.LensesIn | src/scripts/ai-analyze/lens-modifier.ts:43 | `filter`: a lens is kept exactly when its category matches |
| LensModifier.LensesInConcat | src/scripts/ai-analyze/lens-modifier.ts:42-43 | the filter keeps the lenses' order |
| LensModifier.ListedWhereCategoryMatches | src/scripts/ai-analyze/lens-modifier.ts:39-51 | a lens's option appears under a category when its category is that category's id, and every option under a category comes from a lens of that category; a lens with no matching category appears nowhere |
| LensModifier.FindLens | src/scripts/ai-analyze/lens-modifier.ts:61 | the first lens with the id, or none when no lens has it |
| LensModifier.BuildDropdown | src/scripts/ai-analyze/lens-modifier.ts:39-51 | the nested loops append exactly one group per category, each with its lenses' options |
| LensModifier.InitLensModifier | src/scripts/ai-analyze/lens-modifier.ts:17-55 | malformed data changes nothing; otherwise the dropdown is built and the lenses captured |
| LensModifier.OnSelectChange | src/scripts/ai-analyze/lens-modifier.ts:53-55 | apply is enabled exactly when a lens is selected |
| LensModifier.RecordLensTurn | src/scripts/ai-analyze/lens-modifier.ts:87-90 | an OK reply is appended as the next output and rendered as a lens turn; otherwise nothing is recorded |
| LensModifier.ApplyLens | src/scripts/ai-analyze/lens-modifier.ts:57-101 | it sends exactly when a lens is selected, found and an image exists, with that lens's prompt; an OK reply becomes a new output; afterwards both controls are enabled and the selection cleared |
| LensModifier.ShowLensModifier | src/scripts/ai-analyze/lens-modifier.ts:104-107 | the section is shown |
| LensModifier.ResetLensModifier | src/scripts/ai-analyze/lens-modifier.ts:109-119 | hidden, nothing selected, apply disabled: the selection invariant holds again |
| LensModifier.LensPromptUnused | src/scripts/ai-analyze/lens-modifier.ts:72-77 | the endpoint as written analyses a lens request with the first mode's generic template, whatever the lens's prompt |
| Feedback.PaintStars | src/scripts/ai-analyze/feedback.ts:81-96 | a hover paint marks stars up to the value as hovered; a plain paint makes them active and clears hover; pressed always follows the rating |
| Feedback.SetRating | src/scripts/ai-analyze/feedback.ts:76-79 | the rating is stored and the stars settle on it |
| Feedback.InitFeedback | src/scripts/ai-analyze/feedback.ts:13-17 | listeners are attached only when there are stars |
| Feedback.OnStarClick | src/scripts/ai-analyze/feedback.ts:21-24 | the clicked star's value becomes the rating and the stars settle on it; every star keeps its value |
| Feedback.OnStarEnter | src/scripts/ai-analyze/feedback.ts:25-28 | hover marks the stars up to the entered one; active and pressed still follow the rating; every star keeps its value |
| Feedback.OnStarLeave | src/scripts/ai-analyze/feedback.ts:29-31 | the stars settle back on the rating; every star keeps its value |
| Feedback.ShowThanks | src/scripts/ai-analyze/feedback.ts:131-136 | the form is hidden and the thanks shown |
| Feedback.PayloadFor | src/scripts/ai-analyze/feedback.ts:107-115 | the rating is sent when positive and `null` otherwise |
| Feedback.SubmitClick | src/scripts/ai-analyze/feedback.ts:35-46 | nothing is sent exactly when the rating is 0 and the comment blank; otherwise the payload is sent with the button disabled; the thanks appear in every case |
| Feedback.ShowFeedbackWidget | src/scripts/ai-analyze/feedback.ts:49-52 | the widget is shown |
| Feedback.ResetFeedbackWidget | src/scripts/ai-analyze/feedback.ts:54-72 | the widget is hidden with its form back, the comment and button restored, the rating 0 and the stars settled |
| Feedback.ResetClearsStars | src/scripts/ai-analyze/feedback.ts:70-71 | after a reset no star valued 1 or more is active or pressed |
| SubmitFeedback.NormaliseRating | src/pages/api/submit-feedback.ts:51 | a rating is kept exactly when it is a positive number, else `null` |
| SubmitFeedback.NormaliseDefaults | src/pages/api/submit-feedback.ts:50-57 | missing strings become empty, present ones are kept, and a missing or empty timestamp becomes the current time |
| SubmitFeedback.HandleFeedback | src/pages/api/submit-feedback.ts:5-75 | always 200 `success: true`; a record is forwarded exactly when both credentials are set and the body parses, to the base's table URL with the key as bearer token |
| SubmitFeedback.UpstreamIgnored | src/pages/api/submit-feedback.ts:65-74 | the table's answer or failure never changes the response |
| SubmitFeedback.WidgetPayloadStoredAsSent | src/pages/api/submit-feedback.ts:47-58 | what the widget sends is stored unchanged: a positive rating as that number, 0 as `null`, the comment, ids and timestamp as sent |
| Exports.CollapseWhitespace | src/scripts/ai-analyze/exports.ts:57 | `replace(/\s+/g, '-')` leaves no white space, never lengthens, is empty only for empty input, and maps all-space text to `-` |
| Exports.CollapseKeepsWords | src/scripts/ai-analyze/exports.ts:57 | text without white space is unchanged |
| Exports.CollapseJoinsWords | src/scripts/ai-analyze/exports.ts:57 | a whole run of white space between two words becomes exactly one hyphen |
| Exports.LowerKeepsNonSpace | src/scripts/ai-analyze/exports.ts:57 | lower-casing never produces white space |
| Exports.Slug | src/scripts/ai-analyze/exports.ts:57 | the slug holds no white space; `artwork` only for an empty title; a title of white space alone gives `-` |
| Exports.MetaLinesAlways | src/scripts/ai-analyze/exports.ts:182-189 | the artwork, artist, mode and date lines always appear |
| Exports.MetaLinesOptional | src/scripts/ai-analyze/exports.ts:184-188 | the year, medium, dimensions and lens lines appear exactly when the value is not empty, and carry that value |
| Exports.MetaLinesImage | src/scripts/ai-analyze/exports.ts:181 | the image appears exactly when one is uploaded, and is that image |
| Exports.ExportMarkdown | src/scripts/ai-analyze/exports.ts:10-22 | without an analysis only an alert; otherwise `hidden-grammar-analysis.md` holding exactly the raw Markdown |
| Exports.CopyToClipboard | src/scripts/ai-analyze/exports.ts:24-35 | without an analysis only an alert; otherwise the raw Markdown is copied and one of two alerts follows |
| Exports.ExportJson | src/scripts/ai-analyze/exports.ts:37-60 | without an analysis only an alert. Otherwise the bundle holds the metadata, the raw Markdown, the HTML and the export time, under the slug's file name. It never crashes on a session that keeps its invariant |
| Exports.ExportPdf | src/scripts/ai-analyze/exports.ts:62-191 | without an analysis, or when the pop-up is blocked, only an alert; otherwise the page holds the title, the metadata block and the results; no crash on a valid session |

## Left out

- Network, model and storage calls. `fetch`, the language-model SDK, the feedback table, the clipboard, `FileReader`, `Image` and the canvas encoder are not modelled. Their outcomes are parameters.
- Console output, timers and `alert`. Alerts appear as outcomes where the user sees nothing else, as in `Exports`.
- Scrolling and focus, and the shape of the HTML beyond the values it shows.
- The analysis endpoint's prose. The framework text, the template wording and the JSON data (principles, roots, modes) are an opaque `Prose` parameter and a mode list. Only where the context values and the custom prompt land is modelled.
- Fields the endpoint ignores: `artistStatement`, `contextNote` and `lens` of the analysis request, `fields` and `promptText` of a lens request.
- The request to the language model beyond its system text, media type and payload. The model name and token limit are constants of the call.
- Drag and drop, the paste listeners and the paste button of the upload widget. They only pick a file and pass it to the modelled upload handler.
- ImageUpload.ClampDimensions: canvas sizes are reals. The browser's rounding of canvas dimensions and the encoder's output are not modelled.
- ImageUpload.Quality: the eight quality values are the exact IEEE doubles that `quality -= 0.1` produces, given as literals. Floating-point subtraction itself is not modelled.
- Each star's `data-value` is given as the integer `parseInt` yields. `NaN` is not modelled.
- Feedback.PayloadFor: states only the rating rule. The comment is sent trimmed, but no contract states the trim. It is visible only through this function's body, which `Feedback.SubmitClick` exposes by stating `sent.value == PayloadFor(...)`.
- The feedback session id (`randomUUID` or a timestamp id) and every `new Date()` are parameters.
- AnalyzeArtwork.Request: every body field is a string, and a missing or falsy one is the empty string. A truthy non-string `image` or `customPrompt` makes `split` or `trim` throw, and the endpoint then answers 500 from its `catch`. Neither those inputs nor that 500 is modelled.
- Storing the main analysis in `outputs[0]`. The record's declaration reserves that slot, but no handler of the page fills it, so the model has no such operation.
- SubmitFeedback.Normalise: a body field of another JSON type is treated as missing. The source forwards any truthy value as it is.
- Text.Lower: only ASCII letters are lower-cased. `toLowerCase` also maps other scripts.
- String lengths count Dafny characters, not UTF-16 code units, so the 150-character lens preview and the 0.75-per-character size estimate assume every character lies in the Basic Multilingual Plane.
- The copy buttons of the follow-up and lens turns, and the `wireCopyButton` helper. The follow-up script imports `wireCopyButton` from the analysis script, which does not export it.
- The page entry script that calls the `init` functions, and the `analysisModes.js` prompt table.
- The guards for missing page elements are not modelled. Every element the handlers touch is assumed present, except where an element's absence decides the outcome (the stars of the feedback widget, the lens data).
- Exports.ExportPdf: the page's styles, the print button and the two delayed `print()` calls are left out. The date line's locale formatting is a parameter.
