/**
 * The lens modifier under the results: a dropdown of lenses grouped by category, an
 * apply button enabled by a selection, and an apply handler that re-runs the analysis
 * of the uploaded image through the chosen lens and appends the answer to the
 * session's outputs.
 *
 * The JSON read from the page is given already parsed, `None` when it is malformed;
 * a missing `categories` or `lenses` list is the empty list. The request's outcome is a
 * parameter; the alerts, the console and the scrolling are not modelled.
 */
module LensModifier {
  import opened Wrappers
  import opened State
  import Text
  import AnalyzeArtwork

  datatype Lens = Lens(id: string, name: string, category: string, thinker: string, tagline: string, prompt: string)
  datatype Category = Category(id: string, name: string)
  datatype LensData = LensData(categories: seq<Category>, lenses: seq<Lens>)

  /** An `<option>`: its value and its text. */
  datatype DropdownOption = DropdownOption(value: string, text: string)
  /** An `<optgroup>`: its label (`caption`) and its options. */
  datatype Group = Group(caption: string, options: seq<DropdownOption>)

  /** The body posted for a lens, besides its constant `interrogationMode: false`. */
  datatype LensRequest = LensRequest(image: string, fields: map<string, string>, promptText: string)

  /** A rendered lens turn: the lens's name and thinker, the answer's HTML and the output it shows. */
  datatype LensTurn = LensTurn(lensName: string, thinker: string, answerHtml: string, outputIndex: nat)

  // ---------------------------------------------------------------------------
  // Grouping

  /** `lenses.filter(l => l.category === id)`. */
  function LensesIn(lenses: seq<Lens>, id: string): (r: seq<Lens>)
    ensures |r| <= |lenses|
    ensures forall l :: l in r <==> l in lenses && l.category == id
  {
    if lenses == [] then []
    else if lenses[0].category == id then [lenses[0]] + LensesIn(lenses[1..], id)
    else LensesIn(lenses[1..], id)
  }

  /** The filter keeps the lenses' order: filtering a concatenation concatenates the filtered parts. */
  lemma {:induction false} LensesInConcat(a: seq<Lens>, b: seq<Lens>, id: string)
    ensures LensesIn(a + b, id) == LensesIn(a, id) + LensesIn(b, id)
  {
    if a == [] {
      assert a + b == b;
    } else {
      assert (a + b)[0] == a[0];
      assert (a + b)[1..] == a[1..] + b;
      LensesInConcat(a[1..], b, id);
      if a[0].category == id {
        assert LensesIn(a + b, id) == [a[0]] + (LensesIn(a[1..], id) + LensesIn(b, id));
      }
    }
  }

  /** One option per lens, valued by its id and labelled with its name. */
  function OptionsOf(lenses: seq<Lens>): seq<DropdownOption> {
    seq(|lenses|, k requires 0 <= k < |lenses| => DropdownOption(lenses[k].id, lenses[k].name))
  }

  /** The group of one category: its name over the options of its lenses. */
  function GroupOf(category: Category, lenses: seq<Lens>): Group {
    Group(category.name, OptionsOf(LensesIn(lenses, category.id)))
  }

  /** One group per category, in the categories' order. */
  function Groups(categories: seq<Category>, lenses: seq<Lens>): seq<Group> {
    seq(|categories|, k requires 0 <= k < |categories| => GroupOf(categories[k], lenses))
  }

  /**
   * A lens is listed under a category exactly when its category is that category's id;
   * a lens whose category names no category is listed nowhere.
   */
  lemma ListedWhereCategoryMatches(categories: seq<Category>, lenses: seq<Lens>, l: Lens)
    requires l in lenses
    ensures forall k | 0 <= k < |categories| ::
              DropdownOption(l.id, l.name) in OptionsOf(LensesIn(lenses, categories[k].id)) <== l.category == categories[k].id
    ensures (forall k | 0 <= k < |categories| :: categories[k].id != l.category) ==>
              forall k | 0 <= k < |categories| :: l !in LensesIn(lenses, categories[k].id)
    ensures forall k, o | 0 <= k < |categories| && o in OptionsOf(LensesIn(lenses, categories[k].id)) ::
              exists l' | l' in lenses && l'.category == categories[k].id :: o == DropdownOption(l'.id, l'.name)
  {
    forall k, o | 0 <= k < |categories| && o in OptionsOf(LensesIn(lenses, categories[k].id))
      ensures exists l' | l' in lenses && l'.category == categories[k].id :: o == DropdownOption(l'.id, l'.name)
    {
      var members := LensesIn(lenses, categories[k].id);
      var j :| 0 <= j < |members| && OptionsOf(members)[j] == o;
      assert members[j] in members;
    }
    forall k | 0 <= k < |categories| && l.category == categories[k].id
      ensures DropdownOption(l.id, l.name) in OptionsOf(LensesIn(lenses, categories[k].id))
    {
      var members := LensesIn(lenses, categories[k].id);
      var j :| 0 <= j < |members| && members[j] == l;
      assert OptionsOf(members)[j] == DropdownOption(l.id, l.name);
    }
  }

  /** The first lens whose id is `id` (`lenses.find(l => l.id === id)`). */
  function FindLens(lenses: seq<Lens>, id: string): (r: Option<nat>)
    ensures r.Some? ==> r.value < |lenses| && lenses[r.value].id == id
    ensures r.Some? ==> forall k | 0 <= k < r.value :: lenses[k].id != id
    ensures r.None? ==> forall k | 0 <= k < |lenses| :: lenses[k].id != id
  {
    FindIndex(lenses, (l: Lens) => l.id == id)
  }

  // ---------------------------------------------------------------------------
  // The widget

  class LensPanel {
    /** Whether the initialisation got as far as attaching the listeners. */
    var wired: bool
    /** The lenses the listeners captured. */
    var lenses: seq<Lens>
    var groups: seq<Group>
    var selectValue: string
    var selectDisabled: bool
    var applyDisabled: bool
    var loadingShown: bool
    var sectionShown: bool
    var history: seq<LensTurn>

    /** The widget as the page renders it: hidden, nothing selected, apply disabled. */
    constructor()
      ensures !wired && lenses == [] && groups == [] && selectValue == ""
      ensures !selectDisabled && applyDisabled && !loadingShown && !sectionShown && history == []
    {
      wired := false;
      lenses := [];
      groups := [];
      selectValue := "";
      selectDisabled := false;
      applyDisabled := true;
      loadingShown := false;
      sectionShown := false;
      history := [];
    }

    /** The apply button is enabled exactly when a lens is selected. */
    predicate ApplyTracksSelection()
      reads this
    {
      applyDisabled <==> selectValue == ""
    }
  }

  /** One more category adds its group at the end. */
  lemma GroupsExtend(categories: seq<Category>, lenses: seq<Lens>, i: nat)
    requires i < |categories|
    ensures Groups(categories[..i + 1], lenses) == Groups(categories[..i], lenses) + [GroupOf(categories[i], lenses)]
  {
    assert categories[..i + 1][i] == categories[i];
  }

  /** The inner loop: one option per lens of the category, in order. */
  method CategoryOptions(members: seq<Lens>) returns (options: seq<DropdownOption>)
    ensures options == OptionsOf(members)
  {
    options := [];
    var j := 0;
    while j < |members|
      invariant 0 <= j <= |members|
      invariant options == OptionsOf(members[..j])
    {
      options := options + [DropdownOption(members[j].id, members[j].name)];
      j := j + 1;
    }
    assert members[..j] == members;
  }

  /**
   * The dropdown is built by walking the categories and, in each, the lenses of that
   * category, appending one group per category.
   */
  method BuildDropdown(panel: LensPanel, categories: seq<Category>, lenses: seq<Lens>)
    modifies panel`groups
    ensures panel.groups == old(panel.groups) + Groups(categories, lenses)
  {
    var i := 0;
    while i < |categories|
      invariant 0 <= i <= |categories|
      invariant panel.groups == old(panel.groups) + Groups(categories[..i], lenses)
    {
      var options := CategoryOptions(LensesIn(lenses, categories[i].id));
      panel.groups := panel.groups + [Group(categories[i].name, options)];
      GroupsExtend(categories, lenses, i);
      i := i + 1;
    }
    assert categories[..i] == categories;
  }

  /**
   * `initLensModifier`: malformed data returns before anything is built or any listener
   * attached; otherwise the dropdown is built and the listeners capture the lenses.
   */
  method InitLensModifier(panel: LensPanel, parsed: Option<LensData>)
    modifies panel`wired, panel`lenses, panel`groups
    ensures parsed.None? ==> unchanged(panel)
    ensures parsed.Some? ==> && panel.wired && panel.lenses == parsed.value.lenses
                             && panel.groups == old(panel.groups) + Groups(parsed.value.categories, parsed.value.lenses)
  {
    if parsed.None? {
      return;
    }
    BuildDropdown(panel, parsed.value.categories, parsed.value.lenses);
    panel.lenses := parsed.value.lenses;
    panel.wired := true;
  }

  /**
   * A selection, with the browser's own step first (the select takes `value`): a wired
   * widget enables apply exactly when the value is not empty.
   */
  method OnSelectChange(panel: LensPanel, value: string)
    modifies panel`selectValue, panel`applyDisabled
    ensures panel.selectValue == value
    ensures panel.wired ==> panel.ApplyTracksSelection()
    ensures !panel.wired ==> panel.applyDisabled == old(panel.applyDisabled)
  {
    panel.selectValue := value;
    if panel.wired {
      panel.applyDisabled := value == "";
    }
  }

  /** The `try` block's last steps: an OK reply is stored as the next output and rendered as a turn. */
  method RecordLensTurn(session: Session, panel: LensPanel, lens: Lens, reply: ApiReply)
    modifies session`outputs, panel`history
    ensures reply.Answered? ==>
              && session.outputs == old(session.outputs) + [Output(reply.raw, reply.html)]
              && panel.history == old(panel.history) + [LensTurn(lens.name, lens.thinker, reply.html, |old(session.outputs)|)]
    ensures !reply.Answered? ==> session.outputs == old(session.outputs) && panel.history == old(panel.history)
  {
    if reply.Answered? {
      var outputIndex := session.AppendOutput(Output(reply.raw, reply.html));
      panel.history := panel.history + [LensTurn(lens.name, lens.thinker, reply.html, outputIndex)];
    }
  }

  /** Whether an apply click goes as far as the request. */
  predicate ApplyProceeds(session: Session, panel: LensPanel)
    reads session, panel
  {
    panel.wired && panel.selectValue != "" && session.HasImage() && FindLens(panel.lenses, panel.selectValue).Some?
  }

  /**
   * The apply listener, `reply` standing for how the request ends. Without a selection,
   * an image, or a lens of the selected id nothing happens. Otherwise the lens's prompt
   * is sent with the image and the session's fields; an OK reply is appended as the next
   * output; and however it ends both controls are enabled again and the selection is
   * cleared, which leaves apply enabled with nothing selected.
   */
  method ApplyLens(session: Session, panel: LensPanel, reply: ApiReply) returns (sent: Option<LensRequest>)
    modifies session`outputs, panel`history, panel`selectValue, panel`selectDisabled, panel`applyDisabled, panel`loadingShown
    ensures sent.Some? <==> old(ApplyProceeds(session, panel))
    ensures sent.None? ==> session.outputs == old(session.outputs) && unchanged(panel)
    ensures sent.Some? ==>
              && sent.value == LensRequest(session.uploadedImageData.value, session.fields,
                                           panel.lenses[FindLens(panel.lenses, old(panel.selectValue)).value].prompt)
              && panel.selectValue == "" && !panel.selectDisabled && !panel.applyDisabled && !panel.loadingShown
    ensures sent.Some? && reply.Answered? ==>
              var lens := panel.lenses[FindLens(panel.lenses, old(panel.selectValue)).value];
              && session.outputs == old(session.outputs) + [Output(reply.raw, reply.html)]
              && panel.history == old(panel.history) + [LensTurn(lens.name, lens.thinker, reply.html, |old(session.outputs)|)]
    ensures sent.Some? && !reply.Answered? ==> session.outputs == old(session.outputs) && panel.history == old(panel.history)
  {
    if !panel.wired {
      return None;
    }
    var selectedId := panel.selectValue;
    if selectedId == "" || !session.HasImage() {
      return None;
    }
    var found := FindLens(panel.lenses, selectedId);
    if found.None? {
      return None;
    }
    var lens := panel.lenses[found.value];
    panel.applyDisabled := true;
    panel.selectDisabled := true;
    panel.loadingShown := true;
    sent := Some(LensRequest(session.uploadedImageData.value, session.fields, lens.prompt));
    RecordLensTurn(session, panel, lens, reply);
    panel.applyDisabled := false;
    panel.selectDisabled := false;
    panel.selectValue := "";
    panel.loadingShown := false;
  }

  /** `showLensModifier`: the section is shown. */
  method ShowLensModifier(panel: LensPanel)
    modifies panel`sectionShown
    ensures panel.sectionShown
  {
    panel.sectionShown := true;
  }

  /** `resetLensModifier`: the section is hidden, the selection cleared and apply disabled. */
  method ResetLensModifier(panel: LensPanel)
    modifies panel`sectionShown, panel`selectValue, panel`selectDisabled, panel`applyDisabled, panel`loadingShown
    ensures !panel.sectionShown && panel.selectValue == "" && !panel.selectDisabled
    ensures panel.applyDisabled && !panel.loadingShown
    ensures panel.ApplyTracksSelection()
  {
    panel.sectionShown := false;
    panel.selectValue := "";
    panel.selectDisabled := false;
    panel.applyDisabled := true;
    panel.loadingShown := false;
  }

  /** The endpoint reads only the image of a lens request; every other field it reads is absent. */
  function ServerView(req: LensRequest): AnalyzeArtwork.Request {
    AnalyzeArtwork.Request(req.image, "", "", "", "", "", "", "")
  }

  /** A request without custom prompt or mode gets the generic instructions of the first mode. */
  lemma PlainRequestInstructions(r: AnalyzeArtwork.Request, modes: seq<AnalyzeArtwork.AnalysisMode>, prose: AnalyzeArtwork.Prose)
    requires r.customPrompt == "" && r.mode == "" && modes != []
    requires forall k | 0 <= k < |modes| :: modes[k].id != ""
    ensures AnalyzeArtwork.Instructions(r, modes, prose) == Some(AnalyzeArtwork.GenericInstructions(r, modes[0], prose))
  {
    assert Text.Trim("") == [];
    assert AnalyzeArtwork.BranchOf(r) == AnalyzeArtwork.Generic;
    assert AnalyzeArtwork.SelectMode(modes, "") == Some(modes[0]);
  }

  /**
   * With the endpoint as it stands a lens request is analysed as a plain request: no
   * custom prompt, so the generic branch with the first mode (no mode has the empty id)
   * under the default context, whatever the lens's prompt.
   */
  lemma LensPromptUnused(req: LensRequest, apiKey: string, modes: seq<AnalyzeArtwork.AnalysisMode>, prose: AnalyzeArtwork.Prose)
    requires apiKey != "" && req.image != "" && modes != []
    requires forall k | 0 <= k < |modes| :: modes[k].id != ""
    ensures var p := AnalyzeArtwork.PlanRequest(apiKey, Some(ServerView(req)), modes, prose);
            && p.Call?
            && p.call.system == prose.framework + AnalyzeArtwork.GenericInstructions(ServerView(req), modes[0], prose)
  {
    PlainRequestInstructions(ServerView(req), modes, prose);
  }
}
