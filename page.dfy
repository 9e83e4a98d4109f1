/**
 * The analysis form of the page, as far as the form and analysis handlers read and
 * change it: the text inputs, the custom prompt, the mode radios, the lens selector,
 * the two sections that are dimmed in turn, and the form/loading/results panels.
 */
module Page {
  import opened Wrappers

  /** A mode radio: its value, the heading of the card it sits in (if any), and whether it is checked. */
  datatype ModeRadio = ModeRadio(value: string, cardLabel: Option<string>, checked: bool)

  /** An option of the form's lens selector: its value, its text and its `data-prompt`. */
  datatype LensOption = LensOption(value: string, text: string, prompt: Option<string>)

  class AnalysisForm {
    var title: string
    var artist: string
    var year: string
    var medium: string
    var dimensions: string
    var artistStatement: string
    var contextNote: string
    var customPrompt: string
    const radios: array<ModeRadio>
    var lensValue: string
    const lensOptions: seq<LensOption>
    var lensDescription: string
    var lensDescriptionHighlighted: bool
    var customSectionInactive: bool
    var modesSectionInactive: bool
    var formShown: bool
    var loadingShown: bool
    var resultsShown: bool
    var resultsHtml: string

    /** The form as the page renders it: empty inputs, both sections usable, the form shown. */
    constructor(radios: array<ModeRadio>, lensOptions: seq<LensOption>)
      ensures this.radios == radios && this.lensOptions == lensOptions
      ensures title == "" && artist == "" && year == "" && medium == "" && dimensions == ""
      ensures artistStatement == "" && contextNote == "" && customPrompt == "" && lensValue == ""
      ensures !customSectionInactive && !modesSectionInactive
      ensures formShown && !loadingShown && !resultsShown && resultsHtml == ""
    {
      this.radios := radios;
      this.lensOptions := lensOptions;
      title, artist, year, medium, dimensions := "", "", "", "", "";
      artistStatement, contextNote, customPrompt, lensValue := "", "", "", "";
      lensDescription := "Select a lens to see its description here.";
      lensDescriptionHighlighted := false;
      customSectionInactive, modesSectionInactive := false, false;
      formShown, loadingShown, resultsShown := true, false, false;
      resultsHtml := "";
    }
  }

  /** `querySelector('input[name="analysisMode"]:checked')`: the first checked radio. */
  function FirstChecked(radios: seq<ModeRadio>): (r: Option<nat>)
    ensures r.Some? ==> r.value < |radios| && radios[r.value].checked
    ensures r.Some? ==> forall k | 0 <= k < r.value :: !radios[k].checked
    ensures r.None? <==> forall k | 0 <= k < |radios| :: !radios[k].checked
  {
    FindIndex(radios, (radio: ModeRadio) => radio.checked)
  }

  /**
   * The radios' `forEach(radio => radio.checked = false)`: every radio ends unchecked
   * and keeps its value and card.
   */
  method UncheckAll(radios: array<ModeRadio>)
    modifies radios
    ensures forall k | 0 <= k < radios.Length :: radios[k] == old(radios[k]).(checked := false)
    ensures FirstChecked(radios[..]).None?
  {
    var i := 0;
    while i < radios.Length
      invariant 0 <= i <= radios.Length
      invariant forall k | 0 <= k < i :: radios[k] == old(radios[k]).(checked := false)
      invariant forall k | i <= k < radios.Length :: radios[k] == old(radios[k])
    {
      radios[i] := radios[i].(checked := false);
      i := i + 1;
    }
  }
}
