/**
 * The form's three listeners: the lens selector shows a preview of the chosen lens's
 * prompt; typing a custom prompt unchecks every mode and dims the modes section;
 * checking a mode clears the custom prompt and dims the custom-prompt section. Between
 * them a non-blank custom prompt and a checked mode never coexist.
 */
module FormInteractions {
  import opened Wrappers
  import opened Text
  import opened Page

  /** The text shown when the chosen option carries no prompt. */
  const LensPlaceholder := "Select a lens to see its description here."

  /** A prompt longer than 150 characters is cut to its first 150 and followed by `...`. */
  function LensPreview(prompt: string): (r: string)
    ensures |r| <= 153
    ensures |prompt| <= 150 ==> r == prompt
    ensures |prompt| > 150 ==> |r| == 153 && r == prompt[..150] + "..."
  {
    if |prompt| > 150 then prompt[..150] + "..." else prompt
  }

  /** `Lens Prompt: "<preview>"`. */
  function LensDescription(prompt: string): string {
    "Lens Prompt: \"" + LensPreview(prompt) + "\""
  }

  /** The preview always begins with the prompt's first characters, up to 150 of them. */
  lemma PreviewKeepsPrefix(prompt: string)
    ensures var n := if |prompt| > 150 then 150 else |prompt|;
            LensPreview(prompt)[..n] == prompt[..n]
  {
  }

  /** Two prompts of at most 150 characters are told apart by their descriptions. */
  lemma {:induction false} ShortPromptsDistinguished(p: string, q: string)
    requires |p| <= 150 && |q| <= 150
    requires LensDescription(p) == LensDescription(q)
    ensures p == q
  {
    var d := LensDescription(p);
    assert |p| == |q| by {
      assert |d| == |p| + 15 == |q| + 15;
    }
    forall i | 0 <= i < |p| ensures p[i] == q[i] {
      assert d[14 + i] == p[i];
      assert LensDescription(q)[14 + i] == q[i];
    }
  }

  /** Two long prompts that share their first 150 characters show the same description. */
  lemma LongPromptsShareDescription(p: string, q: string)
    requires |p| > 150 && |q| > 150 && p[..150] == q[..150]
    ensures LensDescription(p) == LensDescription(q)
  {
  }

  /** The invariant the two section listeners keep: a non-blank custom prompt and a checked mode never coexist. */
  predicate Exclusive(form: AnalysisForm)
    reads form, form.radios
  {
    !IsBlank(form.customPrompt) ==> FirstChecked(form.radios[..]).None?
  }

  /**
   * The lens selector's change listener, with the browser's own step first: the option
   * at `choice` becomes the selector's value. An option with a non-empty prompt shows
   * its preview highlighted; any other shows the placeholder in grey.
   */
  method OnLensChange(form: AnalysisForm, choice: nat)
    requires choice < |form.lensOptions|
    modifies form`lensValue, form`lensDescription, form`lensDescriptionHighlighted
    ensures form.lensValue == form.lensOptions[choice].value
    ensures var p := form.lensOptions[choice].prompt;
            if p.Some? && p.value != "" then form.lensDescription == LensDescription(p.value) && form.lensDescriptionHighlighted
            else form.lensDescription == LensPlaceholder && !form.lensDescriptionHighlighted
  {
    form.lensValue := form.lensOptions[choice].value;
    var prompt := form.lensOptions[choice].prompt;
    if prompt.Some? && prompt.value != "" {
      form.lensDescription := LensDescription(prompt.value);
      form.lensDescriptionHighlighted := true;
    } else {
      form.lensDescription := LensPlaceholder;
      form.lensDescriptionHighlighted := false;
    }
  }

  /**
   * The custom prompt's input listener, with the browser's own step first: the textarea
   * now holds `text`. A non-blank text unchecks every mode, dims the modes section and
   * un-dims its own; a blank one only un-dims the modes section.
   */
  method OnCustomInput(form: AnalysisForm, text: string)
    modifies form`customPrompt, form`modesSectionInactive, form`customSectionInactive, form.radios
    ensures form.customPrompt == text
    ensures !IsBlank(text) ==> && (forall k | 0 <= k < form.radios.Length :: form.radios[k] == old(form.radios[k]).(checked := false))
                                && form.modesSectionInactive && !form.customSectionInactive
    ensures IsBlank(text) ==> && form.radios[..] == old(form.radios[..])
                               && !form.modesSectionInactive && form.customSectionInactive == old(form.customSectionInactive)
    ensures Exclusive(form)
  {
    form.customPrompt := text;
    if !IsBlank(text) {
      UncheckAll(form.radios);
      form.modesSectionInactive := true;
      form.customSectionInactive := false;
    } else {
      form.modesSectionInactive := false;
    }
  }

  /**
   * A mode radio's change listener: when radio `i` is the one now checked, the custom
   * prompt is cleared, its section dimmed and the modes section un-dimmed; otherwise
   * nothing changes.
   */
  method OnModeChange(form: AnalysisForm, i: nat)
    requires i < form.radios.Length
    modifies form`customPrompt, form`customSectionInactive, form`modesSectionInactive
    ensures form.radios[i].checked ==> form.customPrompt == "" && form.customSectionInactive && !form.modesSectionInactive
    ensures !form.radios[i].checked ==> unchanged(form)
    ensures old(Exclusive(form)) ==> Exclusive(form)
    ensures form.radios[i].checked ==> Exclusive(form)
  {
    if form.radios[i].checked {
      form.customPrompt := "";
      form.customSectionInactive := true;
      form.modesSectionInactive := false;
    }
  }
}
