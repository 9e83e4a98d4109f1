/**
 * The page's one shared, mutable session record. Besides the fields declared with
 * it, the analysis handler stores the raw Markdown of the last analysis and its
 * metadata on the same object, so both are fields here.
 */
module State {
  import opened Wrappers

  /** One stored answer: the raw Markdown and the HTML shown for it. */
  datatype Output = Output(raw: string, html: string)

  /** What the analysis handler records about the artwork and the request. */
  datatype Metadata = Metadata(
    title: string, artist: string, year: string, medium: string, dimensions: string,
    mode: string, lens: string, customPrompt: string, timestamp: string)

  /**
   * How a request to one of the application's endpoints ended: an OK response with its
   * `raw` and `analysis` fields (a missing `raw` is the empty string), a non-OK
   * response, or an exception (network failure, a body that is not JSON).
   */
  datatype ApiReply = Answered(raw: string, html: string) | NotOk | Threw

  class Session {
    /** The uploaded image as a data URL; `None` for `null`. */
    var uploadedImageData: Option<string>
    var modeId: string
    var promptId: string
    var submodeId: string
    var promptText: string
    var fields: map<string, string>
    /**
     * The stored answers, in the order they arrived. The record's declaration reserves
     * index 0 for the main analysis, but only follow-up and lens answers are ever pushed.
     */
    var outputs: seq<Output>
    /** Not declared with the record; written by the analysis handler, empty until then. */
    var rawMarkdownContent: string
    /** Not declared with the record; written by the analysis handler together with the raw Markdown. */
    var analysisMetadata: Option<Metadata>

    /** An analysis that can be exported always comes with its metadata. */
    predicate Valid()
      reads this
    {
      rawMarkdownContent != "" ==> analysisMetadata.Some?
    }

    /** The state on page load: no image, empty ids and prompt, no fields, no outputs. */
    constructor()
      ensures uploadedImageData == None
      ensures modeId == "" && promptId == "" && submodeId == "" && promptText == ""
      ensures fields == map[] && outputs == []
      ensures rawMarkdownContent == "" && analysisMetadata == None
      ensures Valid()
    {
      uploadedImageData := None;
      modeId := "";
      promptId := "";
      submodeId := "";
      promptText := "";
      fields := map[];
      outputs := [];
      rawMarkdownContent := "";
      analysisMetadata := None;
    }

    /** An uploaded image is present: the data URL is set and not empty. */
    predicate HasImage()
      reads this
    {
      uploadedImageData.Some? && uploadedImageData.value != ""
    }

    /**
     * `outputs.push(...)` of a follow-up answer: the new entry lands at the old length
     * and every earlier entry stays as it was.
     */
    method AppendOutput(o: Output) returns (index: nat)
      modifies this`outputs
      ensures index == |old(outputs)|
      ensures outputs == old(outputs) + [o]
      ensures |outputs| == index + 1 && outputs[index] == o
      ensures forall k | 0 <= k < index :: outputs[k] == old(outputs)[k]
    {
      index := |outputs|;
      outputs := outputs + [o];
    }
  }
}
