/** The parts of the page the controller touches: the `disabled` flag of
    input elements and the text content of status elements, by element id.
    An id that is not a key stands for an element missing from the page. */
module Page {

  /** The element ids the program looks up, one constructor per DOM id
      ("fileInput", "btnPlay", "btnDSP", ..., "status", "tempoDisp", "DSPDisp"). */
  datatype ElementId =
    | FileInput
    | BtnPlay | BtnDsp
    | BtnRw | BtnFw | BtnRw30 | BtnFw30
    | BtnSlow | BtnFast | BtnSlowMax | BtnFastMax | BtnResetTempo
    | Status | TempoDisp | DspDisp

  class Document {
    var disabled: map<ElementId, bool>
    var text: map<ElementId, string>

    constructor (disabled: map<ElementId, bool>, text: map<ElementId, string>)
      ensures this.disabled == disabled && this.text == text
    {
      this.disabled := disabled;
      this.text := text;
    }
  }

  /** `if (el) el.textContent = s`: the write happens only when the element exists. */
  function Show(text: map<ElementId, string>, id: ElementId, s: string): (r: map<ElementId, string>)
    ensures r.Keys == text.Keys
    ensures id in text ==> r[id] == s
    ensures forall other :: other in text && other != id ==> r[other] == text[other]
  {
    if id in text then text[id := s] else text
  }
}
