/** The event editor (src/components/Events/EventForm.jsx): with an event id
    it loads that event and saves by PUT, without one it creates by POST and
    then empties the form. Only PNG pictures are accepted. */
module EventFormScreen {
  import opened Common

  /** A property of the form object: text or a check box state. */
  datatype FieldValue = Text(text: string) | Flag(flag: bool)

  /** The event as the backend sends it; None is a missing property. */
  datatype EventData = EventData(
    titel: Option<string>, beschreibung: Option<string>, ort: Option<string>,
    von: Option<string>, bis: Option<string>,
    alle: Option<bool>, supporter: Option<bool>, bild: Option<string>)

  datatype Request = PutEvent(id: int, event: map<string, FieldValue>) | PostEvent(event: map<string, FieldValue>)

  const LoadFailed := "Fehler beim Laden des Events."
  const PngOnly := "Nur PNG-Bilder sind erlaubt."
  const RequiredMissing := "Bitte alle Pflichtfelder ausfüllen."
  const Updated := "Event erfolgreich aktualisiert."
  const Created := "Event erfolgreich erstellt."
  const SaveFailed := "Fehler beim Speichern des Events."

  const RequiredFields: seq<string> := ["titel", "beschreibung", "ort", "von", "bis"]

  const EmptyForm: map<string, FieldValue> := map[
    "titel" := Text(""), "beschreibung" := Text(""), "ort" := Text(""), "von" := Text(""), "bis" := Text(""),
    "alle" := Flag(false), "supporter" := Flag(false), "bild" := Text("")]

  /** `type === 'checkbox' ? checked : value`. EventForm.jsx repeats the
      expression of the event creation form over its own field values, which
      hold no price list, so the model repeats it too. */
  function ValueOf(t: Target): (v: FieldValue)
    ensures t.inputType == "checkbox" ==> v == Flag(t.checked)
    ensures t.inputType != "checkbox" ==> v == Text(t.value)
  {
    if t.inputType == "checkbox" then Flag(t.checked) else Text(t.value)
  }

  /** `!formData[field]` is false: the property exists and is not "" or false. */
  predicate Truthy(m: map<string, FieldValue>, k: string)
  {
    k in m && match m[k]
      case Text(s) => s != ""
      case Flag(b) => b
  }

  /** `s.substring(0, 16)`. */
  function Prefix16(s: string): (r: string)
    ensures |r| <= 16 && r <= s
    ensures |s| <= 16 ==> r == s
  {
    if |s| <= 16 then s else s[..16]
  }

  /** `data.von ? data.von.substring(0, 16) : ''`. */
  function DateTimeLocal(o: Option<string>): (r: string)
    ensures |r| <= 16
    ensures o.Some? ==> r <= o.value
    ensures o.None? || o.value == "" ==> r == ""
  {
    if o.Some? && o.value != "" then Prefix16(o.value) else ""
  }

  /** `b || false` for a flag that may be missing. */
  function FlagOr(o: Option<bool>): bool
  {
    o == Some(true)
  }

  /** The form object built from a loaded event. */
  function LoadedForm(d: EventData): (m: map<string, FieldValue>)
    ensures m.Keys == EmptyForm.Keys
    ensures m["titel"] == Text(OrElse(d.titel, "")) && m["beschreibung"] == Text(OrElse(d.beschreibung, ""))
    ensures m["ort"] == Text(OrElse(d.ort, "")) && m["bild"] == Text(OrElse(d.bild, ""))
    ensures m["von"] == Text(DateTimeLocal(d.von)) && m["bis"] == Text(DateTimeLocal(d.bis))
    ensures m["alle"] == Flag(d.alle == Some(true)) && m["supporter"] == Flag(d.supporter == Some(true))
  {
    map["titel" := Text(OrElse(d.titel, "")), "beschreibung" := Text(OrElse(d.beschreibung, "")),
        "ort" := Text(OrElse(d.ort, "")),
        "von" := Text(DateTimeLocal(d.von)), "bis" := Text(DateTimeLocal(d.bis)),
        "alle" := Flag(FlagOr(d.alle)), "supporter" := Flag(FlagOr(d.supporter)),
        "bild" := Text(OrElse(d.bild, ""))]
  }

  /** A loaded event with nothing set gives the empty form. */
  lemma LoadingNothingGivesEmptyForm()
    ensures LoadedForm(EventData(None, None, None, None, None, None, None, None)) == EmptyForm
  {
  }

  /** The form may be sent: every required field is truthy. */
  predicate Complete(m: map<string, FieldValue>)
  {
    forall i :: 0 <= i < |RequiredFields| ==> Truthy(m, RequiredFields[i])
  }

  class EventForm {
    const eventId: Option<int>
    var formData: map<string, FieldValue>
    var bildPreview: Option<string>
    var error: string
    var successMsg: string
    var loading: bool

    constructor(eventId: Option<int>)
      ensures this.eventId == eventId && formData == EmptyForm && bildPreview == None
      ensures error == "" && successMsg == "" && !loading
    {
      this.eventId := eventId;
      formData, bildPreview, error, successMsg, loading := EmptyForm, None, "", "", false;
    }

    /** `if (eventId)`: a present id other than 0. */
    predicate HasEventId()
      reads this
    {
      eventId.Some? && eventId.value != 0
    }

    /** The load effect; without an id it does nothing. */
    method LoadEvent(response: Outcome<EventData>)
      modifies this`formData, this`bildPreview, this`error, this`loading
      ensures !HasEventId() ==>
        formData == old(formData) && bildPreview == old(bildPreview) && error == old(error) && loading == old(loading)
      ensures HasEventId() ==> !loading
      ensures HasEventId() && response.Success? ==>
        formData == LoadedForm(response.body) && error == old(error)
        && bildPreview == (if response.body.bild.Some? && response.body.bild.value != "" then response.body.bild else None)
      ensures HasEventId() && response.Failure? ==>
        formData == old(formData) && bildPreview == old(bildPreview) && error == LoadFailed
    {
      if !HasEventId() {
        return;
      }
      loading := true;
      if response.Success? {
        var d := response.body;
        formData := LoadedForm(d);
        bildPreview := if d.bild.Some? && d.bild.value != "" then d.bild else None;
      } else {
        error := LoadFailed;
      }
      loading := false;
    }

    /** Stores the input's value, or its checked state for a check box, under its name only. */
    method HandleChange(t: Target)
      modifies this`formData
      ensures formData == old(formData)[t.name := ValueOf(t)]
      ensures forall k :: k in old(formData) && k != t.name ==> k in formData && formData[k] == old(formData)[k]
    {
      formData := formData[t.name := ValueOf(t)];
    }

    /** Accepts only `image/png`; another type sets the error and leaves the picture alone. */
    method HandleBildChange(file: Option<File>)
      modifies this`formData, this`bildPreview, this`error
      ensures file.None? ==> formData == old(formData) && bildPreview == old(bildPreview) && error == old(error)
      ensures file.Some? && file.value.mimeType != "image/png" ==>
        error == PngOnly && formData == old(formData) && bildPreview == old(bildPreview)
      ensures file.Some? && file.value.mimeType == "image/png" ==>
        formData == old(formData)["bild" := Text(file.value.dataUrl)]
        && bildPreview == Some(file.value.dataUrl) && error == ""
    {
      if file.None? {
        return;
      }
      if file.value.mimeType != "image/png" {
        error := PngOnly;
        return;
      }
      formData := formData["bild" := Text(file.value.dataUrl)];
      bildPreview := Some(file.value.dataUrl);
      error := "";
    }

    /** The required-field loop: stops at the first missing field and reports it. */
    method Validate() returns (ok: bool)
      modifies this`error
      ensures ok <==> Complete(formData)
      ensures error == if ok then old(error) else RequiredMissing
    {
      var i := 0;
      while i < |RequiredFields|
        invariant 0 <= i <= |RequiredFields|
        invariant forall j :: 0 <= j < i ==> Truthy(formData, RequiredFields[j])
        invariant error == old(error)
      {
        if !Truthy(formData, RequiredFields[i]) {
          error := RequiredMissing;
          return false;
        }
        i := i + 1;
      }
      return true;
    }

    /** Saves the event. Both messages are cleared first; an incomplete form
        stops there. With an id the form is PUT and kept; without one it is
        POSTed and then emptied. `notified` says whether `onSuccess` ran. */
    method HandleSubmit(response: Outcome<()>) returns (request: Option<Request>, notified: bool)
      modifies this`formData, this`bildPreview, this`error, this`successMsg, this`loading
      ensures !Complete(old(formData)) ==>
        request == None && !notified && error == RequiredMissing && successMsg == ""
        && formData == old(formData) && bildPreview == old(bildPreview) && loading == old(loading)
      ensures Complete(old(formData)) ==> request.Some? && !loading && (notified <==> response.Success?)
      ensures Complete(old(formData)) && HasEventId() ==>
        request == Some(PutEvent(eventId.value, old(formData))) && formData == old(formData) && bildPreview == old(bildPreview)
      ensures Complete(old(formData)) && HasEventId() && response.Success? ==> successMsg == Updated && error == ""
      ensures Complete(old(formData)) && !HasEventId() ==> request == Some(PostEvent(old(formData)))
      ensures Complete(old(formData)) && !HasEventId() && response.Success? ==>
        successMsg == Created && error == "" && formData == EmptyForm && bildPreview == None
      ensures Complete(old(formData)) && response.Failure? ==>
        error == ErrorText(response.error, SaveFailed) && successMsg == ""
        && formData == old(formData) && bildPreview == old(bildPreview)
    {
      error := "";
      successMsg := "";
      var ok := Validate();
      if !ok {
        return None, false;
      }
      loading := true;
      if HasEventId() {
        request := Some(PutEvent(eventId.value, formData));
        if response.Success? {
          successMsg := Updated;
        }
      } else {
        request := Some(PostEvent(formData));
        if response.Success? {
          successMsg := Created;
          formData := EmptyForm;
          bildPreview := None;
        }
      }
      notified := response.Success?;
      if response.Failure? {
        error := ErrorText(response.error, SaveFailed);
      }
      loading := false;
    }
  }
}
