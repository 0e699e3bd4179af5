/** The event creation form (src/components/Events/CreateEventForm.jsx): text
    fields, two check boxes, an optional picture and a growing list of price
    options, sent as one object. */
module CreateEventScreen {
  import opened Common

  datatype Price = Price(preisbeschreibung: string, kosten: string)

  datatype PriceField = Preisbeschreibung | Kosten

  /** A property of the form object: text, a check box state, or the price list. */
  datatype FieldValue = Text(text: string) | Flag(flag: bool) | Prices(prices: seq<Price>)

  datatype Request = CreateEvent(event: map<string, FieldValue>)

  const CreatedMessage := "\U{1F389} Event erfolgreich erstellt!"
  const FailedMessage := "\U{274C} Fehler beim Erstellen des Events."

  const EmptyPrice := Price("", "")

  /** The names of the inputs that call handleChange. */
  const InputNames: set<string> := {"titel", "beschreibung", "ort", "von", "bis", "alle", "supporter", "bildtitel"}

  const InitialForm: map<string, FieldValue> := map[
    "titel" := Text(""), "beschreibung" := Text(""), "ort" := Text(""), "von" := Text(""), "bis" := Text(""),
    "alle" := Flag(false), "supporter" := Flag(false), "bild" := Text(""), "bildtitel" := Text(""),
    "preise" := Prices([EmptyPrice])]

  /** `type === "checkbox" ? checked : value`. */
  function ValueOf(t: Target): (v: FieldValue)
    ensures t.inputType == "checkbox" ==> v == Flag(t.checked)
    ensures t.inputType != "checkbox" ==> v == Text(t.value)
  {
    if t.inputType == "checkbox" then Flag(t.checked) else Text(t.value)
  }

  function GetPriceField(p: Price, f: PriceField): string
  {
    match f
    case Preisbeschreibung => p.preisbeschreibung
    case Kosten => p.kosten
  }

  /** `price[field] = value`. */
  function SetPriceField(p: Price, f: PriceField, v: string): (p': Price)
    ensures GetPriceField(p', f) == v
    ensures forall g: PriceField :: g != f ==> GetPriceField(p', g) == GetPriceField(p, g)
  {
    match f
    case Preisbeschreibung => p.(preisbeschreibung := v)
    case Kosten => p.(kosten := v)
  }

  class CreateEventForm {
    var formData: map<string, FieldValue>
    var preview: Option<string>
    var message: string

    constructor()
      ensures formData == InitialForm && preview == None && message == ""
      ensures Valid() && PriceList() == [EmptyPrice]
    {
      formData, preview, message := InitialForm, None, "";
    }

    /** The form object always holds its price list. */
    predicate Valid()
      reads this
    {
      "preise" in formData && formData["preise"].Prices?
    }

    function PriceList(): seq<Price>
      requires Valid()
      reads this
    {
      formData["preise"].prices
    }

    /** Stores the input's value, or its checked state for a check box, under its name only. */
    method HandleChange(t: Target)
      requires t.name in InputNames
      modifies this`formData
      ensures formData == old(formData)[t.name := ValueOf(t)]
      ensures forall k :: k in old(formData) && k != t.name ==> k in formData && formData[k] == old(formData)[k]
      ensures old(Valid()) ==> Valid() && PriceList() == old(PriceList())
    {
      formData := formData[t.name := ValueOf(t)];
    }

    /** The picture becomes a data URL, in the form and in the preview. */
    method HandleImageUpload(file: Option<File>)
      modifies this`formData, this`preview
      ensures file.None? ==> formData == old(formData) && preview == old(preview)
      ensures file.Some? ==> formData == old(formData)["bild" := Text(file.value.dataUrl)] && preview == Some(file.value.dataUrl)
      ensures old(Valid()) ==> Valid() && PriceList() == old(PriceList())
    {
      if file.None? {
        return;
      }
      formData := formData["bild" := Text(file.value.dataUrl)];
      preview := Some(file.value.dataUrl);
    }

    /** The input of `field` in the price option `index`; every other property is kept. */
    method HandlePriceChange(index: int, field: PriceField, value: string)
      requires Valid() && 0 <= index < |PriceList()|
      modifies this`formData
      ensures Valid()
      ensures PriceList() == old(PriceList())[index := SetPriceField(old(PriceList())[index], field, value)]
      ensures formData == old(formData)["preise" := Prices(PriceList())]
    {
      var prices := PriceList();
      formData := formData["preise" := Prices(prices[index := SetPriceField(prices[index], field, value)])];
    }

    method AddPriceField()
      requires Valid()
      modifies this`formData
      ensures Valid()
      ensures PriceList() == old(PriceList()) + [EmptyPrice]
      ensures formData == old(formData)["preise" := Prices(PriceList())]
    {
      formData := formData["preise" := Prices(PriceList() + [EmptyPrice])];
    }

    /** Sends the whole form; the outcome only decides the message. */
    method HandleSubmit(response: Outcome<()>) returns (request: Request)
      modifies this`message
      ensures request == CreateEvent(formData)
      ensures message == if response.Success? then CreatedMessage else FailedMessage
    {
      request := CreateEvent(formData);
      message := if response.Success? then CreatedMessage else FailedMessage;
    }
  }
}
