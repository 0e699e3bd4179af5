/** The board member registration form (src/components/Vorstand/VorstandErstellen.jsx):
    thirteen text fields of which eleven are required, and a photo restricted
    to PNG, JPEG and WEBP. */
module VorstandErstellenScreen {
  import opened Common

  datatype Request = PostVorstand(form: map<string, string>)

  const PhotoTypeRejected := "Nur PNG, JPG oder WEBP erlaubt."
  const RequiredMissing := "Bitte alle Pflichtfelder ausfüllen."
  const CreatedDefault := "Vorstand erfolgreich erstellt!"
  const CreateFailed := "Fehler beim Erstellen des Vorstands."

  const AllowedPhotoTypes: seq<string> := ["image/png", "image/jpeg", "image/jpg", "image/webp"]

  /** Every field but `foto` and `beschreibung`, in the order they are checked. */
  const RequiredFields: seq<string> := [
    "geschlecht", "vorname", "nachname", "adresse", "plz", "ort",
    "benutzername", "passwort", "telefon", "email", "rolle"]

  const EmptyForm: map<string, string> := map[
    "geschlecht" := "", "vorname" := "", "nachname" := "", "adresse" := "", "plz" := "", "ort" := "",
    "benutzername" := "", "passwort" := "", "telefon" := "", "email" := "", "foto" := "",
    "beschreibung" := "", "rolle" := ""]

  /** Every required field is filled in. */
  predicate Complete(m: map<string, string>)
  {
    forall i :: 0 <= i < |RequiredFields| ==> FieldOf(m, RequiredFields[i]) != ""
  }

  /** The two optional fields play no part in whether a form may be sent. */
  lemma OptionalFieldsDoNotMatter(m: map<string, string>, foto: string, beschreibung: string)
    ensures Complete(m) <==> Complete(m["foto" := foto]["beschreibung" := beschreibung])
  {
    var m' := m["foto" := foto]["beschreibung" := beschreibung];
    assert forall i :: 0 <= i < |RequiredFields| ==> FieldOf(m, RequiredFields[i]) == FieldOf(m', RequiredFields[i]);
  }

  /** The emptied form is not sendable until the required fields are filled in again. */
  lemma EmptyFormIncomplete()
    ensures forall i :: 0 <= i < |RequiredFields| ==> RequiredFields[i] in EmptyForm && EmptyForm[RequiredFields[i]] == ""
    ensures "foto" !in RequiredFields && "beschreibung" !in RequiredFields
    ensures !Complete(EmptyForm)
  {
    assert FieldOf(EmptyForm, RequiredFields[0]) == "";
  }

  class VorstandForm {
    var formData: map<string, string>
    var fotoPreview: Option<string>
    var error: string
    var successMsg: string

    constructor()
      ensures formData == EmptyForm && fotoPreview == None && error == "" && successMsg == ""
    {
      formData, fotoPreview, error, successMsg := EmptyForm, None, "", "";
    }

    /** Stores the input's value under its name only. */
    method HandleChange(name: string, value: string)
      modifies this`formData
      ensures formData == old(formData)[name := value]
      ensures forall k :: k in old(formData) && k != name ==> k in formData && formData[k] == old(formData)[k]
    {
      formData := formData[name := value];
    }

    /** A photo of another type is refused: the error is set, the preview and `foto` cleared. */
    method HandleFotoChange(file: Option<File>)
      modifies this`formData, this`fotoPreview, this`error
      ensures file.None? ==> formData == old(formData) && fotoPreview == old(fotoPreview) && error == old(error)
      ensures file.Some? && file.value.mimeType !in AllowedPhotoTypes ==>
        error == PhotoTypeRejected && fotoPreview == None && formData == old(formData)["foto" := ""]
      ensures file.Some? && file.value.mimeType in AllowedPhotoTypes ==>
        error == "" && fotoPreview == Some(file.value.dataUrl) && formData == old(formData)["foto" := file.value.dataUrl]
    {
      if file.None? {
        return;
      }
      if file.value.mimeType !in AllowedPhotoTypes {
        error := PhotoTypeRejected;
        fotoPreview := None;
        formData := formData["foto" := ""];
        return;
      }
      formData := formData["foto" := file.value.dataUrl];
      fotoPreview := Some(file.value.dataUrl);
      error := "";
    }

    /** The `for...of` loop over the required fields, stopping at the first empty one. */
    method CheckRequired() returns (ok: bool)
      modifies this`error
      ensures ok <==> Complete(formData)
      ensures error == if ok then old(error) else RequiredMissing
    {
      for i := 0 to |RequiredFields|
        invariant forall j :: 0 <= j < i ==> FieldOf(formData, RequiredFields[j]) != ""
        invariant error == old(error)
      {
        if FieldOf(formData, RequiredFields[i]) == "" {
          error := RequiredMissing;
          return false;
        }
      }
      return true;
    }

    /** Sends the form. Both messages are cleared first; a missing required
        field stops there. Success shows the backend's message or the default
        and empties all thirteen fields. */
    method HandleSubmit(response: Outcome<Option<string>>) returns (request: Option<Request>)
      modifies this`formData, this`fotoPreview, this`error, this`successMsg
      ensures !Complete(old(formData)) ==>
        request == None && error == RequiredMissing && successMsg == ""
        && formData == old(formData) && fotoPreview == old(fotoPreview)
      ensures Complete(old(formData)) ==> request == Some(PostVorstand(old(formData)))
      ensures Complete(old(formData)) && response.Success? ==>
        successMsg == OrElse(response.body, CreatedDefault) && error == ""
        && formData == EmptyForm && fotoPreview == None
      ensures Complete(old(formData)) && response.Failure? ==>
        error == ErrorText(response.error, CreateFailed) && successMsg == ""
        && formData == old(formData) && fotoPreview == old(fotoPreview)
    {
      error := "";
      successMsg := "";
      var ok := CheckRequired();
      if !ok {
        return None;
      }
      request := Some(PostVorstand(formData));
      if response.Success? {
        successMsg := OrElse(response.body, CreatedDefault);
        formData := EmptyForm;
        fotoPreview := None;
      } else {
        error := ErrorText(response.error, CreateFailed);
      }
    }
  }
}
