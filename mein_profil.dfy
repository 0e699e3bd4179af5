/** A board member's own profile (src/components/Vorstand/MeinProfil.jsx):
    loaded with the stored token, shown as a card and edited in a form that
    is sent as multipart form data, after which the card is updated locally. */
module MeinProfilScreen {
  import opened Common

  /** The profile as loaded: its text properties, the photo as base64 text
      and the `istImVorstand` flag, each possibly missing. */
  datatype Profile = Profile(fields: map<string, string>, foto: Option<string>, istImVorstand: Option<bool>)

  /** One `FormData.append`: a text field or the chosen file. */
  datatype Entry = TextEntry(key: string, value: string) | FileEntry(key: string, file: File)

  const NoToken := "Kein Token gefunden, bitte einloggen."
  const NotFound := "Profil nicht gefunden."
  const Forbidden := "Zugriff verweigert."
  const LoadFailed := "Profil konnte nicht geladen werden."
  const UpdateFailed := "Fehler beim Aktualisieren des Profils."
  const PngPrefix := "data:image/png;base64,"

  /** The text fields of the form, in the order they are sent. */
  const ProfileKeys: seq<string> := ["vorname", "nachname", "adresse", "plz", "ort",
                                     "telefon", "email", "beschreibung", "benutzername"]

  const EmptyTexts: map<string, string> := map[
    "vorname" := "", "nachname" := "", "adresse" := "", "plz" := "", "ort" := "",
    "telefon" := "", "email" := "", "beschreibung" := "", "benutzername" := ""]

  /** The form's text fields from a loaded profile; a missing one is "". */
  function LoadedTexts(p: Profile): (m: map<string, string>)
    ensures m.Keys == EmptyTexts.Keys
    ensures forall i :: 0 <= i < |ProfileKeys| ==> m[ProfileKeys[i]] == FieldOf(p.fields, ProfileKeys[i])
  {
    map k | k in EmptyTexts.Keys :: FieldOf(p.fields, k)
  }

  /** The image a stored photo is shown as: a PNG data URL, or none without a photo. */
  function PreviewOf(foto: Option<string>): (r: Option<string>)
    ensures foto.Some? && foto.value != "" ==> r == Some(PngPrefix + foto.value)
    ensures foto.None? || foto.value == "" ==> r == None
  {
    if foto.Some? && foto.value != "" then Some(PngPrefix + foto.value) else None
  }

  /** The load error: 404 and 403 have their own text, every other failure
      (another status, or no response at all) the generic one. */
  function LoadError(e: HttpError): (msg: string)
    ensures e.status == Some(404) ==> msg == NotFound
    ensures e.status == Some(403) ==> msg == Forbidden
    ensures e.status != Some(404) && e.status != Some(403) ==> msg == LoadFailed
    ensures msg in {NotFound, Forbidden, LoadFailed}
  {
    if e.status == Some(404) then NotFound
    else if e.status == Some(403) then Forbidden
    else LoadFailed
  }

  /** The form data sent on save: the nine text fields in their fixed order,
      then the photo when a new file was chosen. */
  function Entries(texts: map<string, string>, fotoFile: Option<File>): (d: seq<Entry>)
    ensures |d| == |ProfileKeys| + (if fotoFile.Some? then 1 else 0)
    ensures forall i :: 0 <= i < |ProfileKeys| ==> d[i] == TextEntry(ProfileKeys[i], FieldOf(texts, ProfileKeys[i]))
    ensures fotoFile.Some? ==> d[|ProfileKeys|] == FileEntry("foto", fotoFile.value)
  {
    seq(|ProfileKeys|, i requires 0 <= i < |ProfileKeys| => TextEntry(ProfileKeys[i], FieldOf(texts, ProfileKeys[i])))
    + (if fotoFile.Some? then [FileEntry("foto", fotoFile.value)] else [])
  }

  /** The first position of `c` in `s`. */
  function IndexOf(s: string, c: char): (r: Option<nat>)
    ensures r.Some? ==> r.value < |s| && s[r.value] == c && forall j :: 0 <= j < r.value ==> s[j] != c
    ensures r.None? ==> forall j :: 0 <= j < |s| ==> s[j] != c
  {
    if s == [] then None
    else if s[0] == c then Some(0)
    else match IndexOf(s[1..], c)
      case None => None
      case Some(k) => Some(k + 1)
  }

  /** `s.split(",")[1]`: the text between the first and the second comma (or
      the end); undefined when `s` has no comma. */
  function SecondPiece(s: string): (r: Option<string>)
    ensures r.None? <==> forall j :: 0 <= j < |s| ==> s[j] != ','
    ensures r.Some? ==> forall j :: 0 <= j < |r.value| ==> r.value[j] != ','
  {
    match IndexOf(s, ',')
    case None => None
    case Some(k) =>
      var rest := s[k + 1..];
      match IndexOf(rest, ',')
      case None => Some(rest)
      case Some(m) => Some(rest[..m])
  }

  /** The photo of the locally updated profile, as written: the part after the
      comma of the preview, which for a newly chosen file is its object URL. */
  function MergedFotoAsWritten(prev: Option<string>, fotoFile: Option<File>, fotoPreview: string): (r: Option<string>)
    ensures fotoFile.None? ==> r == prev
    ensures fotoFile.Some? && r.Some? ==> exists k :: 0 <= k < |fotoPreview| && fotoPreview[k] == ','
  {
    if fotoFile.Some? then SecondPiece(fotoPreview) else prev
  }

  /** The photo of the locally updated profile: the base64 part of the new
      file's data URL, or the previous photo when no file was chosen. */
  function MergedFoto(prev: Option<string>, fotoFile: Option<File>): (r: Option<string>)
    ensures fotoFile.None? ==> r == prev
  {
    if fotoFile.Some? then SecondPiece(fotoFile.value.dataUrl) else prev
  }

  /** An object URL (`blob:` followed by origin and id) holds no comma, so as
      written the updated profile loses its photo whenever a new one was chosen. */
  lemma BlobPreviewLosesFoto(prev: Option<string>, file: File, objectUrl: string)
    requires forall j :: 0 <= j < |objectUrl| ==> objectUrl[j] != ','
    ensures MergedFotoAsWritten(prev, Some(file), objectUrl) == None
    ensures PreviewOf(MergedFotoAsWritten(prev, Some(file), objectUrl)) == None
  {
  }

  /** A concrete case: a profile with a photo, a new PNG chosen, its object URL as preview. */
  lemma BlobPreviewExample()
    ensures MergedFotoAsWritten(Some("b2xk"), Some(File("neu.png", "image/png", PngPrefix + "bmV1")),
                                "blob:http://localhost:3000/1f0e") == None
  {
    BlobPreviewLosesFoto(Some("b2xk"), File("neu.png", "image/png", PngPrefix + "bmV1"), "blob:http://localhost:3000/1f0e");
  }

  /** The only comma of the PNG prefix is its last character. */
  lemma PrefixComma(b: string)
    ensures IndexOf(PngPrefix + b, ',') == Some(|PngPrefix| - 1)
    ensures (PngPrefix + b)[|PngPrefix|..] == b
  {
    var s := PngPrefix + b;
    assert |PngPrefix| == 22;
    assert s[21] == ',';
    forall j | 0 <= j < 21 ensures s[j] != ',' {
      assert s[j] == PngPrefix[j];
    }
  }

  /** With the data URL of a PNG, the updated card shows exactly the photo just chosen. */
  lemma MergedFotoShowsNewPhoto(prev: Option<string>, file: File, b: string)
    requires file.dataUrl == PngPrefix + b && b != ""
    requires forall j :: 0 <= j < |b| ==> b[j] != ','
    ensures MergedFoto(prev, Some(file)) == Some(b)
    ensures PreviewOf(MergedFoto(prev, Some(file))) == Some(file.dataUrl)
  {
    PrefixComma(b);
    assert IndexOf(b, ',') == None;
  }

  /** The profile after a save: the form's fields over the old ones, and the merged photo. */
  function Merge(prev: Profile, texts: map<string, string>, fotoFile: Option<File>): (p: Profile)
    ensures forall k :: k in texts ==> k in p.fields && p.fields[k] == texts[k]
    ensures forall k :: k in prev.fields && k !in texts ==> k in p.fields && p.fields[k] == prev.fields[k]
    ensures p.foto == MergedFoto(prev.foto, fotoFile) && p.istImVorstand == prev.istImVorstand
  {
    Profile(prev.fields + texts, MergedFoto(prev.foto, fotoFile), prev.istImVorstand)
  }

  class MeinProfil {
    var profil: Option<Profile>
    var loading: bool
    var error: Option<string>
    var editMode: bool
    var texts: map<string, string>
    var fotoFile: Option<File>
    var fotoPreview: Option<string>

    constructor()
      ensures profil == None && loading && error == None && !editMode
      ensures texts == EmptyTexts && fotoFile == None && fotoPreview == None
    {
      profil, loading, error, editMode := None, true, None, false;
      texts, fotoFile, fotoPreview := EmptyTexts, None, None;
    }

    /** Loads the profile. Without a token nothing is requested; loading ends false either way. */
    method FetchProfil(token: Option<string>, response: Outcome<Profile>) returns (requested: bool)
      modifies this`profil, this`loading, this`error, this`texts, this`fotoFile, this`fotoPreview
      ensures !loading
      ensures requested <==> HasToken(token)
      ensures !HasToken(token) ==>
        error == Some(NoToken) && profil == old(profil) && texts == old(texts)
        && fotoFile == old(fotoFile) && fotoPreview == old(fotoPreview)
      ensures HasToken(token) && response.Success? ==>
        profil == Some(response.body) && error == old(error)
        && texts == LoadedTexts(response.body) && fotoFile == None && fotoPreview == PreviewOf(response.body.foto)
      ensures HasToken(token) && response.Failure? ==>
        error == Some(LoadError(response.error)) && profil == old(profil) && texts == old(texts)
        && fotoFile == old(fotoFile) && fotoPreview == old(fotoPreview)
    {
      if !HasToken(token) {
        error := Some(NoToken);
        loading := false;
        return false;
      }
      requested := true;
      if response.Success? {
        profil := Some(response.body);
        texts := LoadedTexts(response.body);
        fotoFile := None;
        fotoPreview := PreviewOf(response.body.foto);
      } else {
        error := Some(LoadError(response.error));
      }
      loading := false;
    }

    method StartEdit()
      modifies this`editMode
      ensures editMode
    {
      editMode := true;
    }

    /** "Abbrechen" leaves edit mode and keeps what was typed. */
    method CancelEdit()
      modifies this`editMode
      ensures !editMode
    {
      editMode := false;
    }

    method HandleInputChange(name: string, value: string)
      modifies this`texts
      ensures texts == old(texts)[name := value]
    {
      texts := texts[name := value];
    }

    /** A chosen file becomes the photo to send; the preview shows its object
        URL (`URL.createObjectURL`, passed in as `objectUrl`). */
    method HandleFileChange(file: Option<File>, objectUrl: string)
      modifies this`fotoFile, this`fotoPreview
      ensures file.None? ==> fotoFile == old(fotoFile) && fotoPreview == old(fotoPreview)
      ensures file.Some? ==> fotoFile == file && fotoPreview == Some(objectUrl)
    {
      if file.Some? {
        fotoFile := file;
        fotoPreview := Some(objectUrl);
      }
    }

    /** The `forEach` over the text fields, then the optional photo. */
    method BuildFormData() returns (data: seq<Entry>)
      ensures data == Entries(texts, fotoFile)
    {
      data := [];
      var i := 0;
      while i < |ProfileKeys|
        invariant 0 <= i <= |ProfileKeys|
        invariant |data| == i
        invariant forall j :: 0 <= j < i ==> data[j] == TextEntry(ProfileKeys[j], FieldOf(texts, ProfileKeys[j]))
      {
        data := data + [TextEntry(ProfileKeys[i], FieldOf(texts, ProfileKeys[i]))];
        i := i + 1;
      }
      if fotoFile.Some? {
        data := data + [FileEntry("foto", fotoFile.value)];
      }
    }

    /** Saves the form. Success ends edit mode and updates the shown profile
        from the form; failure only alerts. The form is reachable only once a
        profile is shown. */
    method HandleSubmit(response: Outcome<()>) returns (data: seq<Entry>, alert: Option<string>)
      requires profil.Some?
      modifies this`editMode, this`profil
      ensures data == Entries(texts, fotoFile)
      ensures response.Success? ==>
        alert == None && !editMode && profil == Some(Merge(old(profil).value, texts, fotoFile))
      ensures response.Failure? ==>
        alert == Some(UpdateFailed) && editMode == old(editMode) && profil == old(profil)
    {
      data := BuildFormData();
      if response.Success? {
        editMode := false;
        profil := Some(Merge(profil.value, texts, fotoFile));
        alert := None;
      } else {
        alert := Some(UpdateFailed);
      }
    }
  }
}
