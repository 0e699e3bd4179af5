/** The newsletter editor (src/components/Newsletter/NewsletterCreateForm.jsx):
    a title, a send date and a list of sections, of which the form always
    keeps at least one. */
module NewsletterCreateScreen {
  import opened Common

  datatype Section = Section(subtitle: string, text: string, foto: string, link: string)

  datatype SectionField = Subtitle | Text | Foto | Link

  /** The request body: `{ title, send_date, sections }`. */
  datatype Request = CreateNewsletter(title: string, sendDate: string, sections: seq<Section>)

  const TitleDateRequired := "Titel und Versanddatum sind erforderlich"
  const SectionRequired := "Mindestens eine Sektion ist erforderlich"
  const CreatedPrefix := "Newsletter erfolgreich erstellt! ID: "
  const FailedPrefix := "Fehler beim Erstellen des Newsletters: "

  const EmptySection := Section("", "", "", "")

  function GetField(s: Section, f: SectionField): string
  {
    match f
    case Subtitle => s.subtitle
    case Text => s.text
    case Foto => s.foto
    case Link => s.link
  }

  /** `section[field] = value`. */
  function SetField(s: Section, f: SectionField, v: string): (s': Section)
    ensures GetField(s', f) == v
    ensures forall g: SectionField :: g != f ==> GetField(s', g) == GetField(s, g)
  {
    match f
    case Subtitle => s.(subtitle := v)
    case Text => s.(text := v)
    case Foto => s.(foto := v)
    case Link => s.(link := v)
  }

  /** The failure text: the backend's `error`, else the exception's own message. */
  function FailureText(e: HttpError): (msg: string)
    ensures e.backendError.Some? && e.backendError.value != "" ==> msg == FailedPrefix + e.backendError.value
    ensures !(e.backendError.Some? && e.backendError.value != "") ==> msg == FailedPrefix + e.message
  {
    FailedPrefix + OrElse(e.backendError, e.message)
  }

  class NewsletterForm {
    var title: string
    var sendDate: string
    var sections: seq<Section>
    var message: string

    constructor()
      ensures title == "" && sendDate == "" && sections == [EmptySection] && message == ""
      ensures Valid()
    {
      title, sendDate, sections, message := "", "", [EmptySection], "";
    }

    /** What the buttons maintain: there is always at least one section. */
    predicate Valid()
      reads this
    {
      |sections| >= 1
    }

    method SetTitle(t: string)
      modifies this`title
      ensures title == t
    {
      title := t;
    }

    method SetSendDate(d: string)
      modifies this`sendDate
      ensures sendDate == d
    {
      sendDate := d;
    }

    /** The input of `field` in section `index` (only rendered sections have inputs). */
    method HandleSectionChange(index: int, field: SectionField, value: string)
      requires 0 <= index < |sections|
      modifies this`sections
      ensures |sections| == |old(sections)|
      ensures sections == old(sections)[index := SetField(old(sections)[index], field, value)]
      ensures old(Valid()) ==> Valid()
    {
      sections := sections[index := SetField(sections[index], field, value)];
    }

    method AddSection()
      modifies this`sections
      ensures sections == old(sections) + [EmptySection]
      ensures Valid()
    {
      sections := sections + [EmptySection];
    }

    /** The remove button of a rendered section; it is disabled while only one section exists. */
    method RemoveSection(index: int)
      requires 0 <= index < |sections| && |sections| != 1
      modifies this`sections
      ensures sections == RemoveAt(old(sections), index)
      ensures |sections| == |old(sections)| - 1
      ensures Valid()
    {
      sections := RemoveAt(sections, index);
    }

    /** Submits the newsletter. Title and date are required, and at least one
        section; success reports the new id and resets the form. */
    method HandleSubmit(response: Outcome<int>) returns (request: Option<Request>)
      modifies this`title, this`sendDate, this`sections, this`message
      ensures old(title) == "" || old(sendDate) == "" ==>
        request == None && message == TitleDateRequired
        && title == old(title) && sendDate == old(sendDate) && sections == old(sections)
      ensures old(title) != "" && old(sendDate) != "" && old(sections) == [] ==>
        request == None && message == SectionRequired && title == old(title) && sendDate == old(sendDate) && sections == old(sections)
      ensures old(title) != "" && old(sendDate) != "" && old(sections) != [] ==>
        request == Some(CreateNewsletter(old(title), old(sendDate), old(sections)))
        && (response.Success? ==> (message == CreatedPrefix + IntToString(response.body)
              && title == "" && sendDate == "" && sections == [EmptySection]))
        && (response.Failure? ==> (message == FailureText(response.error)
              && title == old(title) && sendDate == old(sendDate) && sections == old(sections)))
      ensures old(Valid()) ==> Valid()
    {
      if title == "" || sendDate == "" {
        message := TitleDateRequired;
        return None;
      }
      if |sections| == 0 {
        message := SectionRequired;
        return None;
      }
      request := Some(CreateNewsletter(title, sendDate, sections));
      if response.Success? {
        message := CreatedPrefix + IntToString(response.body);
        title, sendDate, sections := "", "", [EmptySection];
      } else {
        message := FailureText(response.error);
      }
    }
  }
}
