/** The site footer (src/components/Impressum/Footer.jsx): the imprint with
    its links and an inquiry form whose answer depends on the response status. */
module FooterScreen {
  import opened Common

  datatype FormField = Name | Email | Nachricht

  /** The inquiry form `{ name, email, nachricht }`. */
  datatype Inquiry = Inquiry(name: string, email: string, nachricht: string)

  datatype Request = PostAnfrage(form: Inquiry)

  const LoadFailed := "Fehler beim Laden des Impressums."
  const RequiredMissing := "Bitte füllen Sie alle Pflichtfelder aus."
  const ThankYou := "Vielen Dank! Ihre Anfrage wurde erfolgreich versendet. Sie erhalten eine Bestätigungsmail."
  const SendFailed := "Es ist ein Fehler aufgetreten. Bitte versuchen Sie es später erneut."

  const EmptyInquiry := Inquiry("", "", "")

  /** The icon shown when no named one applies. */
  const FallbackIcon := "FaLink"

  function GetField(f: Inquiry, field: FormField): string
  {
    match field
    case Name => f.name
    case Email => f.email
    case Nachricht => f.nachricht
  }

  /** `{ ...form, [name]: value }`. */
  function SetField(f: Inquiry, field: FormField, v: string): (f': Inquiry)
    ensures GetField(f', field) == v
    ensures forall g: FormField :: g != field ==> GetField(f', g) == GetField(f, g)
  {
    match field
    case Name => f.(name := v)
    case Email => f.(email := v)
    case Nachricht => f.(nachricht := v)
  }

  /** The inquiry may be sent: name, email and message are all filled in. */
  predicate Complete(f: Inquiry)
  {
    f.name != "" && f.email != "" && f.nachricht != ""
  }

  /** `getIcon`: the icon component `Fa<name>` when the name is truthy and the
      icon set has one of that name, else the link icon. `icons` is the set of
      component names the icon library exports. */
  function GetIcon(iconName: Option<string>, icons: set<string>): (icon: string)
    ensures iconName.Some? && iconName.value != "" && "Fa" + iconName.value in icons ==> icon == "Fa" + iconName.value
    ensures iconName.None? || iconName.value == "" || "Fa" + iconName.value !in icons ==> icon == FallbackIcon
    ensures icon in icons || icon == FallbackIcon
  {
    if iconName.None? || iconName.value == "" then FallbackIcon
    else if "Fa" + iconName.value in icons then "Fa" + iconName.value
    else FallbackIcon
  }

  /** What `getIcon` shows when it does not fall back is named after the
      requested icon, so two different names never share an icon. */
  lemma {:induction false} GetIconInjective(a: string, b: string, icons: set<string>)
    requires GetIcon(Some(a), icons) != FallbackIcon && GetIcon(Some(b), icons) != FallbackIcon
    requires GetIcon(Some(a), icons) == GetIcon(Some(b), icons)
    ensures a == b
  {
    assert "Fa" + a == "Fa" + b;
    assert a == ("Fa" + a)[2..];
    assert b == ("Fa" + b)[2..];
  }

  class Footer {
    /** The loaded imprint, None until it has arrived. Its content is only shown. */
    var impressum: Option<map<string, string>>
    var loading: bool
    var error: Option<string>
    var form: Inquiry
    var formStatus: string

    constructor()
      ensures impressum == None && loading && error == None && form == EmptyInquiry && formStatus == ""
    {
      impressum, loading, error, form, formStatus := None, true, None, EmptyInquiry, "";
    }

    method FetchImpressum(response: Outcome<map<string, string>>)
      modifies this`impressum, this`loading, this`error
      ensures !loading
      ensures response.Success? ==> impressum == Some(response.body) && error == old(error)
      ensures response.Failure? ==> impressum == old(impressum) && error == Some(LoadFailed)
    {
      if response.Success? {
        impressum := Some(response.body);
      } else {
        error := Some(LoadFailed);
      }
      loading := false;
    }

    method HandleChange(field: FormField, value: string)
      modifies this`form
      ensures form == SetField(old(form), field, value)
    {
      form := SetField(form, field, value);
    }

    /** Sends the inquiry; `response` carries the HTTP status of a request that
        did not throw. Only status 201 thanks the visitor and empties the form. */
    method HandleSubmit(response: Outcome<int>) returns (request: Option<Request>)
      modifies this`form, this`formStatus
      ensures !Complete(old(form)) ==> request == None && formStatus == RequiredMissing && form == old(form)
      ensures Complete(old(form)) ==> request == Some(PostAnfrage(old(form)))
      ensures Complete(old(form)) && response == Success(201) ==> formStatus == ThankYou && form == EmptyInquiry
      ensures Complete(old(form)) && response != Success(201) ==> formStatus == SendFailed && form == old(form)
    {
      if !Complete(form) {
        formStatus := RequiredMissing;
        return None;
      }
      request := Some(PostAnfrage(form));
      if response.Success? && response.body == 201 {
        formStatus := ThankYou;
        form := EmptyInquiry;
      } else {
        formStatus := SendFailed;
      }
    }
  }
}
