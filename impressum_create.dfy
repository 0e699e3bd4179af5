/** The imprint editor (src/components/Impressum/ImpressumCreate.jsx): the
    imprint's title, text and address, and a list of social links each saved
    on its own. */
module ImpressumCreateScreen {
  import opened Common

  /** A link as the form holds and sends it: `{ title, url, icon }`. */
  datatype Link = Link(title: string, url: string, icon: string)

  datatype LinkField = Title | Url | Icon

  /** What a listed link renders as: `<a href target rel>`; `rel` may be left undefined. */
  datatype Anchor = Anchor(href: string, target: string, rel: Option<string>)

  datatype Request = CreateLink(link: Link) | CreateImpressum(data: map<string, string>)

  const AllFieldsRequired := "Alle Felder sind Pflicht!"
  const LinkFailed := "Fehler beim Erstellen des Links."
  const ImpressumFailed := "Fehler beim Erstellen des Impressums."

  /** The names of `iconOptions`, in order. */
  const IconNames: seq<string> := ["Facebook", "Instagram", "Twitter", "E-Mail", "LinkedIn",
                                   "YouTube", "GitHub", "Website", "Telefon"]

  /** A fresh link: empty title and url, the first icon. */
  const EmptyLink := Link("", "", IconNames[0])

  const EmptyImpressum: map<string, string> := map["title" := "", "text" := "", "adresse" := ""]

  /** `alert(response.data.message)`: a missing message is shown as "undefined". */
  function AlertOf(message: Option<string>): (text: string)
    ensures message.Some? ==> text == message.value
    ensures message.None? ==> text == "undefined"
  {
    if message.Some? then message.value else "undefined"
  }

  function GetLinkField(l: Link, f: LinkField): string
  {
    match f
    case Title => l.title
    case Url => l.url
    case Icon => l.icon
  }

  /** `{ ...newLink, [name]: value }`. */
  function SetLinkField(l: Link, f: LinkField, v: string): (l': Link)
    ensures GetLinkField(l', f) == v
    ensures forall g: LinkField :: g != f ==> GetLinkField(l', g) == GetLinkField(l, g)
  {
    match f
    case Title => l.(title := v)
    case Url => l.(url := v)
    case Icon => l.(icon := v)
  }

  /** The link may be saved: none of the three fields is empty. */
  predicate LinkComplete(l: Link)
  {
    l.title != "" && l.url != "" && l.icon != ""
  }

  /** `iconOptions.find(i => i.name === name)`, as the index of the first match:
      the lookup the link list uses to pick the icon it renders for a saved link. */
  function FindIcon(name: string): (r: Option<nat>)
    ensures r.None? <==> name !in IconNames
    ensures r.Some? ==> r.value < |IconNames| && IconNames[r.value] == name
    ensures r.Some? ==> forall j :: 0 <= j < r.value ==> IconNames[j] != name
  {
    FindFrom(name, 0)
  }

  function FindFrom(name: string, k: nat): (r: Option<nat>)
    requires k <= |IconNames|
    ensures r.None? <==> name !in IconNames[k..]
    ensures r.Some? ==> k <= r.value < |IconNames| && IconNames[r.value] == name
    ensures r.Some? ==> forall j :: k <= j < r.value ==> IconNames[j] != name
    decreases |IconNames| - k
  {
    if k == |IconNames| then None
    else if IconNames[k] == name then Some(k)
    else FindFrom(name, k + 1)
  }

  /** E-mail links open the mail program in place; every other link opens a
      new tab isolated from this page. */
  function AnchorOf(l: Link): (a: Anchor)
    ensures l.icon == "E-Mail" ==> a == Anchor("mailto:" + l.url, "_self", None)
    ensures l.icon != "E-Mail" ==> a == Anchor(l.url, "_blank", Some("noopener noreferrer"))
  {
    if l.icon == "E-Mail" then Anchor("mailto:" + l.url, "_self", None)
    else Anchor(l.url, "_blank", Some("noopener noreferrer"))
  }

  /** The opener is only ever left reachable for a link that stays in this tab,
      and every anchor still leads to the link's url. */
  lemma AnchorIsolation(l: Link)
    ensures AnchorOf(l).target == "_blank" <==> AnchorOf(l).rel == Some("noopener noreferrer")
    ensures AnchorOf(l).target == "_self" <==> l.icon == "E-Mail"
    ensures AnchorOf(l).href[|AnchorOf(l).href| - |l.url|..] == l.url
  {
  }

  class ImpressumCreate {
    var impressumData: map<string, string>
    var links: seq<Link>
    var newLink: Link
    var loading: bool

    constructor()
      ensures impressumData == EmptyImpressum && links == [] && newLink == EmptyLink && !loading
    {
      impressumData, links, newLink, loading := EmptyImpressum, [], EmptyLink, false;
    }

    method HandleImpressumChange(name: string, value: string)
      modifies this`impressumData
      ensures impressumData == old(impressumData)[name := value]
      ensures forall k :: k in old(impressumData) && k != name ==> k in impressumData && impressumData[k] == old(impressumData)[k]
    {
      impressumData := impressumData[name := value];
    }

    method HandleNewLinkChange(field: LinkField, value: string)
      modifies this`newLink
      ensures newLink == SetLinkField(old(newLink), field, value)
    {
      newLink := SetLinkField(newLink, field, value);
    }

    /** Saves the new link. An incomplete one is refused by an alert; a saved
        one is appended and the input reset. */
    method AddLink(response: Outcome<Option<string>>) returns (request: Option<Request>, alert: string)
      modifies this`links, this`newLink
      ensures !LinkComplete(old(newLink)) ==>
        request == None && alert == AllFieldsRequired && links == old(links) && newLink == old(newLink)
      ensures LinkComplete(old(newLink)) ==> request == Some(CreateLink(old(newLink)))
      ensures LinkComplete(old(newLink)) && response.Success? ==>
        alert == AlertOf(response.body) && links == old(links) + [old(newLink)] && newLink == EmptyLink
      ensures LinkComplete(old(newLink)) && response.Failure? ==>
        alert == ErrorText(response.error, LinkFailed) && links == old(links) && newLink == old(newLink)
    {
      if !LinkComplete(newLink) {
        return None, AllFieldsRequired;
      }
      request := Some(CreateLink(newLink));
      if response.Success? {
        alert := AlertOf(response.body);
        links := links + [newLink];
        newLink := EmptyLink;
      } else {
        alert := ErrorText(response.error, LinkFailed);
      }
    }

    /** Saves the imprint. Success empties the three fields and the link list;
        loading ends false either way. */
    method HandleSubmit(response: Outcome<Option<string>>) returns (request: Request, alert: string)
      modifies this`impressumData, this`links, this`loading
      ensures request == CreateImpressum(old(impressumData))
      ensures !loading
      ensures response.Success? ==>
        alert == AlertOf(response.body) && impressumData == EmptyImpressum && links == []
      ensures response.Failure? ==>
        alert == ErrorText(response.error, ImpressumFailed) && impressumData == old(impressumData) && links == old(links)
    {
      loading := true;
      request := CreateImpressum(impressumData);
      if response.Success? {
        alert := AlertOf(response.body);
        impressumData := EmptyImpressum;
        links := [];
      } else {
        alert := ErrorText(response.error, ImpressumFailed);
      }
      loading := false;
    }

    /** The anchors of the listed links, in order. */
    function Anchors(): (r: seq<Anchor>)
      reads this
      ensures |r| == |links|
      ensures forall i :: 0 <= i < |links| ==> r[i] == AnchorOf(links[i])
    {
      seq(|links|, i reads this requires 0 <= i < |links| => AnchorOf(links[i]))
    }
  }
}
