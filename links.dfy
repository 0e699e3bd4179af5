/** The link collection (src/components/Links/Links.jsx): sections with a
    title, each holding links; admins and the board rename sections, delete
    sections and links, and edit and add links. Alerts are returned to the
    caller as text. */
module LinksScreen {
  import opened Common

  datatype Link = Link(id: int, text: string, url: string)

  datatype Section = Section(id: int, subtitle: string, links: seq<Link>)

  /** The requests the screen issues; the URLs and headers are not modelled. */
  datatype Request =
    | PutSectionTitle(editedSection: Option<int>, subtitle: string)
    | DeleteSection(sectionId: int)
    | PutLink(editedLink: Option<int>, text: string, url: string)
    | DeleteLink(linkId: int)
    | PostLink(sectionId: int, text: string, url: string)

  const TitleRequired := "Titel darf nicht leer sein"
  const TextUrlRequired := "Bitte Text und URL angeben!"
  const SaveFailed := "Fehler beim Speichern"
  const DeleteFailed := "Fehler beim Löschen"
  const AddFailed := "Fehler beim Hinzufügen"

  /** `isAdminOrVorstand` after the mount effect, starting from false: only a
      stored, decodable token whose `userTypes` name either role sets it. */
  function AdminOrVorstand(token: Option<string>, decoded: Decoded): (b: bool)
    ensures b <==> (HasToken(token) && decoded.Claims? && decoded.userTypes.Some?
                    && (IsAdmin(decoded.userTypes.value) || IsVorstand(decoded.userTypes.value)))
  {
    var roles := RolesOf(token, decoded);
    IsAdmin(roles) || IsVorstand(roles)
  }

  function OtherSection(sectionId: int): Section -> bool
  {
    (s: Section) => s.id != sectionId
  }

  function OtherLink(linkId: int): Link -> bool
  {
    (l: Link) => l.id != linkId
  }

  /** `sections.filter(s => s.id !== sectionId)`. */
  function WithoutSection(sections: seq<Section>, sectionId: int): (r: seq<Section>)
    ensures |r| <= |sections|
    ensures forall x :: x in r ==> x in sections && x.id != sectionId
  {
    Filter(sections, OtherSection(sectionId))
  }

  /** After a section delete no section carries the id, every other section
      is still there, and the survivors keep their relative order. */
  lemma WithoutSectionSpec(sections: seq<Section>, sectionId: int, a: seq<Section>, b: seq<Section>)
    ensures forall i :: 0 <= i < |WithoutSection(sections, sectionId)| ==>
      WithoutSection(sections, sectionId)[i].id != sectionId
    ensures forall j :: 0 <= j < |sections| && sections[j].id != sectionId ==>
      sections[j] in WithoutSection(sections, sectionId)
    ensures (forall j :: 0 <= j < |sections| ==> sections[j].id != sectionId) ==>
      WithoutSection(sections, sectionId) == sections
    ensures WithoutSection(a + b, sectionId) == WithoutSection(a, sectionId) + WithoutSection(b, sectionId)
  {
    var p := OtherSection(sectionId);
    var r := WithoutSection(sections, sectionId);
    forall i | 0 <= i < |r|
      ensures r[i].id != sectionId
    {
      assert r[i] in r;
      assert p(r[i]);
    }
    forall j | 0 <= j < |sections| && sections[j].id != sectionId
      ensures p(sections[j])
    {
    }
    if forall j :: 0 <= j < |sections| ==> sections[j].id != sectionId {
      FilterKeepsAll(sections, p);
    }
    FilterConcat(a, b, p);
  }

  /** The `setSections` update of a link delete: the link goes only from the named section. */
  function WithoutLink(sections: seq<Section>, linkId: int, sectionId: int): (r: seq<Section>)
    ensures |r| == |sections|
    ensures forall i :: 0 <= i < |r| ==> r[i].id == sections[i].id && r[i].subtitle == sections[i].subtitle
    ensures forall i :: 0 <= i < |r| && sections[i].id != sectionId ==> r[i] == sections[i]
    ensures forall i :: 0 <= i < |r| && sections[i].id == sectionId ==>
      r[i].links == Filter(sections[i].links, OtherLink(linkId))
  {
    seq(|sections|, i requires 0 <= i < |sections| =>
      if sections[i].id == sectionId
      then sections[i].(links := Filter(sections[i].links, OtherLink(linkId)))
      else sections[i])
  }

  /** In the named section the link is gone and every other link stays. */
  lemma WithoutLinkSpec(sections: seq<Section>, linkId: int, sectionId: int, i: int)
    requires 0 <= i < |sections| && sections[i].id == sectionId
    ensures forall k :: 0 <= k < |WithoutLink(sections, linkId, sectionId)[i].links| ==>
      WithoutLink(sections, linkId, sectionId)[i].links[k].id != linkId
    ensures forall k :: 0 <= k < |sections[i].links| && sections[i].links[k].id != linkId ==>
      sections[i].links[k] in WithoutLink(sections, linkId, sectionId)[i].links
  {
    var p := OtherLink(linkId);
    var ls := sections[i].links;
    var r := WithoutLink(sections, linkId, sectionId)[i].links;
    assert r == Filter(ls, p);
    forall k | 0 <= k < |r|
      ensures r[k].id != linkId
    {
      assert r[k] in r;
      assert p(r[k]);
    }
    forall k | 0 <= k < |ls| && ls[k].id != linkId
      ensures ls[k] in r
    {
      assert p(ls[k]);
    }
  }

  class Links {
    const token: Option<string>
    var sections: seq<Section>
    var isAdminOrVorstand: bool
    var editSectionId: Option<int>
    var editSectionTitle: string
    var editLinkId: Option<int>
    var editLinkText: string
    var editLinkUrl: string
    var newLinkText: string
    var newLinkUrl: string
    var addingLinkToSection: Option<int>

    constructor(token: Option<string>)
      ensures this.token == token && sections == [] && !isAdminOrVorstand
      ensures editSectionId == None && editSectionTitle == ""
      ensures editLinkId == None && editLinkText == "" && editLinkUrl == ""
      ensures newLinkText == "" && newLinkUrl == "" && addingLinkToSection == None
    {
      this.token := token;
      sections, isAdminOrVorstand := [], false;
      editSectionId, editSectionTitle := None, "";
      editLinkId, editLinkText, editLinkUrl := None, "", "";
      newLinkText, newLinkUrl, addingLinkToSection := "", "", None;
    }

    /** The mount effect's role check; without a token the flag is not touched. */
    method DecodeRoles(decoded: Decoded)
      modifies this`isAdminOrVorstand
      ensures isAdminOrVorstand == if HasToken(token) then AdminOrVorstand(token, decoded) else old(isAdminOrVorstand)
    {
      if HasToken(token) {
        isAdminOrVorstand := AdminOrVorstand(token, decoded);
      }
    }

    /** `fetchSections`; a failure is only logged. */
    method FetchSections(response: Outcome<seq<Section>>)
      modifies this`sections
      ensures sections == if response.Success? then response.body else old(sections)
    {
      if response.Success? {
        sections := response.body;
      }
    }

    method EditSection(section: Section)
      modifies this`editSectionId, this`editSectionTitle
      ensures editSectionId == Some(section.id) && editSectionTitle == section.subtitle
    {
      editSectionId, editSectionTitle := Some(section.id), section.subtitle;
    }

    method SetEditSectionTitle(t: string)
      modifies this`editSectionTitle
      ensures editSectionTitle == t
    {
      editSectionTitle := t;
    }

    method CancelSectionEdit()
      modifies this`editSectionId
      ensures editSectionId == None
    {
      editSectionId := None;
    }

    /** Renames a section; an empty title is refused with an alert and no request.
        Success ends the edit (the reload is a separate FetchSections). */
    method SaveSectionEdit(response: Outcome<()>) returns (request: Option<Request>, alert: Option<string>)
      modifies this`editSectionId, this`editSectionTitle
      ensures old(editSectionTitle) == "" ==>
        request == None && alert == Some(TitleRequired)
        && editSectionId == old(editSectionId) && editSectionTitle == old(editSectionTitle)
      ensures old(editSectionTitle) != "" ==>
        request == Some(PutSectionTitle(old(editSectionId), old(editSectionTitle)))
        && (response.Success? ==> alert == None && editSectionId == None && editSectionTitle == "")
        && (response.Failure? ==> (alert == Some(SaveFailed)
              && editSectionId == old(editSectionId) && editSectionTitle == old(editSectionTitle)))
    {
      if editSectionTitle == "" {
        return None, Some(TitleRequired);
      }
      request := Some(PutSectionTitle(editSectionId, editSectionTitle));
      if response.Success? {
        editSectionId, editSectionTitle := None, "";
        alert := None;
      } else {
        alert := Some(SaveFailed);
      }
    }

    /** Deletes a section after confirmation and drops it locally on success. */
    method HandleDeleteSection(sectionId: int, confirmed: bool, response: Outcome<()>)
      returns (request: Option<Request>, alert: Option<string>)
      modifies this`sections
      ensures request.Some? <==> confirmed
      ensures confirmed ==> request == Some(DeleteSection(sectionId))
      ensures confirmed && response.Success? ==> sections == WithoutSection(old(sections), sectionId) && alert == None
      ensures !(confirmed && response.Success?) ==> sections == old(sections)
      ensures alert == if confirmed && response.Failure? then Some(DeleteFailed) else None
    {
      if !confirmed {
        return None, None;
      }
      request := Some(DeleteSection(sectionId));
      if response.Success? {
        sections := WithoutSection(sections, sectionId);
        alert := None;
      } else {
        alert := Some(DeleteFailed);
      }
    }

    method EditLink(link: Link)
      modifies this`editLinkId, this`editLinkText, this`editLinkUrl
      ensures editLinkId == Some(link.id) && editLinkText == link.text && editLinkUrl == link.url
    {
      editLinkId, editLinkText, editLinkUrl := Some(link.id), link.text, link.url;
    }

    method SetEditLink(text: string, url: string)
      modifies this`editLinkText, this`editLinkUrl
      ensures editLinkText == text && editLinkUrl == url
    {
      editLinkText, editLinkUrl := text, url;
    }

    method CancelLinkEdit()
      modifies this`editLinkId
      ensures editLinkId == None
    {
      editLinkId := None;
    }

    /** Saves an edited link: text and URL are required; success ends the edit. */
    method SaveLinkEdit(response: Outcome<()>) returns (request: Option<Request>, alert: Option<string>)
      modifies this`editLinkId, this`editLinkText, this`editLinkUrl
      ensures old(editLinkText) == "" || old(editLinkUrl) == "" ==>
        request == None && alert == Some(TextUrlRequired)
        && editLinkId == old(editLinkId) && editLinkText == old(editLinkText) && editLinkUrl == old(editLinkUrl)
      ensures old(editLinkText) != "" && old(editLinkUrl) != "" ==>
        request == Some(PutLink(old(editLinkId), old(editLinkText), old(editLinkUrl)))
        && (response.Success? ==> alert == None && editLinkId == None && editLinkText == "" && editLinkUrl == "")
        && (response.Failure? ==> (alert == Some(SaveFailed)
              && editLinkId == old(editLinkId) && editLinkText == old(editLinkText) && editLinkUrl == old(editLinkUrl)))
    {
      if editLinkText == "" || editLinkUrl == "" {
        return None, Some(TextUrlRequired);
      }
      request := Some(PutLink(editLinkId, editLinkText, editLinkUrl));
      if response.Success? {
        editLinkId, editLinkText, editLinkUrl := None, "", "";
        alert := None;
      } else {
        alert := Some(SaveFailed);
      }
    }

    /** Deletes a link after confirmation and drops it from its section on success. */
    method HandleDeleteLink(linkId: int, sectionId: int, confirmed: bool, response: Outcome<()>)
      returns (request: Option<Request>, alert: Option<string>)
      modifies this`sections
      ensures request.Some? <==> confirmed
      ensures confirmed ==> request == Some(DeleteLink(linkId))
      ensures confirmed && response.Success? ==> sections == WithoutLink(old(sections), linkId, sectionId)
      ensures !(confirmed && response.Success?) ==> sections == old(sections)
      ensures alert == if confirmed && response.Failure? then Some(DeleteFailed) else None
    {
      if !confirmed {
        return None, None;
      }
      request := Some(DeleteLink(linkId));
      if response.Success? {
        sections := WithoutLink(sections, linkId, sectionId);
        alert := None;
      } else {
        alert := Some(DeleteFailed);
      }
    }

    /** The "+" button of a section, and its cancel button (None). */
    method SetAddingLinkToSection(sectionId: Option<int>)
      modifies this`addingLinkToSection
      ensures addingLinkToSection == sectionId
    {
      addingLinkToSection := sectionId;
    }

    method SetNewLink(text: string, url: string)
      modifies this`newLinkText, this`newLinkUrl
      ensures newLinkText == text && newLinkUrl == url
    {
      newLinkText, newLinkUrl := text, url;
    }

    /** Adds a link to a section: text and URL are required; success clears
        the inputs and closes the add row. */
    method HandleAddLinkToSection(sectionId: int, response: Outcome<()>) returns (request: Option<Request>, alert: Option<string>)
      modifies this`newLinkText, this`newLinkUrl, this`addingLinkToSection
      ensures old(newLinkText) == "" || old(newLinkUrl) == "" ==>
        request == None && alert == Some(TextUrlRequired)
        && newLinkText == old(newLinkText) && newLinkUrl == old(newLinkUrl) && addingLinkToSection == old(addingLinkToSection)
      ensures old(newLinkText) != "" && old(newLinkUrl) != "" ==>
        request == Some(PostLink(sectionId, old(newLinkText), old(newLinkUrl)))
        && (response.Success? ==> alert == None && newLinkText == "" && newLinkUrl == "" && addingLinkToSection == None)
        && (response.Failure? ==> (alert == Some(AddFailed)
              && newLinkText == old(newLinkText) && newLinkUrl == old(newLinkUrl) && addingLinkToSection == old(addingLinkToSection)))
    {
      if newLinkText == "" || newLinkUrl == "" {
        return None, Some(TextUrlRequired);
      }
      request := Some(PostLink(sectionId, newLinkText, newLinkUrl));
      if response.Success? {
        newLinkText, newLinkUrl, addingLinkToSection := "", "", None;
        alert := None;
      } else {
        alert := Some(AddFailed);
      }
    }
  }
}
