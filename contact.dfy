/** The emergency-number screen with the contact record
    (src/components/Verwaltung/Contact.jsx). Admins reorder the emergency
    numbers by drag and drop; the new order is applied at once and persisted
    as 1-based positions. The numbers and the contact record are edited in
    modal dialogs. */
module ContactScreen {
  import opened Common

  datatype Item = Item(id: int, title: string, number: string)

  /** One entry of the order request body: `{ id, position }`. */
  datatype PositionEntry = PositionEntry(id: int, position: int)

  datatype ContactRecord = ContactRecord(title: string, address: string, phone: string, fax: string, email: string)

  /** The requests the screen issues; the URLs are not modelled. */
  datatype Request =
    | PostEmergency(title: string, number: string)
    | PutEmergency(id: int, title: string, number: string)
    | DeleteEmergency(id: int)
    | PutOrder(payload: seq<PositionEntry>)
    | PutContact(record: ContactRecord)
    | PostContact(record: ContactRecord)

  const TitleNumberRequired := "Titel & Nummer erforderlich."
  const CreateFailed := "Erstellen fehlgeschlagen."
  const UpdateFailed := "Update fehlgeschlagen."
  const TitleAddressRequired := "Titel & Adresse erforderlich."
  const SaveFailed := "Speichern fehlgeschlagen."

  predicate HasId(items: seq<Item>, id: int)
  {
    exists j :: 0 <= j < |items| && items[j].id == id
  }

  /** `items.findIndex(i => i.id === id)`: the first index carrying id, or -1. */
  function FindIndex(items: seq<Item>, id: int): (k: int)
    ensures -1 <= k < |items|
    ensures k >= 0 ==> items[k].id == id && forall j :: 0 <= j < k ==> items[j].id != id
    ensures k == -1 <==> !HasId(items, id)
    decreases |items|
  {
    if items == [] then -1
    else if items[0].id == id then 0
    else
      var k := FindIndex(items[1..], id);
      assert forall j :: 1 <= j < |items| ==> items[1..][j - 1] == items[j];
      if k == -1 then -1 else k + 1
  }

  /** dnd-kit's arrayMove: take the element out at `from`, put it back in at `to`. */
  function ArrayMove<T>(s: seq<T>, from: nat, to: nat): (r: seq<T>)
    requires from < |s| && to < |s|
    ensures |r| == |s|
  {
    var rest := RemoveAt(s, from);
    rest[..to] + [s[from]] + rest[to..]
  }

  /** The dragged element ends up at the index of the element it was dropped on. */
  lemma ArrayMovePlacesItem<T>(s: seq<T>, from: nat, to: nat)
    requires from < |s| && to < |s|
    ensures ArrayMove(s, from, to)[to] == s[from]
  {
  }

  /** A move is a permutation. */
  lemma ArrayMoveIsPermutation<T>(s: seq<T>, from: nat, to: nat)
    requires from < |s| && to < |s|
    ensures multiset(ArrayMove(s, from, to)) == multiset(s)
  {
    var rest := RemoveAt(s, from);
    assert s == s[..from] + [s[from]] + s[from + 1..];
    assert multiset(s) == multiset(rest) + multiset{s[from]};
    assert rest == rest[..to] + rest[to..];
    assert multiset(ArrayMove(s, from, to)) == multiset(rest[..to]) + multiset{s[from]} + multiset(rest[to..]);
  }

  /** Every other element keeps its relative order: taking the moved element
      out of the result leaves what taking it out of the input leaves. */
  lemma ArrayMoveKeepsOrder<T>(s: seq<T>, from: nat, to: nat)
    requires from < |s| && to < |s|
    ensures RemoveAt(ArrayMove(s, from, to), to) == RemoveAt(s, from)
  {
    var rest := RemoveAt(s, from);
    var r := ArrayMove(s, from, to);
    assert r[..to] == rest[..to];
    assert r[to + 1..] == rest[to..];
    assert rest == rest[..to] + rest[to..];
  }

  /** Dragging the element back to where it came from restores the list. */
  lemma ArrayMoveInverse<T>(s: seq<T>, from: nat, to: nat)
    requires from < |s| && to < |s|
    ensures ArrayMove(ArrayMove(s, from, to), to, from) == s
  {
    var rest := RemoveAt(s, from);
    ArrayMoveKeepsOrder(s, from, to);
    ArrayMovePlacesItem(s, from, to);
    assert rest[..from] == s[..from];
    assert rest[from..] == s[from + 1..];
    assert s == s[..from] + [s[from]] + s[from + 1..];
  }

  /** The entries `{ id, position }` for items, positions counted from start. */
  function PositionsFrom(items: seq<Item>, start: int): (p: seq<PositionEntry>)
    ensures |p| == |items|
    ensures forall k :: 0 <= k < |p| ==> p[k] == PositionEntry(items[k].id, start + k)
  {
    if items == [] then []
    else [PositionEntry(items[0].id, start)] + PositionsFrom(items[1..], start + 1)
  }

  /** `newItems.map((item, index) => ({ id: item.id, position: index + 1 }))`. */
  function OrderPayload(items: seq<Item>): (p: seq<PositionEntry>)
    ensures |p| == |items|
    ensures forall k :: 0 <= k < |items| ==> p[k] == PositionEntry(items[k].id, k + 1)
  {
    PositionsFrom(items, 1)
  }

  /** The `position` fields of a payload, in order. */
  function Positions(p: seq<PositionEntry>): seq<int>
  {
    seq(|p|, k requires 0 <= k < |p| => p[k].position)
  }

  /** The sequence 1, 2, ..., n. */
  function OneToN(n: nat): (r: seq<int>)
    ensures |r| == n
  {
    if n == 0 then [] else OneToN(n - 1) + [n]
  }

  lemma {:induction false} OneToNAt(n: nat, k: nat)
    requires k < n
    ensures OneToN(n)[k] == k + 1
  {
    if k < n - 1 {
      OneToNAt(n - 1, k);
    }
  }

  /** The payload lists the items in their new order, with positions exactly 1..n. */
  lemma PayloadPositionsAreOneToN(items: seq<Item>)
    ensures |OrderPayload(items)| == |items|
    ensures forall k :: 0 <= k < |items| ==> OrderPayload(items)[k].id == items[k].id
    ensures Positions(OrderPayload(items)) == OneToN(|items|)
  {
    var p := OrderPayload(items);
    forall k | 0 <= k < |items|
      ensures Positions(p)[k] == OneToN(|items|)[k]
    {
      OneToNAt(|items|, k);
    }
  }

  class Contact {
    const token: Option<string>
    var roles: seq<string>
    var items: seq<Item>
    var title: string
    var number: string
    var activeItem: Option<Item>
    var showModal: bool
    var error: string
    var contact: Option<ContactRecord>
    var contactTitle: string
    var contactAddress: string
    var contactPhone: string
    var contactFax: string
    var contactEmail: string
    var contactError: string
    var showContactModal: bool

    constructor(token: Option<string>)
      ensures this.token == token && roles == [] && items == []
      ensures title == "" && number == "" && activeItem == None && !showModal && error == ""
      ensures contact == None && contactTitle == "" && contactAddress == "" && contactPhone == ""
      ensures contactFax == "" && contactEmail == "" && contactError == "" && !showContactModal
    {
      this.token := token;
      roles, items := [], [];
      title, number, activeItem, showModal, error := "", "", None, false, "";
      contact, contactTitle, contactAddress, contactPhone := None, "", "", "";
      contactFax, contactEmail, contactError, showContactModal := "", "", "", false;
    }

    /** The emergency dialog is closed and its draft cleared. */
    predicate ModalClosed()
      reads this
    {
      !showModal && activeItem == None && title == "" && number == "" && error == ""
    }

    /** The role effect: the decoded `userTypes`, or [] on any failure. */
    method DecodeRoles(decoded: Decoded)
      modifies this`roles
      ensures roles == RolesOf(token, decoded)
    {
      roles := RolesOf(token, decoded);
    }

    method LoadEmergency(response: Outcome<seq<Item>>)
      modifies this`items
      ensures items == if response.Success? then response.body else old(items)
    {
      if response.Success? {
        items := response.body;
      }
    }

    method LoadContact(response: Outcome<Option<ContactRecord>>)
      modifies this`contact, this`contactTitle, this`contactAddress, this`contactPhone, this`contactFax, this`contactEmail
      ensures response.Failure? ==> contact == old(contact)
      ensures response.Success? ==> contact == response.body
      ensures response.Success? && response.body.Some? ==>
        var c := response.body.value;
        contactTitle == c.title && contactAddress == c.address && contactPhone == c.phone
        && contactFax == c.fax && contactEmail == c.email
      ensures response.Failure? || response.body.None? ==>
        contactTitle == old(contactTitle) && contactAddress == old(contactAddress)
        && contactPhone == old(contactPhone) && contactFax == old(contactFax) && contactEmail == old(contactEmail)
    {
      if response.Success? {
        contact := response.body;
        if response.body.Some? {
          var c := response.body.value;
          contactTitle, contactAddress, contactPhone, contactFax, contactEmail := c.title, c.address, c.phone, c.fax, c.email;
        }
      }
    }

    method OpenCreateModal()
      modifies this`activeItem, this`title, this`number, this`error, this`showModal
      ensures showModal && activeItem == None && title == "" && number == "" && error == ""
    {
      activeItem, title, number, error, showModal := None, "", "", "", true;
    }

    /** Opens the dialog on an existing number, copying its title and number. */
    method OpenEditModal(item: Item)
      modifies this`activeItem, this`title, this`number, this`error, this`showModal
      ensures showModal && activeItem == Some(item) && title == item.title && number == item.number && error == ""
    {
      activeItem, title, number, error, showModal := Some(item), item.title, item.number, "", true;
    }

    method CloseModal()
      modifies this`activeItem, this`title, this`number, this`error, this`showModal
      ensures ModalClosed()
    {
      showModal, activeItem, title, number, error := false, None, "", "", "";
    }

    /** Creates a number: both fields are required; success closes the dialog
        (the reload it starts is a separate LoadEmergency). */
    method CreateItem(response: Outcome<()>) returns (request: Option<Request>)
      modifies this`activeItem, this`title, this`number, this`error, this`showModal
      ensures old(title) == "" || old(number) == "" ==>
        request == None && error == TitleNumberRequired
        && showModal == old(showModal) && activeItem == old(activeItem) && title == old(title) && number == old(number)
      ensures old(title) != "" && old(number) != "" ==> request == Some(PostEmergency(old(title), old(number)))
      ensures old(title) != "" && old(number) != "" && response.Success? ==> ModalClosed()
      ensures old(title) != "" && old(number) != "" && response.Failure? ==>
        error == CreateFailed
        && showModal == old(showModal) && activeItem == old(activeItem) && title == old(title) && number == old(number)
    {
      if title == "" || number == "" {
        error := TitleNumberRequired;
        return None;
      }
      request := Some(PostEmergency(title, number));
      if response.Success? {
        CloseModal();
      } else {
        error := CreateFailed;
      }
    }

    /** Updates the active number; there is no required-field check. Without
        an active item, reading `activeItem.id` throws inside the try block,
        so no request is sent and the update error is shown. */
    method UpdateItem(response: Outcome<()>) returns (request: Option<Request>)
      modifies this`activeItem, this`title, this`number, this`error, this`showModal
      ensures old(activeItem).None? ==> request == None
      ensures old(activeItem).Some? ==> request == Some(PutEmergency(old(activeItem).value.id, old(title), old(number)))
      ensures request.Some? && response.Success? ==> ModalClosed()
      ensures request.None? || response.Failure? ==>
        error == UpdateFailed
        && showModal == old(showModal) && activeItem == old(activeItem) && title == old(title) && number == old(number)
    {
      if activeItem.None? {
        error := UpdateFailed;
        return None;
      }
      request := Some(PutEmergency(activeItem.value.id, title, number));
      if response.Success? {
        CloseModal();
      } else {
        error := UpdateFailed;
      }
    }

    /** Deletes after confirmation; a failure only raises an alert, and a
        success starts a reload, so the screen state is unchanged here. */
    method DeleteItem(id: int, confirmed: bool, response: Outcome<()>) returns (request: Option<Request>)
      ensures confirmed <==> request.Some?
      ensures confirmed ==> request == Some(DeleteEmergency(id))
    {
      if !confirmed {
        return None;
      }
      request := Some(DeleteEmergency(id));
    }

    /** The drop handler. Only admins reorder, and only onto another item; the
        new order is applied before the request and kept whatever the request
        returns (there is no rollback). */
    method HandleDragEnd(activeId: int, over: Option<int>, response: Outcome<()>) returns (request: Option<Request>)
      requires HasId(items, activeId)
      requires over.Some? ==> HasId(items, over.value)
      modifies this`items
      ensures !IsAdmin(roles) || over.None? || over.value == activeId ==> items == old(items) && request == None
      ensures IsAdmin(roles) && over.Some? && over.value != activeId ==>
        var from := FindIndex(old(items), activeId);
        var to := FindIndex(old(items), over.value);
        0 <= from < |old(items)| && 0 <= to < |old(items)|
        && items == ArrayMove(old(items), from, to)
        && request == Some(PutOrder(OrderPayload(items)))
    {
      if !IsAdmin(roles) {
        return None;
      }
      if over.None? || activeId == over.value {
        return None;
      }
      var oldIndex := FindIndex(items, activeId);
      var newIndex := FindIndex(items, over.value);
      var newItems := ArrayMove(items, oldIndex, newIndex);
      items := newItems;
      request := Some(PutOrder(OrderPayload(newItems)));
    }

    method OpenContactModal()
      modifies this`contactError, this`showContactModal
      ensures contactError == "" && showContactModal
    {
      contactError, showContactModal := "", true;
    }

    method CloseContactModal()
      modifies this`showContactModal
      ensures !showContactModal
    {
      showContactModal := false;
    }

    function ContactDraft(): ContactRecord
      reads this
    {
      ContactRecord(contactTitle, contactAddress, contactPhone, contactFax, contactEmail)
    }

    /** Saves the contact record: title and address are required; PUT when a
        record was loaded, POST otherwise. */
    method SaveContact(response: Outcome<()>) returns (request: Option<Request>)
      modifies this`contactError, this`showContactModal
      ensures contactTitle == "" || contactAddress == "" ==>
        request == None && contactError == TitleAddressRequired && showContactModal == old(showContactModal)
      ensures contactTitle != "" && contactAddress != "" ==>
        request == Some(if contact.Some? then PutContact(ContactDraft()) else PostContact(ContactDraft()))
      ensures request.Some? && response.Success? ==> !showContactModal && contactError == old(contactError)
      ensures request.Some? && response.Failure? ==> contactError == SaveFailed && showContactModal == old(showContactModal)
    {
      if contactTitle == "" || contactAddress == "" {
        contactError := TitleAddressRequired;
        return None;
      }
      if contact.Some? {
        request := Some(PutContact(ContactDraft()));
      } else {
        request := Some(PostContact(ContactDraft()));
      }
      if response.Success? {
        CloseContactModal();
      } else {
        contactError := SaveFailed;
      }
    }
  }
}
