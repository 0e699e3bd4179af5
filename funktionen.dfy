/** The administration of board functions
    (src/components/Funktion/FunktionenVerwaltung.jsx): one name field that
    either creates a function or, after "Bearbeiten", renames one. */
module FunktionenVerwaltungScreen {
  import opened Common

  datatype Funktion = Funktion(id: int, name: string)

  datatype Request = PutFunktion(id: int, name: string) | PostFunktion(name: string) | DeleteFunktion(id: int)

  const LoadFailed := "Funktionen konnten nicht geladen werden."
  const NameRequired := "Funktionsname ist erforderlich."
  const SaveFailed := "Fehler beim Speichern der Funktion."
  const DeleteFailed := "Fehler beim Löschen der Funktion."

  /** `if (editingId)`: an id is being edited, and it is not 0. */
  predicate Editing(editingId: Option<int>)
  {
    editingId.Some? && editingId.value != 0
  }

  /** The request a submit of `name` sends, or None when the name trims to "". */
  function SaveRequest(editingId: Option<int>, name: string): (r: Option<Request>)
    ensures r.None? <==> Trim(name) == ""
    ensures r.Some? && Editing(editingId) ==> r == Some(PutFunktion(editingId.value, name))
    ensures r.Some? && !Editing(editingId) ==> r == Some(PostFunktion(name))
  {
    if Trim(name) == "" then None
    else if Editing(editingId) then Some(PutFunktion(editingId.value, name))
    else Some(PostFunktion(name))
  }

  /** Nothing is sent exactly when the name is nothing but white space. */
  lemma SaveRequestBlank(editingId: Option<int>, name: string)
    ensures SaveRequest(editingId, name).None? <==> forall i :: 0 <= i < |name| ==> IsJsSpace(name[i])
  {
    TrimEmptyIffBlank(name);
  }

  class FunktionenVerwaltung {
    var funktionen: seq<Funktion>
    var name: string
    var editingId: Option<int>
    var loading: bool
    var error: string

    constructor()
      ensures funktionen == [] && name == "" && editingId == None && !loading && error == ""
    {
      funktionen, name, editingId, loading, error := [], "", None, false, "";
    }

    /** Loading is set while the request runs and false once it is over. */
    method FetchFunktionen(response: Outcome<seq<Funktion>>)
      modifies this`funktionen, this`loading, this`error
      ensures !loading
      ensures response.Success? ==> funktionen == response.body && error == old(error)
      ensures response.Failure? ==> funktionen == old(funktionen) && error == LoadFailed
    {
      loading := true;
      if response.Success? {
        funktionen := response.body;
      } else {
        error := LoadFailed;
      }
      loading := false;
    }

    method SetName(n: string)
      modifies this`name
      ensures name == n
    {
      name := n;
    }

    /** Saves the name. A blank name is refused; otherwise a rename is PUT and
        ends the editing, a new name is POSTed. Success empties the name,
        clears the error and asks for a reload. */
    method HandleSubmit(response: Outcome<()>) returns (request: Option<Request>, reload: bool)
      modifies this`name, this`editingId, this`error
      ensures request == SaveRequest(old(editingId), old(name))
      ensures request.None? ==>
        !reload && error == NameRequired && name == old(name) && editingId == old(editingId)
      ensures request.Some? ==> (reload <==> response.Success?)
      ensures request.Some? && response.Success? ==>
        name == "" && error == "" && editingId == (if Editing(old(editingId)) then None else old(editingId))
      ensures request.Some? && response.Failure? ==>
        error == ErrorText(response.error, SaveFailed) && name == old(name) && editingId == old(editingId)
    {
      request := SaveRequest(editingId, name);
      if request.None? {
        error := NameRequired;
        return request, false;
      }
      if response.Failure? {
        error := ErrorText(response.error, SaveFailed);
        return request, false;
      }
      if Editing(editingId) {
        editingId := None;
      }
      name := "";
      error := "";
      reload := true;
    }

    /** "Bearbeiten": the chosen function's id and name go into the form. */
    method HandleEdit(f: Funktion)
      modifies this`editingId, this`name
      ensures editingId == Some(f.id) && name == f.name
    {
      editingId := Some(f.id);
      name := f.name;
    }

    /** Deletes after the confirmation dialog; `confirmed` is its answer. */
    method HandleDelete(id: int, confirmed: bool, response: Outcome<()>) returns (request: Option<Request>, reload: bool)
      modifies this`error
      ensures !confirmed ==> request == None && !reload && error == old(error)
      ensures confirmed ==> request == Some(DeleteFunktion(id)) && (reload <==> response.Success?)
      ensures confirmed && response.Success? ==> error == old(error)
      ensures confirmed && response.Failure? ==> error == ErrorText(response.error, DeleteFailed)
    {
      if !confirmed {
        return None, false;
      }
      request := Some(DeleteFunktion(id));
      if response.Success? {
        reload := true;
      } else {
        error := ErrorText(response.error, DeleteFailed);
        reload := false;
      }
    }
  }
}
