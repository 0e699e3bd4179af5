/** The staff administration (src/components/Verwaltung/Team.jsx): employees
    with a name, a photo and a set of functions chosen by check boxes; admins
    create, edit and delete them. */
module TeamScreen {
  import opened Common

  datatype Funktion = Funktion(id: int, name: string)

  /** An employee as the backend sends it; `funktionen` is None when it is not an array. */
  datatype RawMitarbeiter = RawMitarbeiter(id: int, vorname: string, nachname: string, foto: string, funktionen: Option<seq<Funktion>>)

  /** An employee as the screen keeps it, with the check-box ids beside the functions. */
  datatype Mitarbeiter = Mitarbeiter(id: int, vorname: string, nachname: string, foto: string,
                                     funktionen: seq<Funktion>, funktionenIds: seq<string>)

  datatype Request =
    | PostMitarbeiter(vorname: string, nachname: string, funktionen: seq<string>, foto: Option<File>)
    | PutMitarbeiter(id: int, vorname: string, nachname: string, funktionen: seq<string>, foto: Option<File>)
    | DeleteMitarbeiter(id: int)

  const RequiredFields := "Bitte alle Pflichtfelder ausfüllen."
  const CreateFailed := "Create fehlgeschlagen."
  const UpdateFailed := "Update fehlgeschlagen."
  const DeleteFailed := "Löschen fehlgeschlagen."
  const MitarbeiterLoadFailed := "Mitarbeiter konnten nicht geladen werden."
  const FunktionenLoadFailed := "Funktionen konnten nicht geladen werden."

  // ---------------------------------------------------------------------------
  // Load normalisation
  // ---------------------------------------------------------------------------

  function IdStrings(fs: seq<Funktion>): (ids: seq<string>)
    ensures |ids| == |fs|
    ensures forall k :: 0 <= k < |fs| ==> ids[k] == IntToString(fs[k].id)
  {
    seq(|fs|, k requires 0 <= k < |fs| => IntToString(fs[k].id))
  }

  /** The `map` of `loadMitarbeiter`: functions always an array, and their ids as strings in the same order. */
  function Normalize(m: RawMitarbeiter): (r: Mitarbeiter)
    ensures r.id == m.id && r.vorname == m.vorname && r.nachname == m.nachname && r.foto == m.foto
    ensures r.funktionen == if m.funktionen.Some? then m.funktionen.value else []
    ensures |r.funktionenIds| == |r.funktionen|
    ensures forall k :: 0 <= k < |r.funktionen| ==> r.funktionenIds[k] == IntToString(r.funktionen[k].id)
  {
    var fs := if m.funktionen.Some? then m.funktionen.value else [];
    Mitarbeiter(m.id, m.vorname, m.nachname, m.foto, fs, IdStrings(fs))
  }

  function NormalizeAll(ms: seq<RawMitarbeiter>): (r: seq<Mitarbeiter>)
    ensures |r| == |ms|
    ensures forall i :: 0 <= i < |ms| ==> r[i] == Normalize(ms[i])
  {
    seq(|ms|, i requires 0 <= i < |ms| => Normalize(ms[i]))
  }

  lemma {:induction false} NatToStringLength(n: nat)
    ensures n >= 10 ==> |NatToString(n)| >= 2
  {
    if n >= 10 {
      assert NatToString(n) == NatToString(n / 10) + [DigitChar(n % 10)];
    }
  }

  lemma DigitCharInjective(d: nat, e: nat)
    requires d < 10 && e < 10 && DigitChar(d) == DigitChar(e)
    ensures d == e
  {
  }

  /** A sequence with one element appended splits back into both parts. */
  lemma SnocInjective(x: string, c: char, y: string, d: char)
    requires x + [c] == y + [d]
    ensures x == y && c == d
  {
    assert x == (x + [c])[..|x|];
    assert y == (y + [d])[..|y|];
  }

  lemma DecimalSplit(a: nat, b: nat)
    requires a / 10 == b / 10 && a % 10 == b % 10
    ensures a == b
  {
    assert a == 10 * (a / 10) + a % 10;
    assert b == 10 * (b / 10) + b % 10;
  }

  /** Different numbers print differently. */
  lemma {:induction false} NatToStringInjective(a: nat, b: nat)
    requires NatToString(a) == NatToString(b)
    ensures a == b
    decreases a
  {
    NatToStringLength(a);
    NatToStringLength(b);
    if a >= 10 && b >= 10 {
      SnocInjective(NatToString(a / 10), DigitChar(a % 10), NatToString(b / 10), DigitChar(b % 10));
      DigitCharInjective(a % 10, b % 10);
      NatToStringInjective(a / 10, b / 10);
      DecimalSplit(a, b);
    } else if a < 10 && b < 10 {
      DigitCharInjective(a, b);
    }
  }

  /** `String` is injective on integers, so distinct function ids give distinct check-box ids. */
  lemma IntToStringInjective(a: int, b: int)
    requires IntToString(a) == IntToString(b)
    ensures a == b
  {
    if a < 0 {
      var na: nat := -a;
      var nb: nat := -b;
      var x := NatToString(na);
      var y := NatToString(nb);
      assert "-" + x == "-" + y;
      assert x == ("-" + x)[1..];
      assert y == ("-" + y)[1..];
      NatToStringInjective(na, nb);
    } else {
      NatToStringInjective(a, b);
    }
  }

  /** Two check-box ids of a loaded employee coincide only where their function ids do. */
  lemma FunktionenIdsFaithful(m: RawMitarbeiter, j: int, k: int)
    requires 0 <= j < |Normalize(m).funktionen| && 0 <= k < |Normalize(m).funktionen|
    ensures Normalize(m).funktionenIds[j] == Normalize(m).funktionenIds[k] <==>
            Normalize(m).funktionen[j].id == Normalize(m).funktionen[k].id
  {
    var r := Normalize(m);
    if r.funktionenIds[j] == r.funktionenIds[k] {
      IntToStringInjective(r.funktionen[j].id, r.funktionen[k].id);
    }
  }

  // ---------------------------------------------------------------------------
  // The check boxes
  // ---------------------------------------------------------------------------

  function Other(val: string): string -> bool
  {
    (id: string) => id != val
  }

  /** A check box change: checking appends the id, unchecking removes every occurrence of it. */
  function Toggle(prev: seq<string>, val: string, checked: bool): (r: seq<string>)
    ensures checked ==> r == prev + [val]
    ensures !checked ==> val !in r
    ensures !checked ==> forall j :: 0 <= j < |prev| && prev[j] != val ==> prev[j] in r
    ensures !checked ==> forall i :: 0 <= i < |r| ==> r[i] in prev
  {
    if checked then prev + [val] else Filter(prev, Other(val))
  }

  /** Unchecking keeps the other ids in their order: it distributes over concatenation. */
  lemma UncheckKeepsOrder(a: seq<string>, b: seq<string>, val: string)
    ensures Toggle(a + b, val, false) == Toggle(a, val, false) + Toggle(b, val, false)
  {
    FilterConcat(a, b, Other(val));
  }

  /** Unchecking right after checking is the same as unchecking. */
  lemma CheckThenUncheck(prev: seq<string>, val: string)
    ensures Toggle(Toggle(prev, val, true), val, false) == Toggle(prev, val, false)
  {
    FilterConcat(prev, [val], Other(val));
    assert Filter([val], Other(val)) == [];
  }

  /** Unchecking an id that is not selected changes nothing. */
  lemma UncheckAbsent(prev: seq<string>, val: string)
    requires val !in prev
    ensures Toggle(prev, val, false) == prev
  {
    forall i | 0 <= i < |prev| ensures Other(val)(prev[i]) {
    }
    FilterKeepsAll(prev, Other(val));
  }

  /** The create form is complete: both names and at least one function. */
  predicate CreateReady(vorname: string, nachname: string, funktionen: seq<string>)
  {
    vorname != "" && nachname != "" && |funktionen| != 0
  }

  // ---------------------------------------------------------------------------
  // The screen
  // ---------------------------------------------------------------------------

  class Team {
    const token: Option<string>
    var mitarbeiter: seq<Mitarbeiter>
    var funktionenList: seq<Funktion>
    var fotoFile: Option<File>
    var vorname: string
    var nachname: string
    var funktionen: seq<string>
    var error: string
    var loading: bool
    var activeMitarbeiter: Option<Mitarbeiter>
    var roles: seq<string>

    constructor(token: Option<string>)
      ensures this.token == token && mitarbeiter == [] && funktionenList == [] && fotoFile == None
      ensures vorname == "" && nachname == "" && funktionen == [] && error == "" && !loading
      ensures activeMitarbeiter == None && roles == []
    {
      this.token := token;
      mitarbeiter, funktionenList, fotoFile := [], [], None;
      vorname, nachname, funktionen, error, loading := "", "", [], "", false;
      activeMitarbeiter, roles := None, [];
    }

    /** The form is empty and no employee is being edited. */
    predicate FormReset()
      reads this
    {
      vorname == "" && nachname == "" && funktionen == [] && fotoFile == None
      && activeMitarbeiter == None && error == ""
    }

    method DecodeRoles(decoded: Decoded)
      modifies this`roles
      ensures roles == RolesOf(token, decoded)
    {
      roles := RolesOf(token, decoded);
    }

    method LoadMitarbeiter(response: Outcome<seq<RawMitarbeiter>>)
      modifies this`mitarbeiter, this`error
      ensures response.Success? ==> mitarbeiter == NormalizeAll(response.body) && error == old(error)
      ensures response.Failure? ==> mitarbeiter == old(mitarbeiter) && error == MitarbeiterLoadFailed
    {
      if response.Success? {
        mitarbeiter := NormalizeAll(response.body);
      } else {
        error := MitarbeiterLoadFailed;
      }
    }

    method LoadFunktionen(response: Outcome<seq<Funktion>>)
      modifies this`funktionenList, this`error
      ensures response.Success? ==> funktionenList == response.body && error == old(error)
      ensures response.Failure? ==> funktionenList == old(funktionenList) && error == FunktionenLoadFailed
    {
      if response.Success? {
        funktionenList := response.body;
      } else {
        error := FunktionenLoadFailed;
      }
    }

    method SetNames(v: string, n: string)
      modifies this`vorname, this`nachname
      ensures vorname == v && nachname == n
    {
      vorname, nachname := v, n;
    }

    method ChooseFoto(file: Option<File>)
      modifies this`fotoFile
      ensures fotoFile == file
    {
      fotoFile := file;
    }

    /** The check box of function `id`. */
    method ToggleFunktion(id: int, checked: bool)
      modifies this`funktionen
      ensures funktionen == Toggle(old(funktionen), IntToString(id), checked)
    {
      funktionen := Toggle(funktionen, IntToString(id), checked);
    }

    method ResetForm()
      modifies this`vorname, this`nachname, this`funktionen, this`fotoFile, this`activeMitarbeiter, this`error
      ensures FormReset()
    {
      vorname, nachname, funktionen := "", "", [];
      fotoFile, activeMitarbeiter, error := None, None, "";
    }

    /** Loads an employee into the form; the photo choice is cleared. */
    method HandleEdit(m: Mitarbeiter)
      modifies this`activeMitarbeiter, this`vorname, this`nachname, this`funktionen, this`fotoFile
      ensures activeMitarbeiter == Some(m) && vorname == m.vorname && nachname == m.nachname
      ensures funktionen == m.funktionenIds && fotoFile == None
    {
      activeMitarbeiter := Some(m);
      vorname, nachname := m.vorname, m.nachname;
      funktionen := m.funktionenIds;
      fotoFile := None;
    }

    /** Creates an employee. An incomplete form sets the error and sends nothing;
        success resets the form (the reload is a separate LoadMitarbeiter). */
    method CreateMitarbeiter(response: Outcome<()>) returns (request: Option<Request>)
      modifies this`vorname, this`nachname, this`funktionen, this`fotoFile, this`activeMitarbeiter, this`error, this`loading
      ensures !CreateReady(old(vorname), old(nachname), old(funktionen)) ==>
        request == None && error == RequiredFields && loading == old(loading)
        && vorname == old(vorname) && nachname == old(nachname) && funktionen == old(funktionen)
        && fotoFile == old(fotoFile) && activeMitarbeiter == old(activeMitarbeiter)
      ensures CreateReady(old(vorname), old(nachname), old(funktionen)) ==>
        request == Some(PostMitarbeiter(old(vorname), old(nachname), old(funktionen), old(fotoFile))) && !loading
        && (response.Success? ==> FormReset())
        && (response.Failure? ==> (error == CreateFailed
              && vorname == old(vorname) && nachname == old(nachname) && funktionen == old(funktionen)
              && fotoFile == old(fotoFile) && activeMitarbeiter == old(activeMitarbeiter)))
    {
      if vorname == "" || nachname == "" || |funktionen| == 0 {
        error := RequiredFields;
        return None;
      }
      request := Some(PostMitarbeiter(vorname, nachname, funktionen, fotoFile));
      loading := true;
      if response.Success? {
        ResetForm();
      } else {
        error := CreateFailed;
      }
      loading := false;
    }

    /** Updates the employee being edited; the same checks and an employee must be selected. */
    method UpdateMitarbeiter(response: Outcome<()>) returns (request: Option<Request>)
      modifies this`vorname, this`nachname, this`funktionen, this`fotoFile, this`activeMitarbeiter, this`error, this`loading
      ensures !CreateReady(old(vorname), old(nachname), old(funktionen)) || old(activeMitarbeiter).None? ==>
        request == None && error == RequiredFields && loading == old(loading)
        && vorname == old(vorname) && nachname == old(nachname) && funktionen == old(funktionen)
        && fotoFile == old(fotoFile) && activeMitarbeiter == old(activeMitarbeiter)
      ensures CreateReady(old(vorname), old(nachname), old(funktionen)) && old(activeMitarbeiter).Some? ==>
        request == Some(PutMitarbeiter(old(activeMitarbeiter).value.id, old(vorname), old(nachname), old(funktionen), old(fotoFile)))
        && !loading
        && (response.Success? ==> FormReset())
        && (response.Failure? ==> (error == UpdateFailed
              && vorname == old(vorname) && nachname == old(nachname) && funktionen == old(funktionen)
              && fotoFile == old(fotoFile) && activeMitarbeiter == old(activeMitarbeiter)))
    {
      if vorname == "" || nachname == "" || |funktionen| == 0 || activeMitarbeiter.None? {
        error := RequiredFields;
        return None;
      }
      request := Some(PutMitarbeiter(activeMitarbeiter.value.id, vorname, nachname, funktionen, fotoFile));
      loading := true;
      if response.Success? {
        ResetForm();
      } else {
        error := UpdateFailed;
      }
      loading := false;
    }

    /** Deletes after confirmation (a success starts a reload). */
    method HandleDelete(id: int, confirmed: bool, response: Outcome<()>) returns (request: Option<Request>)
      modifies this`error
      ensures request.Some? <==> confirmed
      ensures confirmed ==> request == Some(DeleteMitarbeiter(id))
      ensures error == if confirmed && response.Failure? then DeleteFailed else old(error)
    {
      if !confirmed {
        return None;
      }
      request := Some(DeleteMitarbeiter(id));
      if response.Failure? {
        error := DeleteFailed;
      }
    }
  }
}
