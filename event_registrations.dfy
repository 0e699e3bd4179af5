/** The registrations of one event (src/components/Events/EventRegistrations.jsx):
    the table of registrations as an HTML table and as a PDF export, and
    manual registration through a popup form. */
module EventRegistrationsScreen {
  import opened Common

  /** A value of a registration's `daten` object, as the backend sends it. */
  datatype JsValue = JStr(s: string) | JNum(n: int) | JBool(b: bool) | JNull

  /** A form field of the event; only its name decides the tables. */
  datatype Feld = Feld(feldname: string, typ: string, pflicht: bool)

  /** `daten` may be missing; `createdAt` is the raw `created_at`. */
  datatype Registration = Registration(id: int, daten: Option<map<string, JsValue>>, createdAt: Option<string>)

  /** The response of the registrations request; both lists may be missing. */
  datatype Anmeldungen = Anmeldungen(felder: Option<seq<Feld>>, registrations: Option<seq<Registration>>)

  /** A table cell: a value, or a registration date shown through `toLocaleString`. */
  datatype Cell = Value(v: JsValue) | Stamp(createdAt: string)

  /** The exported document: heading, subheading, table and file name. */
  datatype PdfDocument = PdfDocument(heading: string, subheading: string, head: seq<string>,
                                     body: seq<seq<Cell>>, filename: string)

  datatype Request = ManualRegister(eventId: string, daten: map<string, string>)

  const LoadFailed := "Fehler beim Laden der Anmeldungen."
  const SaveFailed := "Fehler beim Speichern der Anmeldung."
  const DefaultTitle := "Event"
  const Dash := Value(JStr("-"))

  /** JavaScript truthiness of a `daten` value. */
  predicate Truthy(v: JsValue)
  {
    match v
    case JStr(s) => s != ""
    case JNum(n) => n != 0
    case JBool(b) => b
    case JNull => false
  }

  /** `["#", ...felder.map(f => f.feldname), "Anmeldedatum"]`. */
  function HeaderRow(felder: seq<Feld>): (h: seq<string>)
    ensures |h| == |felder| + 2
    ensures h[0] == "#" && h[|h| - 1] == "Anmeldedatum"
    ensures forall i :: 0 <= i < |felder| ==> h[i + 1] == felder[i].feldname
  {
    ["#"] + seq(|felder|, i requires 0 <= i < |felder| => felder[i].feldname) + ["Anmeldedatum"]
  }

  /** The property `f` of the registration's `daten`, when both exist. */
  function Datum(r: Registration, f: string): Option<JsValue>
  {
    if r.daten.Some? && f in r.daten.value then Some(r.daten.value[f]) else None
  }

  /** The PDF shows any value that is defined, so also "", 0, false and null. */
  function PdfCell(r: Registration, f: string): (c: Cell)
    ensures Datum(r, f).Some? ==> c == Value(Datum(r, f).value)
    ensures Datum(r, f).None? ==> c == Dash
  {
    match Datum(r, f)
    case Some(v) => Value(v)
    case None => Dash
  }

  /** The HTML table shows "-" for a missing value and for any falsy one. */
  function HtmlCell(r: Registration, f: string): (c: Cell)
    ensures Datum(r, f).Some? && Truthy(Datum(r, f).value) ==> c == Value(Datum(r, f).value)
    ensures Datum(r, f).None? || !Truthy(Datum(r, f).value) ==> c == Dash
  {
    match Datum(r, f)
    case Some(v) => if Truthy(v) then Value(v) else Dash
    case None => Dash
  }

  /** The date column, the same in both tables: "-" unless `created_at` is truthy. */
  function DateCell(r: Registration): (c: Cell)
    ensures r.createdAt.Some? && r.createdAt.value != "" ==> c == Stamp(r.createdAt.value)
    ensures r.createdAt.None? || r.createdAt.value == "" ==> c == Dash
  {
    if r.createdAt.Some? && r.createdAt.value != "" then Stamp(r.createdAt.value) else Dash
  }

  /** Row `k` (from 0) of the PDF table. */
  function PdfRow(k: nat, r: Registration, felder: seq<Feld>): (row: seq<Cell>)
    ensures |row| == |felder| + 2
    ensures row[0] == Value(JNum(k + 1)) && row[|row| - 1] == DateCell(r)
    ensures forall i :: 0 <= i < |felder| ==> row[i + 1] == PdfCell(r, felder[i].feldname)
  {
    [Value(JNum(k + 1))] + seq(|felder|, i requires 0 <= i < |felder| => PdfCell(r, felder[i].feldname)) + [DateCell(r)]
  }

  /** Row `k` (from 0) of the HTML table. */
  function HtmlRow(k: nat, r: Registration, felder: seq<Feld>): (row: seq<Cell>)
    ensures |row| == |felder| + 2
    ensures row[0] == Value(JNum(k + 1)) && row[|row| - 1] == DateCell(r)
    ensures forall i :: 0 <= i < |felder| ==> row[i + 1] == HtmlCell(r, felder[i].feldname)
  {
    [Value(JNum(k + 1))] + seq(|felder|, i requires 0 <= i < |felder| => HtmlCell(r, felder[i].feldname)) + [DateCell(r)]
  }

  function PdfRows(regs: seq<Registration>, felder: seq<Feld>): (rows: seq<seq<Cell>>)
    ensures |rows| == |regs|
    ensures forall k :: 0 <= k < |regs| ==> rows[k] == PdfRow(k, regs[k], felder)
  {
    seq(|regs|, k requires 0 <= k < |regs| => PdfRow(k, regs[k], felder))
  }

  function HtmlRows(regs: seq<Registration>, felder: seq<Feld>): (rows: seq<seq<Cell>>)
    ensures |rows| == |regs|
    ensures forall k :: 0 <= k < |regs| ==> rows[k] == HtmlRow(k, regs[k], felder)
  {
    seq(|regs|, k requires 0 <= k < |regs| => HtmlRow(k, regs[k], felder))
  }

  /** Every PDF row has one cell per header column, and rows are numbered 1, 2, ... */
  lemma PdfTableShape(regs: seq<Registration>, felder: seq<Feld>)
    ensures forall k :: 0 <= k < |regs| ==>
      (|PdfRows(regs, felder)[k]| == |HeaderRow(felder)| && PdfRows(regs, felder)[k][0] == Value(JNum(k + 1)))
  {
    var rows := PdfRows(regs, felder);
    forall k | 0 <= k < |regs|
      ensures |rows[k]| == |HeaderRow(felder)| && rows[k][0] == Value(JNum(k + 1))
    {
      assert rows[k] == PdfRow(k, regs[k], felder);
    }
  }

  /** The two tables show the same cell exactly when the value is missing or
      truthy; they differ on a present falsy value ("", 0, false, null), which
      the PDF prints and the HTML table replaces by "-". */
  lemma CellsAgreeUnlessFalsy(r: Registration, f: string)
    ensures HtmlCell(r, f) == PdfCell(r, f) <==> Datum(r, f).None? || Truthy(Datum(r, f).value)
  {
    if Datum(r, f).Some? && !Truthy(Datum(r, f).value) {
      assert PdfCell(r, f) == Value(Datum(r, f).value);
      assert Datum(r, f).value != JStr("-");
    }
  }

  /** The HTML row and the PDF row of a registration agree outside the value
      columns, and in a value column exactly when that value is missing or truthy. */
  lemma RowsAgreeUnlessFalsy(k: nat, r: Registration, felder: seq<Feld>)
    ensures |HtmlRow(k, r, felder)| == |PdfRow(k, r, felder)|
    ensures HtmlRow(k, r, felder)[0] == PdfRow(k, r, felder)[0]
    ensures HtmlRow(k, r, felder)[|felder| + 1] == PdfRow(k, r, felder)[|felder| + 1]
    ensures forall i :: 0 <= i < |felder| ==>
      (HtmlRow(k, r, felder)[i + 1] == PdfRow(k, r, felder)[i + 1]
       <==> Datum(r, felder[i].feldname).None? || Truthy(Datum(r, felder[i].feldname).value))
  {
    forall i | 0 <= i < |felder|
      ensures HtmlRow(k, r, felder)[i + 1] == PdfRow(k, r, felder)[i + 1]
              <==> Datum(r, felder[i].feldname).None? || Truthy(Datum(r, felder[i].feldname).value)
    {
      CellsAgreeUnlessFalsy(r, felder[i].feldname);
    }
  }

  /** `res.data?.titel || "Event"`: a failed request or a missing or empty title gives "Event". */
  function EventTitle(response: Outcome<Option<string>>): (t: string)
    ensures t != ""
    ensures response.Success? && response.body.Some? && response.body.value != "" ==> t == response.body.value
    ensures response.Failure? || response.body.None? || response.body.value == "" ==> t == DefaultTitle
  {
    if response.Success? then OrElse(response.body, DefaultTitle) else DefaultTitle
  }

  /** `s.replace(/\s+/g, "_")`: every maximal run of whitespace becomes one "_". */
  function ReplaceSpaceRuns(s: string): (r: string)
    ensures |r| <= |s|
    ensures forall i :: 0 <= i < |r| ==> !IsJsSpace(r[i])
    decreases |s|
  {
    if s == [] then []
    else if IsJsSpace(s[0]) then "_" + ReplaceSpaceRuns(TrimStart(s))
    else [s[0]] + ReplaceSpaceRuns(s[1..])
  }

  /** A title without whitespace goes into the file name unchanged. */
  lemma {:induction false} NoSpacesUnchanged(s: string)
    requires forall i :: 0 <= i < |s| ==> !IsJsSpace(s[i])
    ensures ReplaceSpaceRuns(s) == s
    decreases |s|
  {
    if s != [] {
      NoSpacesUnchanged(s[1..]);
    }
  }

  /** Sanitising twice is sanitising once. */
  lemma ReplaceSpaceRunsIdempotent(s: string)
    ensures ReplaceSpaceRuns(ReplaceSpaceRuns(s)) == ReplaceSpaceRuns(s)
  {
    NoSpacesUnchanged(ReplaceSpaceRuns(s));
  }

  /** A whitespace run of any length anywhere in the title, between
      non-space characters or at either end, becomes exactly one "_". */
  lemma RunCollapses(a: string, run: string, b: string)
    requires a == [] || !IsJsSpace(a[|a| - 1])
    requires run != [] && forall i :: 0 <= i < |run| ==> IsJsSpace(run[i])
    requires b == [] || !IsJsSpace(b[0])
    ensures ReplaceSpaceRuns(a + run + b) == ReplaceSpaceRuns(a) + "_" + ReplaceSpaceRuns(b)
  {
    RunAtFront(run, b);
    AppendAfter(a, run + b, b);
    ConcatAssoc(a, run, b);
  }


  /** Sanitising a title that does not end in whitespace, followed by a text whose sanitised form is known. */
  lemma AppendAfter(a: string, t: string, b: string)
    requires a == [] || !IsJsSpace(a[|a| - 1])
    requires ReplaceSpaceRuns(t) == "_" + ReplaceSpaceRuns(b)
    ensures ReplaceSpaceRuns(a + t) == ReplaceSpaceRuns(a) + "_" + ReplaceSpaceRuns(b)
  {
    ReplaceAppend(a, t);
  }

  /** A run at the front of what is left becomes one "_". */
  lemma RunAtFront(run: string, b: string)
    requires run != [] && forall i :: 0 <= i < |run| ==> IsJsSpace(run[i])
    requires b == [] || !IsJsSpace(b[0])
    ensures ReplaceSpaceRuns(run + b) == "_" + ReplaceSpaceRuns(b)
  {
    SkipRun(run, b);
  }

  /** A title that does not end in whitespace is sanitised on its own, whatever follows it. */
  lemma {:induction false} ReplaceAppend(a: string, t: string)
    requires a == [] || !IsJsSpace(a[|a| - 1])
    ensures ReplaceSpaceRuns(a + t) == ReplaceSpaceRuns(a) + ReplaceSpaceRuns(t)
    decreases |a|
  {
    if a == [] {
      assert a + t == t;
    } else if IsJsSpace(a[0]) {
      var a' := TrimStart(a);
      assert |a'| < |a|;
      assert a' != [] ==> a'[|a'| - 1] == a[|a| - 1];
      ReplaceAppend(a', t);
      ReplaceAppendRun(a, t);
    } else {
      ReplaceAppend(a[1..], t);
      ReplaceAppendChar(a, t);
    }
  }

  /** The step of ReplaceAppend for a title starting with whitespace. */
  lemma ReplaceAppendRun(a: string, t: string)
    requires a != [] && IsJsSpace(a[0]) && !IsJsSpace(a[|a| - 1])
    requires ReplaceSpaceRuns(TrimStart(a) + t) == ReplaceSpaceRuns(TrimStart(a)) + ReplaceSpaceRuns(t)
    ensures ReplaceSpaceRuns(a + t) == ReplaceSpaceRuns(a) + ReplaceSpaceRuns(t)
  {
    TrimStartAppend(a, t);
    assert (a + t)[0] == a[0];
    assert ReplaceSpaceRuns(a + t) == "_" + ReplaceSpaceRuns(TrimStart(a) + t);
    ConcatAssoc("_", ReplaceSpaceRuns(TrimStart(a)), ReplaceSpaceRuns(t));
  }

  /** The step of ReplaceAppend for a title starting with another character. */
  lemma ReplaceAppendChar(a: string, t: string)
    requires a != [] && !IsJsSpace(a[0])
    requires ReplaceSpaceRuns(a[1..] + t) == ReplaceSpaceRuns(a[1..]) + ReplaceSpaceRuns(t)
    ensures ReplaceSpaceRuns(a + t) == ReplaceSpaceRuns(a) + ReplaceSpaceRuns(t)
  {
    assert (a + t)[0] == a[0];
    assert (a + t)[1..] == a[1..] + t;
    assert ReplaceSpaceRuns(a + t) == [a[0]] + ReplaceSpaceRuns(a[1..] + t);
    ConcatAssoc([a[0]], ReplaceSpaceRuns(a[1..]), ReplaceSpaceRuns(t));
  }

  /** The leading run of a string that does not end in whitespace lies within it. */
  lemma {:induction false} TrimStartAppend(a: string, t: string)
    requires a != [] && !IsJsSpace(a[|a| - 1])
    ensures TrimStart(a + t) == TrimStart(a) + t
    decreases |a|
  {
    if IsJsSpace(a[0]) {
      assert (a + t)[1..] == a[1..] + t;
      TrimStartAppend(a[1..], t);
    }
  }

  /** Trimming the start of a whitespace run followed by b leaves exactly b. */
  lemma {:induction false} SkipRun(run: string, b: string)
    requires forall i :: 0 <= i < |run| ==> IsJsSpace(run[i])
    requires b == [] || !IsJsSpace(b[0])
    ensures TrimStart(run + b) == b
    decreases |run|
  {
    if run != [] {
      assert (run + b)[1..] == run[1..] + b;
      SkipRun(run[1..], b);
    }
  }

  /** `Event_Anmeldungen_${title}.pdf` with the title sanitised. */
  function PdfFilename(title: string): string
  {
    "Event_Anmeldungen_" + ReplaceSpaceRuns(title) + ".pdf"
  }

  class EventRegistrations {
    const eventId: string
    const token: Option<string>
    var registrations: seq<Registration>
    var felder: seq<Feld>
    var loading: bool
    var error: string
    var showPopup: bool
    var manualData: map<string, string>
    var saving: bool
    var saveError: string

    constructor(eventId: string, token: Option<string>)
      ensures this.eventId == eventId && this.token == token
      ensures registrations == [] && felder == [] && loading && error == ""
      ensures !showPopup && manualData == map[] && !saving && saveError == ""
    {
      this.eventId, this.token := eventId, token;
      registrations, felder, loading, error := [], [], true, "";
      showPopup, manualData, saving, saveError := false, map[], false, "";
    }

    /** Missing lists become empty ones; loading ends false either way. */
    method FetchRegistrations(response: Outcome<Anmeldungen>)
      modifies this`felder, this`registrations, this`loading, this`error
      ensures !loading
      ensures response.Success? ==>
        felder == (if response.body.felder.Some? then response.body.felder.value else [])
        && registrations == (if response.body.registrations.Some? then response.body.registrations.value else [])
        && error == old(error)
      ensures response.Failure? ==>
        error == ErrorText(response.error, LoadFailed) && felder == old(felder) && registrations == old(registrations)
    {
      if response.Success? {
        felder := if response.body.felder.Some? then response.body.felder.value else [];
        registrations := if response.body.registrations.Some? then response.body.registrations.value else [];
      } else {
        error := ErrorText(response.error, LoadFailed);
      }
      loading := false;
    }

    /** The PDF export; `titleResponse` is the outcome of the title request. */
    method ExportPdf(titleResponse: Outcome<Option<string>>) returns (doc: PdfDocument)
      ensures doc.heading == "Anmeldungen: " + EventTitle(titleResponse)
      ensures doc.subheading == "Event ID: " + eventId
      ensures doc.head == HeaderRow(felder) && doc.body == PdfRows(registrations, felder)
      ensures doc.filename == PdfFilename(EventTitle(titleResponse))
    {
      var title := DefaultTitle;
      if titleResponse.Success? {
        title := OrElse(titleResponse.body, title);
      }
      doc := PdfDocument("Anmeldungen: " + title, "Event ID: " + eventId,
                         HeaderRow(felder), PdfRows(registrations, felder), PdfFilename(title));
    }

    method OpenPopup()
      modifies this`showPopup
      ensures showPopup
    {
      showPopup := true;
    }

    /** "Abbrechen" only hides the popup; the entered data stays. */
    method ClosePopup()
      modifies this`showPopup
      ensures !showPopup
    {
      showPopup := false;
    }

    /** `{...manualData, [f.feldname]: value}`. */
    method SetManualField(feldname: string, value: string)
      modifies this`manualData
      ensures manualData == old(manualData)[feldname := value]
    {
      manualData := manualData[feldname := value];
    }

    /** Sends the entered data. Success closes the popup, clears the data and
        asks for a reload; `saving` ends false either way. */
    method HandleManualSubmit(response: Outcome<()>) returns (request: Request, reload: bool)
      modifies this`showPopup, this`manualData, this`saving, this`saveError
      ensures request == ManualRegister(eventId, old(manualData))
      ensures !saving
      ensures reload <==> response.Success?
      ensures response.Success? ==> !showPopup && manualData == map[] && saveError == ""
      ensures response.Failure? ==>
        saveError == ErrorText(response.error, SaveFailed) && showPopup == old(showPopup) && manualData == old(manualData)
    {
      saving := true;
      saveError := "";
      request := ManualRegister(eventId, manualData);
      if response.Success? {
        showPopup := false;
        manualData := map[];
        reload := true;
      } else {
        saveError := ErrorText(response.error, SaveFailed);
        reload := false;
      }
      saving := false;
    }
  }
}
