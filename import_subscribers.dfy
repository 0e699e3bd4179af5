/** The bulk subscriber import (src/components/Newsletter/ImportSubcribersTable.jsx):
    an editable table of name and e-mail rows; only complete rows are sent. */
module ImportSubscribersScreen {
  import opened Common

  datatype Row = Row(vorname: string, nachname: string, email: string)

  datatype RowField = Vorname | Nachname | Email

  datatype MessageKind = SuccessMessage | ErrorMessage

  /** `{ type, text }`; the text of a success is `res.data.message`, which may be missing. */
  datatype Message = Message(kind: MessageKind, text: Option<string>)

  datatype Request = ImportRequest(subscribers: seq<Row>)

  const NoValidRows := "Keine gültigen Abonnenten eingegeben."
  const ImportFailed := "Fehler beim Importieren."

  const EmptyRow := Row("", "", "")

  function GetField(r: Row, f: RowField): string
  {
    match f
    case Vorname => r.vorname
    case Nachname => r.nachname
    case Email => r.email
  }

  /** `row[field] = value`. */
  function SetField(r: Row, f: RowField, v: string): (r': Row)
    ensures GetField(r', f) == v
    ensures forall g: RowField :: g != f ==> GetField(r', g) == GetField(r, g)
  {
    match f
    case Vorname => r.(vorname := v)
    case Nachname => r.(nachname := v)
    case Email => r.(email := v)
  }

  /** Setting a field twice keeps the last value; setting it to what it holds changes nothing. */
  lemma SetFieldLaws(r: Row, f: RowField, v: string, w: string)
    ensures SetField(SetField(r, f, v), f, w) == SetField(r, f, w)
    ensures SetField(r, f, GetField(r, f)) == r
  {
  }

  /** A row is sent when none of its three fields is blank after trimming. */
  predicate IsComplete(r: Row)
    ensures IsComplete(r) <==> NotBlank(r.vorname) && NotBlank(r.nachname) && NotBlank(r.email)
  {
    TrimEmptyIffBlank(r.vorname);
    TrimEmptyIffBlank(r.nachname);
    TrimEmptyIffBlank(r.email);
    Trim(r.vorname) != "" && Trim(r.nachname) != "" && Trim(r.email) != ""
  }

  /** The field holds at least one character that is not white space. */
  predicate NotBlank(f: string)
  {
    exists i :: 0 <= i < |f| && !IsJsSpace(f[i])
  }

  function CompleteTest(): Row -> bool
  {
    (r: Row) => IsComplete(r)
  }

  /** The rows submitData sends. */
  function CompleteRows(rows: seq<Row>): (sent: seq<Row>)
    ensures |sent| <= |rows|
    ensures forall x :: x in sent ==> x in rows && IsComplete(x)
  {
    Filter(rows, CompleteTest())
  }

  /** Exactly the complete rows are sent, in their original order. */
  lemma CompleteRowsSpec(rows: seq<Row>, a: seq<Row>, b: seq<Row>)
    ensures forall i :: 0 <= i < |CompleteRows(rows)| ==> IsComplete(CompleteRows(rows)[i]) && CompleteRows(rows)[i] in rows
    ensures forall j :: 0 <= j < |rows| && IsComplete(rows[j]) ==> rows[j] in CompleteRows(rows)
    ensures CompleteRows(a + b) == CompleteRows(a) + CompleteRows(b)
  {
    var p := CompleteTest();
    var r := CompleteRows(rows);
    forall i | 0 <= i < |r| ensures IsComplete(r[i]) {
      assert p(r[i]);
    }
    forall j | 0 <= j < |rows| && IsComplete(rows[j]) ensures rows[j] in r {
      assert p(rows[j]);
    }
    FilterConcat(a, b, p);
  }

  /** Nothing is sent exactly when no row is complete. */
  lemma NoCompleteRows(rows: seq<Row>)
    ensures CompleteRows(rows) == [] <==> forall j :: 0 <= j < |rows| ==> !IsComplete(rows[j])
  {
    var p := CompleteTest();
    var r := CompleteRows(rows);
    if r != [] {
      assert p(r[0]) && r[0] in rows;
      var j :| 0 <= j < |rows| && rows[j] == r[0];
      assert IsComplete(rows[j]);
    }
  }

  class ImportSubscribersTable {
    var rows: seq<Row>
    var message: Option<Message>
    var loading: bool

    /** Initially exactly one empty row. */
    constructor()
      ensures rows == [EmptyRow] && message == None && !loading
    {
      rows, message, loading := [EmptyRow], None, false;
    }

    /** The input of `field` in row `index` (only rendered rows have inputs). */
    method HandleChange(index: int, field: RowField, value: string)
      requires 0 <= index < |rows|
      modifies this`rows
      ensures |rows| == |old(rows)|
      ensures rows == old(rows)[index := SetField(old(rows)[index], field, value)]
    {
      rows := rows[index := SetField(rows[index], field, value)];
    }

    method AddRow()
      modifies this`rows
      ensures rows == old(rows) + [EmptyRow]
    {
      rows := rows + [EmptyRow];
    }

    /** `rows.filter((_, i) => i !== index)`. */
    method RemoveRow(index: int)
      modifies this`rows
      ensures rows == RemoveAt(old(rows), index)
    {
      rows := RemoveAt(rows, index);
    }

    /** Sends the complete rows. With none, an error and no request; success
        resets the table to one empty row; loading ends false. */
    method SubmitData(response: Outcome<Option<string>>) returns (request: Option<Request>)
      modifies this`rows, this`message, this`loading
      ensures CompleteRows(old(rows)) == [] ==>
        request == None && message == Some(Message(ErrorMessage, Some(NoValidRows)))
        && rows == old(rows) && loading == old(loading)
      ensures CompleteRows(old(rows)) != [] ==>
        request == Some(ImportRequest(CompleteRows(old(rows)))) && !loading
        && (response.Success? ==> rows == [EmptyRow] && message == Some(Message(SuccessMessage, response.body)))
        && (response.Failure? ==> (rows == old(rows)
              && message == Some(Message(ErrorMessage, Some(ErrorText(response.error, ImportFailed))))))
    {
      var filtered := CompleteRows(rows);
      if |filtered| == 0 {
        message := Some(Message(ErrorMessage, Some(NoValidRows)));
        return None;
      }
      loading := true;
      message := None;
      request := Some(ImportRequest(filtered));
      if response.Success? {
        message := Some(Message(SuccessMessage, response.body));
        rows := [EmptyRow];
      } else {
        message := Some(Message(ErrorMessage, Some(ErrorText(response.error, ImportFailed))));
      }
      loading := false;
    }
  }
}
