/** The newsletter subscriber list (src/components/Newsletter/NewsletterSubscribersList.jsx):
    a status filter, a case-insensitive search over names and e-mail, a sort
    by subscription time (newest first), pages of twelve, and a CSV export in
    which every cell is quoted. */
module SubscribersListScreen {
  import opened Common

  /** A `subscribed_at` value: the text the backend sent and the time `new Date(text)` gives. */
  datatype Timestamp = Timestamp(text: string, time: int)

  /** A subscriber row; None is a JSON null. */
  datatype Subscriber = Subscriber(
    id: int,
    vorname: Option<string>,
    nachname: Option<string>,
    email: Option<string>,
    subscribedAt: Option<Timestamp>,
    unsubscribedAt: Option<string>,
    status: Option<string>)

  const PageSize := 12
  const LoadFailed := "Fehler beim Laden der Abonnenten."

  /** Page numbers start at 1. */
  type Page = p: int | p >= 1 witness 1

  // ---------------------------------------------------------------------------
  // Filter, search and sort
  // ---------------------------------------------------------------------------

  /** The status select: "all" keeps everyone, a subscriber without a status only then. */
  predicate PassesStatus(s: Subscriber, statusFilter: string)
    ensures statusFilter == "all" ==> PassesStatus(s, statusFilter)
    ensures statusFilter != "all" && s.status.None? ==> !PassesStatus(s, statusFilter)
    ensures PassesStatus(s, statusFilter) && statusFilter != "all" ==> s.status == Some(statusFilter)
  {
    statusFilter == "all" || s.status == Some(statusFilter)
  }

  /** `(field || '').toLowerCase().includes(q)` for one of the three fields. */
  predicate FieldMatches(field: Option<string>, q: string)
    ensures q == "" ==> FieldMatches(field, q)
    ensures field.None? ==> (FieldMatches(field, q) <==> q == "")
    ensures FieldMatches(field, q) ==> |q| <= |OrElse(field, "")|
  {
    Contains(Lower(OrElse(field, "")), q)
  }

  /** The search: an empty query passes everything, and a subscriber with no
      name and no e-mail passes only the empty query. */
  predicate PassesQuery(s: Subscriber, q: string)
    ensures q == "" ==> PassesQuery(s, q)
    ensures s.vorname.None? && s.nachname.None? && s.email.None? ==> (PassesQuery(s, q) <==> q == "")
    ensures PassesQuery(s, q) && q != "" ==> FieldMatches(s.vorname, q) || FieldMatches(s.nachname, q) || FieldMatches(s.email, q)
  {
    q == "" || FieldMatches(s.vorname, q) || FieldMatches(s.nachname, q) || FieldMatches(s.email, q)
  }

  /** The query as the search uses it: trimmed, then lower-cased. It is empty
      exactly when the input is blank, and already lower case. */
  function NormalizedQuery(query: string): (q: string)
    ensures q == "" <==> forall i :: 0 <= i < |query| ==> IsJsSpace(query[i])
    ensures Lower(q) == q
    ensures |q| <= |query|
  {
    TrimEmptyIffBlank(query);
    LowerIdempotent(Trim(query));
    Lower(Trim(query))
  }

  /** The time the comparator subtracts; a null `subscribed_at` is `new Date(null)`, time 0. */
  function SortKey(s: Subscriber): int
  {
    if s.subscribedAt.Some? then s.subscribedAt.value.time else 0
  }

  ghost predicate SortedDesc(s: seq<Subscriber>)
  {
    forall i, j :: 0 <= i < j < |s| ==> SortKey(s[i]) >= SortKey(s[j])
  }

  /** A newest-first list stays so with an element in front that is not older than its head. */
  lemma SortedCons(h: Subscriber, t: seq<Subscriber>)
    requires SortedDesc(t)
    requires t == [] || SortKey(h) >= SortKey(t[0])
    ensures SortedDesc([h] + t)
  {
    var r := [h] + t;
    forall i, j | 0 <= i < j < |r| ensures SortKey(r[i]) >= SortKey(r[j]) {
      if i == 0 {
        assert r[j] == t[j - 1];
        if j > 1 {
          assert SortKey(t[0]) >= SortKey(t[j - 1]);
        }
      } else {
        assert r[i] == t[i - 1] && r[j] == t[j - 1];
      }
    }
  }

  /** Puts x in front of the first element that is not newer than x. */
  function InsertByTime(x: Subscriber, s: seq<Subscriber>): (r: seq<Subscriber>)
    ensures |r| == |s| + 1
  {
    if s == [] then [x]
    else if SortKey(s[0]) <= SortKey(x) then [x] + s
    else [s[0]] + InsertByTime(x, s[1..])
  }

  /** Inserting keeps every element and adds x once. */
  lemma {:induction false} InsertByTimePermutes(x: Subscriber, s: seq<Subscriber>)
    ensures multiset(InsertByTime(x, s)) == multiset(s) + multiset{x}
  {
    if s != [] && SortKey(s[0]) > SortKey(x) {
      InsertByTimePermutes(x, s[1..]);
      assert s == [s[0]] + s[1..];
    }
  }

  /** Inserting into a newest-first list keeps it newest first; the head is x or the old head. */
  lemma {:induction false} InsertByTimeSorted(x: Subscriber, s: seq<Subscriber>)
    requires SortedDesc(s)
    ensures SortedDesc(InsertByTime(x, s))
    ensures InsertByTime(x, s)[0] == x || (s != [] && InsertByTime(x, s)[0] == s[0])
  {
    if s == [] {
      assert SortedDesc([x]);
    } else if SortKey(s[0]) <= SortKey(x) {
      SortedCons(x, s);
    } else {
      var tail := s[1..];
      assert SortedDesc(tail) by {
        forall i, j | 0 <= i < j < |tail| ensures SortKey(tail[i]) >= SortKey(tail[j]) {
          assert tail[i] == s[i + 1] && tail[j] == s[j + 1];
        }
      }
      InsertByTimeSorted(x, tail);
      var t := InsertByTime(x, tail);
      assert tail != [] ==> SortKey(s[0]) >= SortKey(tail[0]);
      SortedCons(s[0], t);
    }
  }

  /** `.sort((a, b) => new Date(b.subscribed_at) - new Date(a.subscribed_at))`:
      a stable sort, newest first. */
  function SortByTimeDesc(s: seq<Subscriber>): (r: seq<Subscriber>)
    ensures multiset(r) == multiset(s)
    ensures SortedDesc(r)
  {
    if s == [] then []
    else
      var t := SortByTimeDesc(s[1..]);
      InsertByTimePermutes(s[0], t);
      InsertByTimeSorted(s[0], t);
      HeadTail(s);
      InsertByTime(s[0], t)
  }

  function StatusTest(statusFilter: string): Subscriber -> bool
  {
    (s: Subscriber) => PassesStatus(s, statusFilter)
  }

  function QueryTest(q: string): Subscriber -> bool
  {
    (s: Subscriber) => PassesQuery(s, q)
  }

  /** The `filtered` memo: status filter, then search, then sort. */
  function Filtered(subscribers: seq<Subscriber>, query: string, statusFilter: string): (r: seq<Subscriber>)
    ensures SortedDesc(r)
    ensures multiset(r) <= multiset(subscribers)
  {
    SortByTimeDesc(Filter(Filter(subscribers, StatusTest(statusFilter)), QueryTest(NormalizedQuery(query))))
  }

  /** The filtered list is drawn from the subscribers, holds exactly those that
      pass both filters, and is sorted newest first. */
  lemma FilteredSpec(subscribers: seq<Subscriber>, query: string, statusFilter: string)
    ensures multiset(Filtered(subscribers, query, statusFilter)) <= multiset(subscribers)
    ensures SortedDesc(Filtered(subscribers, query, statusFilter))
    ensures forall x :: x in Filtered(subscribers, query, statusFilter) <==>
      x in subscribers && PassesStatus(x, statusFilter) && PassesQuery(x, NormalizedQuery(query))
  {
    var q := NormalizedQuery(query);
    var ps := StatusTest(statusFilter);
    var pq := QueryTest(q);
    var byStatus := Filter(subscribers, ps);
    var byQuery := Filter(byStatus, pq);
    var r := Filtered(subscribers, query, statusFilter);
    assert multiset(r) == multiset(byQuery);
    forall x
      ensures x in r <==> x in subscribers && PassesStatus(x, statusFilter) && PassesQuery(x, q)
    {
      calc {
        x in r;
        x in multiset(r);
        x in byQuery;
      }
      if x in byQuery {
        assert x in byStatus && pq(x);
        assert ps(x);
      }
      if x in subscribers && PassesStatus(x, statusFilter) && PassesQuery(x, q) {
        var i :| 0 <= i < |subscribers| && subscribers[i] == x;
        assert ps(subscribers[i]);
        var j :| 0 <= j < |byStatus| && byStatus[j] == x;
        assert pq(byStatus[j]);
      }
    }
  }

  /** With the filter on 'all' and a blank query nobody is dropped. */
  lemma AllPassWithoutFilter(subscribers: seq<Subscriber>, query: string)
    requires NormalizedQuery(query) == ""
    ensures multiset(Filtered(subscribers, query, "all")) == multiset(subscribers)
  {
    var ps := StatusTest("all");
    var pq := QueryTest("");
    forall i | 0 <= i < |subscribers|
      ensures ps(subscribers[i]) && pq(subscribers[i])
    {
      assert PassesStatus(subscribers[i], "all");
      assert PassesQuery(subscribers[i], "");
    }
    FilterKeepsAll(subscribers, ps);
    FilterKeepsAll(subscribers, pq);
    var r := SortByTimeDesc(Filter(Filter(subscribers, ps), pq));
    assert Filtered(subscribers, query, "all") == r;
  }

  // ---------------------------------------------------------------------------
  // Pages
  // ---------------------------------------------------------------------------

  /** `Math.max(1, Math.ceil(n / pageSize))`. */
  function TotalPages(n: nat): (t: nat)
    ensures t >= 1
    ensures n <= t * PageSize
    ensures n == 0 || (t - 1) * PageSize < n
    ensures n == 0 ==> t == 1
  {
    if n == 0 then 1 else (n + PageSize - 1) / PageSize
  }

  function Min(a: int, b: int): int
  {
    if a <= b then a else b
  }

  /** `filtered.slice(start, start + pageSize)` with `start = (page - 1) * pageSize`. */
  function PageSlice(f: seq<Subscriber>, page: Page): (r: seq<Subscriber>)
    ensures |r| <= PageSize
    ensures (page - 1) * PageSize >= |f| ==> r == []
    ensures (page - 1) * PageSize < |f| ==> r == f[(page - 1) * PageSize..Min(page * PageSize, |f|)]
  {
    var start := (page - 1) * PageSize;
    if start >= |f| then [] else f[start..Min(start + PageSize, |f|)]
  }

  /** Pages 1..k laid end to end. */
  function PagesUpTo(f: seq<Subscriber>, k: nat): seq<Subscriber>
  {
    if k == 0 then [] else PagesUpTo(f, k - 1) + PageSlice(f, k)
  }

  lemma PageStep(k: nat)
    requires k > 0
    ensures k * PageSize == (k - 1) * PageSize + PageSize
  {
  }

  lemma {:induction false} PagesUpToIsPrefix(f: seq<Subscriber>, k: nat)
    ensures PagesUpTo(f, k) == f[..Min(k * PageSize, |f|)]
  {
    if k > 0 {
      PagesUpToIsPrefix(f, k - 1);
      var start := (k - 1) * PageSize;
      PageStep(k);
      if start >= |f| {
        assert PageSlice(f, k) == [];
      } else {
        var hi := Min(start + PageSize, |f|);
        assert PageSlice(f, k) == f[start..hi];
        assert f[..hi] == f[..start] + f[start..hi];
      }
    }
  }

  /** The pages, concatenated in order, are the whole filtered list. */
  lemma PagesCoverFiltered(f: seq<Subscriber>)
    ensures PagesUpTo(f, TotalPages(|f|)) == f
  {
    PagesUpToIsPrefix(f, TotalPages(|f|));
  }

  /** The "Zurück" button: `Math.max(1, p - 1)`. */
  function PrevPage(p: Page): (r: Page)
    ensures r <= p
    ensures p > 1 ==> r == p - 1
  {
    if p - 1 >= 1 then p - 1 else 1
  }

  /** The "Weiter" button: `Math.min(totalPages, p + 1)`. */
  function NextPage(p: Page, total: Page): (r: Page)
    ensures r <= total
    ensures p < total ==> r == p + 1
    ensures p >= total ==> r == total
  {
    if total <= p + 1 then total else p + 1
  }

  /** Both buttons keep a page that is in range within [1, totalPages]. */
  lemma PagerStaysInRange(p: Page, total: Page)
    requires p <= total
    ensures 1 <= PrevPage(p) <= total && PrevPage(p) <= p
    ensures 1 <= NextPage(p, total) <= total && NextPage(p, total) >= p
    ensures p < total ==> NextPage(p, total) == p + 1
    ensures p > 1 ==> PrevPage(p) == p - 1
  {
  }

  // ---------------------------------------------------------------------------
  // CSV export
  // ---------------------------------------------------------------------------

  const CsvHeader: seq<string> := ["ID", "Vorname", "Nachname", "Email", "Subscribed At", "Unsubscribed At", "Status"]

  /** `String(value)` of a string field; a JSON null prints as "null". */
  function JsString(o: Option<string>): (r: string)
    ensures o.Some? ==> r == o.value
    ensures o.None? ==> r == "null"
  {
    if o.Some? then o.value else "null"
  }

  /** `s.subscribed_at || ''`. */
  function StampCell(o: Option<Timestamp>): (r: string)
    ensures o.Some? ==> r == o.value.text
    ensures o.None? ==> r == ""
  {
    if o.Some? then o.value.text else ""
  }

  /** The seven cells of one subscriber. */
  function CsvRow(s: Subscriber): (row: seq<string>)
    ensures |row| == |CsvHeader|
    ensures s.subscribedAt.None? ==> row[4] == ""
    ensures s.unsubscribedAt.None? ==> row[5] == ""
  {
    [IntToString(s.id), JsString(s.vorname), JsString(s.nachname), JsString(s.email),
     StampCell(s.subscribedAt), OrElse(s.unsubscribedAt, ""), JsString(s.status)]
  }

  function CsvRows(f: seq<Subscriber>): (rows: seq<seq<string>>)
    ensures |rows| == |f|
    ensures forall k :: 0 <= k < |f| ==> rows[k] == CsvRow(f[k])
  {
    if f == [] then [] else [CsvRow(f[0])] + CsvRows(f[1..])
  }

  /** `[header, ...rows]`. */
  function CsvTable(f: seq<Subscriber>): (t: seq<seq<string>>)
    ensures |t| == |f| + 1 && t[0] == CsvHeader
    ensures forall k :: 0 <= k < |f| ==> t[k + 1] == CsvRow(f[k])
  {
    var rows := CsvRows(f);
    var t := [CsvHeader] + rows;
    assert forall k :: 0 <= k < |f| ==> t[k + 1] == rows[k];
    t
  }

  /** One header row of seven columns, then one seven-column row per subscriber, in order. */
  lemma CsvTableShape(f: seq<Subscriber>)
    ensures |CsvTable(f)| == |f| + 1
    ensures CsvTable(f)[0] == CsvHeader
    ensures forall k :: 0 <= k < |f| ==> CsvTable(f)[k + 1] == CsvRow(f[k])
    ensures forall k :: 0 <= k < |CsvTable(f)| ==> |CsvTable(f)[k]| == 7
  {
    var t := CsvTable(f);
    var rows := CsvRows(f);
    assert t == [CsvHeader] + rows;
    forall k | 0 <= k < |t|
      ensures |t[k]| == 7
    {
      if k > 0 {
        assert t[k] == rows[k - 1] == CsvRow(f[k - 1]);
      }
    }
  }

  /** `.replace(/"/g, '""')`. */
  function EscapeQuotes(c: string): string
  {
    if c == [] then []
    else (if c[0] == '"' then "\"\"" else [c[0]]) + EscapeQuotes(c[1..])
  }

  /** A cell as written: wrapped in quotes, each interior quote doubled. */
  function QuoteCell(c: string): (r: string)
    ensures |r| >= 2 && r[0] == '"' && r[|r| - 1] == '"'
  {
    "\"" + EscapeQuotes(c) + "\""
  }

  /** `parts.join(sep)`. */
  function Join(sep: string, parts: seq<string>): (r: string)
    ensures parts == [] ==> r == ""
    ensures parts != [] ==> parts[0] <= r
  {
    if |parts| == 0 then ""
    else if |parts| == 1 then parts[0]
    else parts[0] + sep + Join(sep, parts[1..])
  }

  function QuoteAll(cells: seq<string>): (q: seq<string>)
    ensures |q| == |cells|
    ensures forall k :: 0 <= k < |cells| ==> q[k] == QuoteCell(cells[k])
  {
    if cells == [] then [] else [QuoteCell(cells[0])] + QuoteAll(cells[1..])
  }

  /** One CSV line: the quoted cells joined by ','. */
  function CsvLine(cells: seq<string>): (line: string)
    ensures cells != [] ==> |line| >= 2 && line[0] == '"'
  {
    var q := QuoteAll(cells);
    var line := Join(",", q);
    assert q != [] ==> line[0] == q[0][0];
    line
  }

  function CsvLines(rows: seq<seq<string>>): (lines: seq<string>)
    ensures |lines| == |rows|
  {
    if rows == [] then [] else [CsvLine(rows[0])] + CsvLines(rows[1..])
  }

  /** The export text: the lines joined by '\n' (not the CRLF of RFC 4180). */
  function CsvText(rows: seq<seq<string>>): (text: string)
    ensures rows != [] ==> CsvLine(rows[0]) <= text
    ensures rows == [] ==> text == ""
  {
    Join("\n", CsvLines(rows))
  }

  // A reader for what the export writes, to state that the text gives back the table.

  /** Reads a quoted cell's content, after its opening quote, up to the closing
      quote; a doubled quote stands for one quote. Returns the content and what follows. */
  function ReadQuoted(s: string): (r: Option<(string, string)>)
    ensures r.Some? ==> |r.value.1| < |s|
    decreases |s|
  {
    if s == [] then None
    else if s[0] == '"' then
      if |s| >= 2 && s[1] == '"' then
        match ReadQuoted(s[2..])
        case None => None
        case Some(p) => Some(("\"" + p.0, p.1))
      else Some(("", s[1..]))
    else
      match ReadQuoted(s[1..])
      case None => None
      case Some(p) => Some(([s[0]] + p.0, p.1))
  }

  /** Reads quoted cells separated by ','; returns them and what follows the last one. */
  function ReadCells(s: string): (r: Option<(seq<string>, string)>)
    ensures r.Some? ==> |r.value.1| < |s|
    decreases |s|
  {
    if s == [] || s[0] != '"' then None
    else
      match ReadQuoted(s[1..])
      case None => None
      case Some(p) =>
        if p.1 != [] && p.1[0] == ',' then
          match ReadCells(p.1[1..])
          case None => None
          case Some(q) => Some(([p.0] + q.0, q.1))
        else Some(([p.0], p.1))
  }

  /** Reads lines of quoted cells separated by '\n' up to the end of the text. */
  function ReadTable(s: string): Option<seq<seq<string>>>
    decreases |s|
  {
    match ReadCells(s)
    case None => None
    case Some(p) =>
      if p.1 == [] then Some([p.0])
      else if p.1[0] == '\n' then
        match ReadTable(p.1[1..])
        case None => None
        case Some(t) => Some([p.0] + t)
      else None
  }

  /** Stripping the outer quotes and collapsing doubled quotes gives the cell back. */
  lemma {:induction false} ReadQuotedEscaped(c: string, rest: string)
    requires rest == [] || rest[0] != '"'
    ensures ReadQuoted(EscapeQuotes(c) + "\"" + rest) == Some((c, rest))
  {
    if c == [] {
      assert EscapeQuotes(c) + "\"" + rest == "\"" + rest;
    } else {
      ReadQuotedEscaped(c[1..], rest);
      var tail := EscapeQuotes(c[1..]) + "\"" + rest;
      if c[0] == '"' {
        assert EscapeQuotes(c) + "\"" + rest == "\"\"" + tail;
        assert ("\"\"" + tail)[2..] == tail;
        assert "\"" + c[1..] == c;
      } else {
        assert EscapeQuotes(c) + "\"" + rest == [c[0]] + tail;
        assert ([c[0]] + tail)[1..] == tail;
        assert [c[0]] + c[1..] == c;
      }
    }
  }

  /** Unquoting a written cell recovers `String(cell)`. */
  lemma QuoteCellRoundTrip(c: string)
    ensures ReadQuoted(QuoteCell(c)[1..]) == Some((c, ""))
  {
    ReadQuotedEscaped(c, "");
    assert QuoteCell(c)[1..] == EscapeQuotes(c) + "\"" + "";
  }

  /** A single written cell reads back as that cell. */
  lemma ReadCellsOne(c: string, rest: string)
    requires rest == [] || (rest[0] != ',' && rest[0] != '"')
    ensures ReadCells(QuoteCell(c) + rest) == Some(([c], rest))
  {
    var s := QuoteCell(c) + rest;
    assert s[1..] == EscapeQuotes(c) + "\"" + rest;
    ReadQuotedEscaped(c, rest);
  }

  /** A written cell followed by ',' and further cells reads back as one more cell. */
  lemma ReadCellsMore(c: string, more: string, cells: seq<string>, rest: string)
    requires ReadCells(more) == Some((cells, rest))
    ensures ReadCells(QuoteCell(c) + ("," + more)) == Some(([c] + cells, rest))
  {
    var s := QuoteCell(c) + ("," + more);
    assert s[1..] == EscapeQuotes(c) + "\"" + ("," + more);
    ReadQuotedEscaped(c, "," + more);
    assert ("," + more)[1..] == more;
  }

  /** A line of two or more cells is its first quoted cell, ',' and the line of the rest. */
  lemma CsvLineCons(cells: seq<string>)
    requires |cells| >= 2
    ensures CsvLine(cells) == QuoteCell(cells[0]) + "," + CsvLine(cells[1..])
  {
    assert QuoteAll(cells[1..]) == QuoteAll(cells)[1..];
  }

  /** A text of two or more rows is its first line, '\n' and the text of the rest. */
  lemma CsvTextCons(rows: seq<seq<string>>)
    requires |rows| >= 2
    ensures CsvText(rows) == CsvLine(rows[0]) + "\n" + CsvText(rows[1..])
  {
    assert CsvLines(rows[1..]) == CsvLines(rows)[1..];
  }

  lemma {:induction false} ReadCellsLine(cells: seq<string>, rest: string)
    requires |cells| >= 1
    requires rest == [] || (rest[0] != ',' && rest[0] != '"')
    ensures ReadCells(CsvLine(cells) + rest) == Some((cells, rest))
  {
    var q := QuoteAll(cells);
    if |cells| == 1 {
      assert q == [QuoteCell(cells[0])];
      assert CsvLine(cells) == QuoteCell(cells[0]);
      ReadCellsOne(cells[0], rest);
      assert [cells[0]] == cells;
    } else {
      CsvLineCons(cells);
      var more := CsvLine(cells[1..]) + rest;
      ConcatAssoc(QuoteCell(cells[0]) + ",", CsvLine(cells[1..]), rest);
      ConcatAssoc(QuoteCell(cells[0]), ",", more);
      ReadCellsLine(cells[1..], rest);
      ReadCellsMore(cells[0], more, cells[1..], rest);
      assert [cells[0]] + cells[1..] == cells;
    }
  }

  /** A line followed by '\n' and further lines reads back as one more row. */
  lemma ReadTableMore(cells: seq<string>, more: string, rows: seq<seq<string>>)
    requires |cells| >= 1
    requires ReadTable(more) == Some(rows)
    ensures ReadTable(CsvLine(cells) + ("\n" + more)) == Some([cells] + rows)
  {
    ReadCellsLine(cells, "\n" + more);
    assert ("\n" + more)[1..] == more;
  }

  lemma {:induction false} ReadTableLines(rows: seq<seq<string>>)
    requires |rows| >= 1
    requires forall k :: 0 <= k < |rows| ==> |rows[k]| >= 1
    ensures ReadTable(CsvText(rows)) == Some(rows)
  {
    var lines := CsvLines(rows);
    if |rows| == 1 {
      assert lines == [CsvLine(rows[0])];
      assert CsvText(rows) == CsvLine(rows[0]) + "";
      ReadCellsLine(rows[0], "");
      assert [rows[0]] == rows;
    } else {
      ReadTableLines(rows[1..]);
      ReadTableStep(rows);
    }
  }

  lemma ReadTableStep(rows: seq<seq<string>>)
    requires |rows| >= 2 && |rows[0]| >= 1
    requires ReadTable(CsvText(rows[1..])) == Some(rows[1..])
    ensures ReadTable(CsvText(rows)) == Some(rows)
  {
    CsvTextCons(rows);
    var more := CsvText(rows[1..]);
    ConcatAssoc(CsvLine(rows[0]), "\n", more);
    ReadTableMore(rows[0], more, rows[1..]);
    assert [rows[0]] + rows[1..] == rows;
  }

  /** The export text reads back as exactly the header and the subscriber rows. */
  lemma CsvExportRoundTrip(f: seq<Subscriber>)
    ensures ReadTable(CsvText(CsvTable(f))) == Some(CsvTable(f))
  {
    CsvTableShape(f);
    ReadTableLines(CsvTable(f));
  }

  // ---------------------------------------------------------------------------
  // The screen
  // ---------------------------------------------------------------------------

  class SubscribersList {
    var subscribers: seq<Subscriber>
    var loading: bool
    var error: Option<string>
    var query: string
    var statusFilter: string
    var page: Page

    constructor()
      ensures subscribers == [] && loading && error == None
      ensures query == "" && statusFilter == "all" && page == 1
    {
      subscribers, loading, error := [], true, None;
      query, statusFilter, page := "", "all", 1;
    }

    function FilteredView(): seq<Subscriber>
      reads this
    {
      Filtered(subscribers, query, statusFilter)
    }

    function TotalPagesView(): Page
      reads this
    {
      TotalPages(|FilteredView()|)
    }

    /** The rows shown in the table. */
    function PageView(): seq<Subscriber>
      reads this
    {
      PageSlice(FilteredView(), page)
    }

    /** The mount effect; `res.data || []` on success. */
    method FetchSubscribers(response: Outcome<Option<seq<Subscriber>>>)
      modifies this`subscribers, this`loading, this`error
      ensures !loading
      ensures response.Success? ==> error == None && subscribers == (if response.body.Some? then response.body.value else [])
      ensures response.Failure? ==> error == Some(LoadFailed) && subscribers == old(subscribers)
    {
      loading := true;
      error := None;
      if response.Success? {
        subscribers := if response.body.Some? then response.body.value else [];
      } else {
        error := Some(LoadFailed);
      }
      loading := false;
    }

    /** Typing in the search box also returns to page 1. */
    method SetQuery(q: string)
      modifies this`query, this`page
      ensures query == q && page == 1
    {
      query := q;
      page := 1;
    }

    /** Choosing a status also returns to page 1. */
    method SetStatusFilter(f: string)
      modifies this`statusFilter, this`page
      ensures statusFilter == f && page == 1
    {
      statusFilter := f;
      page := 1;
    }

    method GoToPreviousPage()
      modifies this`page
      ensures page == PrevPage(old(page))
      ensures old(page) <= TotalPagesView() ==> 1 <= page <= TotalPagesView()
    {
      page := PrevPage(page);
    }

    method GoToNextPage()
      modifies this`page
      ensures page == NextPage(old(page), TotalPagesView())
      ensures 1 <= page <= TotalPagesView()
    {
      page := NextPage(page, TotalPagesView());
    }

    /** The effect on `totalPages`: a page past the end goes back to 1. */
    method SyncPage()
      modifies this`page
      ensures page <= TotalPagesView()
      ensures old(page) <= TotalPagesView() ==> page == old(page)
    {
      if page > TotalPagesView() {
        page := 1;
      }
    }

    /** The text `downloadCSV` puts in the file. */
    method DownloadCsv() returns (csv: string)
      ensures ReadTable(csv) == Some(CsvTable(FilteredView()))
      ensures csv == CsvText(CsvTable(FilteredView()))
    {
      csv := CsvText(CsvTable(FilteredView()));
      CsvExportRoundTrip(FilteredView());
    }
  }
}
