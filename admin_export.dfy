/** The admin dashboard's CSV export: the organization's leads as `getAllLeads` returns
    them (newest first, at most 100), one comma-joined line each under a fixed header,
    lines joined by newlines. Values are written as they are, without quoting.
    `Date.prototype.toISOString` and JavaScript's string conversion of a non-string value
    are parameters. */
module AdminExport {
  import opened Wrappers
  import opened JsValues
  import opened Db
  import Strings = Text
  import LeadRepository

  const HeaderFields: seq<string> :=
    ["Name", "Email", "Phone", "Company", "Platform", "Platform User ID", "Score", "Intent", "Sentiment",
     "IP", "User Agent", "Created"]

  const Header: string := Strings.Join(HeaderFields, ",")

  /** `column || ''` for a text column. */
  function TextCell(t: Text): (r: string)
    ensures t.None? ==> r == ""
    ensures t.Some? ==> r == t.value
  {
    match t
    case None => ""
    case Some(s) => s
  }

  /** `value || ''` for a JSON value, then the string conversion `join` applies. */
  function ValueCell(v: Value, render: Value -> string): (r: string)
    ensures !Truthy(v) ==> r == ""
    ensures Truthy(v) && v.Str? ==> r == v.s
  {
    if !Truthy(v) then "" else if v.Str? then v.s else render(v)
  }

  /** The twelve values of a lead's line, in header order. */
  function Cells(l: Lead, iso: nat -> string, render: Value -> string): (r: seq<string>)
    ensures |r| == |HeaderFields|
  {
    var platformData := Obj(l.platformData);
    [TextCell(l.name), TextCell(l.email), TextCell(l.phone), TextCell(l.company), l.platform, l.platformUserId,
     Strings.IntToDecimal(l.leadScore), TextCell(l.intent), TextCell(l.sentiment),
     ValueCell(Field(platformData, "ip"), render), ValueCell(Field(platformData, "user_agent"), render),
     iso(l.createdAt)]
  }

  function Row(l: Lead, iso: nat -> string, render: Value -> string): string
  {
    Strings.Join(Cells(l, iso, render), ",")
  }

  function Rows(leads: seq<Lead>, iso: nat -> string, render: Value -> string): (r: seq<string>)
    ensures |r| == |leads|
    ensures forall i :: 0 <= i < |leads| ==> r[i] == Row(leads[i], iso, render)
  {
    seq(|leads|, i requires 0 <= i < |leads| => Row(leads[i], iso, render))
  }

  function Lines(leads: seq<Lead>, iso: nat -> string, render: Value -> string): (r: seq<string>)
    ensures |r| == |leads| + 1 && r[0] == Header
    ensures forall i :: 0 <= i < |leads| ==> r[i + 1] == Row(leads[i], iso, render)
  {
    var rows := Rows(leads, iso, render);
    assert forall i :: 0 <= i < |leads| ==> ([Header] + rows)[i + 1] == rows[i];
    [Header] + rows
  }

  /** The document sent: header and rows joined by newlines, with no trailing newline. */
  function Csv(leads: seq<Lead>, iso: nat -> string, render: Value -> string): string
  {
    Strings.Join(Lines(leads, iso, render), "\n")
  }

  /** The cells of a lead with no name, email, phone, company, intent, sentiment, and no
      `ip` or `user_agent` in its platform data, are empty in those columns. */
  lemma MissingValuesAreEmpty(l: Lead, iso: nat -> string, render: Value -> string)
    requires l.name.None? && l.email.None? && l.phone.None? && l.company.None?
    requires l.intent.None? && l.sentiment.None?
    requires "ip" !in l.platformData && "user_agent" !in l.platformData
    ensures forall i :: i in {0, 1, 2, 3, 7, 8, 9, 10} ==> Cells(l, iso, render)[i] == ""
  {
  }

  predicate NoNewline(l: Lead, iso: nat -> string, render: Value -> string)
  {
    forall i :: 0 <= i < |HeaderFields| ==> '\n' !in Cells(l, iso, render)[i]
  }

  lemma HeaderHasNoNewline()
    ensures '\n' !in Header
  {
    Strings.NotInJoin(HeaderFields, ",", '\n');
  }

  /** While no value holds a newline, the document has one line for the header and then
      one line per lead, in the order given. */
  lemma CsvLines(leads: seq<Lead>, iso: nat -> string, render: Value -> string)
    requires forall i :: 0 <= i < |leads| ==> NoNewline(leads[i], iso, render)
    ensures Strings.Split(Csv(leads, iso, render), '\n') == Lines(leads, iso, render)
  {
    var lines := Lines(leads, iso, render);
    HeaderHasNoNewline();
    forall i | 0 <= i < |lines| ensures '\n' !in lines[i] {
      if i > 0 {
        Strings.NotInJoin(Cells(leads[i - 1], iso, render), ",", '\n');
      }
    }
    Strings.SplitJoin(lines, '\n');
  }

  /** A data line splits at commas into twelve fields plus one more for every comma inside
      a value: an unquoted comma shifts every later column. */
  lemma RowFieldCount(l: Lead, iso: nat -> string, render: Value -> string)
    ensures |Strings.Split(Row(l, iso, render), ',')| == |HeaderFields| + Strings.TotalOccurrences(Cells(l, iso, render), ',')
  {
    Strings.SplitCount(Row(l, iso, render), ',');
    Strings.JoinOccurrences(Cells(l, iso, render), ',');
  }

  /** Without commas in the values, the fields of a data line are its twelve values. */
  lemma RowFields(l: Lead, iso: nat -> string, render: Value -> string)
    requires forall i :: 0 <= i < |HeaderFields| ==> ',' !in Cells(l, iso, render)[i]
    ensures Strings.Split(Row(l, iso, render), ',') == Cells(l, iso, render)
  {
    Strings.SplitJoin(Cells(l, iso, render), ',');
  }

  /** A name such as `Doe, Jane` gives its line a thirteenth field. */
  lemma CommaInNameShiftsColumns(l: Lead, iso: nat -> string, render: Value -> string)
    requires l.name == Some("Doe, Jane")
    requires forall i :: 1 <= i < |HeaderFields| ==> ',' !in Cells(l, iso, render)[i]
    ensures |Strings.Split(Row(l, iso, render), ',')| == |HeaderFields| + 1
  {
    var cells := Cells(l, iso, render);
    RowFieldCount(l, iso, render);
    assert Strings.Occurrences("Doe, Jane", ',') == 1 by {
      assert "Doe, Jane"[1..] == "oe, Jane";
      assert "oe, Jane"[1..] == "e, Jane";
      assert "e, Jane"[1..] == ", Jane";
      assert ", Jane"[1..] == " Jane";
      Strings.OccurrencesNone(" Jane", ',');
    }
    Strings.TotalOccurrencesNone(cells[1..], ',');
    assert forall i :: 0 <= i < |cells[1..]| ==> cells[1..][i] == cells[i + 1];
  }

  datatype ExportResponse = CsvAttachment(body: string) | ExportFailed

  /** `GET /export`: the organization's leads with no filters, rendered. */
  method Export(db: Database, organizationId: nat, iso: nat -> string, render: Value -> string)
    returns (response: ExportResponse, leads: seq<Lead>)
    requires db.Valid()
    ensures LeadRepository.NewestRows(db.leads, LeadRepository.Selected(db.leads, organizationId, LeadRepository.LeadFilters(Null, Null, Null)),
                                      LeadRepository.SelectLimit, leads)
    ensures response == CsvAttachment(Csv(leads, iso, render))
  {
    var result := LeadRepository.GetAllLeads(db, organizationId, LeadRepository.LeadFilters(Null, Null, Null));
    if result.Err? {
      assert false;
      return ExportFailed, [];
    }
    leads := result.value;
    response := CsvAttachment(Csv(leads, iso, render));
  }
}
