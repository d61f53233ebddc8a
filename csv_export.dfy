/**
 * CSV export of the dashboard tables: the text `exportToCSV` builds from an
 * array of row objects (a bare header line, then one line of quoted fields per
 * row), the four row mappers that shape each table's rows, and the name of
 * the downloaded file.  Fields are quoted as in section 2 of RFC 4180; the
 * reader below inverts the text the export builds.
 */
module CsvExport {
  import opened Wrappers
  import opened Text

  /** The JavaScript values a row cell can hold. */
  datatype JsValue =
    | Undefined
    | Null
    | Bool(b: bool)
    | Int(i: int)
    | Str(s: string)

  /** `String(val)`, which is also what a template literal `${val}` renders. */
  function JsString(v: JsValue): string {
    match v
    case Undefined => "undefined"
    case Null => "null"
    case Bool(b) => if b then "true" else "false"
    case Int(i) => IntToString(i)
    case Str(s) => s
  }

  /** The values `||` and `?:` treat as false. */
  predicate Falsy(v: JsValue) {
    v == Undefined || v == Null || v == Bool(false) || v == Int(0) || v == Str("")
  }

  /** `a || b`. */
  function Or(a: JsValue, b: JsValue): JsValue {
    if Falsy(a) then b else a
  }

  /** One property of a row object. */
  datatype Field = Field(key: string, value: JsValue)

  /** A row object: its properties in insertion order. */
  type Row = seq<Field>

  /** `Object.keys(row)`. */
  function Keys(row: Row): (keys: seq<string>)
    ensures |keys| == |row|
    ensures forall i :: 0 <= i < |row| ==> keys[i] == row[i].key
  {
    seq(|row|, i requires 0 <= i < |row| => row[i].key)
  }

  /** `row[key]`: the value of the property, `undefined` when the row has none. */
  function Get(row: Row, key: string): JsValue {
    if row == [] then Undefined
    else if row[0].key == key then row[0].value
    else Get(row[1..], key)
  }

  /** `s.replace(/"/g, '""')`: every double quote doubled. */
  function Escape(s: string): string {
    if s == [] then []
    else (if s[0] == '"' then "\"\"" else [s[0]]) + Escape(s[1..])
  }

  /** Escaping adds one character per double quote and no other. */
  lemma {:induction false} EscapeLength(s: string)
    ensures |Escape(s)| == |s| + multiset(s)['"']
  {
    if s != [] {
      EscapeLength(s[1..]);
      assert s == [s[0]] + s[1..];
    }
  }

  /** A field in double quotes with its inner quotes doubled. */
  function Quote(s: string): string {
    "\"" + Escape(s) + "\""
  }

  /** The quoted fields separated by `,`. */
  function QuotedLine(values: seq<string>): string {
    if |values| == 0 then ""
    else if |values| == 1 then Quote(values[0])
    else Quote(values[0]) + "," + QuotedLine(values[1..])
  }

  /** `values.map(quote).join(',')` is the quoted line. */
  lemma {:induction false} QuotedLineIsJoin(values: seq<string>, quoted: seq<string>)
    requires |quoted| == |values|
    requires forall i :: 0 <= i < |values| ==> quoted[i] == Quote(values[i])
    ensures Join(quoted, ',') == QuotedLine(values)
  {
    if |values| > 1 {
      QuotedLineIsJoin(values[1..], quoted[1..]);
    }
  }

  /** The text of each cell of `row`, in header order. */
  function Cells(headers: seq<string>, row: Row): (cells: seq<string>)
    ensures |cells| == |headers|
  {
    seq(|headers|, j requires 0 <= j < |headers| => JsString(Get(row, headers[j])))
  }

  /**
   * The CSV text of `exportToCSV(data)`: the first row's keys joined by `,`,
   * then one line per row, joined by a newline.  `None` when there is no
   * data (the source shows an alert instead).
   */
  function CsvOf(data: seq<Row>): Option<string> {
    if data == [] then None
    else
      var headers := Keys(data[0]);
      Some(Join([Join(headers, ',')] + seq(|data|, i requires 0 <= i < |data| => QuotedLine(Cells(headers, data[i]))), '\n'))
  }

  /** `exportToCSV`'s text: the loop that pushes the header line and one line per row, then the join. */
  method ExportToCsv(data: seq<Row>) returns (csv: Option<string>)
    ensures csv == CsvOf(data)
  {
    if |data| == 0 {
      return None;
    }
    var headers := Keys(data[0]);
    var csvRows := [Join(headers, ',')];
    for i := 0 to |data|
      invariant csvRows == [Join(headers, ',')] + seq(i, k requires 0 <= k < i => QuotedLine(Cells(headers, data[k])))
    {
      var row := data[i];
      var values := seq(|headers|, j requires 0 <= j < |headers| => Quote(JsString(Get(row, headers[j]))));
      QuotedLineIsJoin(Cells(headers, row), values);
      csvRows := csvRows + [Join(values, ',')];
    }
    csv := Some(Join(csvRows, '\n'));
  }

  // ---------------------------------------------------------------------
  // Reading the text back (section 2 of RFC 4180)
  // ---------------------------------------------------------------------

  /**
   * The inside of a quoted field: characters up to the closing quote, a
   * doubled quote standing for one; returns the field and what follows the
   * closing quote.
   */
  function FieldBody(s: string): (r: Option<(string, string)>)
    ensures r.Some? ==> |r.value.1| < |s|
  {
    if s == [] then None
    else if s[0] == '"' then
      if |s| >= 2 && s[1] == '"' then
        match FieldBody(s[2..])
        case None => None
        case Some((v, rest)) => Some(("\"" + v, rest))
      else Some(([], s[1..]))
    else
      match FieldBody(s[1..])
      case None => None
      case Some((v, rest)) => Some(([s[0]] + v, rest))
  }

  /** One record of quoted fields separated by `,`; returns the fields and the rest from the line break on. */
  function ReadFields(s: string): (r: Option<(seq<string>, string)>)
    ensures r.Some? ==> |r.value.1| < |s| && (r.value.1 == [] || r.value.1[0] == '\n')
    decreases |s|
  {
    if s == [] || s[0] != '"' then None
    else
      match FieldBody(s[1..])
      case None => None
      case Some((v, rest)) =>
        if rest != [] && rest[0] == ',' then
          match ReadFields(rest[1..])
          case None => None
          case Some((vs, after)) => Some(([v] + vs, after))
        else if rest == [] || rest[0] == '\n' then Some(([v], rest))
        else None
  }

  /** Records of quoted fields separated by line breaks. */
  function ReadRecords(s: string): Option<seq<seq<string>>>
    decreases |s|
  {
    match ReadFields(s)
    case None => None
    case Some((fields, rest)) =>
      if rest == [] then Some([fields])
      else
        match ReadRecords(rest[1..])
        case None => None
        case Some(records) => Some([fields] + records)
  }

  /** The export's text read back: the header names from the first line, then the records. */
  function ReadCsv(text: string): Option<(seq<string>, seq<seq<string>>)> {
    var p := IndexOf(text, '\n');
    if p == |text| then Some((Split(text, ','), []))
    else
      match ReadRecords(text[p + 1..])
      case None => None
      case Some(records) => Some((Split(text[..p], ','), records))
  }

  /** Reading an escaped field and its closing quote gives the field back. */
  lemma {:induction false} FieldBodyOfEscape(v: string, rest: string)
    requires rest == [] || rest[0] != '"'
    ensures FieldBody(Escape(v) + "\"" + rest) == Some((v, rest))
  {
    var s := Escape(v) + "\"" + rest;
    if v == [] {
      assert s == "\"" + rest;
    } else {
      var tail := Escape(v[1..]) + "\"" + rest;
      FieldBodyOfEscape(v[1..], rest);
      if v[0] == '"' {
        assert s == "\"\"" + tail;
        assert s[2..] == tail;
      } else {
        assert s == [v[0]] + tail;
        assert s[1..] == tail;
      }
      assert [v[0]] + v[1..] == v;
    }
  }

  /** A quoted field opens with a quote followed by the escaped text and the closing quote. */
  lemma QuoteThen(v: string, after: string)
    ensures (Quote(v) + after)[0] == '"'
    ensures (Quote(v) + after)[1..] == Escape(v) + "\"" + after
  {
  }

  /** A last field: reading stops at the line break or the end. */
  lemma ReadFieldsLast(s: string, v: string, rest: string)
    requires s != [] && s[0] == '"' && FieldBody(s[1..]) == Some((v, rest))
    requires rest == [] || rest[0] == '\n'
    ensures ReadFields(s) == Some(([v], rest))
  {
  }

  /** A field followed by a comma: reading goes on with the next field. */
  lemma ReadFieldsCons(s: string, v: string, after: string, vs: seq<string>, rest: string)
    requires s != [] && s[0] == '"' && FieldBody(s[1..]) == Some((v, after))
    requires after != [] && after[0] == ','
    requires ReadFields(after[1..]) == Some((vs, rest))
    ensures ReadFields(s) == Some(([v] + vs, rest))
  {
  }

  /** A quoted line followed by a line break or the end reads back as its values. */
  lemma {:induction false} ReadFieldsOfLine(values: seq<string>, rest: string)
    requires |values| >= 1
    requires rest == [] || rest[0] == '\n'
    ensures ReadFields(QuotedLine(values) + rest) == Some((values, rest))
  {
    if |values| == 1 {
      var s := Quote(values[0]) + rest;
      QuoteThen(values[0], rest);
      FieldBodyOfEscape(values[0], rest);
      ReadFieldsLast(s, values[0], rest);
      assert values == [values[0]];
    } else {
      ReadFieldsOfLine(values[1..], rest);
      ReadFieldsOfLineCons(values, rest);
    }
  }

  /** The step of `ReadFieldsOfLine`: a quoted field and a comma before a line that reads back. */
  lemma ReadFieldsOfLineCons(values: seq<string>, rest: string)
    requires |values| >= 2
    requires ReadFields(QuotedLine(values[1..]) + rest) == Some((values[1..], rest))
    ensures ReadFields(QuotedLine(values) + rest) == Some((values, rest))
  {
    var tail := QuotedLine(values[1..]) + rest;
    var after := "," + tail;
    var s := Quote(values[0]) + after;
    assert QuotedLine(values) + rest == s by {
      AppendAssoc(Quote(values[0]), ",", QuotedLine(values[1..]), rest);
    }
    assert ReadFields(s) == Some(([values[0]] + values[1..], rest)) by {
      QuoteThen(values[0], after);
      FieldBodyOfEscape(values[0], after);
      assert after[1..] == tail;
      ReadFieldsCons(s, values[0], after, values[1..], rest);
    }
    assert [values[0]] + values[1..] == values;
  }

  lemma AppendAssoc(a: string, b: string, c: string, d: string)
    ensures a + b + c + d == a + (b + (c + d))
  {
  }

  /** Quoted lines separated by line breaks. */
  function QuotedRecords(records: seq<seq<string>>): string {
    if |records| == 0 then ""
    else if |records| == 1 then QuotedLine(records[0])
    else QuotedLine(records[0]) + "\n" + QuotedRecords(records[1..])
  }

  /** Joining the quoted lines with line breaks gives the quoted records. */
  lemma {:induction false} QuotedRecordsIsJoin(records: seq<seq<string>>, lines: seq<string>)
    requires |lines| == |records|
    requires forall i :: 0 <= i < |records| ==> lines[i] == QuotedLine(records[i])
    ensures Join(lines, '\n') == QuotedRecords(records)
  {
    if |records| > 1 {
      QuotedRecordsIsJoin(records[1..], lines[1..]);
    }
  }

  /** A last record: reading stops at the end of the text. */
  lemma ReadRecordsLast(s: string, fields: seq<string>)
    requires ReadFields(s) == Some((fields, []))
    ensures ReadRecords(s) == Some([fields])
  {
  }

  /** A record followed by a line break: reading goes on with the next record. */
  lemma ReadRecordsCons(s: string, fields: seq<string>, rest: string, records: seq<seq<string>>)
    requires ReadFields(s) == Some((fields, rest)) && rest != []
    requires ReadRecords(rest[1..]) == Some(records)
    ensures ReadRecords(s) == Some([fields] + records)
  {
  }

  /** Quoted lines joined by line breaks read back as their records. */
  lemma {:induction false} ReadRecordsOfLines(records: seq<seq<string>>)
    requires |records| >= 1
    requires forall i :: 0 <= i < |records| ==> |records[i]| >= 1
    ensures ReadRecords(QuotedRecords(records)) == Some(records)
  {
    if |records| == 1 {
      ReadFieldsOfLine(records[0], []);
      assert QuotedLine(records[0]) + [] == QuotedLine(records[0]);
      ReadRecordsLast(QuotedLine(records[0]), records[0]);
      assert records == [records[0]];
    } else {
      var tail := QuotedRecords(records[1..]);
      var rest := "\n" + tail;
      ReadRecordsOfLines(records[1..]);
      ReadFieldsOfLine(records[0], rest);
      assert rest[1..] == tail;
      ReadRecordsCons(QuotedLine(records[0]) + rest, records[0], rest, records[1..]);
      assert QuotedRecords(records) == QuotedLine(records[0]) + rest;
      assert [records[0]] + records[1..] == records;
    }
  }

  /**
   * Reading the export's text back gives the header names and, for each
   * row, `String` of its value under each header, in header order: commas,
   * quotes and line breaks inside values survive the quoting.  This needs
   * at least one header, and header names free of `,` and line breaks
   * (they are written unquoted).
   */
  lemma CsvRoundTrip(data: seq<Row>)
    requires data != []
    requires |data[0]| >= 1
    requires forall i :: 0 <= i < |data[0]| ==> ',' !in data[0][i].key && '\n' !in data[0][i].key
    ensures var headers := Keys(data[0]);
      && CsvOf(data).Some?
      && ReadCsv(CsvOf(data).value) == Some((headers, seq(|data|, i requires 0 <= i < |data| => Cells(headers, data[i]))))
  {
    var headers := Keys(data[0]);
    var header := Join(headers, ',');
    var records := seq(|data|, i requires 0 <= i < |data| => Cells(headers, data[i]));
    var lines := seq(|data|, i requires 0 <= i < |data| => QuotedLine(Cells(headers, data[i])));
    var body := Join(lines, '\n');
    QuotedRecordsIsJoin(records, lines);
    var text := CsvOf(data).value;
    assert ([header] + lines)[1..] == lines;
    assert text == header + "\n" + body;
    JoinAvoids(headers, ',', '\n');
    IndexOfFirst(text, '\n', |header|);
    assert text[..|header|] == header;
    assert text[|header| + 1..] == body;
    SplitJoin(headers, ',');
    ReadRecordsOfLines(records);
  }

  /** With no rows there is no text. */
  lemma EmptyExport(data: seq<Row>)
    ensures CsvOf(data).None? <==> data == []
  {
  }

  /** The text is the header line and one line per row: exactly `|data|` line breaks when no value holds one. */
  lemma {:induction false} JoinLineCount(parts: seq<string>)
    requires forall i :: 0 <= i < |parts| ==> '\n' !in parts[i]
    ensures multiset(Join(parts, '\n'))['\n'] == if |parts| == 0 then 0 else |parts| - 1
  {
    if |parts| > 1 {
      JoinLineCount(parts[1..]);
      assert multiset(parts[0])['\n'] == 0;
    } else if |parts| == 1 {
      assert multiset(parts[0])['\n'] == 0;
    }
  }

  // ---------------------------------------------------------------------
  // Row mappers and file names
  // ---------------------------------------------------------------------

  /** `$${item.revenue || 0}`: the revenue after a dollar sign, `$0` when it is missing or zero. */
  function RevenueText(revenue: JsValue): (text: string)
    ensures Falsy(revenue) ==> text == "$0"
    ensures !Falsy(revenue) ==> text == "$" + JsString(revenue)
  {
    "$" + JsString(Or(revenue, Int(0)))
  }

  /** An object literal: the keys in the order written, with their values. */
  function Zip(keys: seq<string>, values: seq<JsValue>): (row: Row)
    requires |values| == |keys|
    ensures Keys(row) == keys
    ensures |row| == |keys| && forall i :: 0 <= i < |keys| ==> row[i] == Field(keys[i], values[i])
  {
    seq(|keys|, i requires 0 <= i < |keys| => Field(keys[i], values[i]))
  }

  predicate Distinct(keys: seq<string>) {
    forall i, j :: 0 <= i < j < |keys| ==> keys[i] != keys[j]
  }

  /** `String` of each value. */
  function Strings(values: seq<JsValue>): (r: seq<string>)
    ensures |r| == |values|
  {
    seq(|values|, j requires 0 <= j < |values| => JsString(values[j]))
  }

  /** An object literal with distinct keys yields under each key the value written with it. */
  lemma {:induction false} GetZip(keys: seq<string>, values: seq<JsValue>, j: nat)
    requires |values| == |keys| && Distinct(keys) && j < |keys|
    ensures Get(Zip(keys, values), keys[j]) == values[j]
  {
    if j > 0 {
      var row := Zip(keys, values);
      assert row[0].key != keys[j];
      assert row[1..] == Zip(keys[1..], values[1..]) by {
        var tail := Zip(keys[1..], values[1..]);
        forall i | 0 <= i < |tail| ensures row[1..][i] == tail[i] {
        }
      }
      GetZip(keys[1..], values[1..], j - 1);
    }
  }

  /** The cells of an object literal under its own keys are `String` of its values. */
  lemma ZipCells(keys: seq<string>, values: seq<JsValue>)
    requires |values| == |keys| && Distinct(keys)
    ensures Cells(keys, Zip(keys, values)) == Strings(values)
  {
    forall j | 0 <= j < |keys| ensures Cells(keys, Zip(keys, values))[j] == Strings(values)[j] {
      GetZip(keys, values, j);
    }
  }

  const MonthlyHeaders: seq<string> := ["Month", "Events", "Attendees", "Revenue"]
  const CustomerHeaders: seq<string> := ["Rank", "Email", "Events Attended", "Lifetime Value"]
  const EventHeaders: seq<string> := ["Name", "Status", "Start", "Capacity", "Is Free", "URL"]
  const AttendeeHeaders: seq<string> := ["First Name", "Last Name", "Email", "Ticket Type", "Status", "Created Date"]

  /** `exportMonthlyTrendsToCSV`'s values: month, events, attendees, and the revenue after a dollar sign. */
  function MonthlyValues(item: Row): (values: seq<JsValue>)
    ensures |values| == |MonthlyHeaders|
  {
    [Get(item, "month"), Get(item, "events"), Get(item, "attendees"), Str(RevenueText(Get(item, "revenue")))]
  }

  /** `exportCustomersToCSV`'s values for the customer at `index` (0-based): the rank comes first. */
  function CustomerValues(customer: Row, index: nat): (values: seq<JsValue>)
    ensures |values| == |CustomerHeaders|
    ensures values[0] == Int(index + 1)
  {
    [Int(index + 1), Get(customer, "email"), Get(customer, "events_attended"), Str("$" + JsString(Get(customer, "lifetime_value")))]
  }

  /** `exportEventsToCSV`'s values: `Yes` for a truthy free flag, `No` otherwise. */
  function EventValues(event: Row): (values: seq<JsValue>)
    ensures |values| == |EventHeaders|
    ensures values[4] == Str("Yes") <==> !Falsy(Get(event, "is_free"))
    ensures values[4] == Str("No") <==> Falsy(Get(event, "is_free"))
  {
    [ Get(event, "name"), Get(event, "status"), Get(event, "start"), Get(event, "capacity"),
      Str(if Falsy(Get(event, "is_free")) then "No" else "Yes"), Get(event, "url") ]
  }

  /** `exportAttendeesToCSV`'s values. */
  function AttendeeValues(attendee: Row): (values: seq<JsValue>)
    ensures |values| == |AttendeeHeaders|
  {
    [ Get(attendee, "first_name"), Get(attendee, "last_name"), Get(attendee, "email"),
      Get(attendee, "ticket_class_name"), Get(attendee, "status"), Get(attendee, "created") ]
  }

  /** `list.map(item => ({ … }))` for one table: the object literal of each item's values. */
  function Tabulated(headers: seq<string>, values: seq<seq<JsValue>>): (data: seq<Row>)
    requires forall i :: 0 <= i < |values| ==> |values[i]| == |headers|
    ensures |data| == |values|
    ensures forall i :: 0 <= i < |values| ==> data[i] == Zip(headers, values[i])
  {
    seq(|values|, i requires 0 <= i < |values| => Zip(headers, values[i]))
  }

  function MonthlyRows(trends: seq<Row>): (values: seq<seq<JsValue>>)
    ensures |values| == |trends|
    ensures forall i :: 0 <= i < |trends| ==> values[i] == MonthlyValues(trends[i])
  {
    seq(|trends|, i requires 0 <= i < |trends| => MonthlyValues(trends[i]))
  }

  function CustomerRows(customers: seq<Row>): (values: seq<seq<JsValue>>)
    ensures |values| == |customers|
    ensures forall i :: 0 <= i < |customers| ==> values[i] == CustomerValues(customers[i], i)
  {
    seq(|customers|, i requires 0 <= i < |customers| => CustomerValues(customers[i], i))
  }

  function EventRows(events: seq<Row>): (values: seq<seq<JsValue>>)
    ensures |values| == |events|
    ensures forall i :: 0 <= i < |events| ==> values[i] == EventValues(events[i])
  {
    seq(|events|, i requires 0 <= i < |events| => EventValues(events[i]))
  }

  function AttendeeRows(attendees: seq<Row>): (values: seq<seq<JsValue>>)
    ensures |values| == |attendees|
    ensures forall i :: 0 <= i < |attendees| ==> values[i] == AttendeeValues(attendees[i])
  {
    seq(|attendees|, i requires 0 <= i < |attendees| => AttendeeValues(attendees[i]))
  }

  predicate IsAsciiAlnum(c: char) {
    'a' <= c <= 'z' || 'A' <= c <= 'Z' || '0' <= c <= '9'
  }

  function AsciiLower(c: char): char {
    if 'A' <= c <= 'Z' then (c as int - 'A' as int + 'a' as int) as char else c
  }

  /** `name.replace(/[^a-z0-9]/gi, '-').toLowerCase()`. */
  function Sanitize(name: string): string {
    seq(|name|, i requires 0 <= i < |name| => if IsAsciiAlnum(name[i]) then AsciiLower(name[i]) else '-')
  }

  predicate IsSafeChar(c: char) {
    'a' <= c <= 'z' || '0' <= c <= '9' || c == '-'
  }

  /**
   * The sanitised name keeps the length, holds only lower-case letters,
   * digits and `-`, has `-` exactly where the input has no ASCII letter or
   * digit, and sanitising again changes nothing.
   */
  lemma SanitizeProperties(name: string)
    ensures |Sanitize(name)| == |name|
    ensures forall i :: 0 <= i < |name| ==> IsSafeChar(Sanitize(name)[i])
    ensures forall i :: 0 <= i < |name| ==> (Sanitize(name)[i] == '-' <==> !IsAsciiAlnum(name[i]))
    ensures Sanitize(Sanitize(name)) == Sanitize(name)
  {
  }

  /** A download: the CSV text (none when there is no data) and the file name. */
  datatype Download = Download(text: Option<string>, filename: string)

  /** `exportToCSV(data, filename)`: the text and `${filename}.csv`. */
  function Export(data: seq<Row>, filename: string): Download {
    Download(CsvOf(data), filename + ".csv")
  }

  function ExportMonthlyTrends(trends: seq<Row>): Download {
    Export(Tabulated(MonthlyHeaders, MonthlyRows(trends)), "nova-monthly-trends")
  }

  function ExportCustomers(customers: seq<Row>): Download {
    Export(Tabulated(CustomerHeaders, CustomerRows(customers)), "nova-top-customers")
  }

  function ExportEvents(events: seq<Row>): Download {
    Export(Tabulated(EventHeaders, EventRows(events)), "nova-events")
  }

  function ExportAttendees(attendees: seq<Row>, eventName: string): Download {
    Export(Tabulated(AttendeeHeaders, AttendeeRows(attendees)), "nova-attendees-" + Sanitize(eventName))
  }

  /** Header names that can be written unquoted. */
  predicate PlainHeaders(headers: seq<string>) {
    |headers| >= 1 && Distinct(headers) && forall i :: 0 <= i < |headers| ==> ',' !in headers[i] && '\n' !in headers[i]
  }

  /** `String` of every value of every line. */
  function StringTable(values: seq<seq<JsValue>>): (table: seq<seq<string>>)
    ensures |table| == |values|
    ensures forall i :: 0 <= i < |values| ==> table[i] == Strings(values[i])
  {
    seq(|values|, i requires 0 <= i < |values| => Strings(values[i]))
  }

  /**
   * A mapped table reads back as its headers and, per item, `String` of each
   * of its values in header order.
   */
  lemma TabulatedRoundTrip(headers: seq<string>, values: seq<seq<JsValue>>)
    requires PlainHeaders(headers) && values != []
    requires forall i :: 0 <= i < |values| ==> |values[i]| == |headers|
    ensures var text := CsvOf(Tabulated(headers, values));
      && text.Some?
      && ReadCsv(text.value) == Some((headers, StringTable(values)))
  {
    var data := Tabulated(headers, values);
    CsvRoundTrip(data);
    forall i | 0 <= i < |values| ensures Cells(headers, data[i]) == Strings(values[i]) {
      ZipCells(headers, values[i]);
    }
    assert seq(|data|, i requires 0 <= i < |data| => Cells(Keys(data[0]), data[i])) == StringTable(values);
  }

  /**
   * The monthly-trends download is `nova-monthly-trends.csv`; it has no text
   * for no trends, and otherwise reads back as the monthly headers and each
   * trend's values as strings.
   */
  lemma MonthlyExportRoundTrip(trends: seq<Row>)
    ensures var d := ExportMonthlyTrends(trends);
      && d.filename == "nova-monthly-trends.csv"
      && (d.text.None? <==> trends == [])
      && (trends != [] ==> ReadCsv(d.text.value) == Some((MonthlyHeaders, StringTable(MonthlyRows(trends)))))
  {
    if trends != [] {
      MonthlyHeadersPlain();
      TabulatedRoundTrip(MonthlyHeaders, MonthlyRows(trends));
    }
  }

  /** The customers download, `nova-top-customers.csv`, read back. */
  lemma CustomerExportRoundTrip(customers: seq<Row>)
    ensures var d := ExportCustomers(customers);
      && d.filename == "nova-top-customers.csv"
      && (d.text.None? <==> customers == [])
      && (customers != [] ==> ReadCsv(d.text.value) == Some((CustomerHeaders, StringTable(CustomerRows(customers)))))
  {
    if customers != [] {
      CustomerHeadersPlain();
      TabulatedRoundTrip(CustomerHeaders, CustomerRows(customers));
    }
  }

  /** The events download, `nova-events.csv`, read back. */
  lemma EventExportRoundTrip(events: seq<Row>)
    ensures var d := ExportEvents(events);
      && d.filename == "nova-events.csv"
      && (d.text.None? <==> events == [])
      && (events != [] ==> ReadCsv(d.text.value) == Some((EventHeaders, StringTable(EventRows(events)))))
  {
    if events != [] {
      EventHeadersPlain();
      TabulatedRoundTrip(EventHeaders, EventRows(events));
    }
  }

  /**
   * The attendees download is named after the sanitised event name; it reads
   * back as the attendee headers and each attendee's values as strings.
   */
  lemma AttendeeExportRoundTrip(attendees: seq<Row>, eventName: string)
    ensures var d := ExportAttendees(attendees, eventName);
      && d.filename == "nova-attendees-" + Sanitize(eventName) + ".csv"
      && (d.text.None? <==> attendees == [])
      && (attendees != [] ==> ReadCsv(d.text.value) == Some((AttendeeHeaders, StringTable(AttendeeRows(attendees)))))
  {
    if attendees != [] {
      AttendeeHeadersPlain();
      TabulatedRoundTrip(AttendeeHeaders, AttendeeRows(attendees));
    }
  }

  /** Keys of pairwise different lengths are distinct. */
  lemma DistinctByLength(keys: seq<string>)
    requires forall i, j :: 0 <= i < j < |keys| ==> |keys[i]| != |keys[j]|
    ensures Distinct(keys)
  {
  }

  /** A header name made of letters and spaces needs no quoting. */
  predicate IsNameChar(c: char) {
    'a' <= c <= 'z' || 'A' <= c <= 'Z' || c == ' '
  }

  lemma NamesPlain(headers: seq<string>)
    requires |headers| >= 1
    requires forall i, j :: 0 <= i < j < |headers| ==> |headers[i]| != |headers[j]|
    requires forall i, k :: 0 <= i < |headers| && 0 <= k < |headers[i]| ==> IsNameChar(headers[i][k])
    ensures PlainHeaders(headers)
  {
    DistinctByLength(headers);
    forall i | 0 <= i < |headers| ensures ',' !in headers[i] && '\n' !in headers[i] {
      assert forall k :: 0 <= k < |headers[i]| ==> IsNameChar(headers[i][k]);
    }
  }

  lemma MonthlyHeadersPlain()
    ensures PlainHeaders(MonthlyHeaders)
  {
    NamesPlain(MonthlyHeaders);
  }

  lemma CustomerHeadersPlain()
    ensures PlainHeaders(CustomerHeaders)
  {
    NamesPlain(CustomerHeaders);
  }

  lemma EventHeadersPlain()
    ensures PlainHeaders(EventHeaders)
  {
    NamesPlain(EventHeaders);
  }

  lemma AttendeeHeadersPlain()
    ensures PlainHeaders(AttendeeHeaders)
  {
    NamesPlain(AttendeeHeaders);
  }
}
