/** `ReportManager.obtain_report` (code/report.py): looks a report up by date,
    checks its mandatory properties, fills in defaults for the optional ones,
    and normalises every row of its sub-database the same way. */
module ReportManager {
  import opened Wrappers
  import opened Records
  import opened Dates
  import NotionConnection

  /** The flat `info` record of a report. */
  datatype ReportInfo = ReportInfo(
    date: string,
    shift: string,
    visits: string,
    colleagues: seq<string>,
    comments: string
  )

  /** The flat record of one row of the report's sub-database. */
  datatype Entry = Entry(
    name: string,
    yard: string,
    state: string,
    observations: string,
    important: string
  )

  /** What `obtain_report` returns: the info record and the content list. */
  datatype Obtained = Obtained(info: ReportInfo, content: seq<Entry>)

  /** The report-info normalisation: the date, then the shift, must be set;
      comments and visits are the first run's text or empty; colleagues are
      the option names or empty. */
  function NormalizeInfo(p: ReportProps): (r: Result<ReportInfo, Error>)
    ensures p.day.None? ==> r == Failure(NoDate)
    ensures p.day.Some? && p.shift.None? ==> r == Failure(NoShift)
    ensures r.Success? <==> p.day.Some? && p.shift.Some?
    ensures r.Success? ==>
      && r.value.date == p.day.value.start
      && r.value.shift == p.shift.value.name
    ensures r.Success? ==>
      && (|p.comments| == 0 ==> r.value.comments == "")
      && (|p.comments| > 0 ==> r.value.comments == p.comments[0].plainText)
      && (|p.visits| == 0 ==> r.value.visits == "")
      && (|p.visits| > 0 ==> r.value.visits == p.visits[0].plainText)
    ensures r.Success? ==>
      && |r.value.colleagues| == |p.colleagues|
      && (forall i :: 0 <= i < |p.colleagues| ==> r.value.colleagues[i] == p.colleagues[i].name)
  {
    if p.day.None? then Failure(NoDate)
    else if p.shift.None? then Failure(NoShift)
    else
      Success(ReportInfo(
        date := p.day.value.start,
        shift := p.shift.value.name,
        visits := FirstText(p.visits),
        colleagues := Names(p.colleagues),
        comments := FirstText(p.comments)))
  }

  /** `_filter_content`: the name, then the yard, must be set; observations
      and important are the first run's text or empty, state the select's
      name or empty. */
  function FilterEntry(e: RawEntry): (r: Result<Entry, Error>)
    ensures |e.properties.name| == 0 ==> r == Failure(NoName)
    ensures |e.properties.name| > 0 && e.properties.yard.None? ==> r == Failure(NoYard)
    ensures r.Success? <==> |e.properties.name| > 0 && e.properties.yard.Some?
    ensures r.Success? ==>
      && r.value.name == e.properties.name[0].plainText
      && r.value.yard == e.properties.yard.value.name
    ensures r.Success? ==>
      && (|e.properties.observations| == 0 ==> r.value.observations == "")
      && (|e.properties.observations| > 0 ==> r.value.observations == e.properties.observations[0].plainText)
      && (|e.properties.important| == 0 ==> r.value.important == "")
      && (|e.properties.important| > 0 ==> r.value.important == e.properties.important[0].plainText)
      && (e.properties.state.None? ==> r.value.state == "")
      && (e.properties.state.Some? ==> r.value.state == e.properties.state.value.name)
  {
    var props := e.properties;
    if |props.name| == 0 then Failure(NoName)
    else if props.yard.None? then Failure(NoYard)
    else
      Success(Entry(
        name := props.name[0].plainText,
        yard := props.yard.value.name,
        state := SelectName(props.state),
        observations := FirstText(props.observations),
        important := FirstText(props.important)))
  }

  /** `k` is the first entry of `es` that fails to normalise. */
  predicate IsFirstFailure(es: seq<RawEntry>, k: int) {
    && 0 <= k < |es|
    && FilterEntry(es[k]).Failure?
    && forall j :: 0 <= j < k ==> FilterEntry(es[j]).Success?
  }

  /** The content list: every entry normalised, in order; the first entry
      that fails aborts the whole list with its error. */
  function FilterContent(es: seq<RawEntry>): (r: Result<seq<Entry>, Error>)
    ensures r.Success? <==> forall i :: 0 <= i < |es| ==> FilterEntry(es[i]).Success?
    ensures r.Success? ==>
      && |r.value| == |es|
      && forall i :: 0 <= i < |es| ==> FilterEntry(es[i]) == Success(r.value[i])
    ensures r.Failure? ==>
      exists k :: IsFirstFailure(es, k) && r.error == FilterEntry(es[k]).error
  {
    if |es| == 0 then Success([])
    else
      match FilterEntry(es[0])
      case Failure(err) =>
        assert IsFirstFailure(es, 0);
        Failure(err)
      case Success(head) =>
        match FilterContent(es[1..])
        case Failure(err) =>
          var k :| IsFirstFailure(es[1..], k) && err == FilterEntry(es[1..][k]).error;
          assert IsFirstFailure(es, k + 1);
          Failure(err)
        case Success(tail) =>
          Success([head] + tail)
  }

  /** Normalising a concatenation: the first part's failure wins, then the
      second part's; otherwise the normalised parts are concatenated. */
  lemma {:induction false} FilterContentAppend(a: seq<RawEntry>, b: seq<RawEntry>)
    ensures FilterContent(a + b) ==
      match FilterContent(a)
      case Failure(e) => Failure(e)
      case Success(xs) =>
        match FilterContent(b)
        case Failure(e) => Failure(e)
        case Success(ys) => Success(xs + ys)
  {
    if |a| == 0 {
      assert a + b == b;
      assert FilterContent(a) == Success([]);
      match FilterContent(b)
      case Failure(_) =>
      case Success(ys) =>
        assert [] + ys == ys;
    } else {
      assert (a + b)[0] == a[0];
      assert (a + b)[1..] == a[1..] + b;
      FilterContentAppend(a[1..], b);
      match FilterEntry(a[0])
      case Failure(_) =>
      case Success(head) =>
        match FilterContent(a[1..])
        case Failure(_) =>
        case Success(xs) =>
          match FilterContent(b)
          case Failure(_) =>
          case Success(ys) =>
            assert [head] + (xs + ys) == ([head] + xs) + ys;
    }
  }

  /** The raw page properties a normalised info record comes from, with
      one run or option per non-empty value. */
  function InfoProps(info: ReportInfo): ReportProps {
    ReportProps(
      day := Some(DateValue(info.date)),
      shift := Some(SelectOption(info.shift)),
      comments := TextRuns(info.comments),
      colleagues := Options(info.colleagues),
      visits := TextRuns(info.visits))
  }

  /** The raw row a normalised entry comes from. */
  function EntryRow(e: Entry): RawEntry {
    RawEntry(EntryProps(
      name := [RichText(e.name)],
      yard := Some(SelectOption(e.yard)),
      observations := TextRuns(e.observations),
      important := TextRuns(e.important),
      state := if e.state == "" then None else Some(SelectOption(e.state))))
  }

  /** An optional rich-text value: no run for the empty string. */
  function TextRuns(s: string): seq<RichText> {
    if s == "" then [] else [RichText(s)]
  }

  /** Every info record is the normalisation of the page built from it. */
  lemma InfoRoundTrip(info: ReportInfo)
    ensures NormalizeInfo(InfoProps(info)) == Success(info)
  {
    NamesOptionsRoundTrip(info.colleagues);
  }

  /** Every entry record is the normalisation of the row built from it. */
  lemma EntryRoundTrip(e: Entry)
    ensures FilterEntry(EntryRow(e)) == Success(e)
  {
  }

  /** Rows built from entries normalise back to those entries, as a list. */
  lemma {:induction false} ContentRoundTrip(content: seq<Entry>)
    ensures FilterContent(seq(|content|, i requires 0 <= i < |content| => EntryRow(content[i]))) == Success(content)
  {
    var rows := seq(|content|, i requires 0 <= i < |content| => EntryRow(content[i]));
    forall i | 0 <= i < |content|
      ensures FilterEntry(rows[i]) == Success(content[i])
    {
      EntryRoundTrip(content[i]);
    }
    var r := FilterContent(rows);
    assert r.Success?;
    assert forall i :: 0 <= i < |content| ==> r.value[i] == content[i];
    assert r.value == content;
  }

  /** `obtain_report`, with the sub-database's rows supplied by `contentOf`
      from the report page's id: the lookup, then the info checks, then the
      content checks; the first failure aborts. */
  function ObtainReport(
    c: NotionConnection.Connection, date: Date,
    respond: NotionConnection.Query -> seq<RawReport>,
    contentOf: string -> seq<RawEntry>): (r: Result<Obtained, Error>)
    requires Valid(date)
    ensures var found := NotionConnection.ReportInfoFromDate(c, date, respond);
      && (found.Failure? ==> r == Failure(found.error))
      && (found.Success? && NormalizeInfo(found.value.properties).Failure? ==>
            r == Failure(NormalizeInfo(found.value.properties).error))
      && (found.Success? && NormalizeInfo(found.value.properties).Success? ==>
            && (FilterContent(contentOf(found.value.id)).Failure? ==>
                  r == Failure(FilterContent(contentOf(found.value.id)).error))
            && (FilterContent(contentOf(found.value.id)).Success? ==>
                  r == Success(Obtained(NormalizeInfo(found.value.properties).value,
                                        FilterContent(contentOf(found.value.id)).value))))
    ensures r.Success? ==> |r.value.content| == |contentOf(NotionConnection.ReportInfoFromDate(c, date, respond).value.id)|
  {
    var page :- NotionConnection.ReportInfoFromDate(c, date, respond);
    var info :- NormalizeInfo(page.properties);
    var content :- FilterContent(contentOf(page.id));
    Success(Obtained(info, content))
  }

  /** `obtain_report` as the code is written: `report_content_from_id` is
      declared inside `report_info_from_date`, after its `return`, so it is
      not an attribute of the connection and fetching the content always
      raises once the info checks pass. */
  function ObtainReportAsWritten(
    c: NotionConnection.Connection, date: Date,
    respond: NotionConnection.Query -> seq<RawReport>): (r: Result<Obtained, Error>)
    requires Valid(date)
    ensures var found := NotionConnection.ReportInfoFromDate(c, date, respond);
      && (found.Failure? ==> r == Failure(found.error))
      && (found.Success? && NormalizeInfo(found.value.properties).Failure? ==>
            r == Failure(NormalizeInfo(found.value.properties).error))
      && (found.Success? && NormalizeInfo(found.value.properties).Success? ==>
            r == Failure(NoContentMethod))
  {
    var page :- NotionConnection.ReportInfoFromDate(c, date, respond);
    var info :- NormalizeInfo(page.properties);
    Failure(NoContentMethod)
  }

  /** As written, `obtain_report` never returns a report. */
  lemma AsWrittenNeverSucceeds(
    c: NotionConnection.Connection, date: Date,
    respond: NotionConnection.Query -> seq<RawReport>)
    requires Valid(date)
    ensures ObtainReportAsWritten(c, date, respond).Failure?
  {
  }

  /** A database holding one well-formed report for the date and no rows:
      the code as written fails, the model with the content supplied
      succeeds. */
  lemma AsWrittenNeverObtains()
    ensures var c := NotionConnection.NewConnection("token", "db");
      var date := Date(10, 5, 2024);
      var page := RawReport("page", InfoProps(ReportInfo("2024-05-10", "Mañana", "", [], "")));
      var respond := (q: NotionConnection.Query) => [page];
      && ObtainReportAsWritten(c, date, respond) == Failure(NoContentMethod)
      && ObtainReport(c, date, respond, (id: string) => []) ==
           Success(Obtained(ReportInfo("2024-05-10", "Mañana", "", [], ""), []))
  {
    var c := NotionConnection.NewConnection("token", "db");
    var date := Date(10, 5, 2024);
    var info := ReportInfo("2024-05-10", "Mañana", "", [], "");
    var page := RawReport("page", InfoProps(info));
    var respond := (q: NotionConnection.Query) => [page];
    InfoRoundTrip(info);
    assert NotionConnection.ReportInfoFromDate(c, date, respond) == Success(page);
  }
}
