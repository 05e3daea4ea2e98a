/** The `Report` wrapper class and the manager configuration it reads
    (code/report.py).

    The class-level `cxn` and `author` of `ReportManager` are an explicit
    `Manager` value passed to the constructor instead of global state. */
module Reports {
  import opened Wrappers
  import opened Records
  import opened Dates
  import NotionConnection
  import ReportManager

  /** The manager configuration: the connection, unset until `initialize`
      runs, and the reports' author. */
  datatype Manager = Manager(cxn: Option<NotionConnection.Connection>, author: string)

  /** A report: its date written `yyyy.mm.dd`, its shift, the people who
      took part, the comments and the normalised content rows. */
  datatype Report = Report(
    date: string,
    shift: string,
    participants: seq<string>,
    comments: string,
    content: seq<ReportManager.Entry>
  )

  /** `ReportManager.initialize`: opens a connection and records the author. */
  function Initialize(author: string, apiToken: string, databaseId: string): (m: Manager)
    ensures m.cxn.Some? && m.author == author
    ensures m.cxn.value.apiToken == apiToken && m.cxn.value.databaseId == databaseId
    ensures m.cxn.value.defHeader.Keys == {"Notion-Version", "Authorization"}
    ensures m.cxn.value.defHeader["Notion-Version"] == NotionConnection.NotionVersion
    ensures NotionConnection.BearerToken(m.cxn.value.defHeader["Authorization"]) == Some(apiToken)
  {
    Manager(Some(NotionConnection.NewConnection(apiToken, databaseId)), author)
  }

  /** The people who took part: the colleagues in their order, then the
      author. */
  function Participants(colleagues: seq<string>, author: string): (p: seq<string>)
    ensures |p| == |colleagues| + 1
    ensures p[..|colleagues|] == colleagues
    ensures p[|colleagues|] == author
    ensures forall x :: x in p <==> x in colleagues || x == author
  {
    colleagues + [author]
  }

  /** `Report.__init__`: refuses an uninitialised manager, obtains the
      report, and keeps the date as `yyyy.mm.dd`, the shift, the
      participants, the comments and the content. */
  function NewReport(
    m: Manager, date: Date,
    respond: NotionConnection.Query -> seq<RawReport>,
    contentOf: string -> seq<RawEntry>): (r: Result<Report, Error>)
    requires Valid(date)
    ensures m.cxn.None? ==> r == Failure(NotInitialized)
    ensures m.cxn.Some? ==>
      var obtained := ReportManager.ObtainReport(m.cxn.value, date, respond, contentOf);
      && (obtained.Failure? ==> r == Failure(obtained.error))
      && (obtained.Success? ==>
            && r.Success?
            && r.value.shift == obtained.value.info.shift
            && r.value.comments == obtained.value.info.comments
            && r.value.content == obtained.value.content
            && |r.value.participants| == |obtained.value.info.colleagues| + 1
            && r.value.participants[..|obtained.value.info.colleagues|] == obtained.value.info.colleagues)
    ensures r.Success? ==>
      && ParseYearFirst(r.value.date, '.') == Some(date)
      && r.value.participants[|r.value.participants| - 1] == m.author
  {
    if m.cxn.None? then Failure(NotInitialized)
    else
      var obtained :- ReportManager.ObtainReport(m.cxn.value, date, respond, contentOf);
      YearFirstRoundTrip(date, '.');
      Success(Report(
        date := YearFirst(date, '.'),
        shift := obtained.info.shift,
        participants := Participants(obtained.info.colleagues, m.author),
        comments := obtained.info.comments,
        content := obtained.content))
  }

  /** A report dated 10/05/2024 on the morning shift with one colleague,
      "Ana", and one row, "Tom": it is dated `2024.05.10` and lists Ana and
      then the author. */
  lemma NewReportExample(
    author: string,
    respond: NotionConnection.Query -> seq<RawReport>,
    contentOf: string -> seq<RawEntry>)
    requires respond(NotionConnection.BuildQuery(NotionConnection.NewConnection("token", "db"), Date(10, 5, 2024))) ==
      [RawReport("page", ReportManager.InfoProps(ReportManager.ReportInfo("2024-05-10", "Mañana", "Good", ["Ana"], "ok")))]
    requires contentOf("page") == [ReportManager.EntryRow(ReportManager.Entry("Tom", "1", "Baja", "", ""))]
    ensures NewReport(Initialize(author, "token", "db"), Date(10, 5, 2024), respond, contentOf) ==
      Success(Report("2024.05.10", "Mañana", ["Ana", author], "ok", [ReportManager.Entry("Tom", "1", "Baja", "", "")]))
  {
    var m := Initialize(author, "token", "db");
    var date := Date(10, 5, 2024);
    var info := ReportManager.ReportInfo("2024-05-10", "Mañana", "Good", ["Ana"], "ok");
    var e := ReportManager.Entry("Tom", "1", "Baja", "", "");
    ReportManager.InfoRoundTrip(info);
    ReportManager.EntryRoundTrip(e);
    var content := ReportManager.FilterContent([ReportManager.EntryRow(e)]);
    assert content.Success? && |content.value| == 1 && content.value[0] == e;
    assert content.value == [e];
    assert ReportManager.ObtainReport(m.cxn.value, date, respond, contentOf) ==
      Success(ReportManager.Obtained(info, [e]));
    YearFirstExample();
    assert Participants(["Ana"], author) == ["Ana", author];
  }
}
