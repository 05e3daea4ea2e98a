# Notion report generator — the report pipeline in Dafny

This project models the report pipeline of a small tool. The tool reads a day's
shift report from a Notion database. It looks the report page up by its
creation date and requires exactly one match. It checks the page's mandatory
properties (date, then shift) and fills in defaults for the optional ones
(comments, visits, colleagues). It normalises every row of the report's
sub-database the same way (name, then yard, are mandatory). The result is a
`Report` with the date written `yyyy.mm.dd` and the participants: the
colleagues, then the author.

Modules, one per concern:

- `Wrappers` (wrappers.dfy): `Option` and `Result`.
- `Records` (records.dfy): the raw Notion property wrappers of a report page
  and of a sub-database row, the errors the code raises, and the option-name
  mapping of a multi-select.
- `Dates` (dates.dfy): dates as (day, month, year) triples, their
  zero-padded `yyyy<sep>mm<sep>dd` layout, and its parser with both
  round trips.
- `NotionConnection` (notion_connection.dfy): `Connection.__init__`'s
  default headers, the query `report_info_from_date` posts, and the
  exactly-one selection over its results.
- `ReportManager` (report_manager.dfy): `obtain_report`, the info
  normalisation, the per-row `_filter_content`, and its map over the rows.
- `Reports` (report.dfy): the manager configuration and `Report.__init__`.

Things the code does that are outside Dafny are parameters. The database's
answer to a query is a function `respond` from the `Query` to the list of
result pages. The sub-database rows of a page are a function `contentOf` from
the page id. The class-level `ReportManager.cxn` / `author` singleton is an
explicit `Manager` value.

Colleagues are an ordered list. Visits are the text of the first run of one
rich-text property. The code reads only the first page of query results and
does not split the sub-database or render anything.

## Model

| member | source | states |
|---|---|---|
| Records.Names | code/report.py:76-79 | the colleagues list has one name per multi-select option, in the options' order (empty for an empty multi-select) |
| Records.NamesAppend | code/report.py:79 | the name mapping distributes over concatenation of option lists |
| Records.NamesOptionsRoundTrip | code/report.py:76-79 | reading names back from the options built from them gives the same names |
| Dates.PadValue | code/notion_connection.py:53 | a zero-padded field of a number that fits reads back as that number |
| Dates.DigitsPad | code/notion_connection.py:53 | every digit string is the zero-padding of its own value |
| Dates.YearFirst | code/notion_connection.py:53 | the reformatted date has ten characters with the separator at positions 4 and 7 |
| Dates.YearFirstRoundTrip | code/notion_connection.py:52-53 | reformatting a valid date and parsing the result gives the date back |
| Dates.ParseYearFirstExact | code/notion_connection.py:52-53 | every string that parses as a date is exactly that date's reformatting |
| Dates.YearFirstInjective | code/report.py:159 | distinct valid dates are reformatted differently |
| Dates.YearFirstExample | code/report.py:159 | 10/05/2024 is written `2024.05.10` |
| NotionConnection.NewConnection | code/notion_connection.py:9-26 | keeps token and database id; default headers are exactly Notion-Version `2021-08-16` and an Authorization carrying `Bearer ` followed by the token |
| NotionConnection.QueryHeaders | code/notion_connection.py:49-50 | query headers are the defaults' keys plus Content-Type, Content-Type is `application/json`, every other default is copied unchanged |
| NotionConnection.BuildQuery | code/notion_connection.py:47-62 | the query goes to the database's query URL with the query headers, and filters property `Día` on a `created_time` equal to the date written `yyyy-mm-dd` |
| NotionConnection.SelectUnique | code/notion_connection.py:66-72 | zero results is "no report", more than one is "more than one report", and exactly one result returns that element unchanged (each an if-and-only-if) |
| NotionConnection.SelectUniqueSingleton | code/notion_connection.py:66-72 | a result list yields `x` exactly when it is the one-element list `[x]` |
| NotionConnection.SelectUniqueConcat | code/notion_connection.py:68-69 | two non-empty result lists together always fail with "more than one report" |
| NotionConnection.ReportInfoFromDate | code/notion_connection.py:28-72 | the report page is the single result of the date's query; zero results and several results fail with their distinct errors |
| ReportManager.NormalizeInfo | code/report.py:63-91 | a missing date fails with "no date" even when the shift is missing too; a missing shift fails with "no shift"; success exactly when both are set; comments and visits are the first run's text or `""`; colleagues have the option names in order and the same length |
| ReportManager.FilterEntry | code/report.py:95-127 | an empty title fails with "no name"; a title without yard fails with "no yard"; success exactly when both are set; name and yard come from the first title run and the select; observations, important and state are the first run's text or select name, `""` when the wrapper is empty |
| ReportManager.FilterContent | code/report.py:129 | the content list succeeds exactly when every row does, keeps length and order with `output[i]` the normalisation of row `i`, and otherwise fails with the error of the first failing row |
| ReportManager.FilterContentAppend | code/report.py:129 | normalising a concatenation of row lists is the concatenation of the normalised lists, the first list's failure taking precedence |
| ReportManager.InfoRoundTrip | code/report.py:71-91 | every info record is the normalisation of a page built from it, so normalisation loses nothing it keeps |
| ReportManager.EntryRoundTrip | code/report.py:104-125 | every entry record is the normalisation of a row built from it |
| ReportManager.ContentRoundTrip | code/report.py:129 | rows built from a list of entries normalise back to that list |
| ReportManager.ObtainReport | code/report.py:61-131 | lookup errors come first, then the info errors, then the first failing row's error; otherwise the result is the normalised info and the content, one entry per row |
| ReportManager.ObtainReportAsWritten | code/report.py:61-93 | as the code is written, lookup and info errors come first as in the corrected model, and once the info checks pass it fails on the missing content method |
| ReportManager.AsWrittenNeverSucceeds | code/report.py:93 | as the code is written, obtaining a report never succeeds, whatever the database holds |
| ReportManager.AsWrittenNeverObtains | code/report.py:93 | for a database holding one well-formed report, the code as written fails while the model with the content supplied succeeds |
| Reports.Initialize | code/report.py:24-37 | initialising sets a connection that keeps the token and database id, whose default headers are exactly Notion-Version `2021-08-16` and a bearer Authorization carrying the token, and records the author |
| Reports.Participants | code/report.py:163 | participants are the colleagues in order followed by the author: length one more, author last, nobody else |
| Reports.NewReport | code/report.py:153-165 | an uninitialised manager fails; otherwise any error of obtaining the report propagates; on success the date parses back as the requested date written `yyyy.mm.dd`, shift, comments and content are the obtained ones, and participants are the colleagues followed by the author |
| Reports.NewReportExample | code/report.py:153-165 | a report of 10/05/2024 with colleague Ana and row Tom gives date `2024.05.10`, participants Ana then the author, and the one normalised entry |

## Left out

- Network I/O (`requests.post(...).json()["results"]`, code/notion_connection.py:64): the results list is the `respond` parameter's answer to the built query.
- `report_content_from_id` (code/notion_connection.py:74-76) is a `TODO` stub nested after a `return`, so it has no behaviour; the content rows are the `contentOf` parameter.
- `Report.write` (code/report.py:167-169) is an unimplemented `TODO`; no rendering, status counts, grouping, pagination or shift-hour table exists in the code.
- `Report.__str__` (code/report.py:171-173): it depends on Python's list formatting.
- Python `KeyError` on a missing property key or a missing `start`/`name`/`plain_text` key: every property is a field of the raw record, so only its value may be empty.
- A falsy wrapper (`None` or `{}`) is `None` for a date or select and the empty sequence for rich text, title or multi-select.
- NotionConnection.BuildQuery: requires a valid (day, month, year) triple instead of parsing the `dd/mm/yyyy` string; `strptime`'s `ValueError` on a malformed string is not modelled.
- NotionConnection.ReportInfoFromDate: requires a valid date triple, for the same reason.
- ReportManager.ObtainReport: requires a valid date triple, for the same reason.
- ReportManager.ObtainReportAsWritten: requires a valid date triple, for the same reason.
- Reports.NewReport: requires a valid date triple, for the same reason.
- Dates.YearFirst: always pads the year to four digits; Python's `strftime("%Y")` on some platforms writes years below 1000 without padding.
- Reports.NewReport: its success case is built on the corrected `ReportManager.ObtainReport`; as written, `Report.__init__` (code/report.py:156) never succeeds, because `obtain_report` fails on the missing `report_content_from_id` (see `ReportManager.AsWrittenNeverSucceeds`).
- Reports.Initialize: the `database_id` argument is kept only as the connection's database id; nothing else reads it.

## Findings

| source | as written | input that shows it | evidently intended | confidence | as-written member | corrected member |
|---|---|---|---|---|---|---|
| code/report.py:93 | `obtain_report` calls `cls.cxn.report_content_from_id`, but that function is defined inside `report_info_from_date` after its `return` (code/notion_connection.py:74-76), so `Connection` has no such attribute and the call raises | any date for which the database holds exactly one report with date and shift set | fetch the rows of the report's sub-database by the page id and normalise them | high (indentation error, read from the text); not executed | ReportManager.ObtainReportAsWritten | ReportManager.ObtainReport |
