/** The raw shapes of the Notion records the report code reads, and the
    errors it raises.

    A Notion page carries a `properties` mapping from property name to a
    typed wrapper. Only the properties the code reads are modelled, each as a
    field of its own, so an absent key (a Python `KeyError`) cannot arise;
    only the wrapper's value may be empty. */
module Records {
  import opened Wrappers

  /** One run of a rich-text or title property. */
  datatype RichText = RichText(plainText: string)

  /** The value of a select, or one option of a multi-select. */
  datatype SelectOption = SelectOption(name: string)

  /** The value of a date property. */
  datatype DateValue = DateValue(start: string)

  /** The properties of a top-level report page. */
  datatype ReportProps = ReportProps(
    day: Option<DateValue>,             // "Día" / date
    shift: Option<SelectOption>,        // "Horario" / select
    comments: seq<RichText>,            // "Comentarios importantes" / rich_text
    colleagues: seq<SelectOption>,      // "Compañeros" / multi_select
    visits: seq<RichText>               // "Visitas" / rich_text
  )

  /** A report page as returned by a database query. */
  datatype RawReport = RawReport(id: string, properties: ReportProps)

  /** The properties of one row of a report's sub-database. */
  datatype EntryProps = EntryProps(
    name: seq<RichText>,                // "Nombre" / title
    yard: Option<SelectOption>,         // "Patio" / select
    observations: seq<RichText>,        // "Observaciones" / rich_text
    important: seq<RichText>,           // "Importante" / rich_text
    state: Option<SelectOption>         // "Estado" / select
  )

  /** One row of a report's sub-database. */
  datatype RawEntry = RawEntry(properties: EntryProps)

  /** The exceptions the core raises, one constructor per message. */
  datatype Error =
    | NoReport            // no report written on that date
    | MoreThanOneReport   // more than one report within the same date
    | NoDate              // the report has no date
    | NoShift             // the report has no shift selected
    | NoName              // some entry has no name
    | NoYard              // some entry has no yard
    | NotInitialized      // the manager has to be initialised first
    | NoContentMethod     // the connection has no `report_content_from_id`

  /** The text of an optional rich-text property: the first run's text, or
      the empty string when there is no run. */
  function FirstText(runs: seq<RichText>): string {
    if |runs| == 0 then "" else runs[0].plainText
  }

  /** The name of an optional select, or the empty string when it is unset. */
  function SelectName(o: Option<SelectOption>): string {
    match o
    case None => ""
    case Some(opt) => opt.name
  }

  /** The option names of a multi-select, in their original order. */
  function Names(opts: seq<SelectOption>): (r: seq<string>)
    ensures |r| == |opts|
    ensures forall i :: 0 <= i < |opts| ==> r[i] == opts[i].name
  {
    if |opts| == 0 then [] else [opts[0].name] + Names(opts[1..])
  }

  /** The multi-select whose option names are `names`; the inverse of `Names`. */
  function Options(names: seq<string>): (r: seq<SelectOption>)
    ensures |r| == |names|
    ensures forall i :: 0 <= i < |names| ==> r[i].name == names[i]
  {
    if |names| == 0 then [] else [SelectOption(names[0])] + Options(names[1..])
  }

  /** Reading the names back from `Options` gives the names it was built
      from. */
  lemma NamesOptionsRoundTrip(names: seq<string>)
    ensures Names(Options(names)) == names
  {
  }

  /** The names of a concatenation are the concatenated names. */
  lemma NamesAppend(a: seq<SelectOption>, b: seq<SelectOption>)
    ensures Names(a + b) == Names(a) + Names(b)
  {
  }
}
