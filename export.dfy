/** The CSV export (app/api/export/route.ts): a fixed header row, then one row
    per implication of every analysis, ordered by analysis and then by
    implication, with the proof id and status of the matching action item.
    Each cell is escaped in the style of rules 5-7 of section 2 of RFC 4180,
    cells are joined with commas and rows with line feeds. */
module Export {
  import opened Wrappers
  import opened Seqs
  import opened Strings
  import opened Types
  import opened Db
  import opened Analyzer

  /** The eleven column names, in order. */
  const Header: seq<string> := [
    "Date", "Competitor", "Drift Score", "Implication", "So What", "Narrative Tag",
    "Persona", "Stage", "Severity", "Proof ID", "Action Status"]

  // ---------------------------------------------------------------------------
  // Rows

  /** `toISOString().split('T')[0]`: the text before the first `T`. */
  function DatePart(d: Date): string {
    SplitOn(d.iso, 'T')[0]
  }

  /** The date column of an ISO timestamp is its calendar date. */
  lemma DatePartOfIso(date: string, time: string)
    requires 'T' !in date
    ensures DatePart(Date(date + "T" + time)) == date
  {
    SplitOnAfterPiece(date, 'T', time);
  }

  /** `action?.proofId || ''`. */
  function ProofIdCell(a: ActionItem): (r: string)
    ensures a.proofId.None? ==> r == ""
    ensures a.proofId.Some? ==> r == a.proofId.value
  {
    if a.proofId.Some? then a.proofId.value else ""
  }

  /** The row of one implication of an analysis, with its action item. */
  function Row(d: DriftAnalysis, imp: DriftImplication, a: ActionItem): seq<string> {
    [DatePart(d.analyzedAt), d.competitorName, Decimal(d.driftScore), imp.text, imp.soWhat,
     NarrativeName(imp.narrativeTag), PersonaName(imp.persona), StageName(imp.stage),
     SeverityName(imp.severity), ProofIdCell(a), StatusName(a.status)]
  }

  /** The eleven cells of a row, column by column under the header. */
  lemma RowCells(d: DriftAnalysis, imp: DriftImplication, a: ActionItem)
    ensures var r := Row(d, imp, a);
      && |r| == |Header|
      && r[0] == DatePart(d.analyzedAt) && r[1] == d.competitorName && r[2] == Decimal(d.driftScore)
      && r[3] == imp.text && r[4] == imp.soWhat
      && r[5] == NarrativeName(imp.narrativeTag) && r[6] == PersonaName(imp.persona)
      && r[7] == StageName(imp.stage) && r[8] == SeverityName(imp.severity)
      && r[9] == ProofIdCell(a) && r[10] == StatusName(a.status)
  {
  }

  /** The rows of one analysis: implication `i` with action item `i`. */
  function AnalysisRows(d: DriftAnalysis, vault: seq<ProofRecord>): seq<seq<string>> {
    var items := ActionItems(d.implications, vault);
    seq(|d.implications|, i requires 0 <= i < |d.implications| => Row(d, d.implications[i], items[i]))
  }

  /** The rows of each analysis, analysis by analysis. */
  function Blocks(analyses: seq<DriftAnalysis>, vault: seq<ProofRecord>): (r: seq<seq<seq<string>>>)
    ensures |r| == |analyses|
    ensures forall k :: 0 <= k < |analyses| ==> r[k] == AnalysisRows(analyses[k], vault)
  {
    Map(analyses, (d: DriftAnalysis) => AnalysisRows(d, vault))
  }

  /** The data rows: those of the first analysis, then those of the next, and so on. */
  function DataRows(analyses: seq<DriftAnalysis>, vault: seq<ProofRecord>): seq<seq<string>> {
    Flatten(Blocks(analyses, vault))
  }

  /** Header row first, then the data rows. */
  function Rows(analyses: seq<DriftAnalysis>, vault: seq<ProofRecord>): seq<seq<string>> {
    [Header] + DataRows(analyses, vault)
  }

  /** How many implications the analyses hold together. */
  function TotalImplications(analyses: seq<DriftAnalysis>): nat {
    TotalLength(Map(analyses, (d: DriftAnalysis) => d.implications))
  }

  /** An analysis has one row and one action item per implication. */
  lemma AnalysisRowCount(d: DriftAnalysis, vault: seq<ProofRecord>)
    ensures |AnalysisRows(d, vault)| == |ActionItems(d.implications, vault)| == |d.implications|
  {
  }

  /** Row `i` of an analysis is implication `i` with action item `i`. */
  lemma AnalysisRowAt(d: DriftAnalysis, vault: seq<ProofRecord>, i: nat)
    requires i < |d.implications|
    ensures i < |AnalysisRows(d, vault)| && i < |ActionItems(d.implications, vault)|
    ensures AnalysisRows(d, vault)[i] == Row(d, d.implications[i], ActionItems(d.implications, vault)[i])
  {
  }

  /** The data rows of the first `k + 1` analyses: those of the first `k`,
      then the rows of analysis `k`. */
  lemma DataRowsSnoc(analyses: seq<DriftAnalysis>, vault: seq<ProofRecord>, k: nat)
    requires k < |analyses|
    ensures DataRows(analyses[..k + 1], vault) == DataRows(analyses[..k], vault) + AnalysisRows(analyses[k], vault)
  {
    var blocks := Blocks(analyses[..k + 1], vault);
    assert blocks[..k] == Blocks(analyses[..k], vault);
    assert blocks[..k + 1] == blocks;
    FlattenSnoc(blocks, k);
  }

  /** The analyses before `k` have as many rows as implications. */
  lemma RowsBefore(analyses: seq<DriftAnalysis>, vault: seq<ProofRecord>, k: nat)
    requires k <= |analyses|
    ensures TotalLength(Blocks(analyses, vault)[..k]) == TotalImplications(analyses[..k])
  {
    var blocks := Blocks(analyses, vault)[..k];
    var imps := Map(analyses[..k], (d: DriftAnalysis) => d.implications);
    forall j | 0 <= j < k ensures |blocks[j]| == |imps[j]| {
      AnalysisRowCount(analyses[j], vault);
    }
    TotalLengthSameShape(blocks, imps);
  }

  /** One data row per implication: the export has `1 + Σ|implications|` rows. */
  lemma RowCount(analyses: seq<DriftAnalysis>, vault: seq<ProofRecord>)
    ensures |DataRows(analyses, vault)| == TotalImplications(analyses)
    ensures |Rows(analyses, vault)| == 1 + TotalImplications(analyses)
  {
    RowsBefore(analyses, vault, |analyses|);
    assert Blocks(analyses, vault)[..|analyses|] == Blocks(analyses, vault);
    assert analyses[..|analyses|] == analyses;
  }

  /** Implication `i` of analysis `k` sits right after the rows of the
      analyses before `k`. */
  lemma RowPosition(analyses: seq<DriftAnalysis>, vault: seq<ProofRecord>, k: nat, i: nat)
    requires k < |analyses| && i < |analyses[k].implications|
    ensures TotalImplications(analyses[..k]) + i < |DataRows(analyses, vault)|
    ensures DataRows(analyses, vault)[TotalImplications(analyses[..k]) + i] == AnalysisRows(analyses[k], vault)[i]
  {
    var blocks := Blocks(analyses, vault);
    assert TotalLength(blocks[..k]) == TotalImplications(analyses[..k]) by {
      RowsBefore(analyses, vault, k);
    }
    assert i < |blocks[k]| by {
      AnalysisRowCount(analyses[k], vault);
    }
    FlattenIndex(blocks, k, i);
  }

  /** Row `1 + TotalImplications(analyses[..k]) + i` of the export is the row
      of implication `i` of analysis `k` with its action item. */
  lemma ExportRowAt(analyses: seq<DriftAnalysis>, vault: seq<ProofRecord>, k: nat, i: nat)
    requires k < |analyses| && i < |analyses[k].implications|
    ensures var n := 1 + TotalImplications(analyses[..k]) + i;
      && i < |ActionItems(analyses[k].implications, vault)|
      && n < |Rows(analyses, vault)|
      && Rows(analyses, vault)[n] ==
         Row(analyses[k], analyses[k].implications[i], ActionItems(analyses[k].implications, vault)[i])
  {
    RowPosition(analyses, vault, k, i);
    AnalysisRowAt(analyses[k], vault, i);
  }

  /** The row of an implication and the action item built for it from the
      vault: the implication's text and tags, and a status that is VALIDATED
      and a proof id that is the first matching proof's exactly when the
      vault holds a proof with all three tags, INSUFFICIENT_DATA and empty
      otherwise. */
  lemma ImplicationRow(d: DriftAnalysis, implications: seq<DriftImplication>, vault: seq<ProofRecord>, i: nat)
    requires i < |implications|
    ensures i < |ActionItems(implications, vault)|
    ensures var imp := implications[i];
      var row := Row(d, imp, ActionItems(implications, vault)[i]);
      var matches := ExactMatches(vault, imp.narrativeTag, imp.persona, imp.stage);
      && |row| == |Header|
      && row[1] == d.competitorName
      && row[3] == imp.text
      && row[5] == NarrativeName(imp.narrativeTag)
      && row[6] == PersonaName(imp.persona)
      && row[7] == StageName(imp.stage)
      && (row[10] == StatusName(Validated) <==> exists p :: p in vault && HasTags(p, imp.narrativeTag, imp.persona, imp.stage))
      && (matches == [] ==> row[9] == "")
      && (matches != [] ==> row[9] == matches[0].proofId)
  {
    var imp := implications[i];
    var item := ActionItems(implications, vault)[i];
    RowCells(d, imp, item);
    NoClaimWithoutProof(implications, vault, i);
    NoMatchIffNoTaggedProof(vault, imp.narrativeTag, imp.persona, imp.stage);
    assert StatusName(InsufficientData) != StatusName(Validated) by {
      assert StatusName(InsufficientData)[0] != StatusName(Validated)[0];
    }
  }

  /** What row `1 + TotalImplications(analyses[..k]) + i` of the export says:
      the analysis's competitor, the implication's text and tags, and a proof
      id and status that are VALIDATED and the first matching proof's id
      exactly when the vault holds a proof with all three tags, and
      INSUFFICIENT_DATA and empty otherwise. */
  lemma ExportedRow(analyses: seq<DriftAnalysis>, vault: seq<ProofRecord>, k: nat, i: nat)
    requires k < |analyses| && i < |analyses[k].implications|
    ensures var rows := Rows(analyses, vault);
      var n := 1 + TotalImplications(analyses[..k]) + i;
      var imp := analyses[k].implications[i];
      var matches := ExactMatches(vault, imp.narrativeTag, imp.persona, imp.stage);
      && n < |rows| && |rows[n]| == |Header|
      && rows[n][1] == analyses[k].competitorName
      && rows[n][3] == imp.text
      && rows[n][5] == NarrativeName(imp.narrativeTag)
      && rows[n][6] == PersonaName(imp.persona)
      && rows[n][7] == StageName(imp.stage)
      && (rows[n][10] == StatusName(Validated) <==> exists p :: p in vault && HasTags(p, imp.narrativeTag, imp.persona, imp.stage))
      && (matches == [] ==> rows[n][9] == "")
      && (matches != [] ==> rows[n][9] == matches[0].proofId)
  {
    ExportRowAt(analyses, vault, k, i);
    ImplicationRow(analyses[k], analyses[k].implications, vault, i);
  }

  /** Every row of an analysis has the eleven columns. */
  lemma AnalysisRowsHaveElevenCells(d: DriftAnalysis, vault: seq<ProofRecord>)
    ensures forall r :: r in AnalysisRows(d, vault) ==> |r| == 11
  {
    var block := AnalysisRows(d, vault);
    forall j | 0 <= j < |block| ensures |block[j]| == 11 {
      AnalysisRowAt(d, vault, j);
    }
  }

  /** Every row, the header included, has the eleven columns. */
  lemma RowsHaveElevenCells(analyses: seq<DriftAnalysis>, vault: seq<ProofRecord>)
    ensures forall r :: r in Rows(analyses, vault) ==> |r| == |Header| == 11
  {
    var blocks := Blocks(analyses, vault);
    forall k | 0 <= k < |blocks| ensures forall r :: r in blocks[k] ==> |r| == 11 {
      AnalysisRowsHaveElevenCells(analyses[k], vault);
    }
    FlattenAll(blocks, (r: seq<string>) => |r| == 11);
  }

  // ---------------------------------------------------------------------------
  // Escaping

  /** `cell.replace(/"/g, '""')`. */
  function DoubleQuotes(s: string): (r: string)
    ensures |r| >= |s|
    ensures forall c :: c in r <==> c in s
    ensures '"' !in s ==> r == s
    decreases |s|
  {
    if s == [] then []
    else
      assert s == [s[0]] + s[1..];
      (if s[0] == '"' then "\"\"" else [s[0]]) + DoubleQuotes(s[1..])
  }

  /** The test of the source: a comma, a quote or a line feed. A carriage
      return is not among them. */
  predicate NeedsQuotes(e: string) {
    ',' in e || '"' in e || '\n' in e
  }

  /** One cell as written to the file. */
  function Escape(cell: string): (r: string)
    ensures |r| >= |cell|
  {
    var e := DoubleQuotes(cell);
    if NeedsQuotes(e) then ['"'] + e + ['"'] else e
  }

  /** Halves every doubled quote; the inverse of `DoubleQuotes`. */
  function HalveQuotes(s: string): string
    decreases |s|
  {
    if s == [] then []
    else if |s| >= 2 && s[0] == '"' && s[1] == '"' then ['"'] + HalveQuotes(s[2..])
    else [s[0]] + HalveQuotes(s[1..])
  }

  /** Reads one escaped cell back: strip the outer quotes if present, then
      halve the doubled quotes. */
  function Unescape(s: string): string {
    if |s| >= 2 && s[0] == '"' && s[|s| - 1] == '"' then HalveQuotes(s[1..|s| - 1]) else HalveQuotes(s)
  }

  /** Halving undoes doubling. */
  lemma {:induction false} HalveDoubled(s: string)
    ensures HalveQuotes(DoubleQuotes(s)) == s
    decreases |s|
  {
    if s != [] {
      HalveDoubled(s[1..]);
      var rest := DoubleQuotes(s[1..]);
      if s[0] == '"' {
        assert DoubleQuotes(s) == ['"', '"'] + rest;
        assert (['"', '"'] + rest)[2..] == rest;
      } else {
        assert DoubleQuotes(s) == [s[0]] + rest;
        assert ([s[0]] + rest)[1..] == rest;
        if |rest| > 0 {
          assert ([s[0]] + rest)[1] == rest[0];
        }
      }
      assert s == [s[0]] + s[1..];
    }
  }

  /** Inner quotes are doubled, so decoding an escaped cell gives the cell back. */
  lemma EscapeRoundTrip(cell: string)
    ensures Unescape(Escape(cell)) == cell
  {
    var e := DoubleQuotes(cell);
    HalveDoubled(cell);
    if NeedsQuotes(e) {
      var q := ['"'] + e + ['"'];
      assert q[1..|q| - 1] == e;
    } else {
      assert e == cell;
      assert cell != [] ==> cell[0] in cell;
    }
  }

  /** The cell is wrapped in quotes exactly when it holds a comma, a quote or a
      line feed, and then the inside is the cell with its quotes doubled. */
  lemma QuotedExactlyWhenNeeded(cell: string)
    ensures var r := Escape(cell);
      (|r| >= 2 && r[0] == '"' && r[|r| - 1] == '"' <==> NeedsQuotes(cell))
    ensures NeedsQuotes(cell) ==> Escape(cell) == ['"'] + DoubleQuotes(cell) + ['"']
  {
    var e := DoubleQuotes(cell);
    if !NeedsQuotes(cell) && |e| > 0 {
      assert e[0] in e;
    }
  }

  /** A cell without a comma, a quote or a line feed is written unchanged. */
  lemma PlainCellUnchanged(cell: string)
    requires !NeedsQuotes(cell)
    ensures Escape(cell) == cell
  {
  }

  /** A lone carriage return is written bare: the source's test looks only
      for the line feed, where RFC 4180 counts CR and CRLF too. */
  lemma CarriageReturnIsNotQuoted()
    ensures Escape("\r") == "\r"
  {
    PlainCellUnchanged("\r");
  }

  // ---------------------------------------------------------------------------
  // Serialising

  /** One row: its escaped cells joined with commas. */
  function Line(row: seq<string>): string {
    Join(Map(row, Escape), ",")
  }

  /** The file: the lines joined with line feeds, no line feed at the end. */
  function Csv(rows: seq<seq<string>>): string {
    Join(Map(rows, Line), "\n")
  }

  /** Joining a list of two or more parts ends with the separator and the last part. */
  lemma JoinSnoc(parts: seq<string>, sep: string)
    requires |parts| >= 2
    ensures Join(parts, sep) == Join(parts[..|parts| - 1], sep) + sep + parts[|parts| - 1]
  {
    var n := |parts|;
    assert parts == parts[..n - 1] + [parts[n - 1]];
    JoinAppend(parts[..n - 1], [parts[n - 1]], sep);
  }

  /** A join whose last part is non-empty ends with that part's last character. */
  lemma JoinEndsWithLastPart(parts: seq<string>, sep: string)
    requires parts != [] && parts[|parts| - 1] != []
    ensures var j, last := Join(parts, sep), parts[|parts| - 1]; j != [] && j[|j| - 1] == last[|last| - 1]
  {
    if |parts| >= 2 {
      JoinSnoc(parts, sep);
    }
  }

  /** An escaped cell never ends in a line feed. */
  lemma EscapeEndsClean(cell: string)
    ensures var r := Escape(cell); r != [] ==> r[|r| - 1] != '\n'
  {
    var e := DoubleQuotes(cell);
    if !NeedsQuotes(e) && e != [] {
      assert e[|e| - 1] in e;
    }
  }

  /** A line of at least one cell is non-empty when it has two cells or more,
      and never ends in a line feed. */
  lemma LineEndsClean(row: seq<string>)
    requires |row| >= 2
    ensures var l := Line(row); l != [] && l[|l| - 1] != '\n'
  {
    var cells := Map(row, Escape);
    var n := |cells|;
    JoinSnoc(cells, ",");
    assert cells[n - 1] == Escape(row[n - 1]);
    EscapeEndsClean(row[n - 1]);
  }

  /** A file whose last row has two cells or more does not end with a line feed. */
  lemma CsvEndsClean(rows: seq<seq<string>>)
    requires rows != [] && |rows[|rows| - 1]| >= 2
    ensures var csv := Csv(rows); csv != [] && csv[|csv| - 1] != '\n'
  {
    var lines := Map(rows, Line);
    var last := rows[|rows| - 1];
    LineEndsClean(last);
    assert lines[|lines| - 1] == Line(last);
    JoinEndsWithLastPart(lines, "\n");
  }

  /** The file the export builds does not end with a line feed: the last line
      holds eleven cells, and no escaped cell ends in one. */
  lemma NoTrailingNewline(analyses: seq<DriftAnalysis>, vault: seq<ProofRecord>)
    ensures var csv := Csv(Rows(analyses, vault)); csv != [] && csv[|csv| - 1] != '\n'
  {
    var rows := Rows(analyses, vault);
    RowsHaveElevenCells(analyses, vault);
    assert rows[|rows| - 1] in rows;
    CsvEndsClean(rows);
  }

  // ---------------------------------------------------------------------------
  // The handler

  /** The inner loop of the handler: push one row per implication of `d`,
      pairing implication `i` with action item `i`. `items` is what
      `generateActionItems` returned for the implications, so the rows pushed
      are the rows of the analysis. */
  method PushAnalysisRows(start: seq<seq<string>>, d: DriftAnalysis, items: seq<ActionItem>, ghost vault: seq<ProofRecord>)
    returns (rows: seq<seq<string>>)
    requires items == ActionItems(d.implications, vault)
    ensures rows == start + AnalysisRows(d, vault)
  {
    rows := start;
    ghost var block := AnalysisRows(d, vault);
    AnalysisRowCount(d, vault);
    for i := 0 to |d.implications|
      invariant rows == start + block[..i]
    {
      var row := Row(d, d.implications[i], items[i]);
      AnalysisRowAt(d, vault, i);
      SnocPrefix(start, block, i);
      rows := rows + [row];
    }
    assert block[..|d.implications|] == block;
  }

  // ---------------------------------------------------------------------------
  // Stored dates

  /** A date-valued field as a reader of the store sees it: a `Date` object,
      or the text a JSON round trip leaves in its place. */
  datatype DateValue = DateObject(date: Date) | DateText(text: string)

  /** `JSON.parse(JSON.stringify(v))`, what the store's client does to every
      value it saves and reads back: a `Date` is written as its ISO text and
      read back as that text, not as a `Date`. */
  function JsonRoundTrip(v: DateValue): (r: DateValue)
    ensures r.DateText?
    ensures v.DateObject? ==> r.text == v.date.iso
    ensures v.DateText? ==> r == v
  {
    match v
    case DateObject(d) => DateText(d.iso)
    case DateText(t) => DateText(t)
  }

  /** `v.toISOString()`: a method of `Date`; on a string it throws. */
  function ToIsoString(v: DateValue): (r: Option<string>)
    ensures r.Some? <==> v.DateObject?
    ensures v.DateObject? ==> r == Some(v.date.iso)
  {
    match v
    case DateObject(d) => Some(d.iso)
    case DateText(_) => None
  }

  /** `new Date(v).toISOString()`: a `Date`, or the ISO text of one, read as
      its ISO text. */
  function IsoDate(v: DateValue): (r: Date)
    ensures v.DateObject? ==> r == v.date
    ensures v.DateText? ==> r.iso == v.text
  {
    match v
    case DateObject(d) => d
    case DateText(t) => Date(t)
  }

  /** The `analyzedAt` fields of analyses read back from the store. */
  function StoredDates(analyses: seq<DriftAnalysis>): (r: seq<DateValue>)
    ensures |r| == |analyses|
    ensures forall k :: 0 <= k < |r| ==> r[k] == DateText(analyses[k].analyzedAt.iso)
  {
    Map(analyses, (d: DriftAnalysis) => JsonRoundTrip(DateObject(d.analyzedAt)))
  }

  /** The analyses with analysis `k` dated `IsoDate(dates[k])`. */
  function Redated(analyses: seq<DriftAnalysis>, dates: seq<DateValue>): (r: seq<DriftAnalysis>)
    requires |dates| == |analyses|
    ensures |r| == |analyses|
    ensures forall k :: 0 <= k < |r| ==> r[k] == analyses[k].(analyzedAt := IsoDate(dates[k]))
  {
    seq(|analyses|, k requires 0 <= k < |analyses| => analyses[k].(analyzedAt := IsoDate(dates[k])))
  }

  /** The status and body of the route's `catch` reply. */
  datatype ExportFailure = ExportFailure(status: nat, error: string)

  const ServerError: nat := 500
  const ExportFailed: string := "Failed to export data"

  /** `GET /api/export` as written, when the `analyzedAt` of analysis `k`
      reads as `dates[k]`: the first row whose date is not a `Date` throws in
      `toISOString`, and the route answers 500; otherwise the CSV. */
  function ExportReplyAsWritten(analyses: seq<DriftAnalysis>, vault: seq<ProofRecord>, dates: seq<DateValue>): (r: Result<string, ExportFailure>)
    requires |dates| == |analyses|
    ensures r.Failure? <==> exists k :: 0 <= k < |analyses| && analyses[k].implications != [] && dates[k].DateText?
    ensures r.Failure? ==> r.error == ExportFailure(ServerError, ExportFailed)
    ensures r.Success? ==> r.value == Csv(Rows(Redated(analyses, dates), vault))
  {
    if exists k :: 0 <= k < |analyses| && analyses[k].implications != [] && ToIsoString(dates[k]).None? then
      Failure(ExportFailure(ServerError, ExportFailed))
    else
      Success(Csv(Rows(Redated(analyses, dates), vault)))
  }

  /** As written, the export fails with 500 as soon as one analysis read back
      from the store has an implication. */
  lemma StoredAnalysisBreaksExport(analyses: seq<DriftAnalysis>, vault: seq<ProofRecord>, k: nat)
    requires k < |analyses| && analyses[k].implications != []
    ensures ExportReplyAsWritten(analyses, vault, StoredDates(analyses)) == Failure(ExportFailure(ServerError, ExportFailed))
  {
    assert StoredDates(analyses)[k].DateText?;
  }

  /** The export reading every date as `new Date(drift.analyzedAt)` does: it
      never fails on a date, and gives the CSV of the analyses so dated. */
  function ExportReply(analyses: seq<DriftAnalysis>, vault: seq<ProofRecord>, dates: seq<DateValue>): (r: Result<string, ExportFailure>)
    requires |dates| == |analyses|
    ensures r.Success?
    ensures r.value == Csv(Rows(Redated(analyses, dates), vault))
  {
    Success(Csv(Rows(Redated(analyses, dates), vault)))
  }

  /** Read back from the store, the analyses export as they were saved: the
      corrected reply is the CSV `ExportCsv` builds from the typed analyses. */
  lemma StoredAnalysesExportAsSaved(analyses: seq<DriftAnalysis>, vault: seq<ProofRecord>)
    ensures ExportReply(analyses, vault, StoredDates(analyses)) == Success(Csv(Rows(analyses, vault)))
  {
    var dates := StoredDates(analyses);
    forall k | 0 <= k < |analyses| ensures Redated(analyses, dates)[k] == analyses[k] {
      assert IsoDate(dates[k]) == analyses[k].analyzedAt;
    }
    assert Redated(analyses, dates) == analyses;
  }

  /** `GET /api/export`: push the header, then for each analysis in turn build
      its action items and push one row per implication, then serialise.
      `analyses` stands for what `getAllDriftAnalyses` returned and `vault`
      for the proofs the action items' searches read. */
  method ExportCsv(analyses: seq<DriftAnalysis>, vault: seq<ProofRecord>) returns (csv: string)
    ensures csv == Csv(Rows(analyses, vault))
  {
    var rows: seq<seq<string>> := [Header];
    for k := 0 to |analyses|
      invariant rows == [Header] + DataRows(analyses[..k], vault)
    {
      var d := analyses[k];
      var items := GenerateActionItems(d.implications, vault);
      rows := PushAnalysisRows(rows, d, items, vault);
      DataRowsSnoc(analyses, vault, k);
    }
    assert analyses[..|analyses|] == analyses;
    csv := Csv(rows);
  }
}
