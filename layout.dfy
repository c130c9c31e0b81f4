/** The layout of the evaluation PDF (`generatePDFReport` in
    lib/pdf-generator.ts). An A4 portrait page measures 210 x 297 mm; the
    generator keeps a vertical cursor and, before a block that needs height
    `h`, starts a new page when `y + h` passes 20 mm above the bottom edge.

    The pure part (Break, Place, Flow, Stack) says where a run of blocks
    lands; the class PdfLayout performs the same steps one `pdf.text` /
    `pdf.addImage` call at a time and is proved against it. Text is kept as a
    sequence of parts so that number formatting stays abstract. */
module Layout {
  import opened Records
  import opened Metrics
  import opened Scoring
  import opened Charts

  const PageWidth := 210
  const PageHeight := 297
  /** The top margin where a new page's cursor starts, and the bottom margin. */
  const Margin := 20
  const BottomLimit := PageHeight - Margin

  /** A piece of text: a literal, an integer, a number rendered by
      `toString`, or a number rendered by `toFixed(1)`. */
  datatype Part = Str(s: string) | Int(n: int) | Num(v: real) | Fixed1(v: real)

  type Text = seq<Part>

  /** What one drawing call puts on the page. `lines` is the line count
      `splitTextToSize` returned for a wrapped block. */
  datatype Content =
    | TextLine(text: Text)
    | TextBlock(text: Text, lines: nat)
    | ChartImage(chart: Chart, width: int, height: int)

  // Section titles
  const CoverTitle := "Employee Evaluation Report"
  const CoverFooter := "PR Dashboard - Performance Analytics"
  const SummaryTitle := "Executive Summary"
  const MetricsTitle := "Key Performance Metrics"
  const EvaluationTitle := "Employee Evaluation"
  const QualityTitle := "PR Quality Assessment"
  const SpeedTitle := "Development Speed"
  const SuggestionsTitle := "Suggestions for Improvement"
  const TableTitle := "Detailed PR List"

  /** A single line of literal text: a heading or a cover line. */
  function PlainLine(text: string): Content {
    TextLine([Str(text)])
  }

  /** A drawn item: page number (from 1), x and y in mm, and what was drawn. */
  datatype Placed = Placed(page: nat, x: int, y: int, content: Content)

  /** An item still to be drawn at the cursor's height. */
  datatype Cell = Cell(x: int, content: Content)

  datatype Cursor = Cursor(page: nat, y: int)

  /** The items a run of blocks produced and where the cursor ended. */
  datatype Flowed = Flowed(items: seq<Placed>, cursor: Cursor)

  // ---------------------------------------------------------------------
  // The cursor model

  /** `checkPageBreak(need)`: a new page with the cursor at the top margin
      when the block would pass the bottom margin, otherwise no change. */
  function Break(c: Cursor, need: int): (r: Cursor)
    ensures r == c <==> c.y + need <= BottomLimit
    ensures r != c ==> r == Cursor(c.page + 1, Margin)
    ensures need <= BottomLimit - Margin ==> r.y + need <= BottomLimit
  {
    if c.y + need > BottomLimit then Cursor(c.page + 1, Margin) else c
  }

  /** The cells of one line drawn at the cursor. */
  function Place(cells: seq<Cell>, at: Cursor): (r: seq<Placed>)
    ensures |r| == |cells|
  {
    if cells == [] then []
    else Place(cells[..|cells| - 1], at) + [Placed(at.page, cells[|cells| - 1].x, at.y, cells[|cells| - 1].content)]
  }

  lemma PlaceOne(c: Cell, at: Cursor)
    ensures Place([c], at) == [Placed(at.page, c.x, at.y, c.content)]
  {
    assert [c][..0] == [];
  }

  /** Every cell of a line lands on the cursor's page and height, at its own x. */
  lemma {:induction false} PlaceItems(cells: seq<Cell>, at: Cursor)
    ensures forall i :: 0 <= i < |cells| ==>
      Place(cells, at)[i] == Placed(at.page, cells[i].x, at.y, cells[i].content)
    decreases |cells|
  {
    if cells != [] {
      PlaceItems(cells[..|cells| - 1], at);
    }
  }

  /** Lines each preceded by `checkPageBreak(need)` and followed by
      `yPosition += advance`. */
  function Flow(lines: seq<seq<Cell>>, start: Cursor, need: int, advance: int): Flowed
    decreases |lines|
  {
    if lines == [] then Flowed([], start)
    else
      var prev := Flow(lines[..|lines| - 1], start, need, advance);
      var at := Break(prev.cursor, need);
      Flowed(prev.items + Place(lines[|lines| - 1], at), Cursor(at.page, at.y + advance))
  }

  /** Single-cell lines drawn `advance` apart with no page-break check. */
  function Stack(cells: seq<Cell>, start: Cursor, advance: int): (f: Flowed)
    ensures |f.items| == |cells|
    decreases |cells|
  {
    if cells == [] then Flowed([], start)
    else
      var prev := Stack(cells[..|cells| - 1], start, advance);
      Flowed(prev.items + Place([cells[|cells| - 1]], prev.cursor),
             Cursor(prev.cursor.page, prev.cursor.y + advance))
  }

  /** A stack stays on its first page: cell i lands `advance * i` below the
      start, and the cursor ends `advance` below the last cell. */
  lemma {:induction false} StackItems(cells: seq<Cell>, start: Cursor, advance: int)
    ensures var f := Stack(cells, start, advance);
      f.cursor == Cursor(start.page, start.y + advance * |cells|) &&
      forall i :: 0 <= i < |cells| ==>
        f.items[i] == Placed(start.page, cells[i].x, start.y + advance * i, cells[i].content)
    decreases |cells|
  {
    if cells != [] {
      var n := |cells| - 1;
      StackItems(cells[..n], start, advance);
      var prev := Stack(cells[..n], start, advance);
      PlaceItems([cells[n]], prev.cursor);
      assert advance * n + advance == advance * |cells|;
    }
  }

  function Cells(items: seq<Placed>): (r: seq<Cell>)
    ensures |r| == |items|
  {
    seq(|items|, i requires 0 <= i < |items| => Cell(items[i].x, items[i].content))
  }

  function Concat(lines: seq<seq<Cell>>): seq<Cell> {
    if lines == [] then [] else Concat(lines[..|lines| - 1]) + lines[|lines| - 1]
  }

  /** One more line of a flow: a page-break check, then its cells. */
  lemma FlowStep(lines: seq<seq<Cell>>, i: int, start: Cursor, need: int, advance: int)
    requires 0 <= i < |lines|
    ensures var prev := Flow(lines[..i], start, need, advance);
      var at := Break(prev.cursor, need);
      Flow(lines[..i + 1], start, need, advance) == Flowed(prev.items + Place(lines[i], at), Cursor(at.page, at.y + advance))
  {
    assert lines[..i + 1][..i] == lines[..i];
  }

  lemma StackStep(cells: seq<Cell>, i: int, start: Cursor, advance: int)
    requires 0 <= i < |cells|
    ensures var prev := Stack(cells[..i], start, advance);
      Stack(cells[..i + 1], start, advance)
        == Flowed(prev.items + Place([cells[i]], prev.cursor), Cursor(prev.cursor.page, prev.cursor.y + advance))
  {
    assert cells[..i + 1][..i] == cells[..i];
  }

  lemma PlaceStep(cells: seq<Cell>, j: int, at: Cursor)
    requires 0 <= j < |cells|
    ensures Place(cells[..j + 1], at) == Place(cells[..j], at) + [Placed(at.page, cells[j].x, at.y, cells[j].content)]
  {
    assert cells[..j + 1][..j] == cells[..j];
  }

  lemma AppendAssoc(a: seq<Placed>, b: seq<Placed>, c: seq<Placed>)
    ensures a + b + c == a + (b + c)
  {
  }

  /** The seven evaluation items drawn one by one. */
  lemma SevenItems(a: seq<Placed>, c0: Content, c1: Content, c2: Content, c3: Content,
                   c4: Content, c5: Content, c6: Content, p: nat, lines: nat)
    ensures a + [Placed(p, 20, Margin, c0)] + [Placed(p, 20, 40, c1)] + [Placed(p, 20, 50, c2)]
      + [Placed(p, 20, 60 + lines * 5, c3)] + [Placed(p, 20, 70 + lines * 5, c4)]
      + [Placed(p, 16, 85 + lines * 5, c5)] + [Placed(p, 20, 105 + lines * 5, c6)]
      == a + [Placed(p, 20, Margin, c0), Placed(p, 20, 40, c1), Placed(p, 20, 50, c2),
              Placed(p, 20, 60 + lines * 5, c3), Placed(p, 20, 70 + lines * 5, c4),
              Placed(p, 16, 85 + lines * 5, c5), Placed(p, 20, 105 + lines * 5, c6)]
  {
  }

  lemma Regroup(a: seq<Placed>, b: seq<Placed>, c: seq<Placed>, d: seq<Placed>, e: seq<Placed>)
    ensures a + b + c + d + e == a + (b + c + d + e)
  {
  }

  /** A flow draws exactly the cells of its lines, in order, at their own x. */
  lemma {:induction false} FlowDrawsAllCells(lines: seq<seq<Cell>>, start: Cursor, need: int, advance: int)
    ensures Cells(Flow(lines, start, need, advance).items) == Concat(lines)
    decreases |lines|
  {
    if lines != [] {
      var init := lines[..|lines| - 1];
      FlowDrawsAllCells(init, start, need, advance);
      var prev := Flow(init, start, need, advance);
      var placed := Place(lines[|lines| - 1], Break(prev.cursor, need));
      PlaceItems(lines[|lines| - 1], Break(prev.cursor, need));
      assert Cells(prev.items + placed) == Cells(prev.items) + Cells(placed);
      assert Cells(placed) == lines[|lines| - 1];
    }
  }

  /** A flow only moves forward through pages, at most one page per line. */
  lemma {:induction false} FlowPages(lines: seq<seq<Cell>>, start: Cursor, need: int, advance: int)
    ensures var f := Flow(lines, start, need, advance);
      start.page <= f.cursor.page <= start.page + |lines| &&
      forall i :: 0 <= i < |f.items| ==> start.page <= f.items[i].page <= f.cursor.page
    decreases |lines|
  {
    if lines != [] {
      FlowPages(lines[..|lines| - 1], start, need, advance);
      var prev := Flow(lines[..|lines| - 1], start, need, advance);
      PlaceItems(lines[|lines| - 1], Break(prev.cursor, need));
    }
  }

  /** Every block of a flow starts high enough to fit `need` above the
      bottom margin, whenever `need` fits on an empty page at all. */
  lemma {:induction false} FlowFits(lines: seq<seq<Cell>>, start: Cursor, need: int, advance: int)
    requires need <= BottomLimit - Margin
    ensures forall p :: p in Flow(lines, start, need, advance).items ==> p.y + need <= BottomLimit
    decreases |lines|
  {
    if lines != [] {
      var init := lines[..|lines| - 1];
      FlowFits(init, start, need, advance);
      var prev := Flow(init, start, need, advance);
      var placed := Place(lines[|lines| - 1], Break(prev.cursor, need));
      PlaceItems(lines[|lines| - 1], Break(prev.cursor, need));
      assert Flow(lines, start, need, advance).items == prev.items + placed;
    }
  }

  // ---------------------------------------------------------------------
  // The texts of the report

  datatype ReportData = ReportData(
    employee: string,
    dateRange: string,
    repositories: seq<string>,
    prs: seq<PullRequest>,
    summary: Summary)

  /** `repositories.join(", ")` */
  function Join(parts: seq<string>, sep: string): string {
    if parts == [] then ""
    else if |parts| == 1 then parts[0]
    else Join(parts[..|parts| - 1], sep) + sep + parts[|parts| - 1]
  }

  /** The joined text is as long as its parts plus one separator between
      each two neighbours, and it ends with the last part. */
  lemma {:induction false} JoinLength(parts: seq<string>, sep: string)
    requires parts != []
    ensures |Join(parts, sep)| == TotalLength(parts) + (|parts| - 1) * |sep|
    ensures var j := Join(parts, sep); var last := parts[|parts| - 1];
      j[|j| - |last|..] == last
    decreases |parts|
  {
    if |parts| > 1 {
      JoinLength(parts[..|parts| - 1], sep);
      assert parts[..|parts| - 1] + [parts[|parts| - 1]] == parts;
    }
  }

  function TotalLength(parts: seq<string>): nat {
    if parts == [] then 0 else TotalLength(parts[..|parts| - 1]) + |parts[|parts| - 1]|
  }

  /** The executive-summary paragraph (lib/pdf-generator.ts, lines 91-94). */
  function SummaryText(data: ReportData): Text
    requires data.summary.totalPRs > 0
  {
    var s := data.summary;
    [Str("This report analyzes " + data.employee + "'s pull request activity from " + data.dateRange + ". \n"
         + "During this period, " + data.employee + " contributed "),
     Int(s.totalPRs),
     Str(" pull requests across "),
     Int(|data.repositories|),
     Str(" repositories, \nwith "),
     Int(s.mergedPRs),
     Str(" successfully merged PRs ("),
     Fixed1(MergeRate(s)),
     Str("% merge rate). \nThe average time to merge was "),
     Fixed1(s.avgDaysToMerge),
     Str(" days, indicating " + VelocityWord(s.avgDaysToMerge) + " development velocity.")]
  }

  /** The seven key metrics, in order. */
  function MetricTexts(s: Summary): (r: seq<Text>)
    requires s.totalPRs > 0
    ensures |r| == 7
  {
    [[Str("Total Pull Requests: "), Int(s.totalPRs)],
     [Str("Merged PRs: "), Int(s.mergedPRs), Str(" ("), Fixed1(MergeRate(s)), Str("%)")],
     [Str("Open PRs: "), Int(s.openPRs)],
     [Str("Declined PRs: "), Int(s.declinedPRs)],
     [Str("Total Commits: "), Int(s.totalCommits)],
     [Str("Total Comments: "), Int(s.totalComments)],
     [Str("Average Days to Merge: "), Fixed1(s.avgDaysToMerge), Str(" days")]]
  }

  const BulletX := 25
  const MetricAdvance := 7

  /** Each metric as a bullet at x = 25. */
  function MetricCells(s: Summary): (r: seq<Cell>)
    requires s.totalPRs > 0
    ensures |r| == 7
    ensures forall i :: 0 <= i < 7 ==> r[i] == Cell(BulletX, TextLine([Str("• ")] + MetricTexts(s)[i]))
  {
    Bullets(MetricTexts(s))
  }

  /** Each text as a bullet at x = 25. */
  function Bullets(texts: seq<Text>): (r: seq<Cell>)
    ensures |r| == |texts|
    ensures forall i :: 0 <= i < |texts| ==> r[i] == Cell(BulletX, TextLine([Str("• ")] + texts[i]))
  {
    if texts == [] then [] else [Cell(BulletX, TextLine([Str("• ")] + texts[0]))] + Bullets(texts[1..])
  }

  /** The quality paragraph (lib/pdf-generator.ts, lines 168-169). */
  function QualityText(s: Summary): Text
    requires s.totalPRs > 0
  {
    [Str("Merge Rate: "),
     Fixed1(MergeRate(s)),
     Str("% - " + QualityTier(s.mergedPRs, s.totalPRs) + "\nComments per PR: "),
     Fixed1(CommentsPerPR(s)),
     Str(" - " + EngagementTier(s))]
  }

  function SpeedText(s: Summary): Text {
    [Str("Average Days to Merge: "), Fixed1(s.avgDaysToMerge), Str(" days - " + SpeedTier(s.avgDaysToMerge))]
  }

  /** `Overall Score: ${score}/10 - ${label}`; the score is tenths / 10. */
  function ScoreText(s: Summary): Text
    requires s.totalPRs > 0
  {
    var tenths := OverallScore(s);
    [Str("Overall Score: "), Num(tenths as real / 10.0), Str("/10 - " + ScoreLabel(tenths))]
  }

  /** The executive summary reports the PR total, the repository count, the
      merged count, the merge rate and the average days to merge, and ends
      with the velocity word of that average ("efficient" under 3 days). */
  lemma SummaryTextFigures(data: ReportData)
    requires data.summary.totalPRs > 0
    ensures var t := SummaryText(data); var s := data.summary;
      |t| == 11 && t[1] == Int(s.totalPRs) && t[3] == Int(|data.repositories|) &&
      t[5] == Int(s.mergedPRs) && t[7] == Fixed1(MergeRate(s)) && t[9] == Fixed1(s.avgDaysToMerge) &&
      t[10] == Str(" days, indicating " + VelocityWord(s.avgDaysToMerge) + " development velocity.")
  {
  }

  /** Each key metric shows its own figure of the summary. */
  lemma MetricTextFigures(s: Summary)
    requires s.totalPRs > 0
    ensures var m := MetricTexts(s);
      m[0][1] == Int(s.totalPRs) && m[1][1] == Int(s.mergedPRs) && m[1][3] == Fixed1(MergeRate(s)) &&
      m[2][1] == Int(s.openPRs) && m[3][1] == Int(s.declinedPRs) && m[4][1] == Int(s.totalCommits) &&
      m[5][1] == Int(s.totalComments) && m[6][1] == Fixed1(s.avgDaysToMerge)
  {
  }

  /** The quality paragraph shows the merge rate with the tier of the quality
      sub-score, and comments per PR with the engagement bucket of that ratio. */
  lemma QualityTextTiers(s: Summary)
    requires s.totalPRs > 0
    ensures var t := QualityText(s);
      |t| == 5 && t[1] == Fixed1(MergeRate(s)) && t[3] == Fixed1(CommentsPerPR(s)) &&
      t[2] == Str("% - " + QualityTiers[(10 - QualityScore(s.mergedPRs, s.totalPRs)) / 2] + "\nComments per PR: ")
    ensures QualityText(s)[4] == Str(" - Low engagement") <==> CommentsPerPR(s) < 2.0
    ensures QualityText(s)[4] == Str(" - High engagement") <==> CommentsPerPR(s) >= 5.0
  {
    EngagementTierOnRatio(s);
    var tier := EngagementTier(s);
    assert " - Low engagement"[3] == 'L' && " - High engagement"[3] == 'H' && " - Good collaboration"[3] == 'G';
    assert Str(" - " + tier).s[3] == tier[0];
  }

  /** The speed line shows the average with the tier of the speed sub-score. */
  lemma SpeedTextTier(s: Summary)
    ensures var t := SpeedText(s);
      |t| == 3 && t[1] == Fixed1(s.avgDaysToMerge) &&
      t[2] == Str(" days - " + SpeedTiers[(10 - SpeedScore(s.avgDaysToMerge)) / 2])
  {
  }

  /** The score line shows a score between 5.3 and 10 with the label of its
      tenths. */
  lemma ScoreTextRange(s: Summary)
    requires s.totalPRs > 0
    ensures var t := ScoreText(s);
      |t| == 3 && t[1].Num? && 5.3 <= t[1].v <= 10.0 && t[1].v * 10.0 == OverallScore(s) as real &&
      t[2] == Str("/10 - " + ScoreLabel(OverallScore(s)))
  {
  }

  const ImageWidth := 150
  const ImageHeight := 100
  /** The height checked before a chart image, and the cursor advance after it. */
  const ImageNeed := 80
  const ImageAdvance := ImageHeight + 15

  /** Each chart as one image, centred horizontally. */
  function ImageLines(charts: seq<Chart>): (r: seq<seq<Cell>>)
    ensures |r| == |charts|
    ensures forall i :: 0 <= i < |charts| ==>
      r[i] == [Cell((PageWidth - ImageWidth) / 2, ChartImage(charts[i], ImageWidth, ImageHeight))]
  {
    if charts == [] then []
    else [[Cell((PageWidth - ImageWidth) / 2, ChartImage(charts[0], ImageWidth, ImageHeight))]] + ImageLines(charts[1..])
  }

  const SuggestionNeed := 10
  const SuggestionAdvance := 7

  /** Each suggestion as a bullet at x = 25. */
  function SuggestionLines(suggestions: seq<string>): (r: seq<seq<Cell>>)
    ensures |r| == |suggestions|
    ensures forall i :: 0 <= i < |suggestions| ==> r[i] == [Cell(BulletX, TextLine([Str("• " + suggestions[i])]))]
  {
    if suggestions == [] then []
    else [[Cell(BulletX, TextLine([Str("• " + suggestions[0])]))]] + SuggestionLines(suggestions[1..])
  }

  // ---------------------------------------------------------------------
  // The detail table

  const Headers := ["Title", "State", "Commits", "Comments", "Days to Merge"]
  const ColWidths := [80, 25, 20, 25, 30]
  const MaxRows := 20
  const TitleWidth := 30
  const RowNeed := 8
  const RowAdvance := 6

  /** The x of column `j`: 20 plus the widths of the columns before it. */
  function ColumnX(j: nat): (x: int)
    requires j <= |ColWidths|
    ensures j < |ColWidths| ==> x == [20, 100, 125, 145, 170][j]
  {
    if j == 0 then 20 else ColumnX(j - 1) + ColWidths[j - 1]
  }

  /** `title.substring(0, 30) + (title.length > 30 ? "..." : "")` */
  function TruncateTitle(title: string): (r: string)
    ensures |r| <= TitleWidth + 3
    ensures |title| <= TitleWidth ==> r == title
    ensures |title| > TitleWidth ==> |r| == TitleWidth + 3 && r[..TitleWidth] == title[..TitleWidth] && r[TitleWidth..] == "..."
  {
    if |title| > TitleWidth then title[..TitleWidth] + "..." else title
  }

  /** The five cells of a PR's row. The days cell is a dash only when
      `days_to_merge` is absent: a present 0 renders as "0". */
  function RowData(pr: PullRequest): (r: seq<Part>)
    ensures |r| == |Headers|
    ensures r[0] == Str(TruncateTitle(pr.title)) && r[1] == Str(pr.state)
    ensures r[2] == Int(pr.commits) && r[3] == Int(pr.comments)
    ensures r[4] == Str("—") <==> pr.daysToMerge.None?
  {
    [Str(TruncateTitle(pr.title)),
     Str(pr.state),
     Int(pr.commits),
     Int(pr.comments),
     match pr.daysToMerge
     case Some(d) => Num(d)
     case None => Str("—")]
  }

  /** One table line: cell j at column j's x. */
  function LineCells(data: seq<Part>): (r: seq<Cell>)
    requires |data| == |Headers|
    ensures |r| == |Headers|
    ensures forall j :: 0 <= j < |Headers| ==> r[j] == Cell(ColumnX(j), TextLine([data[j]]))
  {
    [Cell(ColumnX(0), TextLine([data[0]])), Cell(ColumnX(1), TextLine([data[1]])),
     Cell(ColumnX(2), TextLine([data[2]])), Cell(ColumnX(3), TextLine([data[3]])),
     Cell(ColumnX(4), TextLine([data[4]]))]
  }

  /** The header line's texts: the five column names, in order. */
  function HeaderData(): (r: seq<Part>)
    ensures |r| == |Headers|
    ensures forall j :: 0 <= j < |Headers| ==> r[j] == Str(Headers[j])
  {
    [Str(Headers[0]), Str(Headers[1]), Str(Headers[2]), Str(Headers[3]), Str(Headers[4])]
  }

  function RowCells(pr: PullRequest): (r: seq<Cell>)
    ensures |r| == |Headers|
  {
    LineCells(RowData(pr))
  }

  /** The rows drawn: the first 20 PRs at most, in order. */
  function TableLines(prs: seq<PullRequest>): (r: seq<seq<Cell>>)
    ensures |r| == Min(MaxRows, |prs|)
    ensures forall i :: 0 <= i < |r| ==> r[i] == RowCells(prs[i])
  {
    RowLines(prs[..Min(MaxRows, |prs|)])
  }

  /** One table line per PR, in order. */
  function RowLines(prs: seq<PullRequest>): (r: seq<seq<Cell>>)
    ensures |r| == |prs|
    ensures forall i :: 0 <= i < |prs| ==> r[i] == RowCells(prs[i])
  {
    if prs == [] then [] else [RowCells(prs[0])] + RowLines(prs[1..])
  }

  lemma {:induction false} ConcatRows(lines: seq<seq<Cell>>)
    requires forall i :: 0 <= i < |lines| ==> |lines[i]| == |Headers|
    ensures |Concat(lines)| == |Headers| * |lines|
    ensures forall k :: 0 <= k < |Concat(lines)| ==> Concat(lines)[k] == lines[k / 5][k % 5]
    decreases |lines|
  {
    if lines != [] {
      var init := lines[..|lines| - 1];
      ConcatRows(init);
      var n := |lines| - 1;
      assert Concat(lines) == Concat(init) + lines[n];
      forall k | 0 <= k < |Concat(lines)|
        ensures Concat(lines)[k] == lines[k / 5][k % 5]
      {
        if k < |Concat(init)| {
          assert lines[k / 5] == init[k / 5];
        } else {
          var c := k - 5 * n;
          assert 0 <= c < 5;
          assert k / 5 == n && k % 5 == c;
        }
      }
    }
  }

  /** Cell k of the table body is column `k % 5` of PR `k / 5`. */
  lemma TableCell(prs: seq<PullRequest>, k: int)
    requires 0 <= k < 5 * Min(MaxRows, |prs|)
    ensures |Concat(TableLines(prs))| == 5 * Min(MaxRows, |prs|)
    ensures Concat(TableLines(prs))[k] == Cell(ColumnX(k % 5), TextLine([RowData(prs[k / 5])[k % 5]]))
  {
    var lines := TableLines(prs);
    ConcatRows(lines);
    assert lines[k / 5] == LineCells(RowData(prs[k / 5]));
  }

  /** The table body draws `min(20, |prs|)` rows of five cells: cell k is
      column `k % 5` of PR `k / 5`, at that column's fixed x, and each row
      starts high enough to fit its 8 mm above the bottom margin. */
  lemma TableBody(prs: seq<PullRequest>, start: Cursor)
    ensures var items := Flow(TableLines(prs), start, RowNeed, RowAdvance).items;
      |items| == 5 * Min(MaxRows, |prs|) &&
      forall k :: 0 <= k < |items| ==>
        items[k].x == ColumnX(k % 5) &&
        items[k].content == TextLine([RowData(prs[k / 5])[k % 5]]) &&
        items[k].y + RowNeed <= BottomLimit
  {
    var lines := TableLines(prs);
    var items := Flow(lines, start, RowNeed, RowAdvance).items;
    FlowDrawsAllCells(lines, start, RowNeed, RowAdvance);
    FlowFits(lines, start, RowNeed, RowAdvance);
    ConcatRows(lines);
    var cells := Cells(items);
    forall k | 0 <= k < |items|
      ensures items[k].x == ColumnX(k % 5)
      ensures items[k].content == TextLine([RowData(prs[k / 5])[k % 5]])
      ensures items[k].y + RowNeed <= BottomLimit
    {
      TableCell(prs, k);
      assert cells[k] == Cell(items[k].x, items[k].content);
      assert items[k] in items;
    }
  }

  /** The chart images: each is centred at x = 30 and starts where 80 mm fit
      above the bottom margin, so it stays on the page; but an image is
      100 mm high, so it may reach into the bottom margin. */
  lemma ChartImagesOnPage(charts: seq<Chart>, start: Cursor)
    ensures var items := Flow(ImageLines(charts), start, ImageNeed, ImageAdvance).items;
      |items| == |charts| &&
      forall k :: 0 <= k < |items| ==>
        items[k].x == 30 &&
        items[k].content == ChartImage(charts[k], ImageWidth, ImageHeight) &&
        items[k].y + ImageHeight <= PageHeight
  {
    var lines := ImageLines(charts);
    var items := Flow(lines, start, ImageNeed, ImageAdvance).items;
    FlowDrawsAllCells(lines, start, ImageNeed, ImageAdvance);
    FlowFits(lines, start, ImageNeed, ImageAdvance);
    SingleCellConcat(lines);
    forall k | 0 <= k < |items|
      ensures items[k].x == 30 && items[k].content == ChartImage(charts[k], ImageWidth, ImageHeight)
    {
      assert Cells(items)[k] == Concat(lines)[k];
    }
  }

  /** A cursor 190 mm down: the check for 80 mm passes, and the 100 mm
      image then ends 13 mm inside the 20 mm bottom margin. */
  lemma ChartImageMayEnterMargin()
    ensures var items := Flow(ImageLines([Pie]), Cursor(2, 190), ImageNeed, ImageAdvance).items;
      |items| == 1 && items[0].page == 2 && items[0].y + ImageHeight > BottomLimit
  {
    var lines := ImageLines([Pie]);
    assert lines[..0] == [];
  }

  lemma {:induction false} SingleCellConcat(lines: seq<seq<Cell>>)
    requires forall i :: 0 <= i < |lines| ==> |lines[i]| == 1
    ensures |Concat(lines)| == |lines|
    ensures forall k :: 0 <= k < |lines| ==> Concat(lines)[k] == lines[k][0]
    decreases |lines|
  {
    if lines != [] {
      SingleCellConcat(lines[..|lines| - 1]);
    }
  }

  /** `${employee}_Evaluation_Report_${isoDate}.pdf`, where the date is the
      part of the ISO timestamp before its "T". */
  function DatePart(isoTimestamp: string): (r: string)
    ensures |r| <= |isoTimestamp| && r == isoTimestamp[..|r|]
    ensures 'T' !in r
    ensures |r| < |isoTimestamp| ==> isoTimestamp[|r|] == 'T'
  {
    if isoTimestamp == [] || isoTimestamp[0] == 'T' then ""
    else [isoTimestamp[0]] + DatePart(isoTimestamp[1..])
  }

  function FileName(employee: string, isoTimestamp: string): string {
    employee + "_Evaluation_Report_" + DatePart(isoTimestamp) + ".pdf"
  }

  /** The file name is the employee name, the fixed infix, the date part of
      the timestamp and ".pdf"; the date part holds no "T". */
  lemma FileNameParts(employee: string, isoTimestamp: string)
    ensures var r := FileName(employee, isoTimestamp); var d := DatePart(isoTimestamp);
      |r| == |employee| + 19 + |d| + 4 && r[..|employee|] == employee &&
      r[|employee|..|employee| + 19] == "_Evaluation_Report_" &&
      r[|employee| + 19..|r| - 4] == d && 'T' !in d && r[|r| - 4..] == ".pdf"
  {
  }

  // ---------------------------------------------------------------------
  // The generator

  /** Every item lies on one of pages 1 to n. */
  ghost predicate OnPages(items: seq<Placed>, n: int)
    decreases |items|
  {
    items == [] || (OnPages(items[..|items| - 1], n) && 1 <= items[|items| - 1].page <= n)
  }

  lemma {:induction false} OnPagesBound(items: seq<Placed>, n: int)
    requires OnPages(items, n)
    ensures forall j :: 0 <= j < |items| ==> 1 <= items[j].page <= n
    decreases |items|
  {
    if items != [] {
      OnPagesBound(items[..|items| - 1], n);
    }
  }

  lemma {:induction false} OnPagesGrow(items: seq<Placed>, n: int, m: int)
    requires OnPages(items, n) && n <= m
    ensures OnPages(items, m)
    decreases |items|
  {
    if items != [] {
      OnPagesGrow(items[..|items| - 1], n, m);
    }
  }

  /** Item k is a heading at the top margin on a later page than the item
      drawn before it: the heading starts a new page. */
  ghost predicate OpensPage(placed: seq<Placed>, k: int, title: string) {
    0 < k < |placed| &&
    placed[k].x == 20 && placed[k].y == Margin && placed[k].content == PlainLine(title) &&
    placed[k - 1].page < placed[k].page
  }

  // ---------------------------------------------------------------------
  // The document, section by section

  /** The cover page: six centred lines on page `page`. */
  function CoverItems(employee: string, dateRange: string, repositories: seq<string>,
                      generatedOn: string, page: nat): (r: seq<Placed>)
    ensures |r| == 6
  {
    [Placed(page, PageWidth / 2, 40, PlainLine(CoverTitle)),
     Placed(page, PageWidth / 2, 60, PlainLine("Employee: " + employee)),
     Placed(page, PageWidth / 2, 75, PlainLine("Period: " + dateRange)),
     Placed(page, PageWidth / 2, 90, PlainLine("Repositories: " + Join(repositories, ", "))),
     Placed(page, PageWidth / 2, 105, PlainLine("Generated on: " + generatedOn)),
     Placed(page, PageWidth / 2, PageHeight - 20, PlainLine(CoverFooter))]
  }

  /** The executive summary after page `page`: on a new page its heading and
      paragraph, then a check for 60 mm, the metrics heading and the seven
      metrics, then the chart images. */
  function SummarySection(data: ReportData, lines: nat, charts: seq<Chart>, page: nat): (f: Flowed)
    requires data.summary.totalPRs > 0
  {
    var p := page + 1;
    var head := [Placed(p, 20, Margin, PlainLine(SummaryTitle)),
                 Placed(p, 20, Margin + 15, TextBlock(SummaryText(data), lines))];
    var at := Break(Cursor(p, Margin + 15 + lines * 5 + 10), 60);
    var metrics := Stack(MetricCells(data.summary), Cursor(at.page, at.y + 15), MetricAdvance);
    var images := Flow(ImageLines(charts), metrics.cursor, ImageNeed, ImageAdvance);
    Flowed(head + [Placed(at.page, 20, at.y, PlainLine(MetricsTitle))] + metrics.items + images.items,
           images.cursor)
  }

  /** The evaluation after page `page`: on a new page its seven fixed items,
      then the suggestions. */
  function EvaluationSection(s: Summary, lines: nat, page: nat): (f: Flowed)
    requires s.totalPRs > 0
  {
    var bullets := Flow(SuggestionLines(Suggestions(s)), Cursor(page + 1, 115 + lines * 5),
                        SuggestionNeed, SuggestionAdvance);
    Flowed(EvaluationItems(s, lines, page + 1) + bullets.items, bullets.cursor)
  }

  /** The seven fixed items of the evaluation page `p`. */
  function EvaluationItems(s: Summary, lines: nat, p: nat): (r: seq<Placed>)
    requires s.totalPRs > 0
    ensures |r| == 7
  {
    [Placed(p, 20, Margin, PlainLine(EvaluationTitle)),
     Placed(p, 20, 40, PlainLine(QualityTitle)),
     Placed(p, 20, 50, TextBlock(QualityText(s), lines)),
     Placed(p, 20, 60 + lines * 5, PlainLine(SpeedTitle)),
     Placed(p, 20, 70 + lines * 5, TextLine(SpeedText(s))),
     Placed(p, 16, 85 + lines * 5, TextLine(ScoreText(s))),
     Placed(p, 20, 105 + lines * 5, PlainLine(SuggestionsTitle))]
  }

  /** The detail table after page `page`: on a new page its heading, the
      header line and the rows. */
  function TableSection(prs: seq<PullRequest>, page: nat): (f: Flowed)
  {
    var p := page + 1;
    var rows := Flow(TableLines(prs), Cursor(p, Margin + 23), RowNeed, RowAdvance);
    Flowed([Placed(p, 20, Margin, PlainLine(TableTitle))]
           + Place(LineCells(HeaderData()), Cursor(p, Margin + 15))
           + rows.items,
           rows.cursor)
  }

  /** Everything `generatePDFReport` draws, in drawing order, with the line
      counts `splitTextToSize` gives for the two wrapped paragraphs. */
  function Document(data: ReportData, charts: seq<Chart>, wrap: (Text, int) -> nat, generatedOn: string): (f: Flowed)
    requires data.summary.totalPRs > 0
  {
    var summary := SummarySection(data, wrap(SummaryText(data), PageWidth - 40), charts, 1);
    var evaluation := EvaluationSection(data.summary, wrap(QualityText(data.summary), PageWidth - 40),
                                        summary.cursor.page);
    var table := TableSection(data.prs, evaluation.cursor.page);
    Flowed(CoverItems(data.employee, data.dateRange, data.repositories, generatedOn, 1)
           + summary.items + evaluation.items + table.items,
           table.cursor)
  }

  /** Each section starts with its title at the top of a new page, and
      ends on that page or a later one. */
  lemma SummaryOpensPage(data: ReportData, lines: nat, charts: seq<Chart>, page: nat)
    requires data.summary.totalPRs > 0
    ensures var f := SummarySection(data, lines, charts, page);
      |f.items| > 0 && f.items[0] == Placed(page + 1, 20, Margin, PlainLine(SummaryTitle)) &&
      page + 1 <= f.items[|f.items| - 1].page <= f.cursor.page
  {
    var at := Break(Cursor(page + 1, Margin + 15 + lines * 5 + 10), 60);
    var metrics := Stack(MetricCells(data.summary), Cursor(at.page, at.y + 15), MetricAdvance);
    var images := Flow(ImageLines(charts), metrics.cursor, ImageNeed, ImageAdvance);
    StackItems(MetricCells(data.summary), Cursor(at.page, at.y + 15), MetricAdvance);
    FlowPages(ImageLines(charts), metrics.cursor, ImageNeed, ImageAdvance);
    if images.items == [] {
      assert metrics.items[6].page == at.page;
    }
  }

  lemma EvaluationOpensPage(s: Summary, lines: nat, page: nat)
    requires s.totalPRs > 0
    ensures var f := EvaluationSection(s, lines, page);
      |f.items| > 0 && f.items[0] == Placed(page + 1, 20, Margin, PlainLine(EvaluationTitle)) &&
      page + 1 <= f.items[|f.items| - 1].page <= f.cursor.page
  {
    FlowPages(SuggestionLines(Suggestions(s)), Cursor(page + 1, 115 + lines * 5),
              SuggestionNeed, SuggestionAdvance);
  }

  lemma TableOpensPage(prs: seq<PullRequest>, page: nat)
    ensures var f := TableSection(prs, page);
      |f.items| > 0 && f.items[0] == Placed(page + 1, 20, Margin, PlainLine(TableTitle)) &&
      page + 1 <= f.items[|f.items| - 1].page <= f.cursor.page
  {
    FlowPages(TableLines(prs), Cursor(page + 1, Margin + 23), RowNeed, RowAdvance);
  }

  /** Three sections, each opening a page after what comes before it,
      drawn after a six-line cover on page 1. */
  lemma ThreeOpeners(cover: seq<Placed>, summary: Flowed, evaluation: Flowed, table: Flowed)
    requires |cover| == 6 && cover[5].page == 1
    requires summary.items != [] && summary.items[0] == Placed(2, 20, Margin, PlainLine(SummaryTitle))
    requires summary.items[|summary.items| - 1].page <= summary.cursor.page
    requires evaluation.items != [] && evaluation.items[|evaluation.items| - 1].page <= evaluation.cursor.page
    requires evaluation.items[0] == Placed(summary.cursor.page + 1, 20, Margin, PlainLine(EvaluationTitle))
    requires table.items != []
    requires table.items[0] == Placed(evaluation.cursor.page + 1, 20, Margin, PlainLine(TableTitle))
    ensures var items := cover + summary.items + evaluation.items + table.items;
      OpensPage(items, 6, SummaryTitle) && items[6].page == 2 &&
      OpensPage(items, |cover| + |summary.items|, EvaluationTitle) &&
      OpensPage(items, |cover| + |summary.items| + |evaluation.items|, TableTitle)
  {
    var items := cover + summary.items + evaluation.items + table.items;
    var k1 := |cover|;
    var k2 := k1 + |summary.items|;
    var k3 := k2 + |evaluation.items|;
    assert items[k1 - 1] == cover[5] && items[k1] == summary.items[0];
    assert items[k2 - 1] == summary.items[|summary.items| - 1] && items[k2] == evaluation.items[0];
    assert items[k3 - 1] == evaluation.items[|evaluation.items| - 1] && items[k3] == table.items[0];
  }

  /** The executive summary, the evaluation and the detail table each start
      at the top of a new page, the summary on page 2; the document has at
      least four pages. */
  lemma DocumentOpensPages(data: ReportData, charts: seq<Chart>, wrap: (Text, int) -> nat, generatedOn: string)
    requires data.summary.totalPRs > 0
    ensures var doc := Document(data, charts, wrap, generatedOn);
      doc.cursor.page >= 4 &&
      OpensPage(doc.items, 6, SummaryTitle) && doc.items[6].page == 2 &&
      (exists k :: OpensPage(doc.items, k, EvaluationTitle)) &&
      (exists k :: OpensPage(doc.items, k, TableTitle))
  {
    var summaryLines := wrap(SummaryText(data), PageWidth - 40);
    var qualityLines := wrap(QualityText(data.summary), PageWidth - 40);
    var cover := CoverItems(data.employee, data.dateRange, data.repositories, generatedOn, 1);
    var summary := SummarySection(data, summaryLines, charts, 1);
    var evaluation := EvaluationSection(data.summary, qualityLines, summary.cursor.page);
    var table := TableSection(data.prs, evaluation.cursor.page);
    assert Document(data, charts, wrap, generatedOn)
      == Flowed(cover + summary.items + evaluation.items + table.items, table.cursor);
    SummaryOpensPage(data, summaryLines, charts, 1);
    EvaluationOpensPage(data.summary, qualityLines, summary.cursor.page);
    TableOpensPage(data.prs, evaluation.cursor.page);
    ThreeOpeners(cover, summary, evaluation, table);
  }

  /** The jsPDF document being drawn, with the generator's cursor. */
  class PdfLayout {
    var pages: nat
    var yPosition: int
    var placed: seq<Placed>

    /** Every item lies on an existing page. */
    ghost predicate Valid()
      reads this
    {
      pages >= 1 && OnPages(placed, pages)
    }

    function At(): Cursor
      reads this
    {
      Cursor(pages, yPosition)
    }

    /** `new jsPDF("p", "mm", "a4")` and `let yPosition = 20`. */
    constructor ()
      ensures Valid() && pages == 1 && yPosition == Margin && placed == []
    {
      pages := 1;
      yPosition := Margin;
      placed := [];
    }

    /** `pdf.addPage()`: later items go on the new page. */
    method AddPage()
      requires Valid()
      modifies this
      ensures Valid() && pages == old(pages) + 1
      ensures yPosition == old(yPosition) && placed == old(placed)
    {
      OnPagesGrow(placed, pages, pages + 1);
      pages := pages + 1;
    }

    /** `pdf.text` / `pdf.addImage` on the current page. */
    method Draw(content: Content, x: int, y: int)
      requires Valid()
      modifies this
      ensures Valid() && pages == old(pages) && yPosition == old(yPosition)
      ensures placed == old(placed) + [Placed(pages, x, y, content)]
    {
      ghost var before := placed;
      placed := placed + [Placed(pages, x, y, content)];
      assert placed[..|placed| - 1] == before;
    }

    method CheckPageBreak(need: int)
      requires Valid()
      modifies this
      ensures Valid() && At() == Break(old(At()), need) && placed == old(placed)
    {
      if yPosition + need > PageHeight - 20 {
        AddPage();
        yPosition := 20;
      }
    }

    /** The cover page: six centred lines, the cursor untouched. */
    method CoverPage(employee: string, dateRange: string, repositories: seq<string>, generatedOn: string)
      requires Valid()
      modifies this
      ensures Valid() && pages == old(pages) && yPosition == old(yPosition)
      ensures placed == old(placed) + CoverItems(employee, dateRange, repositories, generatedOn, pages)
    {
      Draw(PlainLine(CoverTitle), PageWidth / 2, 40);
      Draw(PlainLine("Employee: " + employee), PageWidth / 2, 60);
      Draw(PlainLine("Period: " + dateRange), PageWidth / 2, 75);
      Draw(PlainLine("Repositories: " + Join(repositories, ", ")), PageWidth / 2, 90);
      Draw(PlainLine("Generated on: " + generatedOn), PageWidth / 2, 105);
      Draw(PlainLine(CoverFooter), PageWidth / 2, PageHeight - 20);
    }

    /** The executive summary on a new page: a heading, then the paragraph,
      `lines` lines long once wrapped, advancing 5 mm per line plus 10. */
    method ExecutiveSummary(data: ReportData, lines: nat)
      requires Valid() && data.summary.totalPRs > 0
      modifies this
      ensures Valid() && pages == old(pages) + 1
      ensures placed == old(placed)
        + [Placed(pages, 20, Margin, PlainLine(SummaryTitle))]
        + [Placed(pages, 20, Margin + 15, TextBlock(SummaryText(data), lines))]
      ensures yPosition == Margin + 15 + lines * 5 + 10
    {
      AddPage();
      yPosition := 20;
      Draw(PlainLine(SummaryTitle), 20, yPosition);
      yPosition := yPosition + 15;
      var text := SummaryText(data);
      Draw(TextBlock(text, lines), 20, yPosition);
      yPosition := yPosition + lines * 5 + 10;
    }

    /** After a check for 60 mm, a heading and the seven metrics, 7 mm apart. */
    method KeyMetrics(s: Summary)
      requires Valid() && s.totalPRs > 0
      modifies this
      ensures Valid() && pages >= old(pages)
      ensures var at := Break(old(At()), 60);
        var body := Stack(MetricCells(s), Cursor(at.page, at.y + 15), MetricAdvance);
        placed == old(placed) + [Placed(at.page, 20, at.y, PlainLine(MetricsTitle))] + body.items &&
        At() == body.cursor
    {
      CheckPageBreak(60);
      Draw(PlainLine(MetricsTitle), 20, yPosition);
      yPosition := yPosition + 15;
      MetricList(s);
    }

    /** One metric: a bullet at x = 25, 7 mm down, with no page-break check. */
    method DrawMetric(text: Text)
      requires Valid()
      modifies this
      ensures Valid() && pages == old(pages)
      ensures placed == old(placed) + Place([Cell(BulletX, TextLine([Str("• ")] + text))], old(At()))
      ensures At() == Cursor(pages, old(yPosition) + MetricAdvance)
    {
      ghost var at := At();
      Draw(TextLine([Str("• ")] + text), 25, yPosition);
      yPosition := yPosition + 7;
      PlaceOne(Cell(BulletX, TextLine([Str("• ")] + text)), at);
    }

    /** The seven metrics as bullets, 7 mm apart. */
    method MetricList(s: Summary)
      requires Valid() && s.totalPRs > 0
      modifies this
      ensures Valid() && pages == old(pages)
      ensures var body := Stack(MetricCells(s), old(At()), MetricAdvance);
        placed == old(placed) + body.items && At() == body.cursor
    {
      ghost var top := At();
      var metrics := MetricTexts(s);
      ghost var cells := MetricCells(s);
      for i := 0 to |metrics|
        invariant Valid() && pages == top.page
        invariant placed == old(placed) + Stack(cells[..i], top, MetricAdvance).items
        invariant At() == Stack(cells[..i], top, MetricAdvance).cursor
      {
        ghost var prev := Stack(cells[..i], top, MetricAdvance);
        DrawMetric(metrics[i]);
        StackStep(cells, i, top, MetricAdvance);
        AppendAssoc(old(placed), prev.items, Place([cells[i]], prev.cursor));
      }
      assert cells[..|metrics|] == cells;
    }

    /** One chart canvas: a check for 80 mm, the 150 x 100 image centred,
      then the cursor 115 mm further down. */
    method DrawImage(chart: Chart)
      requires Valid()
      modifies this
      ensures Valid()
      ensures var at := Break(old(At()), ImageNeed);
        placed == old(placed) + Place(ImageLines([chart])[0], at)
        && At() == Cursor(at.page, at.y + ImageAdvance)
    {
      CheckPageBreak(80);
      ghost var at := At();
      var imgWidth, imgHeight := 150, 100;
      Draw(ChartImage(chart, imgWidth, imgHeight), (PageWidth - imgWidth) / 2, yPosition);
      yPosition := yPosition + imgHeight + 15;
      PlaceOne(ImageLines([chart])[0][0], at);
    }

    /** One suggestion: a check for 10 mm, a bullet at x = 25, 7 mm down. */
    method DrawSuggestion(suggestion: string)
      requires Valid()
      modifies this
      ensures Valid()
      ensures var at := Break(old(At()), SuggestionNeed);
        placed == old(placed) + Place(SuggestionLines([suggestion])[0], at)
        && At() == Cursor(at.page, at.y + SuggestionAdvance)
    {
      CheckPageBreak(10);
      ghost var at := At();
      Draw(TextLine([Str("• " + suggestion)]), 25, yPosition);
      yPosition := yPosition + 7;
      PlaceOne(SuggestionLines([suggestion])[0][0], at);
    }

    /** Each chart canvas, in order: a check for 80 mm, the image centred,
      then the cursor 115 mm further down. */
    method ChartImages(charts: seq<Chart>)
      requires Valid()
      modifies this
      ensures Valid() && pages >= old(pages)
      ensures var f := Flow(ImageLines(charts), old(At()), ImageNeed, ImageAdvance);
        placed == old(placed) + f.items && At() == f.cursor
    {
      ghost var start := At();
      ghost var lines := ImageLines(charts);
      for i := 0 to |charts|
        invariant Valid()
        invariant placed == old(placed) + Flow(lines[..i], start, ImageNeed, ImageAdvance).items
        invariant At() == Flow(lines[..i], start, ImageNeed, ImageAdvance).cursor
      {
        ghost var prev := Flow(lines[..i], start, ImageNeed, ImageAdvance);
        DrawImage(charts[i]);
        FlowStep(lines, i, start, ImageNeed, ImageAdvance);
        AppendAssoc(old(placed), prev.items, Place(lines[i], Break(prev.cursor, ImageNeed)));
      }
      assert lines[..|charts|] == lines;
      FlowPages(lines, start, ImageNeed, ImageAdvance);
    }

    /** The evaluation page: headings, the quality paragraph (`lines` lines
      once wrapped), the speed line, the overall score and the suggestions
      heading. */
    method EmployeeEvaluation(s: Summary, lines: nat)
      requires Valid() && s.totalPRs > 0
      modifies this
      ensures Valid() && pages == old(pages) + 1
      ensures placed == old(placed) + EvaluationItems(s, lines, pages)
      ensures yPosition == 115 + lines * 5
    {
      AddPage();
      yPosition := 20;
      Draw(PlainLine(EvaluationTitle), 20, yPosition);
      yPosition := yPosition + 20;
      Draw(PlainLine(QualityTitle), 20, yPosition);
      yPosition := yPosition + 10;
      var quality := QualityText(s);
      Draw(TextBlock(quality, lines), 20, yPosition);
      yPosition := yPosition + lines * 5 + 10;
      Draw(PlainLine(SpeedTitle), 20, yPosition);
      yPosition := yPosition + 10;
      Draw(TextLine(SpeedText(s)), 20, yPosition);
      yPosition := yPosition + 15;
      Draw(TextLine(ScoreText(s)), 16, yPosition);
      yPosition := yPosition + 20;
      Draw(PlainLine(SuggestionsTitle), 20, yPosition);
      yPosition := yPosition + 10;
      SevenItems(old(placed), PlainLine(EvaluationTitle), PlainLine(QualityTitle), TextBlock(quality, lines),
                 PlainLine(SpeedTitle), TextLine(SpeedText(s)), TextLine(ScoreText(s)), PlainLine(SuggestionsTitle),
                 pages, lines);
    }

    /** Each suggestion: a check for 10 mm, a bullet, 7 mm down. */
    method SuggestionList(suggestions: seq<string>)
      requires Valid()
      modifies this
      ensures Valid() && pages >= old(pages)
      ensures var f := Flow(SuggestionLines(suggestions), old(At()), SuggestionNeed, SuggestionAdvance);
        placed == old(placed) + f.items && At() == f.cursor
    {
      ghost var start := At();
      ghost var lines := SuggestionLines(suggestions);
      for i := 0 to |suggestions|
        invariant Valid()
        invariant placed == old(placed) + Flow(lines[..i], start, SuggestionNeed, SuggestionAdvance).items
        invariant At() == Flow(lines[..i], start, SuggestionNeed, SuggestionAdvance).cursor
      {
        ghost var prev := Flow(lines[..i], start, SuggestionNeed, SuggestionAdvance);
        DrawSuggestion(suggestions[i]);
        FlowStep(lines, i, start, SuggestionNeed, SuggestionAdvance);
        AppendAssoc(old(placed), prev.items, Place(lines[i], Break(prev.cursor, SuggestionNeed)));
      }
      assert lines[..|suggestions|] == lines;
      FlowPages(lines, start, SuggestionNeed, SuggestionAdvance);
    }

    /** One table line: the cells at x = 20 and onwards by the column widths. */
    method DrawRow(data: seq<Part>)
      requires Valid() && |data| == |Headers|
      modifies this
      ensures Valid() && At() == old(At())
      ensures placed == old(placed) + Place(LineCells(data), At())
    {
      ghost var cells := LineCells(data);
      var xPos := 20;
      for j := 0 to |data|
        invariant Valid() && At() == old(At())
        invariant xPos == ColumnX(j)
        invariant placed == old(placed) + Place(cells[..j], At())
      {
        Draw(TextLine([data[j]]), xPos, yPosition);
        xPos := xPos + ColWidths[j];
        PlaceStep(cells, j, At());
      }
      assert cells[..|data|] == cells;
    }

    /** The executive summary, which opens a new page, then the key
      metrics and the charts. */
    method SummaryPages(data: ReportData, summaryLines: nat, charts: seq<Chart>)
      requires Valid() && data.summary.totalPRs > 0
      modifies this
      ensures Valid()
      ensures var f := SummarySection(data, summaryLines, charts, old(pages));
        placed == old(placed) + f.items && At() == f.cursor
    {
      ghost var p := old(pages) + 1;
      ghost var head := [Placed(p, 20, Margin, PlainLine(SummaryTitle)),
                         Placed(p, 20, Margin + 15, TextBlock(SummaryText(data), summaryLines))];
      ghost var at := Break(Cursor(p, Margin + 15 + summaryLines * 5 + 10), 60);
      ghost var title := [Placed(at.page, 20, at.y, PlainLine(MetricsTitle))];
      ghost var metrics := Stack(MetricCells(data.summary), Cursor(at.page, at.y + 15), MetricAdvance);
      ghost var images := Flow(ImageLines(charts), metrics.cursor, ImageNeed, ImageAdvance);
      assert SummarySection(data, summaryLines, charts, old(pages))
        == Flowed(head + title + metrics.items + images.items, images.cursor);
      ExecutiveSummary(data, summaryLines);
      assert placed == old(placed) + head;
      assert At() == Cursor(p, Margin + 15 + summaryLines * 5 + 10);
      KeyMetrics(data.summary);
      assert placed == old(placed) + head + title + metrics.items;
      assert At() == metrics.cursor;
      ChartImages(charts);
      assert placed == old(placed) + head + title + metrics.items + images.items;
      Regroup(old(placed), head, title, metrics.items, images.items);
    }

    /** The evaluation, which opens a new page, then the suggestions. */
    method EvaluationPages(s: Summary, qualityLines: nat)
      requires Valid() && s.totalPRs > 0
      modifies this
      ensures Valid()
      ensures var f := EvaluationSection(s, qualityLines, old(pages));
        placed == old(placed) + f.items && At() == f.cursor
    {
      ghost var fixed := EvaluationItems(s, qualityLines, old(pages) + 1);
      ghost var bullets := Flow(SuggestionLines(Suggestions(s)), Cursor(old(pages) + 1, 115 + qualityLines * 5),
                                SuggestionNeed, SuggestionAdvance);
      EmployeeEvaluation(s, qualityLines);
      SuggestionList(Suggestions(s));
      assert placed == old(placed) + fixed + bullets.items;
      AppendAssoc(old(placed), fixed, bullets.items);
    }

    /** The detail table on a new page: a heading, the header line 15 mm
      below it, then the rows from 8 mm below the header. */
    method DetailTable(prs: seq<PullRequest>)
      requires Valid()
      modifies this
      ensures Valid()
      ensures var f := TableSection(prs, old(pages));
        placed == old(placed) + f.items && At() == f.cursor
    {
      ghost var f := TableSection(prs, old(pages));
      ghost var p := old(pages) + 1;
      ghost var header := [Placed(p, 20, Margin, PlainLine(TableTitle))] + Place(LineCells(HeaderData()), Cursor(p, Margin + 15));
      ghost var rows := Flow(TableLines(prs), Cursor(p, Margin + 23), RowNeed, RowAdvance);
      assert f == Flowed(header + rows.items, rows.cursor);
      TableHeader();
      assert placed == old(placed) + header;
      assert At() == Cursor(p, Margin + 23);
      TableRows(prs);
      assert placed == old(placed) + header + rows.items;
      AppendAssoc(old(placed), header, rows.items);
    }

    /** A new page with the table heading and, 15 mm below it, the header
      line; the rows start 8 mm below that. */
    method TableHeader()
      requires Valid()
      modifies this
      ensures Valid() && pages == old(pages) + 1
      ensures placed == old(placed) + [Placed(pages, 20, Margin, PlainLine(TableTitle))]
        + Place(LineCells(HeaderData()), Cursor(pages, Margin + 15))
      ensures At() == Cursor(pages, Margin + 23)
    {
      AddPage();
      yPosition := 20;
      Draw(PlainLine(TableTitle), 20, yPosition);
      yPosition := yPosition + 15;
      DrawRow(HeaderData());
      yPosition := yPosition + 8;
    }

    /** One PR row: a check for 8 mm, the five cells, 6 mm down. */
    method DrawTableRow(pr: PullRequest)
      requires Valid()
      modifies this
      ensures Valid()
      ensures var at := Break(old(At()), RowNeed);
        placed == old(placed) + Place(RowCells(pr), at)
        && At() == Cursor(at.page, at.y + RowAdvance)
    {
      CheckPageBreak(8);
      DrawRow(RowData(pr));
      yPosition := yPosition + 6;
    }

    /** The first 20 PRs, each row after a check for 8 mm, 6 mm apart. */
    method TableRows(prs: seq<PullRequest>)
      requires Valid()
      modifies this
      ensures Valid() && pages >= old(pages)
      ensures var f := Flow(TableLines(prs), old(At()), RowNeed, RowAdvance);
        placed == old(placed) + f.items && At() == f.cursor
    {
      ghost var start := At();
      ghost var lines := TableLines(prs);
      var rows := prs[..Min(MaxRows, |prs|)];
      for i := 0 to |rows|
        invariant Valid()
        invariant placed == old(placed) + Flow(lines[..i], start, RowNeed, RowAdvance).items
        invariant At() == Flow(lines[..i], start, RowNeed, RowAdvance).cursor
      {
        ghost var prev := Flow(lines[..i], start, RowNeed, RowAdvance);
        DrawTableRow(rows[i]);
        FlowStep(lines, i, start, RowNeed, RowAdvance);
        AppendAssoc(old(placed), prev.items, Place(lines[i], Break(prev.cursor, RowNeed)));
      }
      assert lines[..|rows|] == lines;
      FlowPages(lines, start, RowNeed, RowAdvance);
    }
  }

  /** `generatePDFReport`: the cover page, then the executive summary, the
      evaluation and the detail table, each opening a new page, so the
      document has at least four pages. The clock, `splitTextToSize` and the
      chart canvases are inputs. */
  method GeneratePdfReport(data: ReportData, charts: seq<Chart>, wrap: (Text, int) -> nat,
                           generatedOn: string, isoTimestamp: string)
    returns (pdf: PdfLayout, fileName: string)
    requires data.summary.totalPRs > 0
    ensures fresh(pdf) && pdf.Valid()
    ensures var doc := Document(data, charts, wrap, generatedOn);
      pdf.placed == doc.items && pdf.At() == doc.cursor
    ensures fileName == FileName(data.employee, isoTimestamp)
  {
    var summaryLines := wrap(SummaryText(data), PageWidth - 40);
    var qualityLines := wrap(QualityText(data.summary), PageWidth - 40);
    ghost var cover := CoverItems(data.employee, data.dateRange, data.repositories, generatedOn, 1);
    ghost var summary := SummarySection(data, summaryLines, charts, 1);
    ghost var evaluation := EvaluationSection(data.summary, qualityLines, summary.cursor.page);
    ghost var table := TableSection(data.prs, evaluation.cursor.page);
    assert Document(data, charts, wrap, generatedOn)
      == Flowed(cover + summary.items + evaluation.items + table.items, table.cursor);
    pdf := new PdfLayout();
    pdf.CoverPage(data.employee, data.dateRange, data.repositories, generatedOn);
    assert pdf.placed == cover;
    pdf.SummaryPages(data, summaryLines, charts);
    assert pdf.placed == cover + summary.items && pdf.At() == summary.cursor;
    pdf.EvaluationPages(data.summary, qualityLines);
    assert pdf.placed == cover + summary.items + evaluation.items && pdf.At() == evaluation.cursor;
    pdf.DetailTable(data.prs);
    fileName := FileName(data.employee, isoTimestamp);
  }
}
