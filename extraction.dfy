/**
 * The text fallback of the remote reply parser: `createSlideFromTextSection`, which turns one
 * section of free text into a slide line by line, and `extractPresentationFromText`, which
 * collects those slides, numbers them and stamps the template's design on them; and
 * `parseGeminiResponse`, which tries a parsed reply first and falls back to the text.
 */
module Extraction {
  import opened Wrappers
  import opened Strings
  import opened Slides
  import opened Classifier
  import opened Deck

  // ---------------------------------------------------------------------------------------
  // The slide type a section title announces

  const TitleWord: string := "title"
  const IntroductionWord: string := "introduction"
  const IntroWord: string := "intro"
  const ConclusionWord: string := "conclusion"
  const QaWord: string := "q&a"
  const QuestionWord: string := "question"
  const CaseStudyWord: string := "case study"
  const ExampleWord: string := "example"
  const DataWord: string := "data"
  const StatisticsWord: string := "statistics"
  const ChartWord: string := "chart"
  const GraphWord: string := "graph"
  const FigureWord: string := "figure"

  predicate TitleCue(t: string) { Contains(t, TitleWord) }
  predicate IntroCue(t: string) { Contains(t, IntroductionWord) || Contains(t, IntroWord) }
  predicate ConclusionCue(t: string) { Contains(t, ConclusionWord) }
  predicate QaCue(t: string) { Contains(t, QaWord) || Contains(t, QuestionWord) }
  predicate ExampleCue(t: string) { Contains(t, CaseStudyWord) || Contains(t, ExampleWord) }
  predicate DataCue(t: string) {
    Contains(t, DataWord) || Contains(t, StatisticsWord) || Contains(t, ChartWord)
    || Contains(t, GraphWord) || Contains(t, FigureWord)
  }

  /**
   * The type of the slide a section becomes: the first section is always the title slide;
   * otherwise the first keyword family found in the lower-cased title decides, in the order
   * title, introduction, conclusion, Q&A, example, data, and a title with none is a concept.
   */
  function SectionKind(title: string, index: nat): (k: SlideKind)
    ensures var t := Lower(title);
      && (k == Title <==> index == 0 || TitleCue(t))
      && (k == Introduction <==> index != 0 && !TitleCue(t) && IntroCue(t))
      && (k == Conclusion <==> index != 0 && !TitleCue(t) && !IntroCue(t) && ConclusionCue(t))
      && (k == Qa <==> index != 0 && !TitleCue(t) && !IntroCue(t) && !ConclusionCue(t) && QaCue(t))
      && (k == Example <==>
            index != 0 && !TitleCue(t) && !IntroCue(t) && !ConclusionCue(t) && !QaCue(t) && ExampleCue(t))
      && (k == Data <==>
            index != 0 && !TitleCue(t) && !IntroCue(t) && !ConclusionCue(t) && !QaCue(t) && !ExampleCue(t)
            && DataCue(t))
      && (k == Concept <==>
            index != 0 && !TitleCue(t) && !IntroCue(t) && !ConclusionCue(t) && !QaCue(t) && !ExampleCue(t)
            && !DataCue(t))
      && !k.Other?
  {
    var t := Lower(title);
    if index == 0 || TitleCue(t) then Title
    else if IntroCue(t) then Introduction
    else if ConclusionCue(t) then Conclusion
    else if QaCue(t) then Qa
    else if ExampleCue(t) then Example
    else if DataCue(t) then Data
    else Concept
  }

  // ---------------------------------------------------------------------------------------
  // Scanning the lines of a section

  const SpeakerNotes: string := "speaker notes"
  const SpeakingNotes: string := "speaking notes"
  const NotePrefix: string := "note:"
  const BarChartWord: string := "bar chart"
  const ColumnChartWord: string := "column chart"
  const LineChartWord: string := "line chart"
  const TrendWord: string := "trend"
  const PieChartWord: string := "pie chart"
  const DistributionWord: string := "distribution"
  const FlowChartWord: string := "flow chart"
  const ProcessWord: string := "process"
  const PlaceholderText: string := "Content for this slide will be added here."
  const TextGenerator: string := "Gemini AI (text extraction)"

  /** A lower-cased, trimmed line that switches the rest of the section to speaker notes. */
  predicate NotesMarker(low: string) {
    Contains(low, SpeakerNotes) || Contains(low, SpeakingNotes) || StartsWith(low, NotePrefix)
  }

  /** The chart type a lower-cased line of a data section asks for, if any. */
  function ChartHint(low: string): Option<ChartType> {
    if Contains(low, BarChartWord) || Contains(low, ColumnChartWord) then Some(Bar)
    else if Contains(low, LineChartWord) || Contains(low, TrendWord) then Some(Line)
    else if Contains(low, PieChartWord) || Contains(low, DistributionWord) then Some(Pie)
    else if Contains(low, FlowChartWord) || Contains(low, ProcessWord) then Some(Flow)
    else None
  }

  /** The characters of the list-marker class `[-*•\d.\s]`. */
  predicate MarkerChar(c: char) {
    c == '-' || c == '*' || c == '•' || IsDigit(c) || c == '.' || IsSpace(c)
  }

  /** `/^\d+\./`: one or more digits followed by a full stop. */
  predicate NumberedItem(t: string) {
    var d := DropWhile(t, IsDigit);
    |d| < |t| && |d| > 0 && d[0] == '.'
  }

  /** A trimmed line that is a list item: it starts with `-`, `*`, `•` or a number and a full stop. */
  predicate IsBullet(t: string) {
    (|t| > 0 && (t[0] == '-' || t[0] == '*' || t[0] == '•')) || NumberedItem(t)
  }

  /** A list item without its marker. */
  function BulletText(t: string): string {
    Trim(DropWhile(t, MarkerChar))
  }

  /**
   * What one line of a section is: its trimmed text, whether it is a notes marker, its chart
   * hint, whether it is a list item, and its text without a list marker.
   */
  datatype LineInfo = LineInfo(text: string, marker: bool, hint: Option<ChartType>, bullet: bool, item: string)

  /** The tests `createSlideFromTextSection` applies to one line, on the trimmed line. */
  function Classify(line: string): LineInfo {
    var t := Trim(line);
    var low := Lower(t);
    LineInfo(t, NotesMarker(low), ChartHint(low), IsBullet(t), BulletText(t))
  }

  /** What the scan of a section has gathered so far. */
  datatype ScanState = ScanState(inNotes: bool, notes: string, content: seq<string>, chart: Option<ChartType>)

  const Fresh := ScanState(false, "", [], None)

  /**
   * One line of the scan. A notes marker switches to notes and is dropped. Otherwise a data
   * section without a chart type takes the line's chart hint; in notes mode the line is
   * appended to the notes; a list item is added to the content without its marker; any
   * other non-empty line that is not a heading is added only while the content is empty.
   */
  function Step(kind: SlideKind, st: ScanState, c: LineInfo): ScanState {
    if c.marker then st.(inNotes := true)
    else
      var next := if kind == Data && st.chart.None? then st.(chart := c.hint) else st;
      if st.inNotes then next.(notes := st.notes + c.text + " ")
      else if c.bullet then next.(content := st.content + [c.item])
      else if |c.text| > 0 && c.text[0] != '#' && |st.content| == 0 then next.(content := [c.text])
      else next
  }

  /** The scan of the classified lines, first to last. */
  function ScanInfo(kind: SlideKind, cs: seq<LineInfo>): (st: ScanState)
    ensures |st.content| <= |cs|
    ensures st.chart.Some? ==> kind == Data
    ensures !st.inNotes ==> st.notes == ""
  {
    if cs == [] then Fresh else Step(kind, ScanInfo(kind, cs[..|cs| - 1]), cs[|cs| - 1])
  }

  /** `xs.map(f)`, built front to back. */
  function MapSeq<A, B>(f: A -> B, xs: seq<A>): (ys: seq<B>)
    ensures |ys| == |xs|
  {
    if xs == [] then [] else MapSeq(f, xs[..|xs| - 1]) + [f(xs[|xs| - 1])]
  }

  /** Element `k` of the mapped sequence is `f` of element `k`. */
  lemma {:induction false} MapSeqAt<A, B>(f: A -> B, xs: seq<A>, k: nat)
    requires k < |xs|
    ensures MapSeq(f, xs)[k] == f(xs[k])
  {
    if k < |xs| - 1 {
      MapSeqAt(f, xs[..|xs| - 1], k);
    }
  }

  /** Every line classified. */
  function Classified(lines: seq<string>): seq<LineInfo> {
    MapSeq(Classify, lines)
  }

  /** The scan of a section's lines. */
  function Scan(kind: SlideKind, lines: seq<string>): ScanState {
    ScanInfo(kind, Classified(lines))
  }

  /** Some line is a notes marker. */
  predicate HasMarker(cs: seq<LineInfo>) {
    exists k | 0 <= k < |cs| :: cs[k].marker
  }

  /** The scan ends in notes mode exactly when some line is a notes marker. */
  lemma {:induction false} ScanNotesMode(kind: SlideKind, cs: seq<LineInfo>)
    ensures ScanInfo(kind, cs).inNotes <==> HasMarker(cs)
  {
    if cs != [] {
      var init := cs[..|cs| - 1];
      ScanNotesMode(kind, init);
      if HasMarker(init) {
        var k :| 0 <= k < |init| && init[k].marker;
        assert cs[k] == init[k];
      }
    }
  }

  /** A line whose chart hint the scan can see: one that is not a notes marker. */
  predicate HintAt(cs: seq<LineInfo>, k: nat)
    requires k < |cs|
  {
    !cs[k].marker && cs[k].hint.Some?
  }

  /**
   * A data section takes its chart type from its lines: the chart found is the hint of one
   * of the lines, and when any non-marker line carries a hint a chart is found.
   */
  lemma {:induction false} ScanChart(cs: seq<LineInfo>)
    ensures var c := ScanInfo(Data, cs).chart;
      && (c.Some? ==> exists k | 0 <= k < |cs| :: HintAt(cs, k) && cs[k].hint == c)
      && ((exists k | 0 <= k < |cs| :: HintAt(cs, k)) ==> c.Some?)
  {
    if cs != [] {
      var init := cs[..|cs| - 1];
      var n := |cs| - 1;
      ScanChart(init);
      var c0 := ScanInfo(Data, init).chart;
      var c := ScanInfo(Data, cs).chart;
      if c.Some? {
        if c0.Some? {
          var k :| 0 <= k < |init| && HintAt(init, k) && init[k].hint == c0;
          assert cs[k] == init[k];
        } else {
          assert HintAt(cs, n) && cs[n].hint == c;
        }
      }
      if exists k | 0 <= k < |cs| :: HintAt(cs, k) {
        var k :| 0 <= k < |cs| && HintAt(cs, k);
        if k < n {
          assert cs[k] == init[k];
          assert HintAt(init, k);
          assert c0.Some?;
        }
      }
    }
  }

  /** A line that is a list item and not a notes marker. */
  predicate PlainBullet(c: LineInfo) {
    !c.marker && c.bullet
  }

  /** When every line is a plain list item, the content is the items in order, without their markers. */
  lemma {:induction false} ScanBullets(kind: SlideKind, cs: seq<LineInfo>)
    requires forall k | 0 <= k < |cs| :: PlainBullet(cs[k])
    ensures var st := ScanInfo(kind, cs);
      && !st.inNotes
      && |st.content| == |cs|
      && forall k | 0 <= k < |cs| :: st.content[k] == cs[k].item
  {
    if cs != [] {
      var init := cs[..|cs| - 1];
      ScanBullets(kind, init);
    }
  }

  // ---------------------------------------------------------------------------------------
  // createSlideFromTextSection

  /** The characters of the subtitle's leading-marker class `[#*-\s]`. */
  predicate SubtitleChar(c: char) {
    c == '#' || c == '*' || c == '-' || IsSpace(c)
  }

  /** The subtitle a title section's first line gives: the line without leading markers, trimmed. */
  function SubtitleText(line: string): string {
    Trim(DropWhile(line, SubtitleChar))
  }

  /** The notes of a section's slide: the collected notes, or the default notes when there are none. */
  function SectionNotes(kind: SlideKind, title: string, collected: string, s: Settings): string {
    if Trim(collected) != "" then Trim(collected) else GenerateDefaultNotes(kind, title, s.topic, s.audience)
  }

  /** The content of a section's slide: none on a title slide, a placeholder when nothing was found. */
  function SectionContent(kind: SlideKind, found: seq<string>): seq<string> {
    if kind == Title then [] else if |found| > 0 then found else [PlaceholderText]
  }

  /**
   * The slide for a section of type `kind` with the given subtitle and scan result. The chart
   * type a data slide falls back on is `determineChartType` of the slide, which reads only
   * its title and content.
   */
  function SectionSlideOf(kind: SlideKind, title: string, index: nat, subtitle: string, st: ScanState,
                          s: Settings, r: nat): Slide
    requires r < |ChartPool|
  {
    var content := Bullets(SectionContent(kind, st.content));
    Slide(kind, title, content,
      if kind == Title then Some(if subtitle != "" then subtitle else GenerateSubtitle(s.tone, s.audience)) else None,
      None,
      if kind == Data
        then Some(if st.chart.Some? then st.chart.value else DetermineChartType(Basic(kind, title, content, None), r))
        else None,
      if kind == Example then Some(CaseStudyImage) else None,
      None,
      if s.includeNotes then Some(SectionNotes(kind, title, st.notes, s)) else None,
      Some(index + 1), Some(index + 1), None, None)
  }

  /**
   * The slide a section with title `title` and content lines `lines` becomes, or `None` for
   * an empty title; a title section's first line is its subtitle and is not scanned.
   */
  function SectionSlide(title: string, lines: seq<string>, index: nat, s: Settings, r: nat): Option<Slide>
    requires r < |ChartPool|
  {
    if title == "" then None
    else
      var kind := SectionKind(title, index);
      var subtitle := if kind == Title && |lines| > 0 then SubtitleText(lines[0]) else "";
      var body := if kind == Title && |lines| > 0 then lines[1..] else lines;
      Some(SectionSlideOf(kind, title, index, subtitle, Scan(kind, body), s, r))
  }

  /**
   * `createSlideFromTextSection`: the section's type from its title, then one pass over the
   * content lines that gathers list items, the notes and a chart hint.
   */
  method CreateSlideFromTextSection(title: string, contentLines: seq<string>, index: nat, s: Settings, r: nat)
    returns (slide: Option<Slide>)
    requires r < |ChartPool|
    ensures slide == SectionSlide(title, contentLines, index, s, r)
  {
    if title == "" {
      return None;
    }
    var kind := SectionKind(title, index);
    var subtitle := "";
    var lines := contentLines;
    if kind == Title && |lines| > 0 {
      subtitle := SubtitleText(lines[0]);
      lines := lines[1..];
    }
    var st := ScanLines(kind, Classified(lines));
    slide := Some(SectionSlideOf(kind, title, index, subtitle, st, s, r));
  }

  /** The `for (const line of contentLines)` loop over the classified lines of a section. */
  method ScanLines(kind: SlideKind, cs: seq<LineInfo>) returns (st: ScanState)
    ensures st == ScanInfo(kind, cs)
  {
    var inNotes, notes, content, chart := false, "", [], None;
    var i := 0;
    while i < |cs|
      invariant 0 <= i <= |cs|
      invariant ScanState(inNotes, notes, content, chart) == ScanInfo(kind, cs[..i])
    {
      assert cs[..i + 1][..i] == cs[..i];
      var c := cs[i];
      if c.marker {
        inNotes := true;
      } else {
        if kind == Data && chart.None? {
          chart := c.hint;
        }
        if inNotes {
          notes := notes + c.text + " ";
        } else if c.bullet {
          content := content + [c.item];
        } else if |c.text| > 0 && c.text[0] != '#' && |content| == 0 {
          content := content + [c.text];
        }
      }
      i := i + 1;
    }
    assert cs[..i] == cs;
    st := ScanState(inNotes, notes, content, chart);
  }

  /**
   * What a section's slide promises: no slide for an empty title; otherwise the announced
   * type and the section's position as number and id, no content on the title slide and
   * some content on every other, notes exactly when notes are enabled (the default notes
   * when the section has no notes marker), a chart type on a data slide and a case-study
   * image on an example slide.
   */
  lemma SectionSlideShape(title: string, lines: seq<string>, index: nat, s: Settings, r: nat)
    requires r < |ChartPool|
    ensures var o := SectionSlide(title, lines, index, s, r);
      && (o.None? <==> title == "")
      && (o.Some? ==>
        && o.value.kind == SectionKind(title, index) && o.value.title == title
        && o.value.number == Some(index + 1) && o.value.id == Some(index + 1)
        && (o.value.kind == Title ==> o.value.content == Bullets([]) && o.value.subtitle.Some?)
        && (o.value.kind != Title ==> o.value.content.Bullets? && |o.value.content.items| > 0)
        && (o.value.notes.Some? <==> s.includeNotes)
        && (o.value.chartType.Some? <==> o.value.kind == Data)
        && (o.value.imageType.Some? <==> o.value.kind == Example)
        && (o.value.kind == Example ==> o.value.imageType == Some(CaseStudyImage)))
  {
  }

  /** Mapping the rest of a sequence gives the rest of the mapped sequence. */
  lemma {:induction false} MapSeqRest<A, B>(f: A -> B, xs: seq<A>)
    requires |xs| > 0
    ensures MapSeq(f, xs[1..]) == MapSeq(f, xs)[1..]
  {
    if |xs| > 1 {
      MapSeqRest(f, xs[..|xs| - 1]);
      assert xs[1..][..|xs| - 2] == xs[..|xs| - 1][1..];
    }
  }

  /** Dropping the first line of a section leaves no notes marker where there was none. */
  lemma NoMarkerInRest(lines: seq<string>)
    requires |lines| > 0 && !HasMarker(Classified(lines))
    ensures !HasMarker(Classified(lines[1..]))
  {
    MapSeqRest(Classify, lines);
  }

  /** With notes enabled, a section without a notes marker gets the default notes of its type. */
  lemma SectionSlideDefaultNotes(title: string, lines: seq<string>, index: nat, s: Settings, r: nat)
    requires r < |ChartPool|
    requires title != "" && s.includeNotes && !HasMarker(Classified(lines))
    ensures SectionSlide(title, lines, index, s, r).value.notes
      == Some(GenerateDefaultNotes(SectionKind(title, index), title, s.topic, s.audience))
  {
    var kind := SectionKind(title, index);
    var body := if kind == Title && |lines| > 0 then lines[1..] else lines;
    if kind == Title && |lines| > 0 {
      NoMarkerInRest(lines);
    }
    ScanNotesMode(kind, Classified(body));
  }

  // ---------------------------------------------------------------------------------------
  // extractPresentationFromText

  /** The lines of a piece of text that are not blank. */
  function NonBlank(ls: seq<string>): (r: seq<string>)
    ensures |r| <= |ls|
  {
    if ls == [] then [] else (if Trim(ls[0]) != "" then [ls[0]] else []) + NonBlank(ls[1..])
  }

  /** The filter keeps exactly the lines that are not blank. */
  lemma {:induction false} NonBlankKeeps(ls: seq<string>, x: string)
    ensures x in NonBlank(ls) <==> x in ls && Trim(x) != ""
  {
    if ls != [] {
      NonBlankKeeps(ls[1..], x);
      assert ls == [ls[0]] + ls[1..];
    }
  }

  /** `section.trim().split('\n').filter(line => line.trim())`. */
  function PieceLines(piece: string): seq<string> {
    NonBlank(Split(Trim(piece), '\n'))
  }

  predicate IsHash(c: char) { c == '#' }

  /** A section title: its first line without leading `#` marks, trimmed. */
  function HeadingTitle(line: string): string {
    Trim(DropWhile(line, IsHash))
  }

  /** The slide of the piece at position `index`; a piece without a non-blank line gives none. */
  function PieceSlide(piece: string, index: nat, s: Settings, r: nat): Option<Slide>
    requires r < |ChartPool|
  {
    var ls := PieceLines(piece);
    if ls == [] then None else SectionSlide(HeadingTitle(ls[0]), ls[1..], index, s, r)
  }

  /**
   * The pieces the text is cut into: at explicit slide markers when there are at least two,
   * otherwise at markdown headings when there are at least two, otherwise none.
   */
  function Pieces(slidePieces: seq<string>, headingPieces: seq<string>): seq<string> {
    if |slidePieces| > 1 then slidePieces
    else if |headingPieces| > 1 then headingPieces
    else []
  }

  /** The values of the outcomes `f(0)`, ..., `f(n - 1)` that are present, in order. */
  function Present<T>(f: nat -> Option<T>, n: nat): (r: seq<T>)
    ensures |r| <= n
  {
    if n == 0 then [] else Present(f, n - 1) + (if f(n - 1).Some? then [f(n - 1).value] else [])
  }

  /** Every value kept is one of the outcomes, and a present first outcome comes first. */
  lemma {:induction false} PresentFrom<T>(f: nat -> Option<T>, n: nat)
    ensures forall x | x in Present(f, n) :: exists i | 0 <= i < n :: f(i) == Some(x)
    ensures n > 0 && f(0).Some? ==> |Present(f, n)| > 0 && Present(f, n)[0] == f(0).value
  {
    if n > 0 {
      PresentFrom(f, n - 1);
      if n > 1 && f(0).Some? {
        assert Present(f, n)[0] == Present(f, n - 1)[0];
      }
    }
  }

  /** The slide of the piece at each position. */
  function PieceAt(pieces: seq<string>, s: Settings, picks: seq<nat>): nat -> Option<Slide>
    requires ValidDraws(picks, |pieces|)
  {
    (i: nat) => if i < |pieces| then PieceSlide(pieces[i], i, s, picks[i]) else None
  }

  /** The slides of the pieces, in order; pieces that give no slide are skipped. */
  function Collected(pieces: seq<string>, s: Settings, picks: seq<nat>): seq<Slide>
    requires ValidDraws(picks, |pieces|)
  {
    Present(PieceAt(pieces, s, picks), |pieces|)
  }

  /** A collected slide numbered by its place in the list and given the template's design. */
  function Stamped(x: Slide, i: nat, key: string, t: Template): Slide {
    Numbered(x, i).(design := Some(DesignOf(key, t)))
  }

  /**
   * All collected slides numbered and designed: the same slides in the same order, numbered
   * densely, every one with the template's design.
   */
  function StampedAll(slides: seq<Slide>, key: string, t: Template): (r: seq<Slide>)
    ensures |r| == |slides| && DenselyNumbered(r)
    ensures forall i | 0 <= i < |r| ::
      r[i].design == Some(DesignOf(key, t)) && r[i].kind == slides[i].kind && r[i].title == slides[i].title
      && r[i].content == slides[i].content && r[i].notes == slides[i].notes
  {
    seq(|slides|, i requires 0 <= i < |slides| => Stamped(slides[i], i, key, t))
  }

  /** The explicit title line `# ...` of the text when it has a non-empty one, else the topic. */
  function TextTitle(heading: Option<string>, topic: string): string {
    if heading.Some? && heading.value != "" then Trim(heading.value) else topic
  }

  /**
   * The presentation the collected slides make: none when there are no slides or the
   * template key is not in the table; otherwise the slides numbered and designed.
   */
  function TextPresentation(slides: seq<Slide>, heading: Option<string>, s: Settings): Option<Presentation> {
    if |slides| == 0 then None
    else match TemplateFor(s.template)
      case None => None
      case Some(t) =>
        var stamped := StampedAll(slides, s.template, t);
        Some(Presentation(TextTitle(heading, s.topic), s, stamped, Metadata(|stamped|, Version, Some(TextGenerator))))
  }

  /** `extractPresentationFromText` on the pieces the text was cut into. */
  function Extracted(slidePieces: seq<string>, headingPieces: seq<string>, heading: Option<string>,
                     s: Settings, picks: seq<nat>): Option<Presentation>
    requires ValidDraws(picks, |Pieces(slidePieces, headingPieces)|)
  {
    TextPresentation(Collected(Pieces(slidePieces, headingPieces), s, picks), heading, s)
  }

  /** The slide of one piece: its lines, its title from the first line, the rest as content. */
  method SlideOfPiece(piece: string, index: nat, s: Settings, r: nat) returns (o: Option<Slide>)
    requires r < |ChartPool|
    ensures o == PieceSlide(piece, index, s, r)
  {
    var ls := PieceLines(piece);
    if ls != [] {
      o := SlideOfLines(ls, index, s, r);
    } else {
      o := None;
    }
  }

  /** The slide of the non-blank lines of a piece. */
  method SlideOfLines(ls: seq<string>, index: nat, s: Settings, r: nat) returns (o: Option<Slide>)
    requires r < |ChartPool| && ls != []
    ensures o == SectionSlide(HeadingTitle(ls[0]), ls[1..], index, s, r)
  {
    o := CreateSlideFromTextSection(HeadingTitle(ls[0]), ls[1..], index, s, r);
  }

  /** The `forEach` over the positions `0 .. n - 1` that pushes every outcome that is present. */
  method CollectPresent<T>(f: nat -> Option<T>, n: nat) returns (r: seq<T>)
    ensures r == Present(f, n)
  {
    r := [];
    var i := 0;
    while i < n
      invariant 0 <= i <= n
      invariant r == Present(f, i)
    {
      var o := f(i);
      if o.Some? {
        r := r + [o.value];
      }
      i := i + 1;
    }
  }

  /** The `forEach` that sets every slide's `id`, `number` and `design` in place. */
  method StampSlides(slides: seq<Slide>, key: string, t: Template) returns (out: seq<Slide>)
    ensures out == StampedAll(slides, key, t)
  {
    out := slides;
    var j := 0;
    while j < |out|
      invariant 0 <= j <= |out| == |slides|
      invariant forall k | 0 <= k < j :: out[k] == Stamped(slides[k], k, key, t)
      invariant out[j..] == slides[j..]
    {
      out := out[j := Stamped(out[j], j, key, t)];
      j := j + 1;
    }
  }

  /** The numbering and design pass over the collected slides, and the result object. */
  method FinishPresentation(slides: seq<Slide>, heading: Option<string>, s: Settings)
    returns (p: Option<Presentation>)
    ensures p == TextPresentation(slides, heading, s)
  {
    if |slides| == 0 {
      return None;
    }
    var template := TemplateFor(s.template);
    if template.None? {
      return None;
    }
    var stamped := StampSlides(slides, s.template, template.value);
    p := Some(Presentation(TextTitle(heading, s.topic), s, stamped, Metadata(|stamped|, Version, Some(TextGenerator))));
  }

  /**
   * `extractPresentationFromText` on the pieces the text was cut into: the slide of every
   * piece in order, then the numbering and design pass.
   */
  method ExtractPresentationFromText(slidePieces: seq<string>, headingPieces: seq<string>,
                                     heading: Option<string>, s: Settings, picks: seq<nat>)
    returns (p: Option<Presentation>)
    requires ValidDraws(picks, |Pieces(slidePieces, headingPieces)|)
    ensures p == Extracted(slidePieces, headingPieces, heading, s, picks)
  {
    var pieces := Pieces(slidePieces, headingPieces);
    var slides := CollectPresent(PieceAt(pieces, s, picks), |pieces|);
    p := FinishPresentation(slides, heading, s);
  }

  /** The first piece always gives the title slide, and when it gives one, the deck opens with it. */
  lemma CollectedOpensWithTitle(pieces: seq<string>, s: Settings, picks: seq<nat>)
    requires ValidDraws(picks, |pieces|) && |pieces| > 0
    requires PieceSlide(pieces[0], 0, s, picks[0]).Some?
    ensures |Collected(pieces, s, picks)| > 0 && Collected(pieces, s, picks)[0].kind == Title
  {
    PresentFrom(PieceAt(pieces, s, picks), |pieces|);
    var ls := PieceLines(pieces[0]);
    SectionSlideShape(HeadingTitle(ls[0]), ls[1..], 0, s, picks[0]);
  }

  /**
   * What the numbering and design pass promises: a presentation exactly when there are
   * slides and the template is known; it holds the same slides in the same order, numbered
   * densely and all carrying the design; the slide count is the number of slides.
   */
  lemma TextPresentationShape(slides: seq<Slide>, heading: Option<string>, s: Settings)
    ensures var p := TextPresentation(slides, heading, s);
      && (p.Some? <==> |slides| > 0 && TemplateFor(s.template).Some?)
      && (p.Some? ==>
        && p.value.metadata.slideCount == |p.value.slides| == |slides|
        && p.value.metadata.generator == Some(TextGenerator)
        && DenselyNumbered(p.value.slides)
        && forall i | 0 <= i < |slides| ::
             && p.value.slides[i].design == Some(DesignOf(s.template, TemplateFor(s.template).value))
             && p.value.slides[i].kind == slides[i].kind && p.value.slides[i].title == slides[i].title
             && p.value.slides[i].content == slides[i].content && p.value.slides[i].notes == slides[i].notes)
  {
  }

  /** When the first piece gives a slide, the extracted presentation opens with the title slide. */
  lemma ExtractedOpensWithTitle(slidePieces: seq<string>, headingPieces: seq<string>, heading: Option<string>,
                                s: Settings, picks: seq<nat>)
    requires ValidDraws(picks, |Pieces(slidePieces, headingPieces)|)
    requires |Pieces(slidePieces, headingPieces)| > 0
    requires PieceSlide(Pieces(slidePieces, headingPieces)[0], 0, s, picks[0]).Some?
    ensures var p := Extracted(slidePieces, headingPieces, heading, s, picks);
      (p.Some? <==> TemplateFor(s.template).Some?) && (p.Some? ==> p.value.slides[0].kind == Title)
  {
    var pieces := Pieces(slidePieces, headingPieces);
    CollectedOpensWithTitle(pieces, s, picks);
    TextPresentationShape(Collected(pieces, s, picks), heading, s);
  }

  // ---------------------------------------------------------------------------------------
  // parseGeminiResponse

  /**
   * `parseGeminiResponse`: a reply that parsed as JSON with a slide list gives its
   * post-processed slides; when there is none, or post-processing its slides throws because
   * the template key is unknown, the text extraction runs on the same reply.
   */
  function ParseResponse(reply: Option<Reply>, slidePieces: seq<string>, headingPieces: seq<string>,
                         heading: Option<string>, s: Settings, replyPicks: seq<nat>, textPicks: seq<nat>)
    : (p: Option<Presentation>)
    requires reply.Some? ==> ValidDraws(replyPicks, |reply.value.slides|)
    requires ValidDraws(textPicks, |Pieces(slidePieces, headingPieces)|)
    ensures TemplateFor(s.template).None? ==> (p.Some? <==> reply.Some? && reply.value.slides == [])
    ensures reply.Some? && (TemplateFor(s.template).Some? || reply.value.slides == []) ==>
      p.Some? && p.value.metadata.generator == Some(RemoteGenerator)
      && p.value.metadata.slideCount == |p.value.slides| == |reply.value.slides|
    ensures reply.None? ==> p == Extracted(slidePieces, headingPieces, heading, s, textPicks)
  {
    var fromReply := if reply.Some? then FromReply(reply.value, s, replyPicks) else None;
    if fromReply.Some? then fromReply
    else
      TextPresentationShape(Collected(Pieces(slidePieces, headingPieces), s, textPicks), heading, s);
      Extracted(slidePieces, headingPieces, heading, s, textPicks)
  }
}
