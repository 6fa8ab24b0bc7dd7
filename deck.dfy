/**
 * Deck assembly: the order `createSlideDeck` concatenates the sections in, the dense
 * numbering, the `design` object and visual element every slide receives, and the
 * post-processing of the slides of a parsed remote reply.
 */
module Deck {
  import opened Wrappers
  import opened Strings
  import opened Slides
  import opened Classifier
  import Balancer

  /** The sections in deck order: title, introduction, concepts, data, examples, conclusion, Q&A. */
  function DeckOrder(x: Sections): (r: seq<Slide>)
    ensures |r| == Balancer.Total(x)
  {
    x.title + x.introduction + x.keyConcepts + x.data + x.examples + x.conclusion + x.qAndA
  }

  /**
   * The deck opens with the title section and closes with the Q&A section, and the concept
   * slides follow the title and introduction slides directly.
   */
  lemma DeckOrderSections(x: Sections)
    ensures var r := DeckOrder(x);
      && r[..|x.title|] == x.title
      && r[|r| - |x.qAndA|..] == x.qAndA
      && r[|x.title| + |x.introduction| .. |x.title| + |x.introduction| + |x.keyConcepts|] == x.keyConcepts
  {
    var r := DeckOrder(x);
    var a := x.title + x.introduction;
    var b := a + x.keyConcepts;
    var c := b + x.data + x.examples + x.conclusion;
    assert r == b + (x.data + x.examples + x.conclusion + x.qAndA);
    assert r == c + x.qAndA;
    assert r[..|b|][..|x.title|] == x.title;
  }

  /** Slide `i` of the deck after numbering: `number` and `id` are both `i + 1`. */
  function Numbered(s: Slide, i: nat): Slide {
    s.(number := Some(i + 1), id := Some(i + 1))
  }

  /** Every slide carries its one-based position as `number` and as `id`. */
  predicate DenselyNumbered(ss: seq<Slide>) {
    forall i | 0 <= i < |ss| :: ss[i].number == Some(i + 1) && ss[i].id == Some(i + 1)
  }

  /** A slide with its numbering removed, to compare slides up to their numbers. */
  function Unnumbered(s: Slide): Slide {
    s.(number := None, id := None)
  }

  /** The slides are the same apart from their `number` and `id`. */
  predicate SameUpToNumbers(a: seq<Slide>, b: seq<Slide>) {
    |a| == |b| && forall i | 0 <= i < |a| :: Unnumbered(a[i]) == Unnumbered(b[i])
  }

  /** `slides.forEach((slide, index) => { slide.number = index + 1; slide.id = index + 1 })`. */
  function Renumber(ss: seq<Slide>): (r: seq<Slide>)
    ensures DenselyNumbered(r) && SameUpToNumbers(ss, r)
  {
    seq(|ss|, i requires 0 <= i < |ss| => Numbered(ss[i], i))
  }

  /** Numbering twice gives the same deck: renumbering is idempotent. */
  lemma RenumberIdempotent(ss: seq<Slide>)
    ensures Renumber(Renumber(ss)) == Renumber(ss)
  {
    var r := Renumber(ss);
    assert forall i | 0 <= i < |r| :: Numbered(r[i], i) == r[i];
  }

  const BackgroundVisual: string := "background"
  const BackgroundText: string := "Subtle gradient background with company logo"
  const IconVisual: string := "icon"
  const ConceptIconLead: string := "Icon representing the concept of "
  const ImageVisual: string := "image"
  const ImageLead: string := "Image illustrating "
  const ShowingText: string := " showing "
  const SummaryIconText: string := "Summary icon or graphic"
  const QaIconText: string := "Question mark icon or contact information graphic"
  const NoVisual: string := "none"
  const NoVisualText: string := "No visual element"
  const CaseStudyImage: string := "case-study"

  /** The chart a data slide ends up with: its own, or the one `determineChartType` picks with draw `r`. */
  function ChartOf(s: Slide, r: nat): ChartType
    requires r < |ChartPool|
  {
    if s.chartType.Some? then s.chartType.value else DetermineChartType(s, r)
  }

  /**
   * `addVisualElements`: a visual element chosen by the slide's type. A data slide keeps its
   * chart type, or gets one from `determineChartType`, and its visual charts the slide's data
   * points; an example slide becomes a case study. Nothing else about the slide changes.
   */
  function AddVisualElements(s: Slide, r: nat): (v: Slide)
    requires r < |ChartPool|
    ensures v.(visual := None, chartType := None, imageType := None) == s.(visual := None, chartType := None, imageType := None)
    ensures v.visual.Some?
    ensures s.kind == Data ==>
      (v.chartType == Some(ChartOf(s, r))
      && v.visual.value.kind == ChartName(ChartOf(s, r)) && v.visual.value.data == s.dataPoints)
    ensures s.kind != Data ==> v.chartType == s.chartType && v.visual.value.data.None?
    ensures s.kind == Example ==> v.imageType == Some(CaseStudyImage)
    ensures s.kind != Example ==> v.imageType == s.imageType
  {
    match s.kind
    case Title => s.(visual := Some(Visual(BackgroundVisual, None, BackgroundText)))
    case Data =>
      var c := ChartOf(s, r);
      s.(visual := Some(Visual(ChartName(c), s.dataPoints, ChartName(c) + ShowingText + Lower(s.title))),
        chartType := Some(c))
    case Concept => s.(visual := Some(Visual(IconVisual, None, ConceptIconLead + s.title)))
    case Example => s.(visual := Some(Visual(ImageVisual, None, ImageLead + s.title)), imageType := Some(CaseStudyImage))
    case Conclusion => s.(visual := Some(Visual(IconVisual, None, SummaryIconText)))
    case Qa => s.(visual := Some(Visual(IconVisual, None, QaIconText)))
    case _ => s.(visual := Some(Visual(NoVisual, None, NoVisualText)))
  }

  /** A data slide that already has a chart type keeps it, whatever the draw. */
  lemma AddVisualElementsKeepsChart(s: Slide, r1: nat, r2: nat)
    requires r1 < |ChartPool| && r2 < |ChartPool| && s.kind == Data && s.chartType.Some?
    ensures AddVisualElements(s, r1).chartType == s.chartType
    ensures AddVisualElements(s, r1) == AddVisualElements(s, r2)
  {
  }

  /** Adding the visual elements a second time changes nothing more than the first time. */
  lemma AddVisualElementsIdempotent(s: Slide, r1: nat, r2: nat)
    requires r1 < |ChartPool| && r2 < |ChartPool|
    ensures AddVisualElements(AddVisualElements(s, r1), r2) == AddVisualElements(s, r1)
  {
    var v := AddVisualElements(s, r1);
    if s.kind == Data {
      assert v.chartType.Some? && Lower(v.title) == Lower(s.title);
    }
  }

  /** Every draw is a valid index of the chart pool. */
  predicate ValidDraws(picks: seq<nat>, n: nat) {
    |picks| == n && forall i | 0 <= i < n :: picks[i] < |ChartPool|
  }

  /** One slide of `applyDesignElements`: the template's `design`, then the visual element. */
  function Designed(s: Slide, key: string, t: Template, r: nat): (v: Slide)
    requires r < |ChartPool|
  {
    AddVisualElements(s.(design := Some(DesignOf(key, t))), r)
  }

  /**
   * `applyDesignElements` on the whole deck: every slide gets the template's palette and
   * fonts and a visual, every data slide a chart type and every example slide an image type,
   * while kinds, titles, content and numbering stay.
   */
  function DesignedDeck(ss: seq<Slide>, key: string, t: Template, picks: seq<nat>): (r: seq<Slide>)
    requires ValidDraws(picks, |ss|)
  {
    seq(|ss|, i requires 0 <= i < |ss| => Designed(ss[i], key, t, picks[i]))
  }

  /** What a designed deck promises, slide by slide. */
  predicate DesignedSlide(s: Slide, v: Slide, key: string, t: Template) {
    && v.kind == s.kind && v.title == s.title && v.content == s.content
    && v.number == s.number && v.id == s.id && v.notes == s.notes
    && v.design == Some(DesignOf(key, t)) && v.visual.Some?
    && (v.kind == Data ==> v.chartType.Some?)
    && (v.kind == Example ==> v.imageType == Some(CaseStudyImage))
  }

  lemma DesignedDeckShape(ss: seq<Slide>, key: string, t: Template, picks: seq<nat>)
    requires ValidDraws(picks, |ss|)
    ensures |DesignedDeck(ss, key, t, picks)| == |ss|
    ensures forall i | 0 <= i < |ss| :: DesignedSlide(ss[i], DesignedDeck(ss, key, t, picks)[i], key, t)
  {
    forall i | 0 <= i < |ss|
      ensures DesignedSlide(ss[i], DesignedDeck(ss, key, t, picks)[i], key, t)
    {
      var d := ss[i].(design := Some(DesignOf(key, t)));
      var v := AddVisualElements(d, picks[i]);
      assert v.(visual := None, chartType := None, imageType := None).kind == v.kind;
    }
  }

  /**
   * One slide of a parsed remote reply: numbered by its position, a data slide without a
   * chart type gets one from `determineChartType`, an example slide without an image type
   * becomes a case study, and the template's design is added.
   */
  function ProcessedSlide(s: Slide, i: nat, r: nat, key: string, t: Template): Slide
    requires r < |ChartPool|
  {
    var chart := if s.kind == Data && s.chartType.None? then Some(DetermineChartType(s, r)) else s.chartType;
    var image := if s.kind == Example && s.imageType.None? then Some(CaseStudyImage) else s.imageType;
    Numbered(s, i).(chartType := chart, imageType := image, design := Some(DesignOf(key, t)))
  }

  /** The slides of a parsed remote reply after post-processing. */
  function ProcessedSlides(ss: seq<Slide>, key: string, t: Template, picks: seq<nat>): seq<Slide>
    requires ValidDraws(picks, |ss|)
  {
    seq(|ss|, i requires 0 <= i < |ss| => ProcessedSlide(ss[i], i, picks[i], key, t))
  }

  /**
   * Post-processing keeps every slide of the reply in order, numbers them densely, keeps a
   * chart or image type the reply gave and fills in a missing one on data and example slides.
   */
  lemma ProcessedSlidesShape(ss: seq<Slide>, key: string, t: Template, picks: seq<nat>)
    requires ValidDraws(picks, |ss|)
    ensures var r := ProcessedSlides(ss, key, t, picks);
      |r| == |ss| && DenselyNumbered(r)
    ensures var r := ProcessedSlides(ss, key, t, picks);
      forall i | 0 <= i < |ss| ::
        && r[i].kind == ss[i].kind && r[i].title == ss[i].title && r[i].content == ss[i].content
        && r[i].design == Some(DesignOf(key, t))
        && (ss[i].chartType.Some? ==> r[i].chartType == ss[i].chartType)
        && (ss[i].kind == Data ==> r[i].chartType.Some?)
        && (ss[i].imageType.Some? ==> r[i].imageType == ss[i].imageType)
        && (ss[i].kind == Example ==> r[i].imageType.Some?)
  {
  }

  /** A parsed remote reply: its optional `title` and its slides. */
  datatype Reply = Reply(title: Option<string>, slides: seq<Slide>)

  const RemoteGenerator: string := "Gemini AI"
  const Version: string := "1.0"

  /** `parsedData.title || topic`: an absent or empty title falls back to the topic. */
  function ReplyTitle(reply: Reply, topic: string): string {
    if reply.title.Some? && reply.title.value != "" then reply.title.value else topic
  }

  /**
   * The presentation `parseGeminiResponse` builds from a parsed reply. Reading the colours
   * of a template key that is not in the table throws, so the result is `None` then, unless
   * the reply has no slides: mapping over an empty list never reads the template.
   */
  function FromReply(reply: Reply, s: Settings, picks: seq<nat>): (p: Option<Presentation>)
    requires ValidDraws(picks, |reply.slides|)
    ensures p.Some? <==> TemplateFor(s.template).Some? || reply.slides == []
    ensures p.Some? ==>
      (p.value.metadata.slideCount == |p.value.slides| == |reply.slides|
      && p.value.metadata.generator == Some(RemoteGenerator) && DenselyNumbered(p.value.slides))
  {
    match TemplateFor(s.template)
    case None =>
      if reply.slides == [] then Some(Presentation(ReplyTitle(reply, s.topic), s, [], Metadata(0, Version, Some(RemoteGenerator))))
      else None
    case Some(t) =>
      ProcessedSlidesShape(reply.slides, s.template, t, picks);
      var slides := ProcessedSlides(reply.slides, s.template, t, picks);
      Some(Presentation(ReplyTitle(reply, s.topic), s, slides, Metadata(|slides|, Version, Some(RemoteGenerator))))
  }
}
