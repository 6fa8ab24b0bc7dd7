/**
 * The agent object and its local generation pipeline: analysis, structuring with the
 * optimal slide count, balancing, deck assembly, design and output, and the remote result
 * that takes precedence when there is one.
 */
module Agent {
  import opened Wrappers
  import opened Slides
  import opened Classifier
  import opened Analyzer
  import opened Builders
  import opened Balancer
  import opened Deck

  // ---------------------------------------------------------------------------------------
  // structureContent

  /**
   * `contentDensity` in tenths of a slide: five tenths per concept, three per subtopic and
   * two per fact.
   */
  function DensityTenths(a: Analysis): nat {
    5 * |a.mainConcepts| + 3 * |a.subtopics| + 2 * |a.facts|
  }

  /** `optimalSlideCount`: the density rounded up, plus three, capped by `maxSlides`. */
  function OptimalSlideCount(a: Analysis, maxSlides: int): (n: int)
    ensures n <= maxSlides && n <= DensityTenths(a) / 10 + 4
    ensures n == maxSlides || 10 * (n - 3) >= DensityTenths(a) > 10 * (n - 4)
    ensures DensityTenths(a) > 10 * (n - 4)
  {
    Min(CeilDiv(DensityTenths(a), 10) + 3, maxSlides)
  }

  /**
   * The analyser's two or three concepts, five subtopics and five facts always make the
   * optimal slide count seven, or `maxSlides` when that is smaller.
   */
  lemma OptimalSlideCountOfAnalysis(s: Settings)
    ensures OptimalSlideCount(Analyze(s), s.maxSlides) == Min(7, s.maxSlides)
  {
    var a := Analyze(s);
    assert DensityTenths(a) == 35 || DensityTenths(a) == 40;
  }

  /**
   * The sections `structureContent` leaves behind: all seven built from the analysis, then
   * balanced towards the optimal slide count when there are more slides than that; `None`
   * when balancing throws.
   */
  function Structured(a: Analysis, picks: seq<nat>, s: Settings): Option<Sections>
    requires ValidPicks(picks, |a.facts|)
  {
    var x := BuildSections(a, picks, s);
    var target := OptimalSlideCount(a, s.maxSlides);
    if Total(x) > target then Balance(x, target, s.includeNotes) else Some(x)
  }

  /**
   * The sizes of the sections built from the analyser's output: one title, introduction,
   * conclusion and question slide, two or three concepts, five data slides, four examples.
   */
  predicate BuiltSizes(x: Sections) {
    && |x.title| == 1 && |x.introduction| == 1 && |x.conclusion| == 1 && |x.qAndA| == 1
    && 2 <= |x.keyConcepts| <= 3 && |x.data| == 5 && |x.examples| == 4
  }

  /** The built sections hold concept slides with bullets, data slides and example slides. */
  lemma BuiltWellFormed(a: Analysis, picks: seq<nat>, s: Settings)
    requires ValidPicks(picks, |a.facts|)
    ensures WellFormed(BuildSections(a, picks, s))
  {
    var x := BuildSections(a, picks, s);
    assert AllOfKind(x.keyConcepts, Concept) && AllBullets(x.keyConcepts);
    assert AllOfKind(x.data, Data) && AllOfKind(x.examples, Example);
  }

  /** The first pass turns four examples into two and leaves the other sections alone. */
  lemma ExamplesToTwo(x: Sections, includeNotes: bool)
    requires |x.examples| == 4 && AllOfKind(x.examples, Example)
    ensures BalanceExamples(x, includeNotes).Some?
    ensures var y := BalanceExamples(x, includeNotes).value;
      y == x.(examples := y.examples) && |y.examples| == 2
  {
    AllOfKindMergeable(x.examples, Example);
    CombinedSucceeds(x.examples, 2, ExamplesHeading, includeNotes);
    CombinedCount(x.examples, 2, ExamplesHeading, includeNotes);
  }

  /** On a deck that is still too long, the second pass leaves two concepts of two or three. */
  lemma ConceptsToTwo(x: Sections, target: int, includeNotes: bool)
    requires 2 <= |x.keyConcepts| <= 3 && AllOfKind(x.keyConcepts, Concept) && AllBullets(x.keyConcepts)
    requires Total(x) > target
    ensures BalanceConcepts(x, target, includeNotes).Some?
    ensures var y := BalanceConcepts(x, target, includeNotes).value;
      y == x.(keyConcepts := y.keyConcepts) && |y.keyConcepts| == 2
  {
    if |x.keyConcepts| == 3 {
      CombinedSucceeds(x.keyConcepts, 2, KeyConceptsTitle, includeNotes);
      CombinedCount(x.keyConcepts, 2, KeyConceptsTitle, includeNotes);
    }
  }

  /** On a deck that is still too long, the third pass turns five data slides into two. */
  lemma DataToTwo(x: Sections, target: int, includeNotes: bool)
    requires |x.data| == 5 && AllOfKind(x.data, Data) && Total(x) > target
    ensures BalanceData(x, target, includeNotes).Some?
    ensures var y := BalanceData(x, target, includeNotes).value;
      y == x.(data := y.data) && |y.data| == 2
  {
    AllOfKindMergeable(x.data, Data);
    CombinedSucceeds(x.data, 2, DataHeading, includeNotes);
    CombinedCount(x.data, 2, DataHeading, includeNotes);
  }

  /**
   * Balancing sections of the built sizes towards at most seven slides always succeeds and
   * always leaves ten: the four examples become two, three concepts become two, and the
   * five data slides become two.
   */
  lemma BalanceToTen(x: Sections, target: int, includeNotes: bool)
    requires BuiltSizes(x) && WellFormed(x) && target <= 7
    ensures Balance(x, target, includeNotes).Some?
    ensures var y := Balance(x, target, includeNotes).value;
      && Total(y) == 10 && y.title == x.title && y.qAndA == x.qAndA && WellFormed(y)
  {
    BalanceWellFormed(x, target, includeNotes);
    ExamplesToTwo(x, includeNotes);
    var x1 := BalanceExamples(x, includeNotes).value;
    ConceptsToTwo(x1, target, includeNotes);
    var x2 := BalanceConcepts(x1, target, includeNotes).value;
    DataToTwo(x2, target, includeNotes);
  }

  /**
   * Whatever the settings, `structureContent` always balances and always ends with ten
   * slides, even when `maxSlides` asks for fewer; the title and Q&A sections are the ones
   * built.
   */
  lemma StructuredTen(s: Settings, picks: seq<nat>)
    requires ValidPicks(picks, 5)
    ensures var a := Analyze(s);
      && Structured(a, picks, s).Some?
      && Total(Structured(a, picks, s).value) == 10
      && Structured(a, picks, s).value.title == CreateTitleSlide(s)
      && Structured(a, picks, s).value.qAndA == CreateQASlide(s)
  {
    var a := Analyze(s);
    var x := BuildSections(a, picks, s);
    OptimalSlideCountOfAnalysis(s);
    BuiltWellFormed(a, picks, s);
    BalanceToTen(x, OptimalSlideCount(a, s.maxSlides), s.includeNotes);
  }

  // ---------------------------------------------------------------------------------------
  // createSlideDeck, applyDesignElements and generateOutput

  /** The deck of the sections opens with the first title slide and closes with the last Q&A slide. */
  lemma DeckEnds(x: Sections)
    requires |x.title| > 0 && |x.qAndA| > 0
    ensures var d := Renumber(DeckOrder(x));
      && |d| == Total(x) && d[0].kind == x.title[0].kind && d[|d| - 1].kind == x.qAndA[|x.qAndA| - 1].kind
  {
    var r := DeckOrder(x);
    var d := Renumber(r);
    DeckOrderSections(x);
    assert r[0] == r[..|x.title|][0];
    assert r[|r| - 1] == r[|r| - |x.qAndA|..][|x.qAndA| - 1];
    assert Unnumbered(r[0]).kind == Unnumbered(d[0]).kind;
    assert Unnumbered(r[|r| - 1]).kind == Unnumbered(d[|d| - 1]).kind;
  }

  /** Every `Math.random()` draw of the design pass is a valid index of the chart pool. */
  ghost predicate ValidDraw(draw: nat -> nat) {
    forall i: nat :: draw(i) < |ChartPool|
  }

  /** The draws for the first `n` slides. */
  function DrawSeq(draw: nat -> nat, n: nat): (r: seq<nat>)
    requires ValidDraw(draw)
    ensures ValidDraws(r, n)
  {
    seq(n, i requires 0 <= i => draw(i))
  }

  /**
   * `generateOutput`: the topic as title, the settings, the slides and their count, version
   * "1.0" and no generator.
   */
  function Output(s: Settings, slides: seq<Slide>): (p: Presentation)
    ensures p.title == s.topic && p.settings == s && p.slides == slides
    ensures p.metadata.slideCount == |p.slides| && p.metadata.version == Version && p.metadata.generator.None?
  {
    Presentation(s.topic, s, slides, Metadata(|slides|, Version, None))
  }

  /**
   * `createSlideDeck`, `applyDesignElements` and `generateOutput` on the structured sections:
   * `None` when there are slides and the template key is not in the table (reading its
   * colours throws).
   */
  function DeckOutput(x: Sections, s: Settings, draw: nat -> nat): Option<Presentation>
    requires ValidDraw(draw)
  {
    var deck := Renumber(DeckOrder(x));
    match TemplateFor(s.template)
    case None => if deck == [] then Some(Output(s, deck)) else None
    case Some(t) => Some(Output(s, DesignedDeck(deck, s.template, t, DrawSeq(draw, |deck|))))
  }

  /**
   * The output of ten sections' worth of slides that open with the title slide and close
   * with the Q&A slide: a presentation exactly when the template is known, with ten densely
   * numbered slides in that frame, each designed with the template and given a visual, each
   * data slide given a chart type.
   */
  lemma DeckOutputShape(x: Sections, s: Settings, draw: nat -> nat)
    requires ValidDraw(draw) && Total(x) == 10
    requires |x.title| == 1 && x.title[0].kind == Title && |x.qAndA| == 1 && x.qAndA[0].kind == Qa
    ensures var p := DeckOutput(x, s, draw);
      && (p.Some? <==> TemplateFor(s.template).Some?)
      && (p.Some? ==>
        && |p.value.slides| == p.value.metadata.slideCount == 10
        && p.value.title == s.topic && p.value.metadata.generator.None?
        && p.value.slides[0].kind == Title && p.value.slides[9].kind == Qa
        && DenselyNumbered(p.value.slides)
        && forall i | 0 <= i < 10 ::
             && p.value.slides[i].design == Some(DesignOf(s.template, TemplateFor(s.template).value))
             && p.value.slides[i].visual.Some?
             && (p.value.slides[i].kind == Data ==> p.value.slides[i].chartType.Some?))
  {
    DeckEnds(x);
    var deck := Renumber(DeckOrder(x));
    if TemplateFor(s.template).Some? {
      var t := TemplateFor(s.template).value;
      DesignedDeckShape(deck, s.template, t, DrawSeq(draw, |deck|));
    }
  }

  /**
   * The local path of `generatePresentation`: analyse, structure, then assemble, design and
   * output; `None` when balancing throws or the template is unknown.
   */
  function LocalPresentation(s: Settings, picks: seq<nat>, draw: nat -> nat): Option<Presentation>
    requires ValidPicks(picks, 5) && ValidDraw(draw)
  {
    match Structured(Analyze(s), picks, s)
    case None => None
    case Some(x) => DeckOutput(x, s, draw)
  }

  /**
   * What the local pipeline promises: a presentation exactly when the template is known; it
   * has ten slides whatever `maxSlides` says, opens with the title slide and closes with the
   * Q&A slide, is densely numbered, and every slide carries the template's design and a
   * visual, every data slide a chart type.
   */
  lemma LocalPresentationShape(s: Settings, picks: seq<nat>, draw: nat -> nat)
    requires ValidPicks(picks, 5) && ValidDraw(draw)
    ensures var p := LocalPresentation(s, picks, draw);
      && (p.Some? <==> TemplateFor(s.template).Some?)
      && (p.Some? ==>
        && |p.value.slides| == p.value.metadata.slideCount == 10
        && p.value.title == s.topic && p.value.metadata.generator.None?
        && p.value.slides[0].kind == Title && p.value.slides[9].kind == Qa
        && DenselyNumbered(p.value.slides)
        && forall i | 0 <= i < 10 ::
             && p.value.slides[i].design == Some(DesignOf(s.template, TemplateFor(s.template).value))
             && p.value.slides[i].visual.Some?
             && (p.value.slides[i].kind == Data ==> p.value.slides[i].chartType.Some?))
  {
    StructuredTen(s, picks);
    DeckOutputShape(Structured(Analyze(s), picks, s).value, s, draw);
  }

  // ---------------------------------------------------------------------------------------
  // The agent object

  /**
   * The agent: its settings, the analysis of the last run (`topicAnalysis`), the sections
   * `structureContent` builds and the deck. Before the first run there is no analysis and
   * there are no sections.
   */
  class PptAgent {
    var settings: Settings
    var analysis: Option<Analysis>
    var sections: Option<Sections>
    var slides: seq<Slide>

    /** The constructor: the default settings and an empty deck. */
    constructor()
      ensures settings == DefaultSettings && analysis.None? && sections.None? && slides == []
    {
      settings := DefaultSettings;
      analysis := None;
      sections := None;
      slides := [];
    }

    /** `setSettings`: the given properties override the current ones; returns the merged settings. */
    method SetSettings(patch: SettingsPatch) returns (r: Settings)
      modifies this
      ensures settings == MergeSettings(old(settings), patch) && r == settings
      ensures analysis == old(analysis) && sections == old(sections) && slides == old(slides)
    {
      settings := MergeSettings(settings, patch);
      r := settings;
    }

    /** `analyzeTopicAndResearch`: the simulated analysis of the current settings, kept and returned. */
    method AnalyzeTopicAndResearch() returns (a: Analysis)
      modifies this
      ensures a == Analyze(settings) && analysis == Some(a)
      ensures settings == old(settings) && sections == old(sections) && slides == old(slides)
    {
      a := Analyze(settings);
      analysis := Some(a);
    }

    /**
     * `balanceContent(target)`: the three merge passes over the sections in place; `false`
     * when a pass throws, leaving the passes before it applied.
     */
    method BalanceContent(target: int) returns (ok: bool)
      requires sections.Some?
      modifies this
      ensures ok == Balance(old(sections.value), target, settings.includeNotes).Some?
      ensures ok ==> sections == Balance(old(sections.value), target, settings.includeNotes)
      ensures sections.Some? && settings == old(settings) && analysis == old(analysis) && slides == old(slides)
    {
      var notes := settings.includeNotes;
      ghost var x0 := sections.value;
      if |sections.value.examples| > 1 {
        var e := CombineSlides(sections.value.examples, CeilDiv(|sections.value.examples|, 2), ExamplesHeading, notes);
        if e.None? {
          return false;
        }
        sections := Some(sections.value.(examples := e.value));
      }
      assert Some(sections.value) == BalanceExamples(x0, notes);
      ghost var x1 := sections.value;
      if Total(sections.value) > target && |sections.value.keyConcepts| > 2 {
        var c := CombineSlides(sections.value.keyConcepts, CeilDiv(|sections.value.keyConcepts|, 2), KeyConceptsTitle, notes);
        if c.None? {
          return false;
        }
        sections := Some(sections.value.(keyConcepts := c.value));
      }
      assert Some(sections.value) == BalanceConcepts(x1, target, notes);
      if Total(sections.value) > target && |sections.value.data| > 1 {
        var d := CombineSlides(sections.value.data, Min(2, |sections.value.data|), DataHeading, notes);
        if d.None? {
          return false;
        }
        sections := Some(sections.value.(data := d.value));
      }
      ok := true;
    }

    /**
     * `structureContent`: the optimal slide count from the content density, the seven
     * sections, and balancing when they hold more slides than that; `false` when balancing
     * throws.
     */
    method StructureContent(picks: seq<nat>) returns (ok: bool)
      requires analysis.Some? && ValidPicks(picks, |analysis.value.facts|)
      modifies this
      ensures settings == old(settings) && analysis == old(analysis) && slides == old(slides)
      ensures ok == Structured(analysis.value, picks, settings).Some?
      ensures ok ==> sections == Structured(analysis.value, picks, settings)
    {
      var a := analysis.value;
      var density := 5 * |a.mainConcepts| + 3 * |a.subtopics| + 2 * |a.facts|;
      var optimal := Min(CeilDiv(density, 10) + 3, settings.maxSlides);
      assert optimal == OptimalSlideCount(a, settings.maxSlides);
      var x := BuildSections(a, picks, settings);
      sections := Some(x);
      if Total(x) > optimal {
        ok := BalanceContent(optimal);
      } else {
        ok := true;
      }
    }

    /** `createSlideDeck`: the sections concatenated in deck order, then numbered in place. */
    method CreateSlideDeck()
      requires sections.Some?
      modifies this
      ensures settings == old(settings) && analysis == old(analysis) && sections == old(sections)
      ensures slides == Renumber(DeckOrder(sections.value))
    {
      var x := sections.value;
      slides := x.title + x.introduction + x.keyConcepts + x.data + x.examples + x.conclusion + x.qAndA;
      var i := 0;
      while i < |slides|
        invariant 0 <= i <= |slides| == |DeckOrder(x)|
        invariant forall k | 0 <= k < i :: slides[k] == Numbered(DeckOrder(x)[k], k)
        invariant slides[i..] == DeckOrder(x)[i..]
        invariant settings == old(settings) && analysis == old(analysis) && sections == old(sections)
      {
        assert slides[i] == slides[i..][0];
        slides := slides[i := Numbered(slides[i], i)];
        i := i + 1;
      }
    }

    /**
     * `applyDesignElements`: every slide of the deck gets the template's design and its
     * visual element in place (`draw(i)` is the chart draw of slide `i`); `false` when there
     * are slides and the template key is not in the table.
     */
    method ApplyDesignElements(draw: nat -> nat) returns (ok: bool)
      requires ValidDraw(draw)
      modifies this
      ensures ok <==> TemplateFor(settings.template).Some? || old(slides) == []
      ensures ok && TemplateFor(settings.template).Some? ==>
        slides == DesignedDeck(old(slides), settings.template, TemplateFor(settings.template).value,
          DrawSeq(draw, |old(slides)|))
      ensures TemplateFor(settings.template).None? ==> slides == old(slides)
      ensures settings == old(settings) && analysis == old(analysis) && sections == old(sections)
    {
      var template := TemplateFor(settings.template);
      if template.None? {
        return slides == [];
      }
      var t := template.value;
      ghost var deck := slides;
      ghost var picks := DrawSeq(draw, |deck|);
      var i := 0;
      while i < |slides|
        invariant 0 <= i <= |slides| == |deck|
        invariant forall k | 0 <= k < i :: slides[k] == Designed(deck[k], settings.template, t, picks[k])
        invariant slides[i..] == deck[i..]
        invariant settings == old(settings) && analysis == old(analysis) && sections == old(sections)
      {
        assert slides[i] == slides[i..][0];
        slides := slides[i := Designed(slides[i], settings.template, t, draw(i))];
        i := i + 1;
      }
      ok := true;
    }

    /** `generateOutput`: the presentation of the current settings and deck. */
    method GenerateOutput() returns (p: Presentation)
      ensures p == Output(settings, slides)
    {
      p := Presentation(settings.topic, settings, slides, Metadata(|slides|, Version, None));
    }

    /**
     * `generatePresentation`: the remote result when there is one (`remote` is `None` when
     * the remote service is not configured, fails or returns nothing), otherwise the local
     * pipeline; `None` when the local pipeline throws.
     */
    method GeneratePresentation(remote: Option<Presentation>, picks: seq<nat>, draw: nat -> nat)
      returns (p: Option<Presentation>)
      requires ValidPicks(picks, 5) && ValidDraw(draw)
      modifies this
      ensures p == if remote.Some? then remote else LocalPresentation(old(settings), picks, draw)
      ensures settings == old(settings)
      ensures remote.Some? ==> analysis == old(analysis) && sections == old(sections) && slides == old(slides)
      ensures remote.None? ==> analysis == Some(Analyze(old(settings)))
      ensures remote.None? && p.Some? ==> slides == p.value.slides
    {
      if remote.Some? {
        return remote;
      }
      var a := AnalyzeTopicAndResearch();
      var ok := StructureContent(picks);
      if !ok {
        return None;
      }
      CreateSlideDeck();
      ok := ApplyDesignElements(draw);
      if !ok {
        return None;
      }
      var out := GenerateOutput();
      p := Some(out);
    }
  }
}
