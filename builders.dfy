/**
 * The section builders (`createTitleSlide` … `createQASlide`) and `structureContent`'s
 * assembly of the seven sections. Every builder sets `notes` to its sentence when speaker
 * notes are enabled and to the empty string otherwise.
 */
module Builders {
  import opened Wrappers
  import opened Strings
  import opened Slides
  import opened Classifier

  const Presenter: string := "Your Name Here"
  const WelcomeLead: string := "Welcome everyone to this presentation on "
  const WelcomeRest: string := ". Today we'll be exploring the key aspects of this topic and discussing its implications."

  /**
   * `createTitleSlide`: one title slide headed by the capitalised topic, with the subtitle of
   * the settings' tone and audience and the placeholder presenter; no bullets.
   */
  function CreateTitleSlide(s: Settings): (r: seq<Slide>)
    ensures |r| == 1 && r[0].kind == Title && r[0].content == Bullets([])
    ensures r[0].title == CapitalizeWords(s.topic) && |r[0].title| == |s.topic|
    ensures r[0].subtitle == Some(GenerateSubtitle(s.tone, s.audience)) && r[0].presenter == Some(Presenter)
    ensures NotesFollow(r[0].notes, s.includeNotes, s.topic)
  {
    CapitalizeWordsAt(s.topic);
    [Slide(Title, CapitalizeWords(s.topic), Bullets([]), Some(GenerateSubtitle(s.tone, s.audience)),
      Some(Presenter), None, None, None, NotesIf(s.includeNotes, Around(WelcomeLead, s.topic, WelcomeRest)),
      None, None, None, None)]
  }

  const IntroLead: string := "This introduction sets the stage for our discussion. The goal is to provide context about why "
  const IntroMiddle: string := " is relevant to "
  const IntroRest: string := " and what key challenges and opportunities exist in this space."

  /**
   * `createIntroductionSlide`: three bullets (an overview of the capitalised topic, the
   * challenges line and why it matters to the audience); the notes name topic and audience.
   */
  function CreateIntroductionSlide(s: Settings): (r: seq<Slide>)
    ensures |r| == 1 && r[0].kind == Introduction && r[0].title == "Introduction"
    ensures r[0].content.Bullets? && |r[0].content.items| == 3
    ensures Contains(r[0].content.items[0], CapitalizeWords(s.topic))
    ensures Contains(r[0].content.items[2], s.audience)
    ensures NotesFollow(r[0].notes, s.includeNotes, s.topic) && NotesFollow(r[0].notes, s.includeNotes, s.audience)
  {
    var notes := Around2(IntroLead, s.topic, IntroMiddle, s.audience, IntroRest);
    [Basic(Introduction, "Introduction",
      Bullets([Around("Overview of ", CapitalizeWords(s.topic), ""), "Key challenges and opportunities",
        Around("Why this matters to ", s.audience, "")]),
      NotesIf(s.includeNotes, notes))]
  }

  const ConceptLead: string := "When discussing "
  const ConceptMiddle: string := ", emphasize how it specifically impacts "
  const ConceptRest: string := ". This concept is fundamental to understanding the broader topic."

  /** One concept slide. */
  function ConceptSlide(concept: string, s: Settings): (r: Slide)
    ensures r.kind == Concept && r.title == CapitalizeWords(concept) && |r.title| == |concept|
    ensures r.content.Bullets? && |r.content.items| == 3
    ensures Contains(r.content.items[0], concept) && Contains(r.content.items[2], s.audience)
    ensures NotesFollow(r.notes, s.includeNotes, concept) && NotesFollow(r.notes, s.includeNotes, s.audience)
  {
    CapitalizeWordsAt(concept);
    Basic(Concept, CapitalizeWords(concept),
      Bullets([Around("Definition and importance of ", concept, ""), "Current trends and developments",
        Around("Impact on ", s.audience, "")]),
      NotesIf(s.includeNotes, Around2(ConceptLead, concept, ConceptMiddle, s.audience, ConceptRest)))
  }

  /** `createKeyConceptSlides`: one concept slide per main concept, in order. */
  function CreateKeyConceptSlides(concepts: seq<string>, s: Settings): (r: seq<Slide>)
    ensures |r| == |concepts|
    ensures forall i | 0 <= i < |r| ::
      r[i].kind == Concept && r[i].title == CapitalizeWords(concepts[i])
      && r[i].content.Bullets? && |r[i].content.items| == 3
      && Contains(r[i].content.items[0], concepts[i]) && NotesFollow(r[i].notes, s.includeNotes, concepts[i])
  {
    seq(|concepts|, i requires 0 <= i < |concepts| => ConceptSlide(concepts[i], s))
  }

  const DataLead: string := "These statistics highlight the significance of "
  const DataMiddle: string := ". The data demonstrates "

  /** One data slide; `pick` is the draw `getChartTypeFromFact` may fall back on. */
  function DataSlide(f: Fact, pick: nat, s: Settings): (r: Slide)
    requires pick < |FactChartPool|
    ensures r.kind == Data && r.title == f.title && r.content == Text(f.description)
    ensures r.dataPoints == f.data && r.chartType == Some(GetChartTypeFromFact(f, pick))
    ensures NotesFollow(r.notes, s.includeNotes, Lower(f.title)) && NotesFollow(r.notes, s.includeNotes, f.interpretation)
  {
    Slide(Data, f.title, Text(f.description), None, None, Some(GetChartTypeFromFact(f, pick)), None, f.data,
      NotesIf(s.includeNotes, Around2(DataLead, Lower(f.title), DataMiddle, f.interpretation, ".")),
      None, None, None, None)
  }

  /** Every draw is a valid index of the fact pool. */
  predicate ValidPicks(picks: seq<nat>, n: nat) {
    |picks| == n && forall i | 0 <= i < n :: picks[i] < |FactChartPool|
  }

  /**
   * `createDataSlides`: one data slide per fact, in order, carrying the fact's series and a
   * chart type chosen from the fact (`picks[i]` is the draw for fact `i`).
   */
  function CreateDataSlides(facts: seq<Fact>, picks: seq<nat>, s: Settings): (r: seq<Slide>)
    requires ValidPicks(picks, |facts|)
    ensures |r| == |facts|
    ensures forall i | 0 <= i < |r| ::
      && r[i].kind == Data && r[i].title == facts[i].title && r[i].content == Text(facts[i].description)
      && r[i].dataPoints == facts[i].data && r[i].chartType == Some(GetChartTypeFromFact(facts[i], picks[i]))
      && NotesFollow(r[i].notes, s.includeNotes, Lower(facts[i].title))
      && NotesFollow(r[i].notes, s.includeNotes, facts[i].interpretation)
  {
    seq(|facts|, i requires 0 <= i < |facts| => DataSlide(facts[i], picks[i], s))
  }

  const ExampleLead: string := "This example of "
  const ExampleMiddle: string := " illustrates the practical application of the concepts we've discussed. It's particularly relevant for "

  /** One case-study slide. */
  function ExampleSlide(e: CaseStudy, s: Settings): (r: Slide)
    ensures r.kind == Example && r.title == e.title && r.content == Text(e.description)
    ensures r.imageType == Some("case-study")
    ensures NotesFollow(r.notes, s.includeNotes, e.title) && NotesFollow(r.notes, s.includeNotes, s.audience)
  {
    Slide(Example, e.title, Text(e.description), None, None, None, Some("case-study"), None,
      NotesIf(s.includeNotes, Around2(ExampleLead, e.title, ExampleMiddle, s.audience, ".")),
      None, None, None, None)
  }

  /** `createExampleSlides`: one case-study slide per example, in order. */
  function CreateExampleSlides(examples: seq<CaseStudy>, s: Settings): (r: seq<Slide>)
    ensures |r| == |examples|
    ensures forall i | 0 <= i < |r| ::
      && r[i].kind == Example && r[i].title == examples[i].title && r[i].content == Text(examples[i].description)
      && r[i].imageType == Some("case-study")
      && NotesFollow(r[i].notes, s.includeNotes, examples[i].title)
      && NotesFollow(r[i].notes, s.includeNotes, s.audience)
  {
    seq(|examples|, i requires 0 <= i < |examples| => ExampleSlide(examples[i], s))
  }

  const ConclusionLead: string := "Summarize the key takeaways and emphasize the specific action items that "
  const ConclusionRest: string := " should consider. This reinforces the practical value of the presentation."

  /** `createConclusionSlide`: a summary of the topic, implications for the audience, next steps. */
  function CreateConclusionSlide(s: Settings): (r: seq<Slide>)
    ensures |r| == 1 && r[0].kind == Conclusion && r[0].title == "Conclusion"
    ensures r[0].content.Bullets? && |r[0].content.items| == 3
    ensures Contains(r[0].content.items[0], s.topic) && Contains(r[0].content.items[1], s.audience)
    ensures NotesFollow(r[0].notes, s.includeNotes, s.audience)
  {
    [Basic(Conclusion, "Conclusion",
      Bullets([Around("Summary of key points about ", s.topic, ""), Around("Implications for ", s.audience, ""),
        "Recommended next steps and actions"]),
      NotesIf(s.includeNotes, Around(ConclusionLead, s.audience, ConclusionRest)))]
  }

  const QaContact: string := "Contact Information: your.email@example.com"
  const QaNotes: string := "Be prepared to address questions about specific aspects of the topic. Have additional data points ready to support your main arguments if needed."

  /** `createQASlide`: the contact line as text content; the notes do not depend on the settings. */
  function CreateQASlide(s: Settings): (r: seq<Slide>)
    ensures |r| == 1 && r[0].kind == Qa && r[0].title == "Questions?" && r[0].content == Text(QaContact)
    ensures r[0].notes == Some(if s.includeNotes then QaNotes else "")
  {
    [Basic(Qa, "Questions?", Text(QaContact), NotesIf(s.includeNotes, QaNotes))]
  }

  /**
   * The seven sections `structureContent` builds, before balancing: one title, introduction,
   * conclusion and question slide, and one slide per concept, fact and example.
   */
  function BuildSections(a: Analysis, picks: seq<nat>, s: Settings): (x: Sections)
    requires ValidPicks(picks, |a.facts|)
    ensures |x.title| == 1 && |x.introduction| == 1 && |x.conclusion| == 1 && |x.qAndA| == 1
    ensures |x.keyConcepts| == |a.mainConcepts| && |x.data| == |a.facts| && |x.examples| == |a.examples|
  {
    Sections(CreateTitleSlide(s), CreateIntroductionSlide(s), CreateKeyConceptSlides(a.mainConcepts, s),
      CreateDataSlides(a.facts, picks, s), CreateExampleSlides(a.examples, s),
      CreateConclusionSlide(s), CreateQASlide(s))
  }
}
