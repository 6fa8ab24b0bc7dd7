/**
 * The simulated topic analysis (`analyzeTopicAndResearch` and the `simulate*` functions):
 * concepts derived from the words of the topic, and fixed tables of subtopics, statistics
 * and case studies parameterised by the topic.
 */
module Analyzer {
  import opened Wrappers
  import opened Strings
  import opened Slides
  import opened Classifier

  /** `if (!topic) topic = "Sample Topic"`. */
  function OrSample(topic: string): string {
    if topic == "" then "Sample Topic" else topic
  }

  const StopWords: seq<string> := ["and", "the", "for", "with", "that", "this"]

  /** The filter of `simulateMainConcepts`: longer than three characters and not a stop word. */
  predicate KeepWord(w: string) {
    |w| > 3 && w !in StopWords
  }

  /** `a` is `b` with some of its elements left out and the others in their order. */
  predicate Subsequence(a: seq<string>, b: seq<string>) {
    if a == [] then true
    else if b == [] then false
    else if a[0] == b[0] then Subsequence(a[1..], b[1..])
    else Subsequence(a, b[1..])
  }

  /** `words.filter(KeepWord)`: the kept words, in their original order. */
  function FilterWords(ws: seq<string>): (r: seq<string>)
    ensures |r| <= |ws|
    ensures forall i | 0 <= i < |r| :: KeepWord(r[i])
  {
    if ws == [] then []
    else (if KeepWord(ws[0]) then [ws[0]] else []) + FilterWords(ws[1..])
  }

  /**
   * The filter keeps the kept words in their original order, each as often as it occurs in
   * the input, and drops the other words altogether.
   */
  lemma {:induction false} FilterWordsOrder(ws: seq<string>)
    ensures Subsequence(FilterWords(ws), ws)
    ensures forall w :: multiset(FilterWords(ws))[w] == if KeepWord(w) then multiset(ws)[w] else 0
  {
    if ws != [] {
      FilterWordsOrder(ws[1..]);
      assert ws == [ws[0]] + ws[1..];
      var rest := FilterWords(ws[1..]);
      if KeepWord(ws[0]) {
        assert FilterWords(ws) == [ws[0]] + rest;
        assert FilterWords(ws)[1..] == rest;
      } else {
        assert FilterWords(ws) == rest;
        assert rest != [] ==> KeepWord(rest[0]) && rest[0] != ws[0];
      }
    }
  }

  /** A word is kept exactly when it is among the input words and passes the filter. */
  lemma {:induction false} FilterWordsMembers(ws: seq<string>, w: string)
    ensures w in FilterWords(ws) <==> w in ws && KeepWord(w)
  {
    if ws != [] {
      FilterWordsMembers(ws[1..], w);
      assert ws == [ws[0]] + ws[1..];
    }
  }

  /** The words of the lower-cased topic that survive the filter. */
  function KeptWords(topic: string): seq<string> {
    FilterWords(Split(Lower(OrSample(topic)), ' '))
  }

  /**
   * `simulateMainConcepts`: two or three concepts. With at least two kept words, the first
   * three kept words get the suffixes " principles", " applications" and " integration";
   * otherwise three generic phrases are built from the whole topic.
   */
  function SimulateMainConcepts(topic0: string): (r: seq<string>)
    ensures 2 <= |r| <= 3
    ensures var w := KeptWords(topic0);
      |w| >= 2 ==> |r| == (if |w| >= 3 then 3 else 2) && r[0] == w[0] + " principles" && r[1] == w[1] + " applications"
    ensures var w := KeptWords(topic0); |w| >= 3 ==> r[2] == w[2] + " integration"
    ensures var w := KeptWords(topic0);
      |w| < 2 ==> r == [OrSample(topic0) + " fundamentals", OrSample(topic0) + " applications", OrSample(topic0) + " future trends"]
    ensures forall i | 0 <= i < |r| :: |r[i]| > 3
  {
    var topic := OrSample(topic0);
    var filtered := FilterWords(Split(Lower(topic), ' '));
    var n := |filtered|;
    if n >= 2 then
      [filtered[0] + " principles", filtered[if 1 < n - 1 then 1 else n - 1] + " applications"]
      + (if n >= 3 then [filtered[if 2 < n - 1 then 2 else n - 1] + " integration"] else [])
    else
      [topic + " fundamentals", topic + " applications", topic + " future trends"]
  }

  /** `simulateSubtopics`: five fixed phrases, three of them naming the topic. */
  function SimulateSubtopics(topic0: string): (r: seq<string>)
    ensures |r| == 5
    ensures forall i | 0 <= i < 5 && i != 2 && i != 4 :: Contains(r[i], OrSample(topic0))
  {
    var topic := OrSample(topic0);
    [ Around("", topic, " implementation strategies"),
      Around("Future trends in ", topic, ""),
      "Challenges and opportunities",
      Around("Best practices for ", topic, ""),
      "Case studies and success stories"]
  }

  function Point(key: string, name: Field, valueKey: string, value: int): Record {
    map[key := name, valueKey := Num(value)]
  }

  const GrowthData: seq<Record> := [Point("year", Str("2022"), "value", 100), Point("year", Str("2023"), "value", 115),
    Point("year", Str("2024"), "value", 127), Point("year", Str("2025"), "value", 142)]
  const AdoptionData: seq<Record> := [Point("category", Str("Small Business"), "value", 45),
    Point("category", Str("Mid-sized"), "value", 65), Point("category", Str("Enterprise"), "value", 78)]
  const FactorsData: seq<Record> := [Point("factor", Str("Leadership Support"), "value", 87),
    Point("factor", Str("Adequate Training"), "value", 76), Point("factor", Str("Clear Goals"), "value", 92),
    Point("factor", Str("Technology"), "value", 64), Point("factor", Str("Budget"), "value", 58)]
  const RoiData: seq<Record> := [Point("timeframe", Str("0-6 months"), "percentage", 32),
    Point("timeframe", Str("6-12 months"), "percentage", 46), Point("timeframe", Str("12-18 months"), "percentage", 18),
    Point("timeframe", Str("18+ months"), "percentage", 4)]
  const IndustryData: seq<Record> := [Point("industry", Str("Technology"), "adoption", 92),
    Point("industry", Str("Healthcare"), "adoption", 83), Point("industry", Str("Financial Services"), "adoption", 76),
    Point("industry", Str("Manufacturing"), "adoption", 65), Point("industry", Str("Retail"), "adoption", 58)]

  const FactTitles: seq<string> := ["Market Growth", "Adoption Rates", "Success Factors", "ROI Analysis", "Industry Comparison"]

  const GrowthLead: string := "The "
  const GrowthRest: string := " market has grown by 27% over the past two years, with projections showing continued expansion."
  const GrowthReading: string := "the strong momentum and potential for future investment"
  const AdoptionLead: string := "Organizations implementing "
  const AdoptionRest: string := " reported a 35% increase in efficiency and 22% reduction in costs."
  const AdoptionReading: string := "the varying adoption rates across different organization sizes"
  const FactorsLead: string := "Key success factors for "
  const FactorsRest: string := " implementation include leadership support (87%), adequate training (76%), and clear goals (92%)."
  const FactorsReading: string := "the critical importance of organizational factors over purely technical considerations"
  const RoiLead: string := "Return on investment for "
  const RoiRest: string := " initiatives shows positive results within 6-12 months in 78% of cases."
  const RoiReading: string := "the relatively quick payback period for well-executed implementations"
  const IndustryLead: string := ""
  const IndustryRest: string := " adoption varies significantly by industry, with technology and healthcare leading, while manufacturing and retail are rapidly catching up."
  const IndustryReading: string := "how different industries prioritize and implement these initiatives"

  /** A statistic of the table: its title, a non-empty data series and a description naming the topic. */
  predicate FactRow(f: Fact, title: string, topic: string) {
    f.title == title && f.data.Some? && |f.data.value| > 0 && Contains(f.description, topic)
  }

  function GrowthFact(topic: string): (f: Fact)
    ensures FactRow(f, FactTitles[0], topic)
  {
    Fact(FactTitles[0], Around(GrowthLead, topic, GrowthRest), Some(GrowthData), GrowthReading)
  }

  function AdoptionFact(topic: string): (f: Fact)
    ensures FactRow(f, FactTitles[1], topic)
  {
    Fact(FactTitles[1], Around(AdoptionLead, topic, AdoptionRest), Some(AdoptionData), AdoptionReading)
  }

  function FactorsFact(topic: string): (f: Fact)
    ensures FactRow(f, FactTitles[2], topic)
  {
    Fact(FactTitles[2], Around(FactorsLead, topic, FactorsRest), Some(FactorsData), FactorsReading)
  }

  function RoiFact(topic: string): (f: Fact)
    ensures FactRow(f, FactTitles[3], topic)
  {
    Fact(FactTitles[3], Around(RoiLead, topic, RoiRest), Some(RoiData), RoiReading)
  }

  function IndustryFact(topic: string): (f: Fact)
    ensures FactRow(f, FactTitles[4], topic)
  {
    Fact(FactTitles[4], Around(IndustryLead, topic, IndustryRest), Some(IndustryData), IndustryReading)
  }

  /**
   * `simulateFactsAndStatistics`: five statistics under fixed titles, each with a non-empty
   * data series and a description naming the topic.
   */
  function SimulateFacts(topic0: string): (r: seq<Fact>)
    ensures |r| == 5
    ensures forall i | 0 <= i < 5 :: FactRow(r[i], FactTitles[i], OrSample(topic0))
  {
    var topic := OrSample(topic0);
    [GrowthFact(topic), AdoptionFact(topic), FactorsFact(topic), RoiFact(topic), IndustryFact(topic)]
  }

  const LeaderTitle: string := "Case Study: Industry Leader"
  const LeaderLead: string := "A leading organization implemented "
  const LeaderRest: string := " and achieved 45% improvement in performance metrics within 6 months. Their approach focused on incremental deployment with continuous feedback loops."
  const ApplicationTitle: string := "Real-World Application"
  const ApplicationLead: string := "Practical application of "
  const ApplicationRest: string := " in daily operations has resulted in streamlined processes and higher team satisfaction. Small teams reported the biggest proportional gains."
  const MidSizeTitle: string := "Success Story: Mid-Size Enterprise"
  const MidSizeLead: string := "A mid-size company overcame initial resistance to "
  const MidSizeRest: string := " by involving employees at all levels in the implementation process. Their phased approach proved highly effective."
  const GlobalTitle: string := "Global Implementation Example"
  const GlobalLead: string := "A multinational corporation successfully rolled out "
  const GlobalRest: string := " across diverse regional offices by customizing the approach for local cultures while maintaining core principles."

  /** `simulateExamples`: four case studies naming the topic. */
  function SimulateExamples(topic0: string): (r: seq<CaseStudy>)
    ensures |r| == 4
    ensures forall i | 0 <= i < 4 :: Contains(r[i].description, OrSample(topic0))
  {
    var topic := OrSample(topic0);
    [ CaseStudy(LeaderTitle, Around(LeaderLead, topic, LeaderRest)),
      CaseStudy(ApplicationTitle, Around(ApplicationLead, topic, ApplicationRest)),
      CaseStudy(MidSizeTitle, Around(MidSizeLead, topic, MidSizeRest)),
      CaseStudy(GlobalTitle, Around(GlobalLead, topic, GlobalRest))]
  }

  /**
   * `analyzeTopicAndResearch`: the analysis always has two or three concepts, five subtopics,
   * five facts and four examples, whatever the topic.
   */
  function Analyze(s: Settings): (a: Analysis)
    ensures 2 <= |a.mainConcepts| <= 3 && |a.subtopics| == 5 && |a.facts| == 5 && |a.examples| == 4
  {
    var topic := OrSample(s.topic);
    Analysis(SimulateMainConcepts(topic), SimulateSubtopics(topic), DetermineIntent(s.tone),
      SimulateFacts(topic), SimulateExamples(topic))
  }

  /** A statistic titled "Industry Comparison" names a comparison, so it is always a bar chart. */
  lemma IndustryComparisonIsBar(f: Fact, r: nat)
    requires f.title == FactTitles[4] && r < |FactChartPool|
    ensures GetChartTypeFromFact(f, r) == Bar
  {
    assert f.title[9..19] == "Comparison";
    LowerSlice(f.title, 9, 19);
    assert Lower("Comparison") == "comparison";
    assert OccursAt(Lower(f.title), "comparison", 9);
  }

  /**
   * A statistic titled "Market Growth" names growth: it is a line chart unless its
   * description brings a comparison word, and it never depends on the draw.
   */
  lemma MarketGrowthIsLineOrBar(f: Fact, r1: nat, r2: nat)
    requires f.title == FactTitles[0] && r1 < |FactChartPool| && r2 < |FactChartPool|
    ensures GetChartTypeFromFact(f, r1) in {Line, Bar}
    ensures GetChartTypeFromFact(f, r1) == GetChartTypeFromFact(f, r2)
  {
    assert Lower(f.title) == "market growth";
    assert OccursAt(Lower(f.title), "growth", 7);
  }
}
