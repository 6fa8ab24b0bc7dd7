/**
 * The agent's lookup tables and keyword classifiers: the title-slide subtitle, the intent
 * of a tone, the chart type of a slide or of a fact, and the default speaker notes.
 * Each `Math.random()` draw is an index `r` into the fallback pool.
 */
module Classifier {
  import opened Wrappers
  import opened Strings
  import opened Slides

  /** The constructor's `toneOptions`. */
  const ToneOptions: seq<string> := [
    "formal", "casual", "persuasive", "informative", "inspirational", "analytical",
    "enthusiastic", "authoritative", "conversational"]

  /** The constructor's `audienceTypes`. */
  const AudienceTypes: seq<string> := [
    "executives", "managers", "clients", "technical", "students", "general",
    "investors", "stakeholders", "team members"]

  const FormalTone: string := "formal"
  const FormalTonePhrase: string := "A Comprehensive Analysis"
  const CasualTone: string := "casual"
  const CasualTonePhrase: string := "Exploring Key Insights"
  const PersuasiveTone: string := "persuasive"
  const PersuasiveTonePhrase: string := "Why It Matters and How to Respond"
  const InformativeTone: string := "informative"
  const InformativeTonePhrase: string := "Facts, Trends, and Implications"
  const InspirationalTone: string := "inspirational"
  const InspirationalTonePhrase: string := "Opportunities and Possibilities"
  const AnalyticalTone: string := "analytical"
  const AnalyticalTonePhrase: string := "Data-Driven Assessment"
  const EnthusiasticTone: string := "enthusiastic"
  const EnthusiasticTonePhrase: string := "Exciting Developments and Possibilities"
  const AuthoritativeTone: string := "authoritative"
  const AuthoritativeTonePhrase: string := "Expert Insights and Strategic Overview"
  const ConversationalTone: string := "conversational"
  const ConversationalTonePhrase: string := "Let's Talk About What Matters"
  /** `toneMap` of `generateSubtitle`. */
  const ToneTable: seq<(string, string)> := [
    (FormalTone, FormalTonePhrase), (CasualTone, CasualTonePhrase),
    (PersuasiveTone, PersuasiveTonePhrase), (InformativeTone, InformativeTonePhrase),
    (InspirationalTone, InspirationalTonePhrase), (AnalyticalTone, AnalyticalTonePhrase),
    (EnthusiasticTone, EnthusiasticTonePhrase), (AuthoritativeTone, AuthoritativeTonePhrase),
    (ConversationalTone, ConversationalTonePhrase)]

  const ExecutivesAudience: string := "executives"
  const ExecutivesAudiencePhrase: string := "Strategic Considerations for Leadership"
  const ManagersAudience: string := "managers"
  const ManagersAudiencePhrase: string := "Implementation Strategies and Outcomes"
  const ClientsAudience: string := "clients"
  const ClientsAudiencePhrase: string := "Benefits and Opportunities"
  const TechnicalAudience: string := "technical"
  const TechnicalAudiencePhrase: string := "Technical Analysis and Applications"
  const StudentsAudience: string := "students"
  const StudentsAudiencePhrase: string := "Learning and Development Framework"
  const GeneralAudience: string := "general"
  const GeneralAudiencePhrase: string := "Key Principles and Applications"
  const InvestorsAudience: string := "investors"
  const InvestorsAudiencePhrase: string := "Value Proposition and Growth Potential"
  const StakeholdersAudience: string := "stakeholders"
  const StakeholdersAudiencePhrase: string := "Impact Analysis and Future Direction"
  const TeamMembersAudience: string := "team members"
  const TeamMembersAudiencePhrase: string := "Collaborative Approach and Implementation"
  /** `audienceMap` of `generateSubtitle`. */
  const AudienceTable: seq<(string, string)> := [
    (ExecutivesAudience, ExecutivesAudiencePhrase), (ManagersAudience, ManagersAudiencePhrase),
    (ClientsAudience, ClientsAudiencePhrase), (TechnicalAudience, TechnicalAudiencePhrase),
    (StudentsAudience, StudentsAudiencePhrase), (GeneralAudience, GeneralAudiencePhrase),
    (InvestorsAudience, InvestorsAudiencePhrase),
    (StakeholdersAudience, StakeholdersAudiencePhrase),
    (TeamMembersAudience, TeamMembersAudiencePhrase)]

  const DefaultTonePart: string := "Key Insights and Analysis"
  const Separator: string := ": "

  /** `toneMap[tone] || "Key Insights and Analysis"`. */
  function TonePart(tone: string): string {
    Lookup(ToneTable, tone).GetOr(DefaultTonePart)
  }

  /**
   * `generateSubtitle`: the tone phrase, followed by `": "` and the audience phrase when the
   * audience has one.
   */
  function GenerateSubtitle(tone: string, audience: string): string {
    match Lookup(AudienceTable, audience)
    case Some(a) => TonePart(tone) + Separator + a
    case None => TonePart(tone)
  }

  /** The audience table has a non-empty phrase for exactly the nine audience types. */
  lemma AudienceTableKeys(audience: string)
    ensures Lookup(AudienceTable, audience).Some? <==> audience in AudienceTypes
    ensures Lookup(AudienceTable, audience).Some? ==> Lookup(AudienceTable, audience).value != ""
  {
    LookupFound(AudienceTable, audience);
    assert forall i | 0 <= i < |AudienceTable| :: AudienceTable[i].0 == AudienceTypes[i];
    assert forall i | 0 <= i < |AudienceTable| :: AudienceTable[i].1 != "";
  }

  /** The tone table has a phrase for exactly the nine tone options, none of them the generic one's opening. */
  lemma ToneTableKeys(tone: string)
    ensures Lookup(ToneTable, tone).Some? <==> tone in ToneOptions
    ensures tone in ToneOptions ==> |TonePart(tone)| > 0 && TonePart(tone)[0] != DefaultTonePart[0]
  {
    LookupFound(ToneTable, tone);
    assert forall i | 0 <= i < |ToneTable| :: ToneTable[i].0 == ToneOptions[i];
    assert forall i | 0 <= i < |ToneTable| :: |ToneTable[i].1| > 0 && ToneTable[i].1[0] != 'K';
  }

  /**
   * The subtitle always leads with the tone phrase; each of the nine audience types adds a
   * non-empty audience phrase after `": "` and any other audience adds nothing; the generic
   * phrase appears exactly for a tone outside the nine tone options.
   */
  lemma GenerateSubtitleShape(tone: string, audience: string)
    ensures var r := GenerateSubtitle(tone, audience);
      && (audience in AudienceTypes ==> exists a :: r == TonePart(tone) + Separator + a && a != "")
      && (audience !in AudienceTypes ==> r == TonePart(tone))
      && (tone !in ToneOptions ==> StartsWith(r, DefaultTonePart))
      && (tone in ToneOptions ==> !StartsWith(r, DefaultTonePart))
  {
    AudienceTableKeys(audience);
    ToneTableKeys(tone);
    var r := GenerateSubtitle(tone, audience);
    if tone in ToneOptions {
      assert r[0] == TonePart(tone)[0];
    }
  }

  /** `intentMap` of `determineIntent`. */
  const IntentMap: map<string, string> := map[
    "formal" := "inform", "casual" := "engage", "persuasive" := "convince",
    "informative" := "educate", "inspirational" := "motivate", "analytical" := "analyze",
    "enthusiastic" := "excite", "authoritative" := "direct", "conversational" := "connect"]

  /**
   * `determineIntent`: every tone option has its own intent; `"inform"` is the intent of
   * `"formal"` and of every tone outside the options.
   */
  function DetermineIntent(tone: string): (i: string)
    ensures i == "inform" <==> tone == "formal" || tone !in ToneOptions
    ensures forall t | t in ToneOptions && tone in ToneOptions && t != tone :: IntentMap[t] != i
  {
    if tone in IntentMap then IntentMap[tone] else "inform"
  }

  // ---------------------------------------------------------------------------------------
  // determineChartType

  /** `title + ' ' + content`, lower-cased; an array content is joined with spaces. */
  function ChartText(s: Slide): string {
    Lower(s.title) + " " + (match s.content
      case Bullets(bs) => Lower(Join(bs, " "))
      case Text(t) => Lower(t))
  }

  predicate BarCue(t: string) {
    Contains(t, "comparison") || Contains(t, "versus") || Contains(t, " vs ")
  }

  predicate LineCue(t: string) {
    Contains(t, "trend") || Contains(t, "growth") || Contains(t, "time") || Contains(t, "over")
    || Contains(t, "increase")
  }

  predicate PieCue(t: string) {
    Contains(t, "distribution") || Contains(t, "breakdown") || Contains(t, "share")
    || Contains(t, "segment") || Contains(t, "percentage")
  }

  predicate FlowCue(t: string) {
    Contains(t, "flow") || Contains(t, "process") || Contains(t, "step") || Contains(t, "workflow")
  }

  predicate AnyCue(t: string) {
    BarCue(t) || LineCue(t) || PieCue(t) || FlowCue(t)
  }

  /** The weighted fallback pool `['bar', 'bar', 'line', 'line', 'pie', 'flow']`. */
  const ChartPool: seq<ChartType> := [Bar, Bar, Line, Line, Pie, Flow]

  /**
   * `determineChartType`: the first keyword family found in the slide's text decides
   * (comparison, then trend, then distribution, then process words); only when none is
   * found is the draw `r` used, and then bar and line are twice as likely as pie and flow.
   */
  function DetermineChartType(s: Slide, r: nat): (c: ChartType)
    requires r < |ChartPool|
    ensures var t := ChartText(s);
      && (c == Bar <==> BarCue(t) || (!AnyCue(t) && r < 2))
      && (c == Line <==> !BarCue(t) && (LineCue(t) || (!AnyCue(t) && 2 <= r < 4)))
      && (c == Pie <==> !BarCue(t) && !LineCue(t) && (PieCue(t) || (!AnyCue(t) && r == 4)))
      && (c == Flow <==> !BarCue(t) && !LineCue(t) && !PieCue(t) && (FlowCue(t) || (!AnyCue(t) && r == 5)))
  {
    var t := ChartText(s);
    if BarCue(t) then Bar
    else if LineCue(t) then Line
    else if PieCue(t) then Pie
    else if FlowCue(t) then Flow
    else ChartPool[r]
  }

  /** On a keyword match the draw is irrelevant: the same slide gets the same chart type. */
  lemma DetermineChartTypeStable(s: Slide, r1: nat, r2: nat)
    requires r1 < |ChartPool| && r2 < |ChartPool|
    requires AnyCue(ChartText(s))
    ensures DetermineChartType(s, r1) == DetermineChartType(s, r2)
  {
  }

  // ---------------------------------------------------------------------------------------
  // getChartTypeFromFact

  predicate FactBarCue(x: string) { Contains(x, "comparison") || Contains(x, "versus") }

  predicate FactLineCue(x: string) { Contains(x, "trend") || Contains(x, "growth") || Contains(x, "over time") }

  predicate FactPieCue(x: string) { Contains(x, "distribution") || Contains(x, "breakdown") || Contains(x, "share") }

  predicate FactFlowCue(x: string) { Contains(x, "flow") || Contains(x, "process") }

  /** JavaScript truthiness of a record field. */
  predicate Truthy(f: Field) {
    match f
    case Str(s) => s != ""
    case Num(n) => n != 0
  }

  /** `d.k1 || d.k2 || ...` for the keys `ks`. */
  predicate HasTruthy(d: Record, ks: seq<string>) {
    exists j | 0 <= j < |ks| :: ks[j] in d && Truthy(d[ks[j]])
  }

  /** `fact.data.some(d => d.k1 || ...)`, false when the fact has no data array. */
  predicate DataHas(data: Option<seq<Record>>, ks: seq<string>) {
    data.Some? && exists i | 0 <= i < |data.value| :: HasTruthy(data.value[i], ks)
  }

  const TimeKeys: seq<string> := ["year", "date", "time", "period"]
  const GroupKeys: seq<string> := ["category", "group", "type"]
  const ShareKeys: seq<string> := ["percentage", "share", "portion"]

  /** The fallback pool `['bar', 'bar', 'line', 'line', 'pie']`: it has no flow chart. */
  const FactChartPool: seq<ChartType> := [Bar, Bar, Line, Line, Pie]

  /**
   * `getChartTypeFromFact`: the keyword cascade over the lower-cased title and description,
   * then the keys of the data records (time keys before group keys before share keys),
   * then the draw `r`. A flow chart comes only from a flow or process keyword.
   */
  function GetChartTypeFromFact(f: Fact, r: nat): (c: ChartType)
    requires r < |FactChartPool|
    ensures var lt, ld := Lower(f.title), Lower(f.description);
      var bar, line, pie, flow := FactBarCue(lt) || FactBarCue(ld), FactLineCue(lt) || FactLineCue(ld),
        FactPieCue(lt) || FactPieCue(ld), FactFlowCue(lt) || FactFlowCue(ld);
      var noCue := !bar && !line && !pie && !flow;
      var time, group, share := DataHas(f.data, TimeKeys), DataHas(f.data, GroupKeys), DataHas(f.data, ShareKeys);
      && (c == Flow <==> !bar && !line && !pie && flow)
      && (c == Bar <==> bar || (noCue && !time && (group || (!share && r < 2))))
      && (c == Line <==> !bar && (line || (noCue && (time || (!group && !share && 2 <= r < 4)))))
      && (c == Pie <==> !bar && !line && (pie || (noCue && !time && !group && (share || r == 4))))
  {
    var lt, ld := Lower(f.title), Lower(f.description);
    if FactBarCue(lt) || FactBarCue(ld) then Bar
    else if FactLineCue(lt) || FactLineCue(ld) then Line
    else if FactPieCue(lt) || FactPieCue(ld) then Pie
    else if FactFlowCue(lt) || FactFlowCue(ld) then Flow
    else if DataHas(f.data, TimeKeys) then Line
    else if DataHas(f.data, GroupKeys) then Bar
    else if DataHas(f.data, ShareKeys) then Pie
    else FactChartPool[r]
  }

  // ---------------------------------------------------------------------------------------
  // generateDefaultNotes

  /**
   * `generateDefaultNotes`: one sentence pattern per slide type; every one of them names
   * the topic, and a concept slide's notes also name its lower-cased title.
   */
  function GenerateDefaultNotes(kind: SlideKind, title: string, topic: string, audience: string): (r: string)
    ensures Contains(r, topic)
    ensures kind == Concept ==> Contains(r, Lower(title))
  {
    if kind == Concept then ConceptNotes(title, topic, audience)
    else
      var (before, after) := NotesFrame(kind, audience);
      ContainsMiddle(before, topic, after);
      before + topic + after
  }

  /** The text around the topic in the default notes of a slide that is not a concept. */
  function NotesFrame(kind: SlideKind, audience: string): (string, string)
    requires kind != Concept
  {
    match kind
    case Title => ("Welcome everyone to this presentation on ",
      ". Today we'll be exploring the key aspects of this topic and how it impacts " + audience + ".")
    case Introduction => ("This introduction sets the context for our discussion about ",
      ". We'll explore why this is relevant for " + audience + " and what the key challenges and opportunities are.")
    case Data => ("These statistics provide concrete evidence of the impact and trends related to ",
      ". Point out the key insights from this visualization that are most relevant to " + audience + ".")
    case Example => ("This example demonstrates a practical application of ",
      ". Highlight the specific aspects that would be most interesting to " + audience + ".")
    case Conclusion => ("Summarize the key takeaways about ",
      " and provide clear next steps or recommendations for " + audience + ".")
    case Qa => ("Be prepared to address questions about specific aspects of ",
      ". Have additional data points ready to support your main arguments if needed.")
    case Other(_) => ("Present this information about ",
      " in a way that resonates with " + audience + ", focusing on the aspects most relevant to their needs and interests.")
  }

  /** The default notes of a concept slide. */
  function ConceptNotes(title: string, topic: string, audience: string): (r: string)
    ensures Contains(r, topic) && Contains(r, Lower(title))
  {
    var opening := "When discussing " + Lower(title) + ", emphasize how it specifically impacts ";
    var head := opening + audience + ". This concept is fundamental to understanding ";
    ContainsMiddle("When discussing ", Lower(title), ", emphasize how it specifically impacts ");
    ContainsAppend(opening, audience, Lower(title));
    ContainsAppend(opening + audience, ". This concept is fundamental to understanding ", Lower(title));
    ContainsAppend(head, topic, Lower(title));
    ContainsAppend(head + topic, ".", Lower(title));
    ContainsMiddle(head, topic, ".");
    head + topic + "."
  }
}
