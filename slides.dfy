/**
 * The records the presentation agent passes between its stages: settings, slides,
 * the analyser's facts and examples, the seven slide sections and the final presentation,
 * plus the fixed template table.
 */
module Slides {
  import opened Wrappers
  import Strings

  /** The `type` of a slide; `Other` is any type string a remote reply may carry. */
  datatype SlideKind = Title | Introduction | Concept | Data | Example | Conclusion | Qa | Other(name: string)

  datatype ChartType = Bar | Line | Pie | Flow

  /** A slide's `content`: an array of bullet strings or a single string. */
  datatype Content = Bullets(items: seq<string>) | Text(text: string)

  /** A value inside a data record: the analyser's records hold strings and numbers. */
  datatype Field = Str(s: string) | Num(n: int)

  /** One data point, such as `{ year: '2022', value: 100 }`. */
  type Record = map<string, Field>

  /** The `design` object stamped onto every slide from the selected template. */
  datatype Design = Design(
    template: string,
    primaryColor: string, secondaryColor: string, backgroundColor: string, accentColor: string,
    headingFont: string, bodyFont: string)

  /** The `visual` object `addVisualElements` attaches; `data` is set for data slides only. */
  datatype Visual = Visual(kind: string, data: Option<seq<Record>>, description: string)

  /** A slide object; every optional property is `None` when the object does not have it. */
  datatype Slide = Slide(
    kind: SlideKind,
    title: string,
    content: Content,
    subtitle: Option<string>,
    presenter: Option<string>,
    chartType: Option<ChartType>,
    imageType: Option<string>,
    dataPoints: Option<seq<Record>>,
    notes: Option<string>,
    number: Option<int>,
    id: Option<int>,
    design: Option<Design>,
    visual: Option<Visual>)

  /** A slide with only its type, title, content and notes set. */
  function Basic(kind: SlideKind, title: string, content: Content, notes: Option<string>): Slide {
    Slide(kind, title, content, None, None, None, None, None, notes, None, None, None, None)
  }

  /** `presentationSettings`. */
  datatype Settings = Settings(
    topic: string, audience: string, tone: string, template: string,
    maxSlides: int, includeNotes: bool, language: string)

  /** The settings the agent's constructor installs. */
  const DefaultSettings := Settings("", "general", "formal", "corporate", 15, true, "en")

  /** The argument of `setSettings`: every property may be left out. */
  datatype SettingsPatch = SettingsPatch(
    topic: Option<string>, audience: Option<string>, tone: Option<string>, template: Option<string>,
    maxSlides: Option<int>, includeNotes: Option<bool>, language: Option<string>)

  /** `{ ...current, ...patch }`: a property given in the patch wins, the others are kept. */
  function MergeSettings(current: Settings, patch: SettingsPatch): Settings {
    Settings(
      patch.topic.GetOr(current.topic), patch.audience.GetOr(current.audience),
      patch.tone.GetOr(current.tone), patch.template.GetOr(current.template),
      patch.maxSlides.GetOr(current.maxSlides), patch.includeNotes.GetOr(current.includeNotes),
      patch.language.GetOr(current.language))
  }

  /** The patch that leaves every property out. */
  const EmptyPatch := SettingsPatch(None, None, None, None, None, None, None)

  /**
   * Merging is idempotent, an empty patch changes nothing, and a later patch overrides an
   * earlier one on every property it gives.
   */
  lemma MergeSettingsLaws(current: Settings, p: SettingsPatch, q: SettingsPatch)
    ensures MergeSettings(MergeSettings(current, p), p) == MergeSettings(current, p)
    ensures MergeSettings(current, EmptyPatch) == current
    ensures q.topic.Some? ==> MergeSettings(MergeSettings(current, p), q).topic == q.topic.value
    ensures q.topic.None? ==> MergeSettings(MergeSettings(current, p), q).topic == MergeSettings(current, p).topic
  {
  }

  /** A statistic produced by the analyser. */
  datatype Fact = Fact(title: string, description: string, data: Option<seq<Record>>, interpretation: string)

  /** A case study (an `examples` entry) produced by the analyser. */
  datatype CaseStudy = CaseStudy(title: string, description: string)

  /** `topicAnalysis`. */
  datatype Analysis = Analysis(
    mainConcepts: seq<string>, subtopics: seq<string>, intent: string,
    facts: seq<Fact>, examples: seq<CaseStudy>)

  /** `this.sections`: the slide groups in the order the deck uses them. */
  datatype Sections = Sections(
    title: seq<Slide>, introduction: seq<Slide>, keyConcepts: seq<Slide>, data: seq<Slide>,
    examples: seq<Slide>, conclusion: seq<Slide>, qAndA: seq<Slide>)

  datatype Metadata = Metadata(slideCount: nat, version: string, generator: Option<string>)

  /** The document the agent returns. */
  datatype Presentation = Presentation(title: string, settings: Settings, slides: seq<Slide>, metadata: Metadata)

  /** One entry of the `templates` table; the four colours are `colors[0..3]`. */
  datatype Template = Template(
    name: string, primary: string, secondary: string, background: string, accent: string,
    headingFont: string, bodyFont: string)

  /** `table[key]` on an object used as a dictionary: the value of the first entry with that key. */
  function Lookup<V>(table: seq<(string, V)>, key: string): Option<V> {
    if table == [] then None
    else if table[0].0 == key then Some(table[0].1)
    else Lookup(table[1..], key)
  }

  /** A lookup finds a value exactly when some entry has the key, and the value is that entry's. */
  lemma {:induction false} LookupFound<V>(table: seq<(string, V)>, key: string)
    ensures Lookup(table, key).Some? <==> exists i | 0 <= i < |table| :: table[i].0 == key
    ensures Lookup(table, key).Some? ==>
      exists i | 0 <= i < |table| :: table[i] == (key, Lookup(table, key).value)
  {
    if table != [] && table[0].0 != key {
      LookupFound(table[1..], key);
      if exists i | 0 <= i < |table| :: table[i].0 == key {
        var i :| 0 <= i < |table| && table[i].0 == key;
        assert table[1..][i - 1] == table[i];
      }
      if Lookup(table, key).Some? {
        var i :| 0 <= i < |table[1..]| && table[1..][i] == (key, Lookup(table, key).value);
        assert table[i + 1] == table[1..][i];
      }
    }
  }

  /** The constructor's `templates`: palette (primary, secondary, background, accent) and fonts per key. */
  const TemplateTable: seq<(string, Template)> := [
    ("corporate", Template("Professional Business", "#1F497D", "#4472C4", "#FFFFFF", "#D9D9D9", "Calibri Light", "Calibri")),
    ("creative", Template("Creative Design", "#C00000", "#FF9900", "#FFFFFF", "#FFF2CC", "Century Gothic", "Georgia")),
    ("academic", Template("Academic Research", "#2F5597", "#5B9BD5", "#FFFFFF", "#DEEBF7", "Cambria", "Cambria")),
    ("modern", Template("Modern Minimal", "#212121", "#757575", "#FFFFFF", "#EEEEEE", "Segoe UI Light", "Segoe UI")),
    ("vibrant", Template("Vibrant Presentation", "#7030A0", "#00B0F0", "#FFFFFF", "#E6E6FA", "Trebuchet MS", "Arial")),
    ("gradient", Template("Gradient Style", "#6A11CB", "#2575FC", "#FFFFFF", "#E9F3FE", "Montserrat", "Roboto")),
    ("premium", Template("Premium Executive", "#333333", "#B8860B", "#FFFFFF", "#F5F5F5", "Georgia", "Helvetica")),
    ("tech", Template("Technology Focus", "#0A192F", "#64FFDA", "#FFFFFF", "#112240", "SF Pro Display", "SF Pro Text"))]

  /** `this.templates[key]`, `None` for a key the table does not have. */
  function TemplateFor(key: string): Option<Template> {
    Lookup(TemplateTable, key)
  }

  /** The template keys the table knows. */
  const TemplateKeys: set<string> :=
    {"corporate", "creative", "academic", "modern", "vibrant", "gradient", "premium", "tech"}

  /** The lookup succeeds exactly for the eight keys of the table. */
  lemma TemplateForDefined(key: string)
    ensures TemplateFor(key).Some? <==> key in TemplateKeys
  {
    LookupFound(TemplateTable, key);
  }

  /** The `design` object built from template `key`. */
  function DesignOf(key: string, t: Template): Design {
    Design(key, t.primary, t.secondary, t.background, t.accent, t.headingFont, t.bodyFont)
  }

  /** The lower-case type name JavaScript uses for a slide kind. */
  function KindName(k: SlideKind): string {
    match k
    case Title => "title"
    case Introduction => "introduction"
    case Concept => "concept"
    case Data => "data"
    case Example => "example"
    case Conclusion => "conclusion"
    case Qa => "qa"
    case Other(n) => n
  }

  function ChartName(c: ChartType): string {
    match c
    case Bar => "bar"
    case Line => "line"
    case Pie => "pie"
    case Flow => "flow"
  }

  /** A slide's content as a template literal prints it (an array prints comma-joined). */
  function ContentString(c: Content): string {
    match c
    case Text(t) => t
    case Bullets(bs) => Strings.Join(bs, ",")
  }

  /** `includeNotes ? text : ''`. */
  function NotesIf(enabled: bool, text: string): Option<string> {
    Some(if enabled then text else "")
  }

  /** The notes are present, name `mention` when enabled and are empty otherwise. */
  predicate NotesFollow(n: Option<string>, enabled: bool, mention: string) {
    n.Some? && (enabled ==> Strings.Contains(n.value, mention)) && (!enabled ==> n.value == "")
  }
}
