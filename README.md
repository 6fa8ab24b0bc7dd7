# PptAgent content pipeline in Dafny

This project models the content-generation core of the AI presentation maker. That core is the `PptAgent` class in `src/utils/PptAgent.js`. The model covers:

- **Classifiers.** The title-slide subtitle from the tone and audience tables, the chart type of a slide or of a statistic, the intent of a tone, the default speaker notes, and `capitalizeWords`.
- **Simulated analyser.** The concepts, subtopics, statistics and case studies the agent invents for a topic.
- **Section builders.** The title, introduction, concept, data, example, conclusion and Q&A slides.
- **Balancer.** `combineSlides` groups consecutive slides and merges each group. `balanceContent` runs its three guarded merge passes.
- **Deck assembly.** The fixed section order, dense numbering, the template's design object and the visual element of every slide.
- **Text fallback.** Reading a remote reply as free text: `createSlideFromTextSection`, a line scanner with a notes mode, and `extractPresentationFromText`. The latter drops empty sections, numbers the slides and designs them.
- **Remote post-processing.** What `parseGeminiResponse` does to the slides of a reply that parsed as JSON.
- **The agent object.** Its settings, analysis, sections and deck. The local pipeline of `generatePresentation` runs analyse, structure, balance, assemble, design and output. When a remote result is present, it is returned instead.

## Layout

One module per file. Each file imports only the modules before it.

| file | module | contents |
|---|---|---|
| `wrappers.dfy` | `Wrappers` | `Option` |
| `strings.dfy` | `Strings` | ASCII case mapping, `includes`, `trim`, `split`/`join`, `capitalizeWords` |
| `slides.dfy` | `Slides` | slides, settings and their merge, analysis records, sections, presentations, the template table |
| `classifier.dfy` | `Classifier` | subtitle tables, intent, both chart-type cascades, default notes |
| `analyzer.dfy` | `Analyzer` | the `simulate*` functions and `analyzeTopicAndResearch` |
| `builders.dfy` | `Builders` | the `create*Slide(s)` builders |
| `balancer.dfy` | `Balancer` | `combineSlides` (a loop proved against a group-by-group specification), `balanceContent` |
| `deck.dfy` | `Deck` | deck order, numbering, design and visual elements, post-processing of a parsed reply |
| `extraction.dfy` | `Extraction` | the text scanner, text extraction, `parseGeminiResponse` |
| `agent.dfy` | `Agent` | `structureContent`, the local pipeline, the `PptAgent` class |

### Modelling choices

- **Random draws.** Every `Math.random()` draw is an index into its pool, passed as a parameter. One draw is `r < |pool|`. A sequence of draws uses one per fact or per slide. In the design pass the draws are a function `draw(i)`.
- **Exceptions.** A JavaScript exception that `generatePresentation` or `parseGeminiResponse` catches becomes `None`. This covers reading the colours of an unknown template, and `content.map` on a concept-led group whose slides have text content.
- **Integers.** They are unbounded. The content density is counted in tenths: `5c + 3s + 2f`, rounded up to whole slides, plus three. For the counts the analyser produces, this gives the same result as the source's floating-point sum.

### Where the model follows the code

In these places the model follows what the code does:

- An unknown template key makes the local pipeline and the text extraction fail, so `generatePresentation` returns `null`. The model does not fall back to a default template.
- The local output carries no `generator` field.
- A parsed reply with an empty `slides` array gives an empty remote presentation whatever the template, because the template's colours are only read inside the per-slide `map`.
- The local deck always has ten slides, whatever `maxSlides` says. `Agent.LocalPresentationShape` proves this.

## Model

| member | source | states |
|---|---|---|
| `Slides.MergeSettingsLaws` | src/utils/PptAgent.js:122-129 | Merging the same patch twice is merging it once, an empty patch changes nothing, and a later patch's topic wins over the earlier one's (or keeps it when the later patch gives none) |
| `Slides.TemplateForDefined` | src/utils/PptAgent.js:19-84 | The template table defines exactly the eight template keys |
| `Strings.CapitalizeWordsAt` | src/utils/PptAgent.js:1068-1076 | `capitalizeWords` keeps the length and upper-cases exactly the first character of the string and every character after a space |
| `Strings.JoinSplit` | src/utils/PptAgent.js:1068-1076 | Joining the pieces of a one-character split with that character gives back the string |
| `Strings.Trim` | src/utils/PptAgent.js:476 | The trimmed string is no longer than the input, and it neither starts nor ends with white space |
| `Strings.TrimSlice` | src/utils/PptAgent.js:476 | Trimming removes only leading and trailing white space: the result is a slice `s[i..j]` with nothing but white space before `i` and after `j` |
| `Classifier.AudienceTableKeys` | src/utils/PptAgent.js:595-605 | The audience table has a non-empty phrase for exactly the nine audience types |
| `Classifier.ToneTableKeys` | src/utils/PptAgent.js:583-593 | The tone table has a phrase for exactly the nine tone options, and no such phrase begins like the generic phrase |
| `Classifier.GenerateSubtitleShape` | src/utils/PptAgent.js:580-614 | The subtitle leads with the tone phrase. A mapped audience adds `": "` and a non-empty phrase; any other audience adds nothing. The generic phrase appears exactly for an unmapped tone |
| `Classifier.DetermineIntent` | src/utils/PptAgent.js:1051-1065 | Each tone option has its own intent; `"inform"` is the intent of `formal` and of every unknown tone |
| `Classifier.DetermineChartType` | src/utils/PptAgent.js:617-639 | Result is bar, line, pie or flow. The comparison, trend, distribution and process families decide in that order; the weighted pool is used only when no keyword matches, in both directions |
| `Classifier.DetermineChartTypeStable` | src/utils/PptAgent.js:617-639 | When a keyword matches, the draw does not change the chart type |
| `Classifier.GetChartTypeFromFact` | src/utils/PptAgent.js:865-917 | The keyword cascade decides first, then time keys, group keys and share keys in the data, then the pool. Flow comes only from a flow or process keyword |
| `Classifier.GenerateDefaultNotes` | src/utils/PptAgent.js:555-577 | The default notes of every slide type name the topic; a concept slide's notes also name its lower-cased title |
| `Analyzer.FilterWords` | src/utils/PptAgent.js:1083-1086 | The filter never adds words, and every word it keeps is longer than three characters and not a stop word |
| `Analyzer.FilterWordsOrder` | src/utils/PptAgent.js:1083-1086 | The kept words are a subsequence of the input, in input order, and each word is kept as often as it occurs when it passes the filter and never otherwise |
| `Analyzer.FilterWordsMembers` | src/utils/PptAgent.js:1083-1086 | A word survives the filter exactly when it is an input word longer than three characters and not a stop word |
| `Analyzer.SimulateMainConcepts` | src/utils/PptAgent.js:1079-1113 | Two or three concepts. With at least two kept words they are the first kept words with the suffixes " principles", " applications" and (with a third word) " integration"; otherwise the three generic phrases about the whole topic |
| `Analyzer.SimulateSubtopics` | src/utils/PptAgent.js:1116-1126 | Five subtopics, three of which name the topic |
| `Analyzer.SimulateFacts` | src/utils/PptAgent.js:1129-1190 | Five statistics under the fixed titles, each with a non-empty data series and a description naming the topic |
| `Analyzer.SimulateExamples` | src/utils/PptAgent.js:1193-1213 | Four case studies whose descriptions name the topic |
| `Analyzer.Analyze` | src/utils/PptAgent.js:642-656 | Every analysis has two or three concepts, five subtopics, five facts and four examples |
| `Analyzer.IndustryComparisonIsBar` | src/utils/PptAgent.js:865-875 | The "Industry Comparison" statistic is always a bar chart |
| `Analyzer.MarketGrowthIsLineOrBar` | src/utils/PptAgent.js:865-880 | The "Market Growth" statistic is a line or bar chart and never depends on the draw |
| `Builders.CreateTitleSlide` | src/utils/PptAgent.js:808-819 | One title slide with no bullets, whose title is the capitalised topic and whose subtitle is the settings' subtitle, with the placeholder presenter. Its notes follow the notes setting and name the topic |
| `Builders.CreateIntroductionSlide` | src/utils/PptAgent.js:822-834 | One introduction slide with three bullets naming the capitalised topic and the audience |
| `Builders.CreateKeyConceptSlides` | src/utils/PptAgent.js:837-849 | One concept slide per concept, in order, titled with the capitalised concept, each with three bullets, the first naming the concept |
| `Builders.CreateDataSlides` | src/utils/PptAgent.js:852-862 | One data slide per fact, in order, titled with the fact, whose content is the fact's description, carrying the fact's series and the chart type `getChartTypeFromFact` chooses; its notes follow the notes setting and name the fact and its interpretation |
| `Builders.CreateExampleSlides` | src/utils/PptAgent.js:920-929 | One case-study slide per example, in order, titled with the example, whose content is the example's description; its notes follow the notes setting and name the example and the audience |
| `Builders.CreateConclusionSlide` | src/utils/PptAgent.js:932-944 | One conclusion slide with three bullets naming the topic and the audience |
| `Builders.CreateQASlide` | src/utils/PptAgent.js:947-955 | One Q&A slide with the contact line; its notes depend only on the notes setting |
| `Builders.BuildSections` | src/utils/PptAgent.js:671-679 | One title, introduction, conclusion and Q&A slide, and one slide per concept, fact and example |
| `Balancer.MergeGroup` | src/utils/PptAgent.js:1006-1045 | A group merges exactly when it is not a concept-led group with a text content; a group of one passes through unchanged |
| `Balancer.CombineSlides` | src/utils/PptAgent.js:992-1048 | The loop computes the group-by-group combination of the slides |
| `Balancer.MergedSlideShape` | src/utils/PptAgent.js:1010-1044 | A merged slide keeps the leading kind and has at least one bullet per slide. A data slide gets a chart type and an example slide becomes a case study; the notes follow the setting |
| `Balancer.GroupsCover` | src/utils/PptAgent.js:1001-1004 | The groups the loop visits, concatenated, are exactly the input slides |
| `Balancer.CombinedCount` | src/utils/PptAgent.js:992-1004 | When the slides do not fit, there is one slide per group of `ceil(n/target)`: at most `target`, and fewer than before |
| `Balancer.CombinedNoLonger` | src/utils/PptAgent.js:992-1048 | Combining never adds slides |
| `Balancer.CombinedItem` | src/utils/PptAgent.js:997-1045 | Combined slide `j` is the merge of the `j`-th run of `ceil(n/target)` consecutive slides |
| `Balancer.CombinedKind` | src/utils/PptAgent.js:1006-1044 | Each combined slide has the kind of the slide that starts its group |
| `Balancer.MergeSurvives` | src/utils/PptAgent.js:1006-1045 | Every slide of a group survives in its merge: it is the merged slide itself, or its title and every bullet (concept-led), its `title: content` line (data- or example-led), or its title and its content (otherwise) are lines of the merged content |
| `Balancer.CombinedSurvives` | src/utils/PptAgent.js:992-1048 | Combining loses no slide: every input slide survives in some combined slide |
| `Balancer.BalanceKeepsContent` | src/utils/PptAgent.js:958-989 | Balancing loses no content: every concept, data and example slide survives in a slide of its balanced section |
| `Balancer.MergeCovers` | src/utils/PptAgent.js:1010-1030 | No slide of a group is lost: it is the one slide, or its title heads a line of the merged content |
| `Balancer.CombinedSucceeds` | src/utils/PptAgent.js:1010-1020 | A section that is all bullets, or has no concept slide, always combines |
| `Balancer.CombinedSameKind` | src/utils/PptAgent.js:992-1048 | Combining slides of one kind gives slides of that kind |
| `Balancer.CombinedBullets` | src/utils/PptAgent.js:1010-1030 | Combining bulleted slides gives bulleted slides |
| `Balancer.BalanceShrinks` | src/utils/PptAgent.js:958-989 | Title, introduction, conclusion and Q&A are untouched, and no section and not the deck grows |
| `Balancer.BalanceHalvesExamples` | src/utils/PptAgent.js:962-968 | Several examples always end up as at most half of them, rounded up |
| `Balancer.BalanceWellFormed` | src/utils/PptAgent.js:958-989 | Balancing well-formed sections never fails and keeps every section of its own kind |
| `Deck.DeckOrder` | src/utils/PptAgent.js:697-705 | The deck has as many slides as the seven sections together (`countTotalSlides`) |
| `Deck.DeckOrderSections` | src/utils/PptAgent.js:695-705 | The deck opens with the title section, closes with the Q&A section, and the concepts follow title and introduction |
| `Deck.Renumber` | src/utils/PptAgent.js:708-711 | Every slide at index `i` gets `number == id == i + 1`, and nothing else changes |
| `Deck.RenumberIdempotent` | src/utils/PptAgent.js:708-711 | Numbering twice is numbering once |
| `Deck.AddVisualElements` | src/utils/PptAgent.js:736-791 | Every slide gets a visual. A data slide keeps or gets a chart type and its visual charts its data points; an example slide becomes a case study; nothing else changes |
| `Deck.AddVisualElementsKeepsChart` | src/utils/PptAgent.js:745-754 | A data slide that already has a chart type keeps it, whatever the draw |
| `Deck.AddVisualElementsIdempotent` | src/utils/PptAgent.js:736-791 | Adding visual elements twice changes nothing more |
| `Deck.DesignedDeckShape` | src/utils/PptAgent.js:715-733 | Every slide keeps kind, title, content, notes and number, gets the template's design and a visual, and every data slide a chart type |
| `Deck.ProcessedSlidesShape` | src/utils/PptAgent.js:289-323 | A parsed reply keeps every slide in order, is numbered densely, keeps the chart or image type it gave and fills in a missing one |
| `Deck.FromReply` | src/utils/PptAgent.js:310-335 | A presentation exactly when the template is known or the reply has no slides, with the slide count, the remote generator and dense numbering |
| `Extraction.SectionKind` | src/utils/PptAgent.js:437-457 | Index 0 or "title" gives a title slide; otherwise the first family found among introduction, conclusion, Q&A, example and data decides, and none gives a concept slide, in both directions |
| `Extraction.ScanInfo` | src/utils/PptAgent.js:475-518 | The scan keeps at most one content line per line, finds a chart only in a data section, and collects notes only in notes mode |
| `Extraction.ScanLines` | src/utils/PptAgent.js:475-518 | The line loop computes the scan of the classified lines |
| `Extraction.ScanNotesMode` | src/utils/PptAgent.js:479-486 | The scan ends in notes mode exactly when some line is a notes marker |
| `Extraction.ScanChart` | src/utils/PptAgent.js:488-499 | The chart found in a data section is the hint of one of its lines, and one is found whenever a line carries a hint |
| `Extraction.ScanBullets` | src/utils/PptAgent.js:510-511 | A section of list items gives their texts, in order, without markers |
| `Extraction.CreateSlideFromTextSection` | src/utils/PptAgent.js:433-552 | The method computes the slide of the section |
| `Extraction.SectionSlideShape` | src/utils/PptAgent.js:433-552 | No slide exactly for an empty title. Otherwise the announced kind, number and id from the position, and no content on a title slide but some on every other. Notes exactly when enabled, a chart type exactly on a data slide, a case-study image exactly on an example slide |
| `Extraction.SectionSlideDefaultNotes` | src/utils/PptAgent.js:537-539 | With notes enabled and no notes marker, the slide gets the default notes of its type |
| `Extraction.NonBlankKeeps` | src/utils/PptAgent.js:371 | The line filter keeps exactly the non-blank lines |
| `Extraction.PresentFrom` | src/utils/PptAgent.js:370-380 | Every kept slide is the slide of some piece, and a slide from the first piece comes first |
| `Extraction.SlideOfPiece` | src/utils/PptAgent.js:371-379 | The method computes the slide of one piece: none for a blank piece, else the section slide of its heading and remaining lines |
| `Extraction.CollectPresent` | src/utils/PptAgent.js:370-394 | The `forEach` loop pushes exactly the present outcomes, in order |
| `Extraction.StampedAll` | src/utils/PptAgent.js:405-417 | Same slides in the same order, numbered densely, each with the template's design |
| `Extraction.StampSlides` | src/utils/PptAgent.js:405-417 | The in-place loop computes the numbered and designed slides |
| `Extraction.ExtractPresentationFromText` | src/utils/PptAgent.js:351-430 | The method computes the extracted presentation of the pieces |
| `Extraction.TextPresentationShape` | src/utils/PptAgent.js:397-429 | A presentation exactly when there are slides and the template is known. Its slide count is the number of slides, the generator is the text extraction, the slides are numbered densely and designed, and kind, title, content and notes stay |
| `Extraction.CollectedOpensWithTitle` | src/utils/PptAgent.js:370-395 | When the first piece gives a slide, the collected slides open with a title slide |
| `Extraction.ExtractedOpensWithTitle` | src/utils/PptAgent.js:370-430 | When the first piece gives a slide, the extracted presentation exists exactly when the template is known and opens with the title slide |
| `Extraction.ParseResponse` | src/utils/PptAgent.js:279-348 | With an unknown template, a presentation exactly when the reply parsed and has no slides. A parsed reply with a known template or no slides gives the remote presentation, with its slide count and the remote generator; with no parsed reply, the text extraction runs |
| `Agent.OptimalSlideCount` | src/utils/PptAgent.js:661-669 | The optimal count is the density (in tenths) rounded up to whole slides plus three, capped by `maxSlides`: it is at most both, and it equals one of them |
| `Agent.OptimalSlideCountOfAnalysis` | src/utils/PptAgent.js:661-669 | For every analysis the analyser produces, the optimal count is `min(7, maxSlides)` |
| `Agent.BuiltWellFormed` | src/utils/PptAgent.js:671-679 | The built sections hold bulleted concept slides, data slides and example slides |
| `Agent.BalanceToTen` | src/utils/PptAgent.js:958-989 | Balancing the built sizes towards at most seven slides always succeeds and leaves exactly ten |
| `Agent.StructuredTen` | src/utils/PptAgent.js:659-685 | `structureContent` always balances and always ends with ten slides, even when `maxSlides` asks for fewer |
| `Agent.DeckOutputShape` | src/utils/PptAgent.js:695-805 | Ten slides framed by title and Q&A give a presentation exactly when the template is known. It has ten densely numbered, designed slides with visuals, and every data slide has a chart type |
| `Agent.Output` | src/utils/PptAgent.js:794-805 | The output carries the topic as title, the settings, the slides, their count and version "1.0", and no generator |
| `Agent.LocalPresentationShape` | src/utils/PptAgent.js:146-166 | The local pipeline gives a presentation exactly when the template is known. It has ten slides whatever `maxSlides` says, opens with the title slide and closes with Q&A, is numbered densely, and every slide is designed with a visual |
| `Agent.PptAgent.constructor` | src/utils/PptAgent.js:3-14 | The default settings and an empty deck |
| `Agent.PptAgent.SetSettings` | src/utils/PptAgent.js:122-129 | The settings become the merge of the old settings and the patch, which is returned; nothing else changes |
| `Agent.PptAgent.AnalyzeTopicAndResearch` | src/utils/PptAgent.js:642-656 | The analysis of the current settings is stored and returned |
| `Agent.PptAgent.BalanceContent` | src/utils/PptAgent.js:958-989 | The three passes in place compute the balanced sections; failure exactly when balancing throws |
| `Agent.PptAgent.StructureContent` | src/utils/PptAgent.js:659-685 | The sections become the structured sections of the analysis; failure exactly when balancing throws |
| `Agent.PptAgent.CreateSlideDeck` | src/utils/PptAgent.js:695-712 | The deck becomes the sections in deck order, numbered in place |
| `Agent.PptAgent.ApplyDesignElements` | src/utils/PptAgent.js:715-733 | Succeeds exactly when the template is known or the deck is empty; the deck becomes the designed deck |
| `Agent.PptAgent.GenerateOutput` | src/utils/PptAgent.js:794-805 | The output of the current settings and deck |
| `Agent.PptAgent.GeneratePresentation` | src/utils/PptAgent.js:132-167 | The remote result when there is one, leaving the object as it was; otherwise the local pipeline's result, with the analysis of the settings stored and, on success, the deck equal to the returned slides. The settings never change |

## Left out

- The remote service (`generateWithGemini`, `fetch`, the API key, `setGeminiAPIKey`): network I/O and credential storage. `generatePresentation` takes the remote outcome as a parameter, `None` when it is not configured, failed or returned nothing.
- `createGeminiPrompt`: a template string with nothing to prove.
- `JSON.parse`, the code-fence regular expressions and the slide-splitting regular expressions: library calls. The model starts from the parsed reply and from the pieces the text was split into, given both ways (at slide markers and at headings), plus the optional `# ` title line.
- `Math.random`: replaced by draws passed in, as described above.
- `new Date()`, `dateCreated` and `date`: clock and locale.
- Console logging, the React components and the export libraries.
- `Analyzer.KeepWord`: a word's length is counted in characters, while JavaScript's `word.length` counts UTF-16 code units; a word of characters outside the Basic Multilingual Plane (two emoji have length 4 in JavaScript) can pass the source's filter and fail the model's, which changes `Analyzer.SimulateMainConcepts` for such topics.
- `Strings.Lower`: only ASCII letters are case-mapped; JavaScript maps all of Unicode.
- `Strings.CapitalizeWordsAt`: `toUpperCase` is modelled on ASCII letters only (`Strings.UpperChar`); JavaScript also upper-cases other letters (`é` to `É`) and may lengthen a string (`ß` to `SS`), which would break the length-preserving contract.
- `Slides.Lookup`: it finds only the table's own keys. In JavaScript, `toneMap[tone]`, `audienceMap[audience]` and `intentMap[tone]` also find keys inherited from `Object.prototype` (`"toString"`, `"constructor"`), which yield a function instead of a phrase.
- `Classifier.GenerateSubtitleShape`: a tone or audience named after an inherited object key (such as `"toString"`) is treated as unmapped, while JavaScript would insert the inherited function's text.
- `Classifier.DetermineIntent`: a tone named after an inherited object key gets `"inform"`, while JavaScript would return the inherited function.
- `Slides.MergeSettings`: the settings record holds the known settings only; keys a caller spreads into `settings` beyond them (such as `additionalInfo`) are not carried.
- `Agent.PptAgent.SetSettings`: for the same reason, extra keys of the patch are dropped.
- `Balancer.Contribution`: its last case writes the content comma-joined where JavaScript pushes an array content as one nested item; `balanceContent` never reaches that case, since only the examples, concepts and data are combined.
- `Agent.PptAgent.CreateSlideDeck`: slides are values, so numbering the deck leaves `sections` unchanged; in JavaScript the deck shares its slide objects with `sections`, which are therefore numbered too.
- `Classifier.DetermineChartType`: it reads only the title and content of the slide, which is all `determineChartType` looks at.
- `Extraction.CreateSlideFromTextSection`: the scan for an image hint on example slides is left out, because the slide's image type is "case-study" whether or not a hint is found.
- `Extraction.ExtractPresentationFromText`: it collects with the specification function of one piece rather than calling the `CreateSlideFromTextSection` method; that method and `Extraction.SlideOfPiece` are proved equal to the specification.
- `Balancer.CombineSlides`: requires a target of at least one, which every call in `balanceContent` passes; with a zero target the source puts all slides in one group, and that case is not modelled.
- `Agent.PptAgent.BalanceContent`: after a failed pass the sections hold the earlier passes' results; the contract does not spell that state out, since the caller then returns nothing. The same holds for `Agent.PptAgent.StructureContent`, whose sections after a failed balance are left unspecified.
- `Agent.PptAgent.GeneratePresentation`: `generateWithGemini` also re-runs `parseGeminiResponse`, which is modelled separately as `Extraction.ParseResponse`, not inside the method.
