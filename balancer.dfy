/**
 * `combineSlides` and `balanceContent`: merging consecutive slides of a section into
 * groups so that the deck fits the optimal slide count.
 *
 * `combineSlides` maps `content` of every slide of a concept-led group, which throws for a
 * text content; that failure is `None` here.
 */
module Balancer {
  import opened Wrappers
  import opened Strings
  import opened Slides

  function Min(a: int, b: int): int {
    if a <= b then a else b
  }

  /** `Math.ceil(a / d)` for a positive divisor: the least `q` with `q * d >= a`. */
  function CeilDiv(a: nat, d: nat): (q: nat)
    requires d >= 1
    ensures q * d >= a
    ensures q == 0 || (q - 1) * d < a
  {
    var x := a + d - 1;
    assert x == (x / d) * d + x % d;
    x / d
  }

  lemma {:induction false} MulLe(a: int, b: int, d: nat)
    requires a <= b
    ensures a * d <= b * d
  {
    if d > 0 {
      MulLe(a, b, d - 1);
      assert a * d == a * (d - 1) + a;
      assert b * d == b * (d - 1) + b;
    }
  }

  lemma MulSucc(j: int, d: int)
    ensures (j + 1) * d == j * d + d && (j - 1) * d == j * d - d
  {
  }

  lemma MulLtCancel(a: int, b: int, d: int)
    requires d > 0 && a * d < b * d
    ensures a < b
  {
    if a >= b {
      MulLe(b, a, d);
    }
  }

  /** A count between the two bounds is the ceiling of the quotient. */
  lemma CeilDivUnique(a: nat, d: nat, q: nat)
    requires d >= 1 && q * d >= a && (q == 0 || (q - 1) * d < a)
    ensures q == CeilDiv(a, d)
  {
    var c := CeilDiv(a, d);
    if q > 0 {
      MulLtCancel(q - 1, c, d);
    }
    if c > 0 {
      MulLtCancel(c - 1, q, d);
    }
  }

  /** Group `j` of `CeilDiv(n, per)` groups starts inside the sequence. */
  lemma GroupStartInRange(n: nat, per: nat, j: nat)
    requires per >= 1 && j < CeilDiv(n, per)
    ensures j * per < n && j < n
  {
    MulLe(j, CeilDiv(n, per) - 1, per);
    MulLe(1, per, j);
  }

  /**
   * Dividing `n` slides into groups of `CeilDiv(n, t)` leaves at most `t` groups, and fewer
   * than `n` when `n > t`.
   */
  lemma GroupCountBound(n: nat, t: nat)
    requires t >= 1
    ensures n > 0 ==> CeilDiv(n, t) >= 1 && CeilDiv(n, CeilDiv(n, t)) <= t
    ensures n > t ==> CeilDiv(n, t) >= 2 && CeilDiv(n, CeilDiv(n, t)) < n
  {
    var per := CeilDiv(n, t);
    if n > 0 {
      var g := CeilDiv(n, per);
      if g > 0 {
        MulLtCancel(g - 1, t, per);
      }
      if n > t {
        MulLtCancel(1, per, t);
        if g > 0 {
          MulLe(2, per, g - 1);
        }
      }
    }
  }

  /** Every slide of the group has an array of bullets. */
  predicate AllBullets(g: seq<Slide>) {
    forall k | 0 <= k < |g| :: g[k].content.Bullets?
  }

  /** The group can be merged without the `content.map` failure. */
  predicate GroupOk(g: seq<Slide>) {
    |g| <= 1 || g[0].kind != Concept || AllBullets(g)
  }

  const Indent: string := "  - "
  const Colon: string := ": "
  const Ampersand: string := " & "
  const ConceptsHeading: string := "Key Concepts: "
  const DataHeading: string := "Key Data Points"
  const ExamplesHeading: string := "Examples"
  const KeyConceptsTitle: string := "Key Concepts"
  const DefaultHeading: string := "Combined Content"
  const CaseStudyImage: string := "case-study"

  /** `"  - " + c` for every bullet. */
  function Indented(bs: seq<string>): (r: seq<string>)
    ensures |r| == |bs|
  {
    seq(|bs|, j requires 0 <= j < |bs| => Indent + bs[j])
  }

  /**
   * What one slide adds to the merged content, by the kind of the group's first slide. The
   * last case, a group led by a slide of another kind, never arises from `balanceContent`;
   * an array content there is written as its comma-joined string rather than kept as a
   * nested array.
   */
  function Contribution(s: Slide, leader: SlideKind): (r: seq<string>)
    requires leader == Concept ==> s.content.Bullets?
    ensures |r| >= 1 && StartsWith(r[0], s.title)
  {
    match leader
    case Concept => [s.title] + Indented(s.content.items)
    case Data => [s.title + Colon + ContentString(s.content)]
    case Example => [s.title + Colon + ContentString(s.content)]
    case _ => [s.title, ContentString(s.content)]
  }

  /** The merged content: the contributions of the group's slides, in order. */
  function Contributions(g: seq<Slide>, leader: SlideKind): (r: seq<string>)
    requires leader == Concept ==> AllBullets(g)
    ensures |r| >= |g|
  {
    if g == [] then [] else Contribution(g[0], leader) + Contributions(g[1..], leader)
  }

  /** The title of a merged slide. */
  function MergedTitle(g: seq<Slide>, groupTitle: string): string
    requires |g| >= 1
  {
    match g[0].kind
    case Concept => ConceptsHeading + Join(seq(|g|, k requires 0 <= k < |g| => g[k].title), Ampersand)
    case Data => DataHeading
    case Example => ExamplesHeading
    case _ => if groupTitle != "" then groupTitle else DefaultHeading
  }

  const MergeLead: string := "This slide combines multiple points about "
  const MergeRest: string := " for brevity. Each point deserves attention, so consider addressing them individually."

  /** The notes of a merged slide with the given title. */
  function MergedNotes(title: string): string {
    MergeLead + Lower(title) + MergeRest
  }

  /** The slide `combineSlides` builds for a group of two or more. */
  function MergedSlide(g: seq<Slide>, groupTitle: string, includeNotes: bool): (r: Slide)
    requires |g| >= 2 && GroupOk(g)
  {
    var kind := g[0].kind;
    var title := MergedTitle(g, groupTitle);
    Slide(kind, title, Bullets(Contributions(g, kind)), None, None,
      if kind == Data then Some(g[0].chartType.GetOr(Bar)) else None,
      if kind == Example then Some(CaseStudyImage) else None,
      None, NotesIf(includeNotes, MergedNotes(title)), None, None, None, None)
  }

  /**
   * A merged slide keeps the kind of the group's first slide and lists bullets; a data
   * slide keeps the first chart type (bar when it had none), an example slide is a case
   * study, and the notes name the lower-cased merged title when enabled.
   */
  lemma MergedSlideShape(g: seq<Slide>, groupTitle: string, includeNotes: bool)
    requires |g| >= 2 && GroupOk(g)
    ensures var r := MergedSlide(g, groupTitle, includeNotes);
      && r.kind == g[0].kind && r.content.Bullets? && |r.content.items| >= |g|
      && (r.kind == Data <==> r.chartType.Some?)
      && (r.kind == Data ==> r.chartType == Some(g[0].chartType.GetOr(Bar)))
      && (r.kind == Example <==> r.imageType == Some(CaseStudyImage))
      && NotesFollow(r.notes, includeNotes, Lower(r.title))
  {
    var title := MergedTitle(g, groupTitle);
    ContainsMiddle(MergeLead, Lower(title), MergeRest);
  }

  /** A group of one passes through unchanged; a larger group is merged. */
  function Merge(g: seq<Slide>, groupTitle: string, includeNotes: bool): Slide
    requires |g| >= 1 && GroupOk(g)
  {
    if |g| == 1 then g[0] else MergedSlide(g, groupTitle, includeNotes)
  }

  /** A merged slide has the kind of its group's first slide. */
  lemma MergeKind(g: seq<Slide>, groupTitle: string, includeNotes: bool)
    requires |g| >= 1 && GroupOk(g)
    ensures Merge(g, groupTitle, includeNotes).kind == g[0].kind
  {
  }

  /** The number of slides per group `combineSlides` uses. */
  function PerGroup(n: nat, target: nat): nat
    requires target >= 1
  {
    CeilDiv(n, target)
  }

  /** `slides.slice(i, i + per)`. */
  function Slice(ss: seq<Slide>, i: nat, per: nat): (g: seq<Slide>)
    requires i < |ss| && per >= 1
    ensures 1 <= |g| <= per
  {
    ss[i .. Min(i + per, |ss|)]
  }

  /** The groups of `per` consecutive slides the loop of `combineSlides` visits from index `i` on. */
  function Groups(ss: seq<Slide>, per: nat, i: nat): seq<seq<Slide>>
    requires per >= 1
    decreases |ss| - i
  {
    if i >= |ss| then [] else [Slice(ss, i, per)] + Groups(ss, per, i + per)
  }

  /** Every group holds at least one slide. */
  predicate NonEmpty(gs: seq<seq<Slide>>) {
    forall k | 0 <= k < |gs| :: |gs[k]| >= 1
  }

  lemma {:induction false} GroupsNonEmpty(ss: seq<Slide>, per: nat, i: nat)
    requires per >= 1
    ensures NonEmpty(Groups(ss, per, i))
    decreases |ss| - i
  {
    if i < |ss| {
      GroupsNonEmpty(ss, per, i + per);
    }
  }

  /** Every group can be merged. */
  predicate AllOk(gs: seq<seq<Slide>>) {
    forall k | 0 <= k < |gs| :: GroupOk(gs[k])
  }

  /** The slide each group becomes. */
  function MergeEach(gs: seq<seq<Slide>>, groupTitle: string, includeNotes: bool): seq<Slide>
    requires NonEmpty(gs) && AllOk(gs)
  {
    seq(|gs|, k requires 0 <= k < |gs| => Merge(gs[k], groupTitle, includeNotes))
  }

  /** The slides of all groups, or `None` when one of them cannot be merged. */
  function MergeAll(gs: seq<seq<Slide>>, groupTitle: string, includeNotes: bool): Option<seq<Slide>>
    requires NonEmpty(gs)
  {
    if AllOk(gs) then Some(MergeEach(gs, groupTitle, includeNotes)) else None
  }

  /**
   * What `combineSlides(slides, target, groupTitle)` returns: the slides themselves when
   * they already fit, otherwise one slide per group of `CeilDiv(n, target)` consecutive
   * slides; `None` when a concept-led group holds a text content.
   */
  function Combined(ss: seq<Slide>, target: nat, groupTitle: string, includeNotes: bool): Option<seq<Slide>>
    requires target >= 1
  {
    if |ss| <= target then Some(ss)
    else
      var per := PerGroup(|ss|, target);
      GroupsNonEmpty(ss, per, 0);
      MergeAll(Groups(ss, per, 0), groupTitle, includeNotes)
  }

  /**
   * The loop invariant of `combineSlides`: the groups visited so far, `done`, followed by the
   * groups from `i` on are all the groups, and `combined` holds the slides `done` became.
   */
  predicate LoopInv(ss: seq<Slide>, per: nat, i: nat, done: seq<seq<Slide>>, combined: seq<Slide>,
    groupTitle: string, includeNotes: bool)
    requires per >= 1
  {
    && Groups(ss, per, 0) == done + Groups(ss, per, i)
    && NonEmpty(done) && AllOk(done)
    && combined == MergeEach(done, groupTitle, includeNotes)
  }

  lemma LoopStart(ss: seq<Slide>, per: nat, groupTitle: string, includeNotes: bool)
    requires per >= 1
    ensures LoopInv(ss, per, 0, [], [], groupTitle, includeNotes)
  {
    assert [] + Groups(ss, per, 0) == Groups(ss, per, 0);
  }

  /** Pushing the merged group at `i` keeps the loop invariant. */
  lemma LoopAdvance(ss: seq<Slide>, per: nat, i: nat, done: seq<seq<Slide>>, combined: seq<Slide>, next: Slide,
    groupTitle: string, includeNotes: bool)
    requires per >= 1 && i < |ss| && LoopInv(ss, per, i, done, combined, groupTitle, includeNotes)
    requires GroupOk(Slice(ss, i, per)) && next == Merge(Slice(ss, i, per), groupTitle, includeNotes)
    ensures LoopInv(ss, per, i + per, done + [Slice(ss, i, per)], combined + [next], groupTitle, includeNotes)
  {
    var g := Slice(ss, i, per);
    assert done + Groups(ss, per, i) == (done + [g]) + Groups(ss, per, i + per);
    var done' := done + [g];
    assert NonEmpty(done') && AllOk(done');
    forall k | 0 <= k < |done'|
      ensures MergeEach(done', groupTitle, includeNotes)[k] == (combined + [next])[k]
    {
      if k < |done| {
        assert done'[k] == done[k];
      }
    }
  }

  /** A group that cannot be merged makes the whole combination fail. */
  lemma LoopFail(ss: seq<Slide>, per: nat, i: nat, done: seq<seq<Slide>>, combined: seq<Slide>,
    groupTitle: string, includeNotes: bool)
    requires per >= 1 && i < |ss| && LoopInv(ss, per, i, done, combined, groupTitle, includeNotes)
    requires !GroupOk(Slice(ss, i, per))
    ensures !AllOk(Groups(ss, per, 0))
  {
    assert Groups(ss, per, 0)[|done|] == Slice(ss, i, per);
  }

  /** Once every group is visited, `combined` is the whole result. */
  lemma LoopDone(ss: seq<Slide>, per: nat, i: nat, done: seq<seq<Slide>>, combined: seq<Slide>,
    groupTitle: string, includeNotes: bool)
    requires per >= 1 && i >= |ss| && LoopInv(ss, per, i, done, combined, groupTitle, includeNotes)
    ensures NonEmpty(Groups(ss, per, 0))
    ensures MergeAll(Groups(ss, per, 0), groupTitle, includeNotes) == Some(combined)
  {
    assert done + [] == done;
  }

  /**
   * The body of `combineSlides`' loop for one group: a group of one is pushed as it is, a
   * larger group is merged; `None` is the failure of a concept-led group with a text content.
   */
  method MergeGroup(group: seq<Slide>, groupTitle: string, includeNotes: bool) returns (next: Option<Slide>)
    requires |group| >= 1
    ensures next.Some? <==> GroupOk(group)
    ensures next.Some? ==> next.value == Merge(group, groupTitle, includeNotes)
  {
    if |group| == 1 {
      return Some(group[0]);
    }
    if group[0].kind == Concept && !AllBullets(group) {
      return None;
    }
    next := Some(MergedSlide(group, groupTitle, includeNotes));
  }

  /** `combineSlides`: the loop over the groups, proved to compute `Combined`. */
  method CombineSlides(slides: seq<Slide>, target: nat, groupTitle: string, includeNotes: bool)
      returns (r: Option<seq<Slide>>)
    requires target >= 1
    ensures r == Combined(slides, target, groupTitle, includeNotes)
  {
    if |slides| <= target {
      return Some(slides);
    }
    var per := PerGroup(|slides|, target);
    var combined: seq<Slide> := [];
    var i := 0;
    ghost var done: seq<seq<Slide>> := [];
    LoopStart(slides, per, groupTitle, includeNotes);
    while i < |slides|
      invariant LoopInv(slides, per, i, done, combined, groupTitle, includeNotes)
      decreases |slides| - i
    {
      var merged := MergeGroup(Slice(slides, i, per), groupTitle, includeNotes);
      if merged.None? {
        LoopFail(slides, per, i, done, combined, groupTitle, includeNotes);
        GroupsNonEmpty(slides, per, 0);
        return None;
      }
      LoopAdvance(slides, per, i, done, combined, merged.value, groupTitle, includeNotes);
      done := done + [Slice(slides, i, per)];
      combined := combined + [merged.value];
      i := i + per;
    }
    LoopDone(slides, per, i, done, combined, groupTitle, includeNotes);
    r := Some(combined);
  }

  /** The number of slides left from index `i` on. */
  function Rest(n: nat, i: nat): nat {
    if i <= n then n - i else 0
  }

  /** Taking one group off a non-empty run leaves one group fewer. */
  lemma CeilDivStep(a: nat, d: nat)
    requires d >= 1 && a >= 1
    ensures CeilDiv(a, d) == 1 + CeilDiv(Rest(a, d), d)
  {
    var c := CeilDiv(Rest(a, d), d);
    MulSucc(c, d);
    MulSucc(c + 1, d);
    CeilDivUnique(a, d, c + 1);
  }

  /** The groups from `i` on are `Math.ceil` of the remaining slides over the group size. */
  lemma {:induction false} GroupsCount(ss: seq<Slide>, per: nat, i: nat)
    requires per >= 1
    ensures |Groups(ss, per, i)| == CeilDiv(Rest(|ss|, i), per)
    decreases |ss| - i
  {
    if i < |ss| {
      GroupsCount(ss, per, i + per);
      CeilDivStep(|ss| - i, per);
      assert Rest(|ss| - i, per) == Rest(|ss|, i + per);
    }
  }

  /** Group `j` from `i` on is the run of at most `per` slides starting at `i + j * per`. */
  lemma {:induction false} GroupsAt(ss: seq<Slide>, per: nat, i: nat, j: nat)
    requires per >= 1 && j < |Groups(ss, per, i)|
    ensures i + j * per < |ss|
    ensures Groups(ss, per, i)[j] == ss[i + j * per .. Min(i + j * per + per, |ss|)]
    decreases j
  {
    if j > 0 {
      GroupsAt(ss, per, i + per, j - 1);
      MulSucc(j - 1, per);
      assert i + per + (j - 1) * per == i + j * per;
    }
  }

  /** All slides concatenated in the order the groups visit them. */
  function Flatten(gs: seq<seq<Slide>>): seq<Slide> {
    if gs == [] then [] else gs[0] + Flatten(gs[1..])
  }

  /** The groups partition the slides: concatenated, they give back the slides from `i` on. */
  lemma {:induction false} GroupsCover(ss: seq<Slide>, per: nat, i: nat)
    requires per >= 1
    ensures Flatten(Groups(ss, per, i)) == ss[Min(i, |ss|)..]
    decreases |ss| - i
  {
    if i < |ss| {
      GroupsCover(ss, per, i + per);
      var gs := Groups(ss, per, i);
      assert gs[1..] == Groups(ss, per, i + per);
      assert ss[i..] == Slice(ss, i, per) + ss[Min(i + per, |ss|)..];
    }
  }

  /**
   * A section that is all bullets, or holds no concept slide, never hits the failure of a
   * concept-led group.
   */
  predicate Mergeable(ss: seq<Slide>) {
    AllBullets(ss) || forall k | 0 <= k < |ss| :: ss[k].kind != Concept
  }

  lemma {:induction false} GroupsMergeable(ss: seq<Slide>, per: nat, i: nat)
    requires per >= 1 && Mergeable(ss)
    ensures AllOk(Groups(ss, per, i))
    decreases |ss| - i
  {
    if i < |ss| {
      var g := Slice(ss, i, per);
      assert g[0] == ss[i];
      if AllBullets(ss) {
        assert forall k | 0 <= k < |g| :: g[k] == ss[i + k];
      }
      GroupsMergeable(ss, per, i + per);
    }
  }

  /** A mergeable section is always combined. */
  lemma CombinedSucceeds(ss: seq<Slide>, target: nat, groupTitle: string, includeNotes: bool)
    requires target >= 1 && Mergeable(ss)
    ensures Combined(ss, target, groupTitle, includeNotes).Some?
  {
    if |ss| > target {
      GroupsMergeable(ss, PerGroup(|ss|, target), 0);
    }
  }

  /**
   * When the slides do not fit, `combineSlides` returns one slide per group of
   * `CeilDiv(n, target)` consecutive slides: at most `target`, and fewer than before.
   */
  lemma CombinedCount(ss: seq<Slide>, target: nat, groupTitle: string, includeNotes: bool)
    requires target >= 1 && |ss| > target && Combined(ss, target, groupTitle, includeNotes).Some?
    ensures var per := PerGroup(|ss|, target);
      |Combined(ss, target, groupTitle, includeNotes).value| == CeilDiv(|ss|, per)
    ensures |Combined(ss, target, groupTitle, includeNotes).value| <= target
    ensures |Combined(ss, target, groupTitle, includeNotes).value| < |ss|
  {
    var per := PerGroup(|ss|, target);
    GroupsCount(ss, per, 0);
    GroupCountBound(|ss|, target);
  }

  /** Slide `j` of the combination is the run of slides from `j * per` merged. */
  lemma CombinedItem(ss: seq<Slide>, target: nat, j: nat, groupTitle: string, includeNotes: bool)
    requires target >= 1 && |ss| > target && Combined(ss, target, groupTitle, includeNotes).Some?
    requires j < |Combined(ss, target, groupTitle, includeNotes).value|
    ensures var per := PerGroup(|ss|, target);
      j * per < |ss| && GroupOk(ss[j * per .. Min(j * per + per, |ss|)])
      && Combined(ss, target, groupTitle, includeNotes).value[j]
         == Merge(ss[j * per .. Min(j * per + per, |ss|)], groupTitle, includeNotes)
  {
    var per := PerGroup(|ss|, target);
    GroupsNonEmpty(ss, per, 0);
    GroupsAt(ss, per, 0, j);
  }

  /** Slide `j` of the combination has the kind of the slide that starts its group. */
  lemma CombinedKind(ss: seq<Slide>, target: nat, j: nat, groupTitle: string, includeNotes: bool)
    requires target >= 1 && |ss| > target && Combined(ss, target, groupTitle, includeNotes).Some?
    requires j < |Combined(ss, target, groupTitle, includeNotes).value|
    ensures j * PerGroup(|ss|, target) < |ss|
    ensures Combined(ss, target, groupTitle, includeNotes).value[j].kind == ss[j * PerGroup(|ss|, target)].kind
  {
    var per := PerGroup(|ss|, target);
    CombinedItem(ss, target, j, groupTitle, includeNotes);
    MergeKind(ss[j * per .. Min(j * per + per, |ss|)], groupTitle, includeNotes);
  }

  /** The combination never has more slides than it was given. */
  lemma CombinedNoLonger(ss: seq<Slide>, target: nat, groupTitle: string, includeNotes: bool)
    requires target >= 1 && Combined(ss, target, groupTitle, includeNotes).Some?
    ensures |Combined(ss, target, groupTitle, includeNotes).value| <= |ss|
  {
    if |ss| > target {
      CombinedCount(ss, target, groupTitle, includeNotes);
    }
  }

  /** Every slide's title heads a line of the merged content: no slide of a group is lost. */
  lemma {:induction false} ContributionsCover(g: seq<Slide>, leader: SlideKind, k: nat)
    requires leader == Concept ==> AllBullets(g)
    requires k < |g|
    ensures exists m | 0 <= m < |Contributions(g, leader)| :: StartsWith(Contributions(g, leader)[m], g[k].title)
  {
    var r := Contributions(g, leader);
    var head := Contribution(g[0], leader);
    assert r == head + Contributions(g[1..], leader);
    if k == 0 {
      assert r[0] == head[0];
    } else {
      ContributionsCover(g[1..], leader, k - 1);
      var m :| 0 <= m < |Contributions(g[1..], leader)| && StartsWith(Contributions(g[1..], leader)[m], g[1..][k - 1].title);
      assert r[|head| + m] == Contributions(g[1..], leader)[m];
    }
  }

  /** Merging a group keeps every slide: either it is the one slide, or its title heads a line. */
  lemma MergeCovers(g: seq<Slide>, groupTitle: string, includeNotes: bool, k: nat)
    requires |g| >= 1 && GroupOk(g) && k < |g|
    ensures var r := Merge(g, groupTitle, includeNotes);
      r == g[k] || (r.content.Bullets? && exists m | 0 <= m < |r.content.items| :: StartsWith(r.content.items[m], g[k].title))
  {
    if |g| >= 2 {
      ContributionsCover(g, g[0].kind, k);
    }
  }

  /** Every slide of the section has the given kind. */
  predicate AllOfKind(ss: seq<Slide>, kind: SlideKind) {
    forall k | 0 <= k < |ss| :: ss[k].kind == kind
  }

  /** Combining a section of one kind gives slides of that kind. */
  lemma CombinedSameKind(ss: seq<Slide>, target: nat, groupTitle: string, includeNotes: bool, kind: SlideKind)
    requires target >= 1 && AllOfKind(ss, kind) && Combined(ss, target, groupTitle, includeNotes).Some?
    ensures AllOfKind(Combined(ss, target, groupTitle, includeNotes).value, kind)
  {
    if |ss| > target {
      var r := Combined(ss, target, groupTitle, includeNotes).value;
      forall j | 0 <= j < |r|
        ensures r[j].kind == kind
      {
        CombinedKind(ss, target, j, groupTitle, includeNotes);
      }
    }
  }

  /** `countTotalSlides`: the slides of all seven sections. */
  function Total(x: Sections): nat {
    |x.title| + |x.introduction| + |x.keyConcepts| + |x.data| + |x.examples| + |x.conclusion| + |x.qAndA|
  }

  /** The first pass of `balanceContent`: the examples are halved (rounded up) when there are several. */
  function BalanceExamples(x: Sections, includeNotes: bool): Option<Sections> {
    if |x.examples| > 1 then
      match Combined(x.examples, CeilDiv(|x.examples|, 2), ExamplesHeading, includeNotes)
      case None => None
      case Some(e) => Some(x.(examples := e))
    else Some(x)
  }

  /** The second pass: while the deck is too long, more than two concepts are halved (rounded up). */
  function BalanceConcepts(x: Sections, target: int, includeNotes: bool): Option<Sections> {
    if Total(x) > target && |x.keyConcepts| > 2 then
      match Combined(x.keyConcepts, CeilDiv(|x.keyConcepts|, 2), KeyConceptsTitle, includeNotes)
      case None => None
      case Some(c) => Some(x.(keyConcepts := c))
    else Some(x)
  }

  /** The third pass: while the deck is too long, several data slides become at most two. */
  function BalanceData(x: Sections, target: int, includeNotes: bool): Option<Sections> {
    if Total(x) > target && |x.data| > 1 then
      match Combined(x.data, Min(2, |x.data|), DataHeading, includeNotes)
      case None => None
      case Some(d) => Some(x.(data := d))
    else Some(x)
  }

  /**
   * `balanceContent(target)`: the three passes in order; `None` when a pass throws, which
   * happens only for a concept-led group holding a text content.
   */
  function Balance(x: Sections, target: int, includeNotes: bool): Option<Sections> {
    match BalanceExamples(x, includeNotes)
    case None => None
    case Some(x1) =>
      match BalanceConcepts(x1, target, includeNotes)
      case None => None
      case Some(x2) => BalanceData(x2, target, includeNotes)
  }

  /**
   * Balancing only merges the concept, data and example sections: the other four are left
   * as they were, no section grows, and neither does the deck.
   */
  lemma BalanceShrinks(x: Sections, target: int, includeNotes: bool)
    requires Balance(x, target, includeNotes).Some?
    ensures var y := Balance(x, target, includeNotes).value;
      && y.title == x.title && y.introduction == x.introduction
      && y.conclusion == x.conclusion && y.qAndA == x.qAndA
    ensures var y := Balance(x, target, includeNotes).value;
      && |y.keyConcepts| <= |x.keyConcepts| && |y.data| <= |x.data| && |y.examples| <= |x.examples|
      && Total(y) <= Total(x)
  {
    if |x.examples| > 1 {
      CombinedNoLonger(x.examples, CeilDiv(|x.examples|, 2), ExamplesHeading, includeNotes);
    }
    var x1 := BalanceExamples(x, includeNotes).value;
    if Total(x1) > target && |x1.keyConcepts| > 2 {
      CombinedNoLonger(x1.keyConcepts, CeilDiv(|x1.keyConcepts|, 2), KeyConceptsTitle, includeNotes);
    }
    var x2 := BalanceConcepts(x1, target, includeNotes).value;
    if Total(x2) > target && |x2.data| > 1 {
      CombinedNoLonger(x2.data, Min(2, |x2.data|), DataHeading, includeNotes);
    }
  }

  /** Several examples always end up as at most half of them, rounded up. */
  lemma BalanceHalvesExamples(x: Sections, target: int, includeNotes: bool)
    requires Balance(x, target, includeNotes).Some? && |x.examples| > 1
    ensures |Balance(x, target, includeNotes).value.examples| <= CeilDiv(|x.examples|, 2) < |x.examples|
  {
    var t := CeilDiv(|x.examples|, 2);
    GroupCountBound(|x.examples|, 2);
    MulLtCancel(t - 1, |x.examples| - 1, 2);
    CombinedCount(x.examples, t, ExamplesHeading, includeNotes);
    BalanceShrinksLater(BalanceExamples(x, includeNotes).value, target, includeNotes);
  }

  /** The second and third passes leave the examples alone. */
  lemma BalanceShrinksLater(x1: Sections, target: int, includeNotes: bool)
    requires BalanceConcepts(x1, target, includeNotes).Some?
    requires BalanceData(BalanceConcepts(x1, target, includeNotes).value, target, includeNotes).Some?
    ensures BalanceData(BalanceConcepts(x1, target, includeNotes).value, target, includeNotes).value.examples
      == x1.examples
  {
  }

  /**
   * The sections `structureContent` builds: concept slides with bullets, data slides and
   * example slides.
   */
  predicate WellFormed(x: Sections) {
    && AllOfKind(x.keyConcepts, Concept) && AllBullets(x.keyConcepts)
    && AllOfKind(x.data, Data) && AllOfKind(x.examples, Example)
  }

  lemma AllOfKindMergeable(ss: seq<Slide>, kind: SlideKind)
    requires AllOfKind(ss, kind) && kind != Concept
    ensures Mergeable(ss)
  {
  }

  /**
   * Balancing well-formed sections never fails, and the balanced sections are well formed
   * again: each section still holds slides of its own kind.
   */
  lemma BalanceWellFormed(x: Sections, target: int, includeNotes: bool)
    requires WellFormed(x)
    ensures Balance(x, target, includeNotes).Some?
    ensures WellFormed(Balance(x, target, includeNotes).value)
  {
    AllOfKindMergeable(x.examples, Example);
    if |x.examples| > 1 {
      var t := CeilDiv(|x.examples|, 2);
      CombinedSucceeds(x.examples, t, ExamplesHeading, includeNotes);
      CombinedSameKind(x.examples, t, ExamplesHeading, includeNotes, Example);
    }
    var x1 := BalanceExamples(x, includeNotes).value;
    if Total(x1) > target && |x1.keyConcepts| > 2 {
      var t := CeilDiv(|x1.keyConcepts|, 2);
      CombinedSucceeds(x1.keyConcepts, t, KeyConceptsTitle, includeNotes);
      CombinedSameKind(x1.keyConcepts, t, KeyConceptsTitle, includeNotes, Concept);
      CombinedBullets(x1.keyConcepts, t, KeyConceptsTitle, includeNotes);
    }
    var x2 := BalanceConcepts(x1, target, includeNotes).value;
    AllOfKindMergeable(x2.data, Data);
    if Total(x2) > target && |x2.data| > 1 {
      var t := Min(2, |x2.data|);
      CombinedSucceeds(x2.data, t, DataHeading, includeNotes);
      CombinedSameKind(x2.data, t, DataHeading, includeNotes, Data);
    }
  }

  /** A group that opens with a bulleted slide merges into a bulleted slide. */
  lemma MergeKeepsBullets(g: seq<Slide>, groupTitle: string, includeNotes: bool)
    requires |g| >= 1 && GroupOk(g) && g[0].content.Bullets?
    ensures Merge(g, groupTitle, includeNotes).content.Bullets?
  {
    if |g| >= 2 {
      MergedSlideShape(g, groupTitle, includeNotes);
    }
  }

  /** Combining slides with bullets gives slides with bullets. */
  lemma CombinedBullets(ss: seq<Slide>, target: nat, groupTitle: string, includeNotes: bool)
    requires target >= 1 && AllBullets(ss) && Combined(ss, target, groupTitle, includeNotes).Some?
    ensures AllBullets(Combined(ss, target, groupTitle, includeNotes).value)
  {
    if |ss| > target {
      var r := Combined(ss, target, groupTitle, includeNotes).value;
      var per := PerGroup(|ss|, target);
      forall j | 0 <= j < |r|
        ensures r[j].content.Bullets?
      {
        CombinedItem(ss, target, j, groupTitle, includeNotes);
        var g := ss[j * per .. Min(j * per + per, |ss|)];
        assert g[0] == ss[j * per];
        MergeKeepsBullets(g, groupTitle, includeNotes);
      }
    }
  }

  // ---------------------------------------------------------------------------------------
  // No content is lost when slides are combined

  /**
   * Slide `s` lives on in slide `v` of the combination whose leading kind is `leader`: `v` is
   * `s` itself, or `v` lists every line `combineSlides` writes for `s`. Under a concept
   * leader those are the title and each bullet indented, under a data or example leader the
   * line `title: content`, and otherwise the title and the content.
   */
  predicate Survives(v: Slide, s: Slide, leader: SlideKind) {
    || v == s
    || (v.content.Bullets? &&
        match leader
        case Concept =>
          && s.title in v.content.items && s.content.Bullets?
          && forall b | b in s.content.items :: Indent + b in v.content.items
        case Data => s.title + Colon + ContentString(s.content) in v.content.items
        case Example => s.title + Colon + ContentString(s.content) in v.content.items
        case _ => s.title in v.content.items && ContentString(s.content) in v.content.items)
  }

  /** Every line one slide contributes is a line of the merged content. */
  lemma {:induction false} ContributionsKeep(g: seq<Slide>, leader: SlideKind, k: nat)
    requires leader == Concept ==> AllBullets(g)
    requires k < |g|
    ensures forall x | x in Contribution(g[k], leader) :: x in Contributions(g, leader)
  {
    assert Contributions(g, leader) == Contribution(g[0], leader) + Contributions(g[1..], leader);
    if k > 0 {
      ContributionsKeep(g[1..], leader, k - 1);
      assert g[1..][k - 1] == g[k];
    }
  }

  /** A slide whose contributed lines all appear in a bulleted slide survives in it. */
  lemma LinesSurvive(v: Slide, s: Slide, leader: SlideKind)
    requires v.content.Bullets? && (leader == Concept ==> s.content.Bullets?)
    requires forall x | x in Contribution(s, leader) :: x in v.content.items
    ensures Survives(v, s, leader)
  {
    var c := Contribution(s, leader);
    if leader == Concept {
      assert c == [s.title] + Indented(s.content.items);
      assert c[0] == s.title;
      forall b | b in s.content.items
        ensures Indent + b in v.content.items
      {
        var j :| 0 <= j < |s.content.items| && s.content.items[j] == b;
        assert c[j + 1] == Indent + b;
      }
    } else if leader != Data && leader != Example {
      assert c[0] == s.title && c[1] == ContentString(s.content);
    } else {
      assert c[0] == s.title + Colon + ContentString(s.content);
    }
  }

  /** Every slide of a group survives in the slide the group merges into. */
  lemma MergeSurvives(g: seq<Slide>, groupTitle: string, includeNotes: bool, k: nat)
    requires |g| >= 1 && GroupOk(g) && k < |g|
    ensures Survives(Merge(g, groupTitle, includeNotes), g[k], Merge(g, groupTitle, includeNotes).kind)
  {
    MergeKind(g, groupTitle, includeNotes);
    if |g| >= 2 {
      ContributionsKeep(g, g[0].kind, k);
      LinesSurvive(Merge(g, groupTitle, includeNotes), g[k], g[0].kind);
    }
  }

  /** Slide `i` is slide `k` of group `j`, and that group is one of the `q` groups. */
  lemma GroupOfIndex(i: nat, n: nat, per: nat, q: nat) returns (j: nat, k: nat)
    requires per >= 1 && i < n && q * per >= n
    ensures j < q && k < per && i == j * per + k
  {
    j, k := i / per, i % per;
    assert i == j * per + k;
    MulLtCancel(j, q, per);
  }

  /** Slide `k` of group `j` survives in the slide group `j` becomes. */
  lemma SurvivesAtGroup(ss: seq<Slide>, target: nat, groupTitle: string, includeNotes: bool, j: nat, k: nat)
    requires target >= 1 && |ss| > target && Combined(ss, target, groupTitle, includeNotes).Some?
    requires j < |Combined(ss, target, groupTitle, includeNotes).value|
    requires k < PerGroup(|ss|, target) && j * PerGroup(|ss|, target) + k < |ss|
    ensures var r := Combined(ss, target, groupTitle, includeNotes).value;
      Survives(r[j], ss[j * PerGroup(|ss|, target) + k], r[j].kind)
  {
    var per := PerGroup(|ss|, target);
    CombinedItem(ss, target, j, groupTitle, includeNotes);
    var g := ss[j * per .. Min(j * per + per, |ss|)];
    assert g[k] == ss[j * per + k];
    MergeSurvives(g, groupTitle, includeNotes, k);
  }

  /** Slide `i` survives in the slide its group becomes. */
  lemma MergedSurvives(ss: seq<Slide>, target: nat, groupTitle: string, includeNotes: bool, i: nat)
    requires target >= 1 && |ss| > target && Combined(ss, target, groupTitle, includeNotes).Some? && i < |ss|
    ensures SurvivesIn(Combined(ss, target, groupTitle, includeNotes).value, ss[i])
  {
    var r := Combined(ss, target, groupTitle, includeNotes).value;
    var per := PerGroup(|ss|, target);
    CombinedCount(ss, target, groupTitle, includeNotes);
    var j, k := GroupOfIndex(i, |ss|, per, |r|);
    SurvivesAtGroup(ss, target, groupTitle, includeNotes, j, k);
  }

  /** Slide `s` survives in some slide of `ys`, under that slide's kind as the leading kind. */
  predicate SurvivesIn(ys: seq<Slide>, s: Slide) {
    exists j | 0 <= j < |ys| :: Survives(ys[j], s, ys[j].kind)
  }

  /** Every slide of `xs` survives in some slide of `ys`. */
  predicate SectionSurvives(ys: seq<Slide>, xs: seq<Slide>) {
    forall i | 0 <= i < |xs| :: SurvivesIn(ys, xs[i])
  }

  lemma SectionSurvivesSelf(xs: seq<Slide>)
    ensures SectionSurvives(xs, xs)
  {
    forall i | 0 <= i < |xs|
      ensures SurvivesIn(xs, xs[i])
    {
      assert Survives(xs[i], xs[i], xs[i].kind);
    }
  }

  /** Combining loses no slide: every input slide survives in some combined slide. */
  lemma CombinedSurvives(ss: seq<Slide>, target: nat, groupTitle: string, includeNotes: bool)
    requires target >= 1 && Combined(ss, target, groupTitle, includeNotes).Some?
    ensures SectionSurvives(Combined(ss, target, groupTitle, includeNotes).value, ss)
  {
    var r := Combined(ss, target, groupTitle, includeNotes).value;
    if |ss| <= target {
      SectionSurvivesSelf(ss);
    } else {
      forall i | 0 <= i < |ss|
        ensures SurvivesIn(r, ss[i])
      {
        MergedSurvives(ss, target, groupTitle, includeNotes, i);
      }
    }
  }

  /**
   * Balancing loses no content: every concept, data and example slide survives in a slide of
   * its balanced section, with its title, its bullets or its `title: content` line.
   */
  lemma BalanceKeepsContent(x: Sections, target: int, includeNotes: bool)
    requires Balance(x, target, includeNotes).Some?
    ensures var y := Balance(x, target, includeNotes).value;
      && SectionSurvives(y.keyConcepts, x.keyConcepts)
      && SectionSurvives(y.data, x.data)
      && SectionSurvives(y.examples, x.examples)
  {
    SectionSurvivesSelf(x.examples);
    if |x.examples| > 1 {
      CombinedSurvives(x.examples, CeilDiv(|x.examples|, 2), ExamplesHeading, includeNotes);
    }
    var x1 := BalanceExamples(x, includeNotes).value;
    SectionSurvivesSelf(x1.keyConcepts);
    if Total(x1) > target && |x1.keyConcepts| > 2 {
      CombinedSurvives(x1.keyConcepts, CeilDiv(|x1.keyConcepts|, 2), KeyConceptsTitle, includeNotes);
    }
    var x2 := BalanceConcepts(x1, target, includeNotes).value;
    SectionSurvivesSelf(x2.data);
    if Total(x2) > target && |x2.data| > 1 {
      CombinedSurvives(x2.data, Min(2, |x2.data|), DataHeading, includeNotes);
    }
  }
}
