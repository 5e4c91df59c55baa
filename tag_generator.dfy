/** src/tags/tag_generator.rs: the stream tags. Every list starts with the core tags, then up to
  * three of the category's tags chosen by measured performance, up to two relevant trending
  * tags and the activity's own tags, and is cut to the platform limit of twenty. */
module TagGenerator {
  import opened Strings
  import opened Collections

  datatype TagCategory = Tech | Gaming | Educational | Dance | Community | Special

  datatype StreamCategory = Tech | Gaming | Dance | JustChatting | Educational | Special

  datatype StreamActivity = CTFSolving | Dancing(song: string) | Gaming(game: string)
                          | Teaching(topic: string) | JustChatting

  /** `TagMetrics`; the f32 fields are modelled as reals. */
  datatype TagMetrics = TagMetrics(viewerGain: real, retentionRate: real, engagementScore: real,
                                   discoveryRate: real)

  /** `DynamicTag`; `lastUsed` is a timestamp in seconds. */
  datatype DynamicTag = DynamicTag(name: string, category: TagCategory, performanceScore: real,
                                   lastUsed: int, viewerImpact: real)

  /** `StreamContext` without its recent events, which no tag depends on. */
  datatype StreamContext = StreamContext(category: StreamCategory, activity: StreamActivity,
                                         currentViewers: nat, streamDuration: real)

  /** `TrendingTag`; each relevance rule is identified by a name. */
  datatype TrendingTag = TrendingTag(name: string, trendScore: real, category: TagCategory,
                                     startTime: int, relevanceRules: seq<string>)

  /** A tag with the score it was ranked by. */
  datatype ScoredTag = ScoredTag(tag: string, score: real)

  /** The tags `new` says must always be present. */
  const CoreTags: set<string> := {"VTuber", "KamenSparkle", "CyberVTuber"}

  const TechTags: seq<string> := ["CyberSecurity", "HackingStream", "CTF", "TechTutorial", "CodingStream"]
  const GamingTags: seq<string> := ["GamerGirl", "GamersUnite", "GamingVTuber", "RetroGaming"]
  const DanceTags: seq<string> := ["VTuberDance", "DanceStream", "KPop", "PerformanceArt"]

  /** `initialize_category_tags`: tech, gaming and dance streams have tag lists, the others none. */
  const InitialCategoryTags: map<StreamCategory, seq<string>> :=
    map[StreamCategory.Tech := TechTags, StreamCategory.Gaming := GamingTags, StreamCategory.Dance := DanceTags]

  /** There are exactly three core tags. */
  lemma CoreTagsCount()
    ensures |CoreTags| == 3
  {
    assert "VTuber" != "KamenSparkle" && "VTuber" != "CyberVTuber" && "KamenSparkle" != "CyberVTuber";
  }

  /** A hash set's iteration order: each element once. */
  ghost predicate Enumerates(order: seq<string>, s: set<string>) {
    (forall t :: t in order <==> t in s) && forall i, j :: 0 <= i < j < |order| ==> order[i] != order[j]
  }

  /** An enumeration has as many entries as the set has elements. */
  lemma EnumerationLength(order: seq<string>, s: set<string>)
    requires Enumerates(order, s)
    ensures |order| == |s|
  {
    DistinctCard(order);
    assert s == set k | k in order;
  }

  // ---------------------------------------------------------------- ranking by performance

  /** The score `select_best_performing_tags` ranks by. */
  function Score(m: TagMetrics): real {
    m.viewerGain * m.retentionRate
  }

  /** The `filter_map`: the available tags that have metrics, in order, with their scores. */
  function ScoredTags(available: seq<string>, perf: map<string, TagMetrics>): (r: seq<ScoredTag>)
    ensures |r| <= |available|
    ensures forall k :: 0 <= k < |r| ==>
              r[k].tag in available && r[k].tag in perf && r[k].score == Score(perf[r[k].tag])
    ensures forall t :: t in available && t in perf ==> ScoredTag(t, Score(perf[t])) in r
    decreases |available|
  {
    if available == [] then []
    else
      var rest := ScoredTags(available[1..], perf);
      var t := available[0];
      if t in perf then [ScoredTag(t, Score(perf[t]))] + rest else rest
  }

  /** Scores from highest to lowest. */
  predicate Descending(s: seq<ScoredTag>) {
    forall i, j :: 0 <= i < j < |s| ==> s[i].score >= s[j].score
  }

  /** Placing `x` after every entry scoring at least as high: one step of a stable sort. */
  function InsertDescending(s: seq<ScoredTag>, x: ScoredTag): (r: seq<ScoredTag>)
    requires Descending(s)
    ensures |r| == |s| + 1 && (r[0] == x || (s != [] && r[0] == s[0]))
    ensures Descending(r)
    ensures multiset(r) == multiset(s) + multiset{x}
    decreases |s|
  {
    if s == [] then [x]
    else if x.score > s[0].score then [x] + s
    else
      var rest := InsertDescending(s[1..], x);
      assert s == [s[0]] + s[1..];
      DescendingCons(s[0], rest);
      [s[0]] + rest
  }

  /** An entry scoring at least as high as the head of a descending list can go in front. */
  lemma DescendingCons(h: ScoredTag, rest: seq<ScoredTag>)
    requires Descending(rest) && (rest != [] ==> h.score >= rest[0].score)
    ensures Descending([h] + rest)
  {
    var r := [h] + rest;
    forall i, j | 0 <= i < j < |r| ensures r[i].score >= r[j].score {
      if i > 0 {
        assert r[i] == rest[i - 1] && r[j] == rest[j - 1];
      } else {
        assert r[j] == rest[j - 1];
      }
    }
  }

  /** `sort_by` on the scores, descending; ties keep their order. */
  function SortDescending(s: seq<ScoredTag>): (r: seq<ScoredTag>)
    ensures Descending(r)
    ensures multiset(r) == multiset(s)
    decreases |s|
  {
    if s == [] then []
    else
      var init := s[..|s| - 1];
      assert s == init + [s[|s| - 1]];
      InsertDescending(SortDescending(init), s[|s| - 1])
  }

  /** The tag names of scored entries. */
  function Names(s: seq<ScoredTag>): (r: seq<string>)
    ensures |r| == |s| && forall k :: 0 <= k < |s| ==> r[k] == s[k].tag
  {
    seq(|s|, k requires 0 <= k < |s| => s[k].tag)
  }

  /** `select_best_performing_tags`: the first `count` names of the scored tags sorted by score. */
  function SelectBestPerformingTags(available: seq<string>, count: nat, perf: map<string, TagMetrics>): (r: seq<string>)
    ensures |r| <= count
    ensures forall k :: 0 <= k < |r| ==> r[k] in available && r[k] in perf
    ensures forall i, j :: 0 <= i < j < |r| ==> Score(perf[r[i]]) >= Score(perf[r[j]])
  {
    var sorted := SortDescending(ScoredTags(available, perf));
    var taken := if count < |sorted| then sorted[..count] else sorted;
    forall k | 0 <= k < |taken| ensures taken[k].tag in available && taken[k].tag in perf
      && taken[k].score == Score(perf[taken[k].tag])
    {
      assert taken[k] in multiset(ScoredTags(available, perf));
    }
    Names(taken)
  }

  /** A tag with metrics that was left out scores no higher than any tag chosen, and a tag is
    * only left out when `count` tags were chosen. */
  lemma SelectedAreBest(available: seq<string>, count: nat, perf: map<string, TagMetrics>, t: string)
    requires t in available && t in perf
    requires t !in SelectBestPerformingTags(available, count, perf)
    ensures |SelectBestPerformingTags(available, count, perf)| == count
    ensures forall u :: u in SelectBestPerformingTags(available, count, perf) ==> Score(perf[u]) >= Score(perf[t])
  {
    var scored := ScoredTags(available, perf);
    var sorted := SortDescending(scored);
    var x := ScoredTag(t, Score(perf[t]));
    assert x in multiset(sorted);
    var j :| 0 <= j < |sorted| && sorted[j] == x;
    var r := SelectBestPerformingTags(available, count, perf);
    forall u | u in r ensures Score(perf[u]) >= Score(perf[t]) {
      var k :| 0 <= k < |r| && r[k] == u;
      assert sorted[k].tag == u && k < j;
      assert sorted[k] in multiset(scored);
    }
  }

  /** Without any metrics nothing is selected. */
  lemma NoMetricsNoSelection(available: seq<string>, count: nat)
    ensures SelectBestPerformingTags(available, count, map[]) == []
  {
  }

  // ---------------------------------------------------------------- trending tags

  /** `is_relevant_to`: some relevance rule matches the stream, as `matches` decides. */
  predicate IsRelevantTo(tag: TrendingTag, matches: string -> bool) {
    exists k :: 0 <= k < |tag.relevanceRules| && matches(tag.relevanceRules[k])
  }

  /** The names of trending tags. */
  function TrendingNames(s: seq<TrendingTag>): (r: seq<string>)
    ensures |r| == |s| && forall k :: 0 <= k < |s| ==> r[k] == s[k].name
  {
    seq(|s|, k requires 0 <= k < |s| => s[k].name)
  }

  /** The relevant trending tags, in order: each one relevant, and every relevant one kept. */
  function RelevantOnes(trending: seq<TrendingTag>, matches: string -> bool): (r: seq<TrendingTag>)
    ensures |r| <= |trending|
    ensures forall k :: 0 <= k < |r| ==> r[k] in trending && IsRelevantTo(r[k], matches)
    ensures forall i :: 0 <= i < |trending| && IsRelevantTo(trending[i], matches) ==> trending[i] in r
    decreases |trending|
  {
    if trending == [] then []
    else
      var rest := RelevantOnes(trending[1..], matches);
      assert forall i :: 1 <= i < |trending| ==> trending[i] == trending[1..][i - 1];
      (if IsRelevantTo(trending[0], matches) then [trending[0]] else []) + rest
  }

  /** `get_relevant_trending_tags`: the names of the first two relevant trending tags. */
  function RelevantTrendingTags(trending: seq<TrendingTag>, matches: string -> bool): (r: seq<string>)
    ensures |r| <= 2
    ensures |r| == if |RelevantOnes(trending, matches)| < 2 then |RelevantOnes(trending, matches)| else 2
    ensures forall k :: 0 <= k < |r| ==> r[k] == RelevantOnes(trending, matches)[k].name
  {
    var relevant := RelevantOnes(trending, matches);
    TrendingNames(if 2 < |relevant| then relevant[..2] else relevant)
  }

  /** A relevant trending tag at `j` makes the relevant list non-empty. */
  lemma {:induction false} SomeRelevant(trending: seq<TrendingTag>, matches: string -> bool, j: nat)
    requires j < |trending| && IsRelevantTo(trending[j], matches)
    ensures |RelevantOnes(trending, matches)| >= 1
    decreases j
  {
    if j > 0 && !IsRelevantTo(trending[0], matches) {
      SomeRelevant(trending[1..], matches, j - 1);
    }
  }

  /** With two relevant trending tags or more, two are added. */
  lemma {:induction false} TwoRelevantTwoAdded(trending: seq<TrendingTag>, matches: string -> bool, i: nat, j: nat)
    requires i < j < |trending|
    requires IsRelevantTo(trending[i], matches) && IsRelevantTo(trending[j], matches)
    ensures |RelevantTrendingTags(trending, matches)| == 2
    decreases i
  {
    var rest := trending[1..];
    if i == 0 {
      SomeRelevant(rest, matches, j - 1);
    } else {
      TwoRelevantTwoAdded(rest, matches, i - 1, j - 1);
    }
  }

  // ---------------------------------------------------------------- activity tags

  /** `s.replace(" ", "")`. */
  function NoSpaces(s: string): (r: string)
    ensures ' ' !in r
  {
    SpacesRemoved(s);
    ReplaceAll(s, " ", "")
  }

  /** Removing every space leaves none. */
  lemma {:induction false} SpacesRemoved(s: string)
    ensures ' ' !in ReplaceAll(s, " ", "")
    decreases |s|
  {
    if |s| >= 1 {
      SpacesRemoved(s[1..]);
      if s[..1] != " " {
        assert s[..1] == [s[0]];
      }
    }
  }

  /** The tags an activity adds: three fixed ones for a CTF, two fixed ones and the song for a
    * dance, one fixed one and the game for gaming, none otherwise. No tag holds a space. */
  function ActivityTags(activity: StreamActivity): (r: seq<string>)
    ensures activity.CTFSolving? ==> |r| == 3 && r[0] == "CyberSecurity"
    ensures activity.Dancing? ==> |r| == 3 && "VTuberDance" in r && r[2] == "Dancing" + NoSpaces(activity.song)
    ensures activity.Gaming? ==> |r| == 2 && r[1] == "Playing" + NoSpaces(activity.game)
    ensures activity.Teaching? || activity.JustChatting? ==> r == []
    ensures forall k :: 0 <= k < |r| ==> ' ' !in r[k]
  {
    match activity
    case CTFSolving => ["CyberSecurity", "HackingLive", "CTFChallenge"]
    case Dancing(song) => ["VTuberDance", "DanceCover", "Dancing" + NoSpaces(song)]
    case Gaming(game) => ["GamingVTuber", "Playing" + NoSpaces(game)]
    case _ => []
  }

  /** `truncate(n)`: the first `n` entries, or all of them. */
  function Truncate(s: seq<string>, n: nat): (r: seq<string>)
    ensures |r| <= n && |r| <= |s| && r == s[..|r|]
    ensures |s| <= n ==> r == s
  {
    if |s| <= n then s else s[..n]
  }

  /** Cutting a list that starts with an enumeration of at most twenty core tags keeps them all. */
  lemma CorePrefixKept(coreOrder: seq<string>, core: set<string>, full: seq<string>)
    requires Enumerates(coreOrder, core)
    requires |coreOrder| <= |full| && full[..|coreOrder|] == coreOrder
    ensures |core| <= 20 ==> forall t :: t in core ==> t in Truncate(full, 20)
  {
    EnumerationLength(coreOrder, core);
    if |core| <= 20 {
      forall t | t in core ensures t in Truncate(full, 20) {
        var i :| 0 <= i < |coreOrder| && coreOrder[i] == t;
        assert full[..|coreOrder|][i] == t;
      }
    }
  }

  // ---------------------------------------------------------------- the tag system

  class TagSystem {
    var coreTags: set<string>
    var dynamicTags: seq<DynamicTag>
    var tagPerformance: map<string, TagMetrics>
    var categoryTags: map<StreamCategory, seq<string>>
    var trendingTags: seq<TrendingTag>

    /** `new`: the three core tags, the category lists, and no metrics or trends yet. */
    constructor ()
      ensures coreTags == CoreTags && categoryTags == InitialCategoryTags
      ensures dynamicTags == [] && tagPerformance == map[] && trendingTags == []
    {
      coreTags := CoreTags;
      dynamicTags := [];
      tagPerformance := map[];
      categoryTags := InitialCategoryTags;
      trendingTags := [];
    }

    /** The category's best three tags, when the category has a list. */
    function CategoryPart(category: StreamCategory): seq<string>
      reads this
    {
      if category in categoryTags then SelectBestPerformingTags(categoryTags[category], 3, tagPerformance) else []
    }

    /** `generate_tags`, with the core tags in the order the hash set yields them: core tags,
      * category tags, trending tags and activity tags, cut to twenty. The core tags come first,
      * so as long as there are at most twenty of them all are kept. */
    method GenerateTags(context: StreamContext, coreOrder: seq<string>, matches: string -> bool)
      returns (tags: seq<string>)
      requires Enumerates(coreOrder, coreTags)
      ensures tags == Truncate(coreOrder + CategoryPart(context.category)
                               + RelevantTrendingTags(trendingTags, matches) + ActivityTags(context.activity), 20)
      ensures |tags| <= 20
      ensures |coreTags| <= 20 ==> forall t :: t in coreTags ==> t in tags
    {
      tags := coreOrder + CategoryPart(context.category);
      tags := tags + RelevantTrendingTags(trendingTags, matches);
      tags := tags + ActivityTags(context.activity);
      CorePrefixKept(coreOrder, coreTags, tags);
      tags := Truncate(tags, 20);
    }

    /** `update_tag_performance`: every tag that already has metrics takes the reported ones, if
      * any; no tag gains metrics. */
    method UpdateTagPerformance(stats: map<string, TagMetrics>)
      modifies this`tagPerformance
      ensures tagPerformance.Keys == old(tagPerformance).Keys
      ensures forall t :: t in tagPerformance ==>
                tagPerformance[t] == if t in stats then stats[t] else old(tagPerformance)[t]
    {
      var remaining := tagPerformance.Keys;
      while remaining != {}
        invariant remaining <= old(tagPerformance).Keys
        invariant tagPerformance.Keys == old(tagPerformance).Keys
        invariant forall t :: t in tagPerformance ==>
                    tagPerformance[t] == if t in stats && t !in remaining then stats[t] else old(tagPerformance)[t]
        decreases remaining
      {
        var t :| t in remaining;
        if t in stats {
          tagPerformance := tagPerformance[t := stats[t]];
        }
        remaining := remaining - {t};
      }
    }
  }

  /** Metrics are only ever updated, never added, so a new system's category lists never
    * contribute: whatever performance is reported, its tags are the core tags and the activity's. */
  method FreshSystemTags(context: StreamContext, coreOrder: seq<string>, stats: map<string, TagMetrics>,
                         matches: string -> bool) returns (tags: seq<string>)
    requires Enumerates(coreOrder, CoreTags)
    ensures tags == coreOrder + ActivityTags(context.activity)
  {
    var s := new TagSystem();
    s.UpdateTagPerformance(stats);
    assert s.tagPerformance == map[];
    if context.category in s.categoryTags {
      NoMetricsNoSelection(s.categoryTags[context.category], 3);
    }
    tags := s.GenerateTags(context, coreOrder, matches);
    CoreTagsCount();
    EnumerationLength(coreOrder, CoreTags);
    assert coreOrder + [] + [] + ActivityTags(context.activity) == coreOrder + ActivityTags(context.activity);
  }
}
