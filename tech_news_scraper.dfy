/** src/scrapers/tech_news_scraper.rs, `get_trending_topics`: every tag of every article, and every
  * title word longer than three bytes (lowercased), is counted in a map; the counted topics are then
  * sorted by count, most frequent first, and the first ten are returned. The map's iteration order
  * is the injected `order`; the stable sort is modelled as stable insertion. */
module TechNewsScraper {
  import opened Strings
  import opened Collections

  datatype NewsSource = TheVerge | TechNewsWorld

  datatype TechArticle = TechArticle(
    title: string,
    url: string,
    source: NewsSource,
    category: string,
    summary: string,
    author: string,
    publishedAt: int,
    tags: seq<string>)

  /** At most this many topics are returned. */
  const TopicLimit: nat := 10

  /** Title words of at most this many bytes are skipped. */
  const ShortWordBytes: nat := 3

  // ---------------------------------------------------------------- what is counted

  /** Lowercasing changes ASCII letters only, so the byte length is kept. */
  lemma {:induction false} LowerKeepsUtf8Len(s: string)
    ensures Utf8Len(Lower(s)) == Utf8Len(s)
    decreases |s|
  {
    if s != [] {
      assert Lower(s)[1..] == Lower(s[1..]);
      LowerKeepsUtf8Len(s[1..]);
    }
  }

  /** The title words that are counted, lowercased, in order. */
  function TitleTopics(words: seq<string>): seq<string>
    decreases |words|
  {
    if words == [] then []
    else
      var w := words[|words| - 1];
      TitleTopics(words[..|words| - 1]) + (if Utf8Len(w) > ShortWordBytes then [Lower(w)] else [])
  }

  /** The counting loop over title words extends `TitleTopics` one word at a time. */
  lemma TitleTopicsStep(words: seq<string>, k: nat)
    requires k < |words|
    ensures Utf8Len(words[k]) > ShortWordBytes ==>
      multiset(TitleTopics(words[..k + 1])) == multiset(TitleTopics(words[..k])) + multiset{Lower(words[k])}
    ensures Utf8Len(words[k]) <= ShortWordBytes ==> TitleTopics(words[..k + 1]) == TitleTopics(words[..k])
  {
    assert words[..k + 1][..k] == words[..k];
  }

  /** A topic comes from a title exactly when it is the lowercase form of a long word of it. */
  lemma {:induction false} TitleTopicsMembers(words: seq<string>, t: string)
    ensures t in TitleTopics(words) <==> exists w :: w in words && Utf8Len(w) > ShortWordBytes && Lower(w) == t
    ensures t in TitleTopics(words) ==> Utf8Len(t) > ShortWordBytes
    decreases |words|
  {
    if words != [] {
      LowerKeepsUtf8Len(words[|words| - 1]);
      var init := words[..|words| - 1];
      TitleTopicsMembers(init, t);
      assert words == init + [words[|words| - 1]];
      if exists w :: w in words && Utf8Len(w) > ShortWordBytes && Lower(w) == t {
        var w :| w in words && Utf8Len(w) > ShortWordBytes && Lower(w) == t;
        if w != words[|words| - 1] {
          assert w in init;
        }
      }
    }
  }

  /** The topics one article contributes: its tags as they are, then its long title words. */
  function Mentions(a: TechArticle): seq<string> {
    a.tags + TitleTopics(Words(a.title))
  }

  /** The topics all articles contribute, article by article. */
  function AllMentions(articles: seq<TechArticle>): seq<string>
    decreases |articles|
  {
    if articles == [] then [] else AllMentions(articles[..|articles| - 1]) + Mentions(articles[|articles| - 1])
  }

  /** A topic is mentioned exactly when some article has it as a tag or as a long title word. */
  lemma {:induction false} AllMentionsMembers(articles: seq<TechArticle>, t: string)
    ensures t in AllMentions(articles) <==> exists a :: a in articles && t in Mentions(a)
    decreases |articles|
  {
    if articles != [] {
      var init := articles[..|articles| - 1];
      AllMentionsMembers(init, t);
      assert articles == init + [articles[|articles| - 1]];
      if exists a :: a in articles && t in Mentions(a) {
        var a :| a in articles && t in Mentions(a);
        if a != articles[|articles| - 1] {
          assert a in init;
        }
      }
    }
  }

  /** Each topic with the number of its occurrences in `m`. */
  function TallyOf(m: multiset<string>): (counts: map<string, nat>)
    ensures forall t :: t in counts <==> t in m
  {
    map t | t in m :: m[t]
  }

  /** The count map the counting loop builds. */
  function Tally(articles: seq<TechArticle>): map<string, nat> {
    TallyOf(multiset(AllMentions(articles)))
  }

  /** `counts` holds, for each topic of `m`, its number of occurrences, and nothing else. */
  ghost predicate Counts(counts: map<string, nat>, m: multiset<string>) {
    forall t :: (t in counts <==> t in m) && (t in counts ==> counts[t] == m[t])
  }

  /** The count map of `m` is the only one that counts `m`. */
  lemma CountsTally(counts: map<string, nat>, m: multiset<string>)
    requires Counts(counts, m)
    ensures counts == TallyOf(m)
  {
  }

  /** The counting step: one more occurrence of `x`. */
  lemma CountStep(counts: map<string, nat>, m: multiset<string>, x: string)
    requires Counts(counts, m)
    ensures Counts(counts[x := (if x in counts then counts[x] else 0) + 1], m + multiset{x})
  {
  }

  /** The occurrences in a prefix one longer. */
  lemma PrefixStep(s: seq<string>, j: nat)
    requires j < |s|
    ensures multiset(s[..j + 1]) == multiset(s[..j]) + multiset{s[j]}
  {
    assert s[..j + 1] == s[..j] + [s[j]];
  }

  /** Counting is additive: an appended article adds, for every topic, once per occurrence in its
    * tags and once per occurrence among its long title words. */
  lemma TallyAppend(articles: seq<TechArticle>, a: TechArticle, t: string)
    ensures multiset(AllMentions(articles + [a]))[t] ==
      multiset(AllMentions(articles))[t] + multiset(a.tags)[t] + multiset(TitleTopics(Words(a.title)))[t]
  {
    assert (articles + [a])[..|articles + [a]| - 1] == articles;
  }

  /** A word of at most three bytes is counted only when some article carries it as a tag. */
  lemma ShortTopicsAreTags(articles: seq<TechArticle>, t: string)
    requires Utf8Len(t) <= ShortWordBytes && t in Tally(articles)
    ensures exists a :: a in articles && t in a.tags
  {
    AllMentionsMembers(articles, t);
    var a :| a in articles && t in Mentions(a);
    TitleTopicsMembers(Words(a.title), t);
  }

  /** Every long title word is counted, lowercased. */
  lemma LongTitleWordsCounted(articles: seq<TechArticle>, a: TechArticle, w: string)
    requires a in articles && w in Words(a.title) && Utf8Len(w) > ShortWordBytes
    ensures Lower(w) in Tally(articles)
  {
    TitleTopicsMembers(Words(a.title), Lower(w));
    AllMentionsMembers(articles, Lower(w));
  }

  // ---------------------------------------------------------------- ranking

  /** Sorting key: the higher the count, the earlier. */
  function Popularity(p: (string, nat)): int {
    0 - p.1 as int
  }

  /** The (topic, count) pairs in iteration order. */
  function Pairs(order: seq<string>, counts: map<string, nat>): (ps: seq<(string, nat)>)
    requires forall k :: k in order ==> k in counts
    ensures |ps| == |order|
    ensures forall i :: 0 <= i < |ps| ==> ps[i] == (order[i], counts[order[i]])
  {
    seq(|order|, i requires 0 <= i < |order| => (order[i], counts[order[i]]))
  }

  lemma PairsAppend(order: seq<string>, counts: map<string, nat>)
    requires order != [] && forall k :: k in order ==> k in counts
    ensures forall k :: k in order[..|order| - 1] ==> k in counts
    ensures Pairs(order, counts) == Pairs(order[..|order| - 1], counts) + [(order[|order| - 1], counts[order[|order| - 1]])]
  {
  }

  /** The pairs after the stable sort by decreasing count. */
  function Ranking(order: seq<string>, counts: map<string, nat>): (r: seq<(string, nat)>)
    requires forall k :: k in order ==> k in counts
    ensures SortedBy(r, Popularity)
    ensures multiset(r) == multiset(Pairs(order, counts))
    decreases |order|
  {
    if order == [] then []
    else
      var init := order[..|order| - 1];
      var rest := Ranking(init, counts);
      var p := (order[|order| - 1], counts[order[|order| - 1]]);
      InsertStableSorted(rest, p, Popularity);
      PairsAppend(order, counts);
      InsertStable(rest, p, Popularity)
  }

  /** The sort loop inserts the next pair into the ranking of those before it. */
  lemma RankingStep(order: seq<string>, counts: map<string, nat>, i: nat)
    requires i < |order| && forall k :: k in order ==> k in counts
    ensures forall k :: k in order[..i] ==> k in counts
    ensures Ranking(order[..i + 1], counts) ==
      InsertStable(Ranking(order[..i], counts), (order[i], counts[order[i]]), Popularity)
  {
    assert order[..i + 1][..i] == order[..i];
  }

  /** The topics of the first ten ranked pairs. */
  function TopTopics(ranked: seq<(string, nat)>): (topics: seq<string>)
    ensures |topics| == if |ranked| < TopicLimit then |ranked| else TopicLimit
    ensures forall i :: 0 <= i < |topics| ==> topics[i] == ranked[i].0
  {
    var n := if |ranked| < TopicLimit then |ranked| else TopicLimit;
    seq(n, i requires 0 <= i < n => ranked[i].0)
  }

  /** An element that occurs at two positions occurs at least twice. */
  lemma TwiceCounted<T>(s: seq<T>, i: nat, j: nat)
    requires i < j < |s| && s[i] == s[j]
    ensures multiset(s)[s[i]] >= 2
  {
    assert s == s[..i] + [s[i]] + s[i + 1..j] + [s[j]] + s[j + 1..];
  }

  /** A permutation of the pairs has distinct topics, since the visiting order has. */
  lemma PermutedPairsDistinct(r: seq<(string, nat)>, order: seq<string>, counts: map<string, nat>)
    requires VisitOrder(order, counts) && multiset(r) == multiset(Pairs(order, counts))
    requires forall i :: 0 <= i < |r| ==> r[i].0 in counts && r[i].1 == counts[r[i].0]
    ensures forall i, j :: 0 <= i < j < |r| ==> r[i].0 != r[j].0
  {
    var ps := Pairs(order, counts);
    forall i, j | 0 <= i < j < |ps| ensures ps[i] != ps[j] {
    }
    forall i, j | 0 <= i < j < |r| ensures r[i].0 != r[j].0 {
      if r[i].0 == r[j].0 {
        assert r[i] == r[j];
        TwiceCounted(r, i, j);
        DistinctCount(ps, r[i]);
      }
    }
  }

  /** A sorted permutation of the pairs carries each counted topic once, with its count. */
  lemma PermutedPairs(r: seq<(string, nat)>, order: seq<string>, counts: map<string, nat>)
    requires VisitOrder(order, counts) && multiset(r) == multiset(Pairs(order, counts))
    requires SortedBy(r, Popularity)
    ensures RankedCounts(r, counts)
  {
    var ps := Pairs(order, counts);
    VisitOrderLength(order, counts);
    assert |r| == |ps| by {
      assert |multiset(r)| == |multiset(ps)|;
    }
    forall i | 0 <= i < |r| ensures r[i].0 in counts && r[i].1 == counts[r[i].0] {
      assert r[i] in multiset(ps);
    }
    PermutedPairsDistinct(r, order, counts);
    forall t | t in counts ensures exists i :: 0 <= i < |r| && r[i].0 == t {
      var k :| 0 <= k < |order| && order[k] == t;
      assert ps[k] in multiset(r);
      var i :| 0 <= i < |r| && r[i] == ps[k];
    }
  }

  /** The ranked pairs carry each counted topic once, with its count. */
  lemma RankingPairs(order: seq<string>, counts: map<string, nat>)
    requires VisitOrder(order, counts)
    ensures RankedCounts(Ranking(order, counts), counts)
  {
    PermutedPairs(Ranking(order, counts), order, counts);
  }

  /** A ranking as `RankingPairs` describes it: each topic once, with its count, most frequent
    * first. */
  predicate RankedCounts(r: seq<(string, nat)>, counts: map<string, nat>) {
    && SortedBy(r, Popularity)
    && |r| == |counts|
    && (forall i :: 0 <= i < |r| ==> r[i].0 in counts && r[i].1 == counts[r[i].0])
    && (forall i, j :: 0 <= i < j < |r| ==> r[i].0 != r[j].0)
    && (forall t :: t in counts ==> exists i :: 0 <= i < |r| && r[i].0 == t)
  }

  /** The first ten of such a ranking are the most frequent topics. */
  lemma TopOfRanked(r: seq<(string, nat)>, counts: map<string, nat>)
    requires RankedCounts(r, counts)
    ensures |TopTopics(r)| == (if |counts| < TopicLimit then |counts| else TopicLimit)
    ensures forall i :: 0 <= i < |TopTopics(r)| ==> TopTopics(r)[i] in counts
    ensures forall i, j :: 0 <= i < j < |TopTopics(r)| ==> TopTopics(r)[i] != TopTopics(r)[j]
    ensures forall i, j :: 0 <= i < j < |TopTopics(r)| ==> counts[TopTopics(r)[i]] >= counts[TopTopics(r)[j]]
    ensures forall t, i :: t in counts && t !in TopTopics(r) && 0 <= i < |TopTopics(r)| ==>
      counts[t] <= counts[TopTopics(r)[i]]
  {
    var topics := TopTopics(r);
    forall t, i | t in counts && t !in topics && 0 <= i < |topics| ensures counts[t] <= counts[topics[i]] {
      var p :| 0 <= p < |r| && r[p].0 == t;
      assert p >= |topics|;
      assert Popularity(r[i]) <= Popularity(r[p]);
    }
    forall i, j | 0 <= i < j < |topics| ensures counts[topics[i]] >= counts[topics[j]] {
      assert Popularity(r[i]) <= Popularity(r[j]);
    }
  }

  // ---------------------------------------------------------------- the loops

  /** One pass of the counting loop: the article's tags, then its long title words, lowercased. */
  method CountArticle(counts: map<string, nat>, article: TechArticle, ghost seen: multiset<string>)
    returns (updated: map<string, nat>)
    requires Counts(counts, seen)
    ensures Counts(updated, seen + multiset(Mentions(article)))
  {
    updated := counts;
    var j := 0;
    while j < |article.tags|
      invariant 0 <= j <= |article.tags|
      invariant Counts(updated, seen + multiset(article.tags[..j]))
    {
      var tag := article.tags[j];
      CountStep(updated, seen + multiset(article.tags[..j]), tag);
      PrefixStep(article.tags, j);
      updated := updated[tag := (if tag in updated then updated[tag] else 0) + 1];
      j := j + 1;
    }
    assert article.tags[..j] == article.tags;
    updated := CountTitleWords(updated, Words(article.title), seen + multiset(article.tags));
  }

  /** One title word of the counting loop: a long word bumps the count of its lowercase form. */
  function CountWord(counts: map<string, nat>, word: string): map<string, nat> {
    if Utf8Len(word) > ShortWordBytes then
      var topic := Lower(word);
      counts[topic := (if topic in counts then counts[topic] else 0) + 1]
    else counts
  }

  /** Counting the next title word counts the next title topic, if the word makes one. */
  lemma CountWordStep(counts: map<string, nat>, seen: multiset<string>, words: seq<string>, k: nat)
    requires k < |words| && Counts(counts, seen + multiset(TitleTopics(words[..k])))
    ensures Counts(CountWord(counts, words[k]), seen + multiset(TitleTopics(words[..k + 1])))
  {
    TitleTopicsStep(words, k);
    var before := multiset(TitleTopics(words[..k]));
    if Utf8Len(words[k]) > ShortWordBytes {
      CountStep(counts, seen + before, Lower(words[k]));
      assert seen + multiset(TitleTopics(words[..k + 1])) == seen + before + multiset{Lower(words[k])};
    }
  }

  /** The title half of a counting pass: each word longer than three bytes, lowercased. */
  method CountTitleWords(counts: map<string, nat>, words: seq<string>, ghost seen: multiset<string>)
    returns (updated: map<string, nat>)
    requires Counts(counts, seen)
    ensures Counts(updated, seen + multiset(TitleTopics(words)))
  {
    updated := counts;
    var k := 0;
    while k < |words|
      invariant 0 <= k <= |words|
      invariant Counts(updated, seen + multiset(TitleTopics(words[..k])))
    {
      var word := words[k];
      CountWordStep(updated, seen, words, k);
      if Utf8Len(word) > ShortWordBytes {
        var topic := Lower(word);
        updated := updated[topic := (if topic in updated then updated[topic] else 0) + 1];
      }
      k := k + 1;
    }
    assert words[..k] == words;
  }

  /** The counting loops, article by article. */
  method CountTopics(articles: seq<TechArticle>) returns (counts: map<string, nat>)
    ensures Counts(counts, multiset(AllMentions(articles)))
    ensures counts == Tally(articles)
  {
    counts := map[];
    var i := 0;
    while i < |articles|
      invariant 0 <= i <= |articles|
      invariant Counts(counts, multiset(AllMentions(articles[..i])))
    {
      counts := CountArticle(counts, articles[i], multiset(AllMentions(articles[..i])));
      assert articles[..i + 1][..i] == articles[..i];
      i := i + 1;
    }
    assert articles[..i] == articles;
    CountsTally(counts, multiset(AllMentions(articles)));
  }

  /** The stable sort by decreasing count of the pairs the map yields. */
  method RankTopics(counts: map<string, nat>, order: seq<string>) returns (ranked: seq<(string, nat)>)
    requires VisitOrder(order, counts)
    ensures ranked == Ranking(order, counts)
  {
    ranked := [];
    var i := 0;
    while i < |order|
      invariant 0 <= i <= |order|
      invariant ranked == Ranking(order[..i], counts)
    {
      RankingStep(order, counts, i);
      ranked := InsertStable(ranked, (order[i], counts[order[i]]), Popularity);
      i := i + 1;
    }
    assert order[..i] == order;
  }

  /** `get_trending_topics`: the ten most frequent topics of `articles`, most frequent first, ties
    * in the order the count map yields them. */
  method GetTrendingTopics(articles: seq<TechArticle>, order: seq<string>) returns (topics: seq<string>)
    requires VisitOrder(order, Tally(articles))
    ensures topics == TopTopics(Ranking(order, Tally(articles)))
    ensures |topics| <= TopicLimit
    ensures forall i :: 0 <= i < |topics| ==> topics[i] in Tally(articles)
    ensures forall i, j :: 0 <= i < j < |topics| ==> topics[i] != topics[j]
    ensures forall i, j :: 0 <= i < j < |topics| ==> Tally(articles)[topics[i]] >= Tally(articles)[topics[j]]
    ensures forall t, i :: t in Tally(articles) && t !in topics && 0 <= i < |topics| ==>
      Tally(articles)[t] <= Tally(articles)[topics[i]]
  {
    var counts := CountTopics(articles);
    var ranked := RankTopics(counts, order);
    topics := TopTopics(ranked);
    RankingPairs(order, counts);
    TopOfRanked(ranked, counts);
  }
}
