/** src/scrapers/master_duel_scraper.rs: Yu-Gi-Oh! Master Duel decks scraped from a tier list,
  * each deck page cached by its link, and the tier list itself rate-limited to one scrape a day.
  * The clock is the injected `now` (seconds), the visiting order of the deck cache is the injected
  * `order`, and what the network returns (a parsed deck page, a fresh tier list or an error) is
  * passed in. */
module MasterDuelScraper {
  import opened Wrappers
  import opened Strings
  import opened Collections

  datatype DeckTier = God | Tier1 | Tier2 | Tier3 | Rogue | Ojama

  datatype DeckInfo = DeckInfo(
    name: string,
    tier: DeckTier,
    archetype: string,
    playStyle: string,
    coreCards: seq<string>,
    techChoices: seq<string>,
    counters: seq<string>,
    difficulty: nat,
    lastUpdated: int,
    deckUrl: string)

  /** What the selectors pick out of a deck page: the title, the content block and the cells of
    * the card table. */
  datatype DeckPage = DeckPage(title: string, content: string, cells: seq<string>)

  type TierList = map<DeckTier, seq<DeckInfo>>

  const BaseUrl: string := "https://game8.co/games/Yu-Gi-Oh-Master-Duel/archives/355397"
  const SiteRoot: string := "https://game8.co"

  /** The tier list is scraped at most once every 24 hours. */
  const ScrapeInterval: int := 24 * 60 * 60

  // ---------------------------------------------------------------- parsing a deck page

  /** `determine_tier`: the first tier marker the content mentions, Ojama when there is none. */
  function DetermineTier(content: string): (t: DeckTier)
    ensures t == God <==> Contains(content, "God Tier")
    ensures t == Tier1 <==> !Contains(content, "God Tier") && Contains(content, "Tier 1")
    ensures t == Tier2 <==> !Contains(content, "God Tier") && !Contains(content, "Tier 1") && Contains(content, "Tier 2")
    ensures t == Tier3 <==>
      !Contains(content, "God Tier") && !Contains(content, "Tier 1") && !Contains(content, "Tier 2")
      && Contains(content, "Tier 3")
    ensures t == Ojama <==>
      !Contains(content, "God Tier") && !Contains(content, "Tier 1") && !Contains(content, "Tier 2")
      && !Contains(content, "Tier 3") && !Contains(content, "Rogue")
  {
    if Contains(content, "God Tier") then God
    else if Contains(content, "Tier 1") then Tier1
    else if Contains(content, "Tier 2") then Tier2
    else if Contains(content, "Tier 3") then Tier3
    else if Contains(content, "Rogue") then Rogue
    else Ojama
  }

  /** `determine_difficulty`: every deck is rated 5 on the 1 to 10 scale. */
  function DetermineDifficulty(content: string): (d: nat)
    ensures 1 <= d <= 10 && d == 5
  {
    5
  }

  /** The card cells, trimmed, without the blank ones. */
  function CoreCards(cells: seq<string>): (cards: seq<string>)
    ensures |cards| <= |cells|
    ensures forall k :: 0 <= k < |cards| ==>
      cards[k] != [] && !IsWhitespace(cards[k][0]) && !IsWhitespace(cards[k][|cards[k]| - 1])
  {
    if cells == [] then []
    else if Trim(cells[0]) == [] then CoreCards(cells[1..])
    else [Trim(cells[0])] + CoreCards(cells[1..])
  }

  /** A card is listed exactly when some cell trims to it. */
  lemma {:induction false} CoreCardsMembers(cells: seq<string>, c: string)
    ensures c in CoreCards(cells) <==> c != [] && exists k :: 0 <= k < |cells| && Trim(cells[k]) == c
  {
    if cells != [] {
      var rest := cells[1..];
      var head := Trim(cells[0]);
      CoreCardsMembers(rest, c);
      assert CoreCards(cells) == (if head == [] then [] else [head]) + CoreCards(rest);
      if exists k :: 0 <= k < |rest| && Trim(rest[k]) == c {
        var k :| 0 <= k < |rest| && Trim(rest[k]) == c;
        assert Trim(cells[k + 1]) == c;
      }
      if exists k :: 0 <= k < |cells| && Trim(cells[k]) == c {
        var k :| 0 <= k < |cells| && Trim(cells[k]) == c;
        assert k == 0 || Trim(rest[k - 1]) == c;
      }
    }
  }

  /** `parse_deck_page`: a deck named by the page title, rated by its content, stamped `now`. */
  function ParseDeckPage(page: DeckPage, url: string, now: int): (d: DeckInfo)
    ensures d.name == page.title && d.deckUrl == url && d.lastUpdated == now
    ensures d.tier == DetermineTier(page.content) && d.difficulty == 5
    ensures d.coreCards == CoreCards(page.cells) && d.techChoices == [] && d.counters == []
  {
    DeckInfo(page.title, DetermineTier(page.content), "Unknown Archetype", "Unknown Play Style",
             CoreCards(page.cells), [], [], DetermineDifficulty(page.content), now, url)
  }

  /** The address a deck link is fetched from: absolute links as they are, others under the site. */
  function FullUrl(url: string): (full: string)
    ensures StartsWith(url, "http") ==> full == url
    ensures !StartsWith(url, "http") ==> full == SiteRoot + url
  {
    if StartsWith(url, "http") then url else SiteRoot + url
  }

  /** Resolving a link twice is resolving it once. */
  lemma FullUrlIdempotent(url: string)
    ensures StartsWith(FullUrl(url), "http")
    ensures FullUrl(FullUrl(url)) == FullUrl(url)
  {
    if !StartsWith(url, "http") {
      assert (SiteRoot + url)[..4] == SiteRoot[..4] == "http";
    }
  }

  // ---------------------------------------------------------------- grouping by tier

  /** The cached decks in visiting order. */
  function DecksInOrder(order: seq<string>, cache: map<string, DeckInfo>): (decks: seq<DeckInfo>)
    requires forall k :: k in order ==> k in cache
    ensures |decks| == |order|
    ensures forall d :: d in decks <==> exists k :: k in order && cache[k] == d
    decreases |order|
  {
    if order == [] then []
    else
      var init := order[..|order| - 1];
      assert forall k :: k in init ==> k in order;
      var decks := DecksInOrder(init, cache) + [cache[order[|order| - 1]]];
      assert forall d :: d in decks <==> exists k :: k in order && cache[k] == d by {
        forall d ensures d in decks <==> exists k :: k in order && cache[k] == d {
          if exists k :: k in order && cache[k] == d {
            var k :| k in order && cache[k] == d;
            if k != order[|order| - 1] {
              assert k in init;
            }
          }
        }
      }
      decks
  }

  function TierIs(t: DeckTier): DeckInfo -> bool {
    (d: DeckInfo) => d.tier == t
  }

  /** The decks a tier list files under `t`. */
  function Group(g: TierList, t: DeckTier): seq<DeckInfo> {
    if t in g then g[t] else []
  }

  /** One step of the grouping loop: `d` goes at the end of its tier's list. */
  function File(g: TierList, d: DeckInfo): TierList {
    g[d.tier := Group(g, d.tier) + [d]]
  }

  /** The tier list the grouping loop builds from `decks`. */
  function Grouping(decks: seq<DeckInfo>): TierList
    decreases |decks|
  {
    if decks == [] then map[] else File(Grouping(decks[..|decks| - 1]), decks[|decks| - 1])
  }

  /** The grouping lists exactly the tiers that some deck has, each with the decks of that tier in
    * their original order. */
  lemma {:induction false} GroupingFilters(decks: seq<DeckInfo>, t: DeckTier)
    ensures t in Grouping(decks) <==> Filter(decks, TierIs(t)) != []
    ensures Group(Grouping(decks), t) == Filter(decks, TierIs(t))
    decreases |decks|
  {
    if decks != [] {
      GroupingFilters(decks[..|decks| - 1], t);
    }
  }

  /** Every deck is filed under its own tier, and only decks of that tier are filed there. */
  lemma GroupingMembers(decks: seq<DeckInfo>, t: DeckTier, d: DeckInfo)
    ensures d in Group(Grouping(decks), t) <==> d in decks && d.tier == t
    ensures d in decks ==> d.tier in Grouping(decks)
  {
    GroupingFilters(decks, t);
    GroupingFilters(decks, d.tier);
    FilterMembers(decks, TierIs(t), d);
    FilterMembers(decks, TierIs(d.tier), d);
  }

  /** The six tiers, best first. */
  const AllTiers: seq<DeckTier> := [God, Tier1, Tier2, Tier3, Rogue, Ojama]

  /** How many decks a tier list files under the tiers `ts`. */
  function SizeOver(g: TierList, ts: seq<DeckTier>): nat
    decreases |ts|
  {
    if ts == [] then 0 else |Group(g, ts[0])| + SizeOver(g, ts[1..])
  }

  /** How many decks a tier list holds over all six tiers. */
  function Total(g: TierList): nat {
    SizeOver(g, AllTiers)
  }

  /** Filing a deck adds one to the count of every listed tier that is the deck's. */
  lemma {:induction false} FileSizeOver(g: TierList, d: DeckInfo, ts: seq<DeckTier>)
    ensures SizeOver(File(g, d), ts) == SizeOver(g, ts) + multiset(ts)[d.tier]
    decreases |ts|
  {
    if ts != [] {
      FileSizeOver(g, d, ts[1..]);
      assert ts == [ts[0]] + ts[1..];
    }
  }

  /** Filing a deck adds one to the total. */
  lemma FileTotal(g: TierList, d: DeckInfo)
    ensures Total(File(g, d)) == Total(g) + 1
  {
    FileSizeOver(g, d, AllTiers);
    TierListedOnce(d.tier);
  }

  /** Every tier is listed once among the six. */
  lemma TierListedOnce(t: DeckTier)
    ensures multiset(AllTiers)[t] == 1
  {
    var i := match t
      case God => 0 case Tier1 => 1 case Tier2 => 2 case Tier3 => 3 case Rogue => 4 case Ojama => 5;
    assert AllTiers[i] == t;
    DistinctCount(AllTiers, t);
  }

  /** Grouping files every deck exactly once: the group sizes add up to the number of decks. */
  lemma {:induction false} GroupingTotal(decks: seq<DeckInfo>)
    ensures Total(Grouping(decks)) == |decks|
    decreases |decks|
  {
    if decks != [] {
      var g := Grouping(decks[..|decks| - 1]);
      GroupingTotal(decks[..|decks| - 1]);
      FileTotal(g, decks[|decks| - 1]);
    }
  }

  // ---------------------------------------------------------------- scraping the tier page

  /** What the selectors pick out of the tier-list page: the tiers whose heading the page has, and
    * the targets of every table link on the page, in document order. */
  datatype TierPage = TierPage(headings: set<DeckTier>, links: seq<string>)

  /** `scrape_tier` follows only the links that point into the site's archives. */
  predicate IsArchiveLink(href: string) {
    Contains(href, "/archives/")
  }

  /** The deck cache once every link of `links` has been scraped: a cached link keeps its deck, and
    * an uncached link whose page can be fetched is cached with that page parsed under its full
    * address. `fetch` is what the network answers for a link. */
  function Visited(cache: map<string, DeckInfo>, links: seq<string>, fetch: string -> Result<DeckPage>,
                   now: int): (c: map<string, DeckInfo>)
    ensures forall l :: l in c <==> l in cache || (l in links && fetch(l).Ok?)
    ensures forall l :: l in cache ==> c[l] == cache[l]
    ensures forall l :: l in c && l !in cache ==> c[l] == ParseDeckPage(fetch(l).value, FullUrl(l), now)
  {
    map l | l in cache.Keys + (set l | l in links && fetch(l).Ok?) ::
      if l in cache then cache[l] else ParseDeckPage(fetch(l).value, FullUrl(l), now)
  }

  /** The decks cached under the links, in link order; uncached links are skipped. */
  function CachedDecks(links: seq<string>, cache: map<string, DeckInfo>): (decks: seq<DeckInfo>)
    ensures |decks| <= |links|
    decreases |links|
  {
    if links == [] then []
    else CachedDecks(links[..|links| - 1], cache)
         + (if links[|links| - 1] in cache then [cache[links[|links| - 1]]] else [])
  }

  /** A deck is listed exactly when some link is cached with it. */
  lemma {:induction false} CachedDecksMembers(links: seq<string>, cache: map<string, DeckInfo>, d: DeckInfo)
    ensures d in CachedDecks(links, cache) <==> exists l :: l in links && l in cache && cache[l] == d
    decreases |links|
  {
    if links != [] {
      var init := links[..|links| - 1];
      var last := links[|links| - 1];
      CachedDecksMembers(init, cache, d);
      assert links == init + [last];
      if exists l :: l in links && l in cache && cache[l] == d {
        var l :| l in links && l in cache && cache[l] == d;
        if l != last {
          assert l in init;
        }
      }
    }
  }

  /** The listed decks depend only on what the cache holds for the listed links. */
  lemma {:induction false} CachedDecksAgree(links: seq<string>, c1: map<string, DeckInfo>, c2: map<string, DeckInfo>)
    requires forall l :: l in links ==> (l in c1 <==> l in c2) && (l in c1 ==> c1[l] == c2[l])
    ensures CachedDecks(links, c1) == CachedDecks(links, c2)
    decreases |links|
  {
    if links != [] {
      CachedDecksAgree(links[..|links| - 1], c1, c2);
    }
  }

  /** Scraping one more link: a cached link changes nothing, and an uncached one is cached exactly
    * when its page can be fetched. */
  lemma VisitedStep(cache: map<string, DeckInfo>, links: seq<string>, l: string,
                    fetch: string -> Result<DeckPage>, now: int)
    ensures var v := Visited(cache, links, fetch, now);
      Visited(cache, links + [l], fetch, now)
      == if l in v || fetch(l).Err? then v else v[l := ParseDeckPage(fetch(l).value, FullUrl(l), now)]
  {
    var v := Visited(cache, links, fetch, now);
    var w := Visited(cache, links + [l], fetch, now);
    var e := if l in v || fetch(l).Err? then v else v[l := ParseDeckPage(fetch(l).value, FullUrl(l), now)];
    forall k ensures k in w <==> k in e {
      assert k in links + [l] <==> k in links || k == l;
    }
    forall k | k in w ensures w[k] == e[k] {
      assert k in links + [l] <==> k in links || k == l;
    }
  }

  /** One link of `scrape_tier`: whatever `scrape_deck_page` answers for it, the cache becomes the
    * cache of the links so far plus this one, and the listed decks gain its deck when there is one. */
  lemma ScrapeLinkStep(c0: map<string, DeckInfo>, done: seq<string>, href: string,
                       fetch: string -> Result<DeckPage>, now: int,
                       before: map<string, DeckInfo>, after: map<string, DeckInfo>, page: Result<DeckInfo>)
    requires before == Visited(c0, done, fetch, now)
    requires href in before ==> page == Ok(before[href]) && after == before
    requires href !in before && fetch(href).Err? ==> page.Err? && after == before
    requires href !in before && fetch(href).Ok? ==>
      page == Ok(ParseDeckPage(fetch(href).value, FullUrl(href), now)) && after == before[href := page.value]
    ensures after == Visited(c0, done + [href], fetch, now)
    ensures CachedDecks(done + [href], after)
            == CachedDecks(done, before) + (if page.Ok? then [page.value] else [])
  {
    VisitedStep(c0, done, href, fetch, now);
    CachedDecksAgree(done, before, after);
    assert (done + [href])[..|done|] == done;
  }

  /** Scraping the same links again fetches nothing new: every link that could be cached is. */
  lemma VisitedTwice(cache: map<string, DeckInfo>, links: seq<string>, fetch: string -> Result<DeckPage>, now: int)
    ensures Visited(Visited(cache, links, fetch, now), links, fetch, now) == Visited(cache, links, fetch, now)
  {
    var v := Visited(cache, links, fetch, now);
    assert Visited(v, links, fetch, now).Keys == v.Keys;
  }

  /** Every tier is one of the six. */
  lemma AllTiersListed(t: DeckTier)
    ensures t in AllTiers
  {
    TierListedOnce(t);
  }

  // ---------------------------------------------------------------- the scraper

  class MasterDuelScraper {
    /** Deck pages by the link they were reached through. */
    var cache: map<string, DeckInfo>
    var lastScrape: int

    /** `new`: an empty cache, and the clock read as the time of the last scrape. */
    constructor (now: int)
      ensures cache == map[] && lastScrape == now
    {
      cache := map[];
      lastScrape := now;
    }

    /** `group_cached_decks_by_tier`: every cached deck is filed once, under its own tier, in the
      * order the cache is visited. */
    method GroupCachedDecksByTier(order: seq<string>) returns (grouped: TierList)
      requires VisitOrder(order, cache)
      ensures grouped == Grouping(DecksInOrder(order, cache))
      ensures forall k :: k in cache ==> cache[k].tier in grouped && cache[k] in grouped[cache[k].tier]
      ensures forall t, d :: t in grouped && d in grouped[t] ==> d.tier == t
      ensures Total(grouped) == |cache|
    {
      grouped := map[];
      var i := 0;
      while i < |order|
        invariant 0 <= i <= |order|
        invariant grouped == Grouping(DecksInOrder(order[..i], cache))
      {
        var deck := cache[order[i]];
        assert order[..i + 1][..i] == order[..i];
        var group := if deck.tier in grouped then grouped[deck.tier] else [];
        grouped := grouped[deck.tier := group + [deck]];
        i := i + 1;
      }
      assert order[..i] == order;
      var decks := DecksInOrder(order, cache);
      forall k | k in cache ensures cache[k].tier in grouped && cache[k] in grouped[cache[k].tier] {
        assert k in order;
        GroupingMembers(decks, cache[k].tier, cache[k]);
      }
      forall t, d | t in grouped && d in grouped[t] ensures d.tier == t {
        GroupingMembers(decks, t, d);
      }
      GroupingTotal(decks);
      VisitOrderLength(order, cache);
    }

    /** `scrape_tier_list`: within 24 hours of the last scrape the cached decks are served grouped
      * by tier, and nothing is fetched or changed. Otherwise a failure to fetch the tier page is
      * returned with nothing changed; a fetched page is scraped tier by tier, each tier whose heading
      * the page has getting the decks of every archive link on the page (the link selector is not
      * confined to the tier's section), every deck page fetched on the way is cached, and the scrape
      * is stamped `now`. */
    method ScrapeTierList(now: int, order: seq<string>, fetched: Result<TierPage>,
                          fetch: string -> Result<DeckPage>) returns (r: Result<TierList>)
      requires VisitOrder(order, cache)
      modifies this
      ensures now - old(lastScrape) < ScrapeInterval ==>
        r == Ok(Grouping(DecksInOrder(order, old(cache)))) && cache == old(cache)
        && lastScrape == old(lastScrape)
      ensures now - old(lastScrape) >= ScrapeInterval && fetched.Err? ==>
        r == Err(fetched.msg) && cache == old(cache) && lastScrape == old(lastScrape)
      ensures now - old(lastScrape) >= ScrapeInterval && fetched.Ok? ==>
        var archive := Filter(fetched.value.links, IsArchiveLink);
        && cache == (if fetched.value.headings == {} then old(cache) else Visited(old(cache), archive, fetch, now))
        && r == Ok(map t | t in fetched.value.headings :: CachedDecks(archive, cache))
        && lastScrape == now
    {
      if now - lastScrape < ScrapeInterval {
        var grouped := GroupCachedDecksByTier(order);
        return Ok(grouped);
      }
      if fetched.Err? {
        return Err(fetched.msg);
      }
      var page := fetched.value;
      var archive := Filter(page.links, IsArchiveLink);
      var tierList: TierList := map[];
      ghost var scraped := false;
      var i := 0;
      while i < |AllTiers|
        invariant 0 <= i <= |AllTiers|
        invariant lastScrape == old(lastScrape)
        invariant scraped <==> exists j :: 0 <= j < i && AllTiers[j] in page.headings
        invariant cache == if scraped then Visited(old(cache), archive, fetch, now) else old(cache)
        invariant forall t :: t in tierList <==> t in page.headings && t in AllTiers[..i]
        invariant forall t :: t in tierList ==> tierList[t] == CachedDecks(archive, cache)
      {
        var tier := AllTiers[i];
        assert AllTiers[..i + 1] == AllTiers[..i] + [tier];
        if tier in page.headings {
          var decks := ScrapeTier(page.links, now, fetch);
          if scraped {
            VisitedTwice(old(cache), archive, fetch, now);
          }
          tierList := tierList[tier := decks];
          scraped := true;
        }
        i := i + 1;
      }
      forall t: DeckTier ensures t in AllTiers[..i] {
        AllTiersListed(t);
      }
      assert scraped <==> page.headings != {} by {
        if page.headings != {} {
          var t :| t in page.headings;
          AllTiersListed(t);
          var j :| 0 <= j < |AllTiers| && AllTiers[j] == t;
        }
      }
      assert tierList == map t | t in page.headings :: CachedDecks(archive, cache);
      lastScrape := now;
      r := Ok(tierList);
    }

    /** `scrape_tier` for a tier whose heading the page has: the page's links are followed in
      * document order, the archive links only, each through `scrape_deck_page`; a deck found in the
      * cache or fetched is listed, and a link whose page cannot be fetched is skipped. */
    method ScrapeTier(links: seq<string>, now: int, fetch: string -> Result<DeckPage>) returns (decks: seq<DeckInfo>)
      modifies this`cache
      ensures cache == Visited(old(cache), Filter(links, IsArchiveLink), fetch, now)
      ensures decks == CachedDecks(Filter(links, IsArchiveLink), cache)
    {
      decks := [];
      var i := 0;
      while i < |links|
        invariant 0 <= i <= |links|
        invariant cache == Visited(old(cache), Filter(links[..i], IsArchiveLink), fetch, now)
        invariant decks == CachedDecks(Filter(links[..i], IsArchiveLink), cache)
      {
        var href := links[i];
        var done := Filter(links[..i], IsArchiveLink);
        FilterPrefixStep(links, i, IsArchiveLink);
        if IsArchiveLink(href) {
          assert Filter(links[..i + 1], IsArchiveLink) == done + [href];
          ghost var before := cache;
          var page := ScrapeDeckPage(href, now, fetch(href));
          ScrapeLinkStep(old(cache), done, href, fetch, now, before, cache, page);
          if page.Ok? {
            decks := decks + [page.value];
          }
        } else {
          assert Filter(links[..i + 1], IsArchiveLink) == done;
        }
        i := i + 1;
      }
      assert links[..i] == links;
    }

    /** `scrape_deck_page`: a cached link is answered from the cache without fetching; otherwise
      * the fetched page is parsed under its full address and cached under the link as given. */
    method ScrapeDeckPage(url: string, now: int, page: Result<DeckPage>) returns (r: Result<DeckInfo>)
      modifies this`cache
      ensures lastScrape == old(lastScrape)
      ensures url in old(cache) ==> r == Ok(old(cache)[url]) && cache == old(cache)
      ensures url !in old(cache) && page.Err? ==> r == Err(page.msg) && cache == old(cache)
      ensures url !in old(cache) && page.Ok? ==>
        r == Ok(ParseDeckPage(page.value, FullUrl(url), now)) && cache == old(cache)[url := r.value]
    {
      if url in cache {
        return Ok(cache[url]);
      }
      var fullUrl := FullUrl(url);
      if page.Err? {
        return Err(page.msg);
      }
      var deck := ParseDeckPage(page.value, fullUrl, now);
      cache := cache[url := deck];
      r := Ok(deck);
    }
  }

  /** A scraper asked for the tier list within a day of its construction serves its empty cache. */
  method FirstCallServesCache(now: int, later: int, fetched: Result<TierPage>, fetch: string -> Result<DeckPage>)
    returns (r: Result<TierList>)
    requires now <= later < now + ScrapeInterval
    ensures r == Ok(map[])
  {
    var s := new MasterDuelScraper(now);
    r := s.ScrapeTierList(later, [], fetched, fetch);
    assert DecksInOrder([], s.cache) == [];
  }

  /** A deck page fetched once is answered from the cache afterwards, whatever the network says. */
  method SecondVisitCached(url: string, now: int, page: DeckPage, later: int, failure: string)
    returns (first: Result<DeckInfo>, second: Result<DeckInfo>)
    ensures first.Ok? && first == second
    ensures first.value.deckUrl == FullUrl(url)
  {
    var s := new MasterDuelScraper(now);
    first := s.ScrapeDeckPage(url, now, Ok(page));
    second := s.ScrapeDeckPage(url, later, Err(failure));
  }

  /** Scraping a page whose only link is an archive link that can be fetched, into an empty cache,
    * caches and lists just that link's deck. */
  lemma OneLinkScraped(link: string, fetch: string -> Result<DeckPage>, now: int)
    requires IsArchiveLink(link) && fetch(link).Ok?
    ensures var c := Visited(map[], Filter([link], IsArchiveLink), fetch, now);
      && c == map[link := ParseDeckPage(fetch(link).value, FullUrl(link), now)]
      && CachedDecks(Filter([link], IsArchiveLink), c) == [c[link]]
  {
    var links: seq<string> := [link];
    assert links[..0] == [];
    assert Filter(links, IsArchiveLink) == links;
    var c := Visited(map[], links, fetch, now);
    assert c.Keys == {link};
  }

  /** A day after construction the tier page is scraped: a page with the God Tier heading and one
    * relative archive link lists that link's deck under God, and the deck is now cached under the
    * link. */
  method FreshScrapeCachesDeck(now: int, link: string, page: DeckPage)
    returns (r: Result<TierList>, cached: map<string, DeckInfo>)
    requires IsArchiveLink(link) && !StartsWith(link, "http")
    ensures r == Ok(map[God := [ParseDeckPage(page, SiteRoot + link, now + ScrapeInterval)]])
    ensures cached == map[link := ParseDeckPage(page, SiteRoot + link, now + ScrapeInterval)]
  {
    var s := new MasterDuelScraper(now);
    var fetch := (l: string) => Ok(page);
    OneLinkScraped(link, fetch, now + ScrapeInterval);
    r := s.ScrapeTierList(now + ScrapeInterval, [], Ok(TierPage({God}, [link])), fetch);
    cached := s.cache;
    var deck := ParseDeckPage(page, SiteRoot + link, now + ScrapeInterval);
    assert cached[link] == deck;
    var expected: TierList := map[God := [deck]];
    assert r.Ok? && r.value.Keys == expected.Keys;
    assert r.value[God] == expected[God];
    assert r.value == expected;
  }
}
