/** src/knowledge/base.rs: four topic maps answered in a fixed order of precedence, with a
  * response cache that counts its hits. */
module KnowledgeBase {
  import opened Wrappers
  import opened Strings
  import opened Collections

  datatype TokusatsuInfo = TokusatsuInfo(title: string, description: string, year: nat,
                                         notableCharacters: seq<string>, funFacts: seq<string>,
                                         relatedSeries: seq<string>)

  datatype SeasonalAnime = SeasonalAnime(season: string, year: nat, popularityRank: nat, currentlyAiring: bool)

  datatype AnimeInfo = AnimeInfo(title: string, genre: seq<string>, synopsis: string,
                                 recommendations: seq<string>, funFacts: seq<string>,
                                 seasonalInfo: Option<SeasonalAnime>)

  datatype SecurityInfo = SecurityInfo(topic: string, description: string, difficulty: string,
                                       realWorldExamples: seq<string>, bestPractices: seq<string>,
                                       tools: seq<string>, resources: seq<string>)

  /** A patch note; its date is the injected clock. */
  datatype PatchNote = PatchNote(version: string, date: nat, changes: seq<string>)

  datatype GamingInfo = GamingInfo(game: string, genre: seq<string>, tips: seq<string>,
                                   metaStrategies: seq<string>, patchNotes: seq<PatchNote>)

  /** A cached answer; `timestamp` is the injected clock. */
  datatype CachedResponse = CachedResponse(content: string, timestamp: nat, accessCount: nat)

  const KamenRider: TokusatsuInfo := TokusatsuInfo("Kamen Rider",
    "A Japanese tokusatsu series created by Shotaro Ishinomori in 1971", 1971,
    ["Takeshi Hongo", "Hayato Ichimonji"],
    ["The first suit weighed over 25kg!",
     "The iconic Rider Kick was created because the suit was too stiff for complex fight scenes"],
    ["Kamen Rider V3", "Kamen Rider Black", "Kamen Rider Kuuga"])

  const SuperSentai: TokusatsuInfo := TokusatsuInfo("Super Sentai",
    "The original Japanese series that inspired Power Rangers", 1975,
    ["AkaRanger", "Big One"],
    ["Himitsu Sentai Gorenger was the first Super Sentai series",
     "The franchise has been running continuously for over 45 years!"],
    ["Power Rangers", "Metal Heroes"])

  /** `init_tokusatsu`. */
  function InitialTokusatsu(): map<string, TokusatsuInfo> {
    map["kamen_rider" := KamenRider, "super_sentai" := SuperSentai]
  }

  const GhostInTheShell: AnimeInfo := AnimeInfo("Ghost in the Shell", ["Cyberpunk", "Sci-fi", "Action"],
    "In a cyberized future, Major Motoko Kusanagi leads Public Security Section 9...",
    ["Serial Experiments Lain", "Psycho-Pass", "Akira"],
    ["Influenced The Matrix creators", "Based on manga by Masamune Shirow"], None)

  const CurrentSeason: AnimeInfo := AnimeInfo("Current Season Highlights", ["Various"],
    "Current season's most popular shows", [], [], Some(SeasonalAnime("Winter", 2024, 1, true)))

  /** `init_anime`. */
  function InitialAnime(): map<string, AnimeInfo> {
    map["ghost_in_the_shell" := GhostInTheShell, "current_season" := CurrentSeason]
  }

  const PenetrationTesting: SecurityInfo := SecurityInfo("Penetration Testing",
    "Authorized simulated cyberattack to evaluate system security", "Intermediate to Advanced",
    ["HackerOne bug bounty programs", "Red Team assessments for Fortune 500 companies"],
    ["Always get written permission", "Document everything thoroughly", "Follow responsible disclosure"],
    ["Metasploit", "Burp Suite", "Nmap"],
    ["OWASP Testing Guide", "HackerOne CTF", "TryHackMe"])

  const SocialEngineering: SecurityInfo := SecurityInfo("Social Engineering",
    "Psychological manipulation for information gathering", "Beginner to Intermediate",
    ["Twitter crypto account takeovers", "Tech support scams"],
    ["Verify caller identity", "Use multi-factor authentication", "Train employees regularly"],
    ["SET (Social Engineering Toolkit)", "Maltego"],
    ["Social Engineering: The Science of Human Hacking", "SANS SEC567"])

  /** `init_cybersecurity`. */
  function InitialSecurity(): map<string, SecurityInfo> {
    map["penetration_testing" := PenetrationTesting, "social_engineering" := SocialEngineering]
  }

  /** `init_gaming`, with the patch note dated at construction time `now`. */
  function InitialGaming(now: nat): map<string, GamingInfo> {
    map["overwatch2" := GamingInfo("Overwatch 2", ["FPS", "Team-based"],
          ["Focus on positioning over aim", "Group up before engaging", "Counter-pick enemy composition"],
          ["Dive comp with Winston/D.Va", "Double shield with Orisa/Sigma"],
          [PatchNote("2.0.1", now, ["Hero balance updates"])])]
  }

  function TokusatsuAnswer(t: TokusatsuInfo): string
    requires |t.funFacts| > 0
  {
    t.title + ": " + t.description + ". Fun fact: " + t.funFacts[0]
  }

  function AnimeAnswer(a: AnimeInfo): string {
    a.title + ": " + a.synopsis + ". If you like this, check out: " + Join(a.recommendations, ", ")
  }

  function SecurityAnswer(s: SecurityInfo): string {
    s.topic + ": " + s.description + "\nBest practices:\n- " + Join(s.bestPractices, "\n- ")
  }

  function GamingAnswer(g: GamingInfo): string {
    g.game + " Tips:\n- " + Join(g.tips, "\n- ")
  }

  class KnowledgeBase {
    var tokusatsu: map<string, TokusatsuInfo>
    var anime: map<string, AnimeInfo>
    var cybersecurity: map<string, SecurityInfo>
    var gaming: map<string, GamingInfo>
    var responseCache: map<string, CachedResponse>

    /** `new` at the injected time `now`: the built-in entries and an empty cache. */
    constructor (now: nat)
      ensures tokusatsu == InitialTokusatsu() && anime == InitialAnime()
      ensures cybersecurity == InitialSecurity() && gaming == InitialGaming(now) && responseCache == map[]
    {
      tokusatsu := InitialTokusatsu();
      anime := InitialAnime();
      cybersecurity := InitialSecurity();
      gaming := InitialGaming(now);
      responseCache := map[];
    }

    /** The tokusatsu answer needs a first fun fact. */
    predicate CanAnswer(query: string)
      reads this
    {
      query in tokusatsu ==> |tokusatsu[query].funFacts| > 0
    }

    /** `generate_response`: the first of tokusatsu, anime, cybersecurity and gaming that knows
      * the query answers it; None if none does. */
    function GenerateResponse(query: string): (r: Option<string>)
      reads this
      requires CanAnswer(query)
      ensures r.None? <==> query !in tokusatsu && query !in anime && query !in cybersecurity && query !in gaming
      ensures query in tokusatsu ==> r == Some(TokusatsuAnswer(tokusatsu[query]))
      ensures query !in tokusatsu && query in anime ==> r == Some(AnimeAnswer(anime[query]))
      ensures query !in tokusatsu && query !in anime && query in cybersecurity ==>
                r == Some(SecurityAnswer(cybersecurity[query]))
      ensures query !in tokusatsu && query !in anime && query !in cybersecurity && query in gaming ==>
                r == Some(GamingAnswer(gaming[query]))
    {
      if query in tokusatsu then Some(TokusatsuAnswer(tokusatsu[query]))
      else if query in anime then Some(AnimeAnswer(anime[query]))
      else if query in cybersecurity then Some(SecurityAnswer(cybersecurity[query]))
      else if query in gaming then Some(GamingAnswer(gaming[query]))
      else None
    }

    /** `get_response` at the injected time `now`: a cached answer is returned as it was stored,
      * with its hit count raised; otherwise a generated answer is cached with count 1; a query
      * nobody knows leaves the cache alone. */
    method GetResponse(query: string, now: nat) returns (r: Option<string>)
      requires query !in responseCache ==> CanAnswer(query)
      modifies this`responseCache
      ensures query in old(responseCache) ==>
                var c := old(responseCache)[query];
                r == Some(c.content) && responseCache == old(responseCache)[query := c.(accessCount := c.accessCount + 1)]
      ensures query !in old(responseCache) ==> r == GenerateResponse(query)
      ensures query !in old(responseCache) && r.None? ==> responseCache == old(responseCache)
      ensures query !in old(responseCache) && r.Some? ==>
                responseCache == old(responseCache)[query := CachedResponse(r.value, now, 1)]
    {
      if query in responseCache {
        var c := responseCache[query];
        responseCache := responseCache[query := c.(accessCount := c.accessCount + 1)];
        return Some(c.content);
      }
      var response := GenerateResponse(query);
      if response.None? {
        return None;
      }
      CacheResponse(query, response.value, now);
      r := response;
    }

    /** `cache_response`. */
    method CacheResponse(query: string, response: string, now: nat)
      modifies this`responseCache
      ensures responseCache == old(responseCache)[query := CachedResponse(response, now, 1)]
    {
      responseCache := responseCache[query := CachedResponse(response, now, 1)];
    }

    /** `get_random_fact` for "tokusatsu" or "cybersecurity": the map's values visited in the hash
      * map's `order`, the entry at the random index `pick`, then its fun fact or best practice at
      * the random index `item`. The random draw panics on an empty range, so the category's map
      * and the picked lists are non-empty. Any other category gives None. */
    function GetRandomFact(category: string, order: seq<string>, pick: nat, item: nat): (r: Option<string>)
      reads this
      requires category == "tokusatsu" ==>
        VisitOrder(order, tokusatsu) && |tokusatsu| > 0 && forall k :: k in tokusatsu ==> |tokusatsu[k].funFacts| > 0
      requires category == "cybersecurity" ==>
        VisitOrder(order, cybersecurity) && |cybersecurity| > 0
        && forall k :: k in cybersecurity ==> |cybersecurity[k].bestPractices| > 0
      ensures r.Some? <==> category == "tokusatsu" || category == "cybersecurity"
      ensures category == "tokusatsu" ==> exists k :: k in tokusatsu && r.value in tokusatsu[k].funFacts
      ensures category == "cybersecurity" ==>
        exists k :: k in cybersecurity && r.value in cybersecurity[k].bestPractices
    {
      if category == "tokusatsu" then
        VisitOrderLength(order, tokusatsu);
        var facts := tokusatsu[order[pick % |order|]].funFacts;
        Some(facts[item % |facts|])
      else if category == "cybersecurity" then
        VisitOrderLength(order, cybersecurity);
        var practices := cybersecurity[order[pick % |order|]].bestPractices;
        Some(practices[item % |practices|])
      else None
    }

    /** `update_seasonal_anime`: marks the current season as airing, if it has seasonal data. */
    method UpdateSeasonalAnime()
      modifies this`anime
      ensures "current_season" in old(anime) && old(anime)["current_season"].seasonalInfo.Some? ==>
                var a := old(anime)["current_season"];
                anime == old(anime)["current_season" := a.(seasonalInfo := Some(a.seasonalInfo.value.(currentlyAiring := true)))]
      ensures !("current_season" in old(anime) && old(anime)["current_season"].seasonalInfo.Some?) ==>
                anime == old(anime)
    {
      if "current_season" in anime {
        var a := anime["current_season"];
        if a.seasonalInfo.Some? {
          anime := anime["current_season" := a.(seasonalInfo := Some(a.seasonalInfo.value.(currentlyAiring := true)))];
        }
      }
    }

    /** `add_tokusatsu_info`: insert or overwrite; the cache is left as it is. */
    method AddTokusatsuInfo(key: string, info: TokusatsuInfo)
      modifies this`tokusatsu
      ensures tokusatsu == old(tokusatsu)[key := info]
    {
      tokusatsu := tokusatsu[key := info];
    }

    /** `add_anime_info`. */
    method AddAnimeInfo(category: string, info: AnimeInfo)
      modifies this`anime
      ensures anime == old(anime)[category := info]
    {
      anime := anime[category := info];
    }

    /** `add_security_info`. */
    method AddSecurityInfo(category: string, info: SecurityInfo)
      modifies this`cybersecurity
      ensures cybersecurity == old(cybersecurity)[category := info]
    {
      cybersecurity := cybersecurity[category := info];
    }
  }

  /** Asking twice serves the second answer from the cache with two hits; overwriting the entry
    * afterwards does not change the cached answer. */
  method CacheScenario(info: TokusatsuInfo, newer: TokusatsuInfo, now: nat)
    returns (first: Option<string>, second: Option<string>, third: Option<string>, hits: nat)
    requires |info.funFacts| > 0 && |newer.funFacts| > 0
    ensures first == Some(TokusatsuAnswer(info)) && second == first && third == first
    ensures hits == 3
  {
    var kb := new KnowledgeBase(now);
    kb.AddTokusatsuInfo("kamen_rider", info);
    first := kb.GetResponse("kamen_rider", now);
    assert first == Some(TokusatsuAnswer(info));
    assert kb.responseCache == map["kamen_rider" := CachedResponse(TokusatsuAnswer(info), now, 1)];
    second := kb.GetResponse("kamen_rider", now + 1);
    kb.AddTokusatsuInfo("kamen_rider", newer);
    third := kb.GetResponse("kamen_rider", now + 2);
    hits := kb.responseCache["kamen_rider"].accessCount;
  }

  /** A key known to two maps is answered from the earlier one: a tokusatsu entry added under
    * an anime key wins over the anime entry. */
  method PrecedenceScenario(info: TokusatsuInfo, now: nat) returns (r: Option<string>)
    requires |info.funFacts| > 0
    ensures r == Some(TokusatsuAnswer(info))
  {
    var kb := new KnowledgeBase(now);
    kb.AddTokusatsuInfo("ghost_in_the_shell", info);
    r := kb.GetResponse("ghost_in_the_shell", now);
  }

  /** An entry with no fun facts, as the tokusatsu scraper stores for a page without trivia,
    * is accepted, and afterwards its key is no longer one the model can answer: the source's
    * `fun_facts[0]` would panic there. */
  method EmptyTriviaUnanswerable(info: TokusatsuInfo, now: nat) returns (answerable: bool)
    requires info.funFacts == []
    ensures !answerable
  {
    var kb := new KnowledgeBase(now);
    kb.AddTokusatsuInfo("GARO", info);
    answerable := kb.CanAnswer("GARO");
  }

  /** A query no map knows is not answered and not cached. */
  method UnknownQuery(now: nat) returns (r: Option<string>, cached: bool)
    ensures r == None && !cached
  {
    var kb := new KnowledgeBase(now);
    assert "zzz" !in InitialTokusatsu() && "zzz" !in InitialAnime();
    assert "zzz" !in InitialSecurity() && "zzz" !in InitialGaming(now);
    r := kb.GetResponse("zzz", now);
    cached := "zzz" in kb.responseCache;
  }
}
