/** src/knowledge/security_knowledge.rs: security lessons grouped by topic, searched by tag and
  * by difficulty, and updated by title. */
module SecurityKnowledge {
  import opened Wrappers
  import opened Strings
  import opened Collections

  datatype SecurityTopic = NetworkSecurity | WebSecurity | SystemSecurity | EthicalHacking | Malware
                         | Cryptography | IncidentResponse | ComplianceAndRegulations

  datatype Difficulty = Beginner | Intermediate | Advanced | Expert

  datatype KnowledgeEntry = KnowledgeEntry(title: string, description: string, keyPoints: seq<string>,
                                           examples: seq<string>, difficulty: Difficulty, tags: seq<string>)

  /** The lesson `new` files under network security. */
  const NetworkLesson: KnowledgeEntry :=
    KnowledgeEntry("Network Protocols and Security",
      "Understanding common network protocols and their security implications",
      ["TCP/IP fundamentals", "Common network attacks", "Network defense strategies"],
      ["TCP handshake process", "DDoS attack mitigation"], Intermediate, ["networking", "protocols"])

  /** The lesson `new` files under web security. */
  const WebLesson: KnowledgeEntry :=
    KnowledgeEntry("Common Web Vulnerabilities",
      "Understanding and preventing common web application vulnerabilities",
      ["SQL Injection", "Cross-Site Scripting (XSS)", "CSRF attacks"],
      ["Input validation techniques", "Secure cookie handling"], Intermediate, ["web", "vulnerabilities"])

  /** The lesson `new` files under system security. */
  const SystemLesson: KnowledgeEntry :=
    KnowledgeEntry("Operating System Security",
      "Fundamental concepts of OS security and hardening",
      ["Access control mechanisms", "File system security", "Process isolation"],
      ["Linux file permissions", "Windows security policies"], Intermediate, ["os", "hardening"])

  /** The three topics filled in by `new`. */
  function InitialTopics(): map<SecurityTopic, seq<KnowledgeEntry>> {
    map[NetworkSecurity := [NetworkLesson], WebSecurity := [WebLesson], SystemSecurity := [SystemLesson]]
  }

  /** `search_by_tag`'s test: some tag equals the query ignoring case. */
  predicate HasTag(e: KnowledgeEntry, tag: string) {
    exists k :: 0 <= k < |e.tags| && Lower(e.tags[k]) == Lower(tag)
  }

  /** The tag test as a filter. */
  function TagFilter(tag: string): KnowledgeEntry -> bool {
    (e: KnowledgeEntry) => HasTag(e, tag)
  }

  /** The title test that `update_entry` searches with. */
  function TitleIs(title: string): KnowledgeEntry -> bool {
    (e: KnowledgeEntry) => e.title == title
  }

  class SecurityKnowledge {
    var topics: map<SecurityTopic, seq<KnowledgeEntry>>
    var references: seq<string>
    /** The injected clock at construction. */
    var lastUpdated: nat

    /** `new` at the injected time `now`. */
    constructor (now: nat)
      ensures topics == InitialTopics() && references == [] && lastUpdated == now
    {
      topics := InitialTopics();
      references := [];
      lastUpdated := now;
    }

    /** `get_topic_info`. */
    function GetTopicInfo(topic: SecurityTopic): (r: Option<seq<KnowledgeEntry>>)
      reads this
      ensures r.Some? <==> topic in topics
      ensures r.Some? ==> r.value == topics[topic]
    {
      if topic in topics then Some(topics[topic]) else None
    }

    /** `add_knowledge_entry`: appended to the topic's list, which is created if missing. */
    method AddKnowledgeEntry(topic: SecurityTopic, entry: KnowledgeEntry)
      modifies this`topics
      ensures topic in old(topics) ==> topics == old(topics)[topic := old(topics)[topic] + [entry]]
      ensures topic !in old(topics) ==> topics == old(topics)[topic := [entry]]
    {
      if topic in topics {
        topics := topics[topic := topics[topic] + [entry]];
      } else {
        topics := topics[topic := [entry]];
      }
    }

    /** `search_by_tag`: exactly the entries with a tag equal to the query ignoring case. */
    method SearchByTag(tag: string, order: seq<SecurityTopic>) returns (results: seq<KnowledgeEntry>)
      requires VisitOrder(order, topics)
      ensures results == Select(order, topics, TagFilter(tag))
      ensures forall e :: e in results <==> HasTag(e, tag) && exists t :: t in topics && e in topics[t]
    {
      results := Collect(order, topics, TagFilter(tag));
    }

    /** `get_by_difficulty`: exactly the entries of that difficulty. */
    method GetByDifficulty(difficulty: Difficulty, order: seq<SecurityTopic>) returns (results: seq<KnowledgeEntry>)
      requires VisitOrder(order, topics)
      ensures results == Select(order, topics, (e: KnowledgeEntry) => e.difficulty == difficulty)
      ensures forall e :: e in results <==> e.difficulty == difficulty && exists t :: t in topics && e in topics[t]
    {
      results := Collect(order, topics, (e: KnowledgeEntry) => e.difficulty == difficulty);
    }

    /** `update_entry`: the first entry of the topic with that title is replaced and true is
      * returned; a missing topic or title changes nothing and gives false. */
    method UpdateEntry(topic: SecurityTopic, title: string, updated: KnowledgeEntry) returns (found: bool)
      modifies this`topics
      ensures found <==> topic in old(topics) && Position(old(topics)[topic], TitleIs(title)).Some?
      ensures !found ==> topics == old(topics)
      ensures found ==> var i := Position(old(topics)[topic], TitleIs(title)).value;
                        topics == old(topics)[topic := old(topics)[topic][i := updated]]
    {
      if topic in topics {
        var entries := topics[topic];
        var i := 0;
        while i < |entries|
          invariant 0 <= i <= |entries|
          invariant forall j :: 0 <= j < i ==> entries[j].title != title
        {
          if entries[i].title == title {
            topics := topics[topic := entries[i := updated]];
            return true;
          }
          i := i + 1;
        }
      }
      found := false;
    }
  }

  /** The network lesson carries the tag "networking", which matches "NETWORKING". */
  lemma NetworkLessonTagged()
    ensures HasTag(NetworkLesson, "NETWORKING")
  {
    assert Lower(NetworkLesson.tags[0]) == Lower("NETWORKING");
  }

  /** No tag of the web lesson has the length of "networking". */
  lemma WebLessonUntagged()
    ensures !HasTag(WebLesson, "NETWORKING")
  {
    var tags := WebLesson.tags;
    assert forall k :: 0 <= k < |tags| ==> |Lower(tags[k])| != |Lower("NETWORKING")|;
  }

  /** No tag of the system lesson has the length of "networking". */
  lemma SystemLessonUntagged()
    ensures !HasTag(SystemLesson, "NETWORKING")
  {
    var tags := SystemLesson.tags;
    assert forall k :: 0 <= k < |tags| ==> |Lower(tags[k])| != |Lower("NETWORKING")|;
  }

  /** Over three topics holding one lesson each, a filter that keeps only the first lesson finds
    * just that lesson. */
  lemma SelectFirstOfThree(topics: map<SecurityTopic, seq<KnowledgeEntry>>, net: KnowledgeEntry,
                           web: KnowledgeEntry, sys: KnowledgeEntry, p: KnowledgeEntry -> bool)
    requires topics == map[NetworkSecurity := [net], WebSecurity := [web], SystemSecurity := [sys]]
    requires p(net) && !p(web) && !p(sys)
    ensures Select([NetworkSecurity, WebSecurity, SystemSecurity], topics, p) == [net]
  {
    var order := [NetworkSecurity, WebSecurity, SystemSecurity];
    assert Filter([net], p) == [net] by { assert [net][..0] == []; }
    assert Filter([web], p) == [] by { assert [web][..0] == []; }
    assert Filter([sys], p) == [] by { assert [sys][..0] == []; }
    assert order[..1] == [NetworkSecurity] && order[..2] == [NetworkSecurity, WebSecurity];
    assert order[..2][..1] == [NetworkSecurity] && order[..1][..0] == [];
    assert Select(order[..1], topics, p) == [net];
    assert Select(order[..2], topics, p) == [net];
  }

  /** Searching "NETWORKING" over the initial topics finds the network lesson, and only it. */
  lemma NetworkingTagSearch()
    ensures Select([NetworkSecurity, WebSecurity, SystemSecurity], InitialTopics(), TagFilter("NETWORKING"))
            == InitialTopics()[NetworkSecurity]
  {
    NetworkLessonTagged();
    WebLessonUntagged();
    SystemLessonUntagged();
    SelectFirstOfThree(InitialTopics(), NetworkLesson, WebLesson, SystemLesson, TagFilter("NETWORKING"));
  }

  /** A fresh store's tag search for "NETWORKING" returns only the network lesson. */
  method TagSearchExample(now: nat) returns (results: seq<KnowledgeEntry>)
    ensures results == InitialTopics()[NetworkSecurity]
  {
    var k := new SecurityKnowledge(now);
    results := k.SearchByTag("NETWORKING", [NetworkSecurity, WebSecurity, SystemSecurity]);
    NetworkingTagSearch();
  }
}
