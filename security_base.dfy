/** src/security/knowledge_base.rs: security topics, known vulnerabilities and learning paths,
  * a read-only store after construction. */
module SecurityBase {
  import opened Wrappers

  datatype SecurityLevel = Beginner | Intermediate | Advanced | Expert

  datatype SecurityTopic = SecurityTopic(name: string, description: string, difficulty: SecurityLevel,
                                         prerequisites: seq<string>, resources: seq<string>,
                                         realWorldExamples: seq<string>)

  datatype VulnerabilityExample = VulnerabilityExample(cveId: Option<string>, name: string, description: string,
                                                       impact: string, mitigation: string, references: seq<string>)

  const NetworkBasics: SecurityTopic :=
    SecurityTopic("Network Security Fundamentals",
                  "Understanding basic network security concepts, protocols, and common threats",
                  Beginner, [],
                  ["https://www.cybrary.it/course/network-security-fundamentals",
                   "https://www.sans.org/security-awareness-training"],
                  ["Recent DDoS attacks on major gaming services",
                   "Man-in-the-middle attacks in public WiFi networks"])

  const WebSecurity: SecurityTopic :=
    SecurityTopic("Web Application Security",
                  "Understanding common web vulnerabilities, OWASP Top 10, and secure coding practices",
                  Intermediate, ["network_basics"],
                  ["https://owasp.org/www-project-top-ten", "https://portswigger.net/web-security"],
                  ["SQL injection attacks on major databases", "Cross-site scripting in social media platforms"])

  const Log4Shell: VulnerabilityExample :=
    VulnerabilityExample(Some("CVE-2021-44228"), "Log4Shell",
                         "Critical vulnerability in Log4j allowing remote code execution",
                         "Allows attackers to execute arbitrary code on affected systems",
                         "Update Log4j to version 2.15.0 or higher",
                         ["https://nvd.nist.gov/vuln/detail/CVE-2021-44228"])

  /** `init_topics`. */
  function InitialTopics(): map<string, SecurityTopic> {
    map["network_basics" := NetworkBasics, "web_security" := WebSecurity]
  }

  /** `init_learning_paths`: ordered topic ids, some of which have no topic yet. */
  function InitialPaths(): map<string, seq<string>> {
    map["pentester" := ["network_basics", "web_security", "exploitation"],
        "defender" := ["network_basics", "incident_response", "threat_hunting"]]
  }

  datatype SecurityKnowledgeBase = SecurityKnowledgeBase(topics: map<string, SecurityTopic>,
                                                         vulnerabilities: seq<VulnerabilityExample>,
                                                         learningPaths: map<string, seq<string>>)

  /** `new`. */
  function New(): SecurityKnowledgeBase {
    SecurityKnowledgeBase(InitialTopics(), [Log4Shell], InitialPaths())
  }

  /** `get_topic_info`: a plain lookup by id. */
  function GetTopicInfo(kb: SecurityKnowledgeBase, topic: string): (r: Option<SecurityTopic>)
    ensures r.Some? <==> topic in kb.topics
    ensures r.Some? ==> r.value == kb.topics[topic]
  {
    if topic in kb.topics then Some(kb.topics[topic]) else None
  }

  /** The `filter_map`: the topics of the ids that have one, in id order. */
  function TopicsOf(ids: seq<string>, topics: map<string, SecurityTopic>): (r: seq<SecurityTopic>)
    ensures |r| <= |ids|
    ensures |r| == |ids| <==> forall i :: 0 <= i < |ids| ==> ids[i] in topics
    ensures forall t :: t in r <==> exists i :: 0 <= i < |ids| && ids[i] in topics && topics[ids[i]] == t
    decreases |ids|
  {
    if ids == [] then []
    else
      var rest := TopicsOf(ids[1..], topics);
      assert forall i :: 1 <= i < |ids| ==> ids[i] == ids[1..][i - 1];
      if ids[0] in topics then [topics[ids[0]]] + rest else rest
  }

  /** Topics keep the order of their ids: the kept ids' topics, one after another. */
  lemma {:induction false} TopicsOfAppend(a: seq<string>, b: seq<string>, topics: map<string, SecurityTopic>)
    ensures TopicsOf(a + b, topics) == TopicsOf(a, topics) + TopicsOf(b, topics)
    decreases |a|
  {
    if a == [] {
      assert a + b == b;
    } else {
      assert (a + b)[0] == a[0] && (a + b)[1..] == a[1..] + b;
      TopicsOfAppend(a[1..], b, topics);
    }
  }

  /** `suggest_learning_path`: None for an unknown interest; otherwise the path's topics in
    * path order, ids without a topic skipped. */
  function SuggestLearningPath(kb: SecurityKnowledgeBase, interest: string): (r: Option<seq<SecurityTopic>>)
    ensures r.None? <==> interest !in kb.learningPaths
    ensures r.Some? ==> r.value == TopicsOf(kb.learningPaths[interest], kb.topics)
                        && |r.value| <= |kb.learningPaths[interest]|
  {
    if interest in kb.learningPaths then Some(TopicsOf(kb.learningPaths[interest], kb.topics)) else None
  }

  /** `get_recent_vulnerabilities(count)`: the first `min(count, len)` entries, in order. */
  function GetRecentVulnerabilities(kb: SecurityKnowledgeBase, count: nat): (r: seq<VulnerabilityExample>)
    ensures |r| == if count < |kb.vulnerabilities| then count else |kb.vulnerabilities|
    ensures forall i :: 0 <= i < |r| ==> r[i] == kb.vulnerabilities[i]
  {
    if count < |kb.vulnerabilities| then kb.vulnerabilities[..count] else kb.vulnerabilities
  }

  /** Asking for more never loses what asking for fewer returned. */
  lemma RecentIsPrefix(kb: SecurityKnowledgeBase, m: nat, n: nat)
    requires m <= n
    ensures GetRecentVulnerabilities(kb, m) <= GetRecentVulnerabilities(kb, n)
  {
  }

  /** The pentester path offers the two defined topics, the defender path only the network
    * basics; other interests get nothing. */
  lemma InitialPathSuggestions(interest: string)
    ensures SuggestLearningPath(New(), "pentester") == Some([NetworkBasics, WebSecurity])
    ensures SuggestLearningPath(New(), "defender") == Some([NetworkBasics])
    ensures interest != "pentester" && interest != "defender" ==> SuggestLearningPath(New(), interest) == None
  {
    var topics := InitialTopics();
    assert "exploitation" !in topics by {
      assert "exploitation"[0] != "network_basics"[0] && "exploitation"[0] != "web_security"[0];
    }
    assert "incident_response" !in topics by {
      assert "incident_response"[0] != "network_basics"[0] && "incident_response"[0] != "web_security"[0];
    }
    assert "threat_hunting" !in topics by {
      assert "threat_hunting"[0] != "network_basics"[0] && "threat_hunting"[0] != "web_security"[0];
    }
    var pen := ["network_basics", "web_security", "exploitation"];
    var def := ["network_basics", "incident_response", "threat_hunting"];
    assert TopicsOf(pen[2..], topics) == [] by { assert pen[2..][1..] == []; }
    assert TopicsOf(pen[1..], topics) == [WebSecurity] by { assert pen[1..][1..] == pen[2..]; }
    assert TopicsOf(pen, topics) == [NetworkBasics, WebSecurity];
    assert TopicsOf(def[2..], topics) == [] by { assert def[2..][1..] == []; }
    assert TopicsOf(def[1..], topics) == [] by { assert def[1..][1..] == def[2..]; }
    assert TopicsOf(def, topics) == [NetworkBasics];
  }

  /** One vulnerability is known, so asking for five gives just it and asking for none gives
    * nothing. */
  lemma RecentExamples()
    ensures GetRecentVulnerabilities(New(), 5) == [Log4Shell]
    ensures GetRecentVulnerabilities(New(), 0) == []
  {
  }
}
