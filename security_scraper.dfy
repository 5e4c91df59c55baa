/** src/scrapers/security_scraper.rs: a fixed list of Splunk-style search patterns is turned into
  * security events (a description, a severity and recommendations for each pattern), and every
  * event is cached for an hour. The clock is the injected `now` (seconds since the Unix epoch),
  * and the visiting order of the recommendations table, a hash map, is the injected `order`. */
module SecurityScraper {
  import opened Strings
  import opened Collections

  /** Splunk's severity levels; `Name` gives the text the source stores. */
  datatype Severity = Critical | High | Medium | Low {
    function Name(): string {
      match this
      case Critical => "Critical"
      case High => "High"
      case Medium => "Medium"
      case Low => "Low"
    }
  }

  datatype SecurityEvent = SecurityEvent(
    timestamp: nat,
    eventType: string,
    source: string,
    description: string,
    severity: Severity,
    recommendations: seq<string>)

  /** The six analyses, each filed in the message table under `Key()`. */
  datatype EventKind = FailedLogin | PrivilegeElevation | FirewallEvent | MalwareDetected | UnusualTraffic | GenericEvent {
    function Key(): string {
      match this
      case FailedLogin => "failed_login"
      case PrivilegeElevation => "privilege_elevation"
      case FirewallEvent => "firewall_event"
      case MalwareDetected => "malware_detected"
      case UnusualTraffic => "unusual_traffic"
      case GenericEvent => "generic_event"
    }
  }

  /** SECURITY_MESSAGES of src/constants/strings.rs. */
  const SecurityMessages: map<string, string> := map[
    "failed_login" := "Potential brute force attack detected. Monitor authentication attempts.",
    "privilege_elevation" := "Privilege escalation event - verify if authorized.",
    "firewall_event" := "Network security event - analyze traffic patterns.",
    "malware_detected" := "Malware activity detected - initiate incident response.",
    "unusual_traffic" := "Anomalous behavior detected - investigate potential threats.",
    "generic_event" := "Generic security event - requires investigation."]

  /** SECURITY_RECOMMENDATIONS of src/constants/strings.rs. */
  const SecurityRecommendations: map<string, seq<string>> := map[
    "login" := ["Review authentication logs", "Implement multi-factor authentication", "Update password policies"],
    "privilege" := ["Audit user permissions", "Review access control policies", "Enable detailed audit logging"],
    "firewall" := ["Review firewall rules", "Analyze network traffic patterns", "Update security policies"],
    "malware" := ["Isolate affected systems", "Update antivirus signatures", "Scan for indicators of compromise"]]

  /** The patterns `get_security_insights` looks at, in order. */
  const Patterns: seq<string> := [
    "index=security sourcetype=*security*",
    "index=network sourcetype=firewall_*",
    "index=endpoint sourcetype=winlog:security",
    "failed login attempt",
    "successful privilege elevation",
    "firewall block",
    "malware detected",
    "unusual network traffic",
    "severity=critical category=security",
    "alert_severity=high sourcetype=IDS",
    "priority=1 source=firewall"]

  /** Cache entries live for an hour. */
  const MaxAge: nat := 3600

  // ---------------------------------------------------------------- analysis

  /** The first keyword the pattern contains picks the analysis. */
  function Classify(p: string): (k: EventKind)
    ensures k == FailedLogin <==> Contains(p, "failed login")
    ensures k == PrivilegeElevation <==> !Contains(p, "failed login") && Contains(p, "privilege elevation")
    ensures k == FirewallEvent <==>
      !Contains(p, "failed login") && !Contains(p, "privilege elevation") && Contains(p, "firewall")
    ensures k == MalwareDetected <==>
      !Contains(p, "failed login") && !Contains(p, "privilege elevation") && !Contains(p, "firewall")
      && Contains(p, "malware")
    ensures k == GenericEvent <==>
      !Contains(p, "failed login") && !Contains(p, "privilege elevation") && !Contains(p, "firewall")
      && !Contains(p, "malware") && !Contains(p, "unusual")
  {
    if Contains(p, "failed login") then FailedLogin
    else if Contains(p, "privilege elevation") then PrivilegeElevation
    else if Contains(p, "firewall") then FirewallEvent
    else if Contains(p, "malware") then MalwareDetected
    else if Contains(p, "unusual") then UnusualTraffic
    else GenericEvent
  }

  /** `analyze_pattern`: the message filed under the analysis' key, or the empty text for a key
    * the table lacks; every key is present, so a message is always found. */
  function AnalyzePattern(p: string): (description: string)
    ensures Classify(p).Key() in SecurityMessages && description == SecurityMessages[Classify(p).Key()]
    ensures description != ""
  {
    var key := Classify(p).Key();
    if key in SecurityMessages then SecurityMessages[key] else ""
  }

  /** `determine_severity`: critical markers outrank "high", which outranks the medium markers. */
  function DetermineSeverity(p: string): (s: Severity)
    ensures s == Critical <==> Contains(p, "critical") || Contains(p, "priority=1")
    ensures s == High <==> !Contains(p, "critical") && !Contains(p, "priority=1") && Contains(p, "high")
    ensures s == Low <==>
      !Contains(p, "critical") && !Contains(p, "priority=1") && !Contains(p, "high")
      && !Contains(p, "failed") && !Contains(p, "unusual")
  {
    if Contains(p, "critical") || Contains(p, "priority=1") then Critical
    else if Contains(p, "high") then High
    else if Contains(p, "failed") || Contains(p, "unusual") then Medium
    else Low
  }

  // ---------------------------------------------------------------- recommendations

  /** Whether a recommendation key occurs in the pattern. */
  function KeyIn(p: string): string -> bool {
    k => Contains(p, k)
  }

  /** The lists of every key the pattern contains, in the table's visiting order. */
  function Recommend(order: seq<string>, p: string): seq<string>
    requires VisitOrder(order, SecurityRecommendations)
  {
    Gather(order, SecurityRecommendations, KeyIn(p))
  }

  /** `get_recommendations`: the loop over the table. A recommendation is returned exactly when
    * the list of some key the pattern contains holds it, and nothing is returned exactly when
    * the pattern contains no key. */
  method GetRecommendations(p: string, order: seq<string>) returns (recs: seq<string>)
    requires VisitOrder(order, SecurityRecommendations)
    ensures recs == Recommend(order, p)
    ensures forall r :: r in recs <==>
      exists k :: k in SecurityRecommendations && Contains(p, k) && r in SecurityRecommendations[k]
    ensures recs == [] <==> forall k :: k in SecurityRecommendations ==> !Contains(p, k)
  {
    var table := SecurityRecommendations;
    recs := [];
    var i := 0;
    while i < |order|
      invariant 0 <= i <= |order|
      invariant forall k :: k in order[..i] ==> k in table
      invariant recs == Gather(order[..i], table, KeyIn(p))
    {
      assert order[..i + 1][..i] == order[..i];
      var key := order[i];
      if Contains(p, key) {
        recs := recs + table[key];
      }
      i := i + 1;
    }
    assert order[..i] == order;
    forall r ensures r in recs <==> exists k :: k in table && Contains(p, k) && r in table[k] {
      GatherMembers(order, table, KeyIn(p), r);
    }
    if recs == [] {
      forall k | k in table ensures !Contains(p, k) {
        assert k == "login" || k == "privilege" || k == "firewall" || k == "malware";
        assert |table[k]| == 3 && table[k][0] in table[k];
        GatherMembers(order, table, KeyIn(p), table[k][0]);
      }
    } else {
      assert recs[0] in recs;
    }
  }

  /** The recommendations do not depend on the hash map's visiting order, up to permutation. */
  lemma RecommendOrderFree(o1: seq<string>, o2: seq<string>, p: string)
    requires VisitOrder(o1, SecurityRecommendations) && VisitOrder(o2, SecurityRecommendations)
    ensures multiset(Recommend(o1, p)) == multiset(Recommend(o2, p))
  {
    VisitOrdersPermute(o1, o2, SecurityRecommendations);
    GatherPermutation(o1, o2, SecurityRecommendations, KeyIn(p));
  }

  /** A new event for a pattern at time `now`. */
  function NewEvent(p: string, now: nat, order: seq<string>): SecurityEvent
    requires VisitOrder(order, SecurityRecommendations)
  {
    SecurityEvent(now, "Security Alert", p, AnalyzePattern(p), DetermineSeverity(p), Recommend(order, p))
  }

  /** The event reported for a pattern: the cached one if there is one, else a new one. */
  function Insight(cache: map<string, (SecurityEvent, nat)>, p: string, now: nat, order: seq<string>): (e: SecurityEvent)
    requires VisitOrder(order, SecurityRecommendations)
    ensures p in cache ==> e == cache[p].0
    ensures p !in cache ==> e.timestamp == now && e.source == p && e.severity == DetermineSeverity(p)
  {
    if p in cache then cache[p].0 else NewEvent(p, now, order)
  }

  // ---------------------------------------------------------------- cache

  /** An entry stamped at `t` is younger than an hour at `now`. A stamp in the future makes
    * `elapsed` fail, which counts as the full hour. */
  predicate Young(t: nat, now: nat) {
    t <= now && now - t < MaxAge
  }

  /** The cache that `cleanup_cache` keeps. */
  function Retained(cache: map<string, (SecurityEvent, nat)>, now: nat): (r: map<string, (SecurityEvent, nat)>)
    ensures forall p :: p in r <==> p in cache && Young(cache[p].1, now)
    ensures forall p :: p in r ==> r[p] == cache[p]
  {
    map p | p in cache && Young(cache[p].1, now) :: cache[p]
  }

  class SecurityScraper {
    /** Each pattern's event and the time it was cached. */
    var cache: map<string, (SecurityEvent, nat)>

    constructor ()
      ensures cache == map[]
    {
      cache := map[];
    }

    /** `cleanup_cache`: entries an hour old or older, or stamped in the future, are dropped. */
    method CleanupCache(now: nat)
      modifies this
      ensures cache == Retained(old(cache), now)
    {
      cache := Retained(cache, now);
    }

    /** `get_security_insights`: after the cleanup, one event per pattern in order, served from
      * the cache where possible; each new event is cached at `now`, so afterwards every pattern
      * has an entry. */
    method GetSecurityInsights(now: nat, order: seq<string>) returns (events: seq<SecurityEvent>)
      requires VisitOrder(order, SecurityRecommendations)
      modifies this
      ensures |events| == |Patterns|
      ensures forall i :: 0 <= i < |Patterns| ==>
        events[i] == Insight(Retained(old(cache), now), Patterns[i], now, order)
      ensures forall p :: p in cache <==> p in Retained(old(cache), now) || p in Patterns
      ensures forall p :: p in cache ==>
        cache[p] == if p in Retained(old(cache), now) then Retained(old(cache), now)[p] else (NewEvent(p, now, order), now)
    {
      CleanupCache(now);
      events := ServePatterns(Patterns, now, order);
    }

    /** The loop of `get_security_insights` over a list of patterns. */
    method ServePatterns(patterns: seq<string>, now: nat, order: seq<string>) returns (events: seq<SecurityEvent>)
      requires VisitOrder(order, SecurityRecommendations)
      modifies this
      ensures |events| == |patterns|
      ensures forall i :: 0 <= i < |patterns| ==> events[i] == Insight(old(cache), patterns[i], now, order)
      ensures forall p :: p in cache <==> p in old(cache) || p in patterns
      ensures forall p :: p in cache ==>
        cache[p] == if p in old(cache) then old(cache)[p] else (NewEvent(p, now, order), now)
    {
      events := [];
      var i := 0;
      while i < |patterns|
        invariant 0 <= i <= |patterns|
        invariant |events| == i
        invariant forall j :: 0 <= j < i ==> events[j] == Insight(old(cache), patterns[j], now, order)
        invariant forall p :: p in cache <==> p in old(cache) || p in patterns[..i]
        invariant forall p :: p in cache ==>
          cache[p] == if p in old(cache) then old(cache)[p] else (NewEvent(p, now, order), now)
      {
        var p := patterns[i];
        assert patterns[..i + 1] == patterns[..i] + [p];
        if p in cache {
          events := events + [cache[p].0];
        } else {
          var recs := GetRecommendations(p, order);
          var event := SecurityEvent(now, "Security Alert", p, AnalyzePattern(p), DetermineSeverity(p), recs);
          cache := cache[p := (event, now)];
          events := events + [event];
        }
        i := i + 1;
      }
      assert patterns[..i] == patterns;
    }
  }

  // ---------------------------------------------------------------- examples

  /** The keywords of the analysis and severity rules that the failed-login pattern holds,
    * and those it lacks. */
  lemma FailedLoginKeywords(p: string)
    requires p == "failed login attempt"
    ensures Contains(p, "failed login")
    ensures Contains(p, "failed")
    ensures !Contains(p, "critical")
    ensures !Contains(p, "priority=1")
    ensures !Contains(p, "high")
  {
    assert Contains(p, "failed login") by { ContainsAt(p, "failed login", 0); }
    assert Contains(p, "failed") by { ContainsAt(p, "failed", 0); }
    assert !Contains(p, "critical") by { AbsentChar(p, "critical", 0); }
    assert !Contains(p, "priority=1") by { AbsentChar(p, "priority=1", 8); }
    assert !Contains(p, "high") by { AbsentChar(p, "high", 0); }
  }

  /** "failed login attempt" is a failed login of medium severity. */
  lemma FailedLoginExample()
    ensures Classify("failed login attempt") == FailedLogin
    ensures DetermineSeverity("failed login attempt") == Medium
  {
    FailedLoginKeywords("failed login attempt");
  }

  /** A pattern holding exactly one key is answered with that key's list, whatever the table's
    * visiting order. */
  lemma SingleKeyRecommendations(order: seq<string>, p: string, key: string)
    requires VisitOrder(order, SecurityRecommendations)
    requires key in SecurityRecommendations && Contains(p, key)
    requires forall k :: k in SecurityRecommendations && k != key ==> !Contains(p, k)
    ensures forall r :: r in Recommend(order, p) <==> r in SecurityRecommendations[key]
  {
    assert key in order && KeyIn(p)(key);
    forall r ensures r in Recommend(order, p) <==> r in SecurityRecommendations[key] {
      GatherMembers(order, SecurityRecommendations, KeyIn(p), r);
    }
  }

  /** Of the recommendation table's keys, the failed-login pattern holds only "login". */
  lemma FailedLoginKeys(p: string)
    requires p == "failed login attempt"
    ensures Contains(p, "login")
    ensures !Contains(p, "privilege") && !Contains(p, "firewall") && !Contains(p, "malware")
  {
    assert Contains(p, "login") by { ContainsAt(p, "login", 7); }
    assert !Contains(p, "privilege") by { AbsentChar(p, "privilege", 3); }
    assert !Contains(p, "firewall") by { AbsentChar(p, "firewall", 4); }
    assert !Contains(p, "malware") by { AbsentChar(p, "malware", 3); }
  }

  /** "failed login attempt" holds the key "login" and none of the other three, so it is
    * answered with the login recommendations alone. */
  lemma FailedLoginRecommendations(order: seq<string>, p: string)
    requires VisitOrder(order, SecurityRecommendations)
    requires p == "failed login attempt"
    ensures forall r :: r in Recommend(order, p) <==> r in SecurityRecommendations["login"]
  {
    FailedLoginKeys(p);
    assert forall k :: k in SecurityRecommendations && k != "login" ==> !Contains(p, k) by {
      forall k | k in SecurityRecommendations && k != "login" ensures !Contains(p, k) {
        assert k == "privilege" || k == "firewall" || k == "malware";
      }
    }
    SingleKeyRecommendations(order, p, "login");
  }

  /** The keywords of the analysis and severity rules that the firewall-block pattern holds,
    * and those it lacks. */
  lemma FirewallBlockKeywords(p: string)
    requires p == "firewall block"
    ensures Contains(p, "firewall")
    ensures !Contains(p, "failed login")
    ensures !Contains(p, "privilege elevation")
    ensures !Contains(p, "critical")
    ensures !Contains(p, "priority=1")
    ensures !Contains(p, "high")
    ensures !Contains(p, "failed")
    ensures !Contains(p, "unusual")
  {
    assert Contains(p, "firewall") by { ContainsAt(p, "firewall", 0); }
    assert !Contains(p, "failed login") by { AbsentChar(p, "failed login", 5); }
    assert !Contains(p, "privilege elevation") by { AbsentChar(p, "privilege elevation", 0); }
    assert !Contains(p, "critical") by { AbsentChar(p, "critical", 3); }
    assert !Contains(p, "priority=1") by { AbsentChar(p, "priority=1", 0); }
    assert !Contains(p, "high") by { AbsentChar(p, "high", 0); }
    assert !Contains(p, "failed") by { AbsentChar(p, "failed", 5); }
    assert !Contains(p, "unusual") by { AbsentChar(p, "unusual", 0); }
  }

  /** "firewall block" is a firewall event of low severity. */
  lemma FirewallBlockExample()
    ensures Classify("firewall block") == FirewallEvent
    ensures DetermineSeverity("firewall block") == Low
  {
    FirewallBlockKeywords("firewall block");
  }

  /** The keywords of the severity rules that the high-severity alert pattern holds and lacks,
    * apart from "critical". */
  lemma HighAlertKeywords(p: string)
    requires p == "alert_severity=high sourcetype=IDS"
    ensures Contains(p, "high") && !Contains(p, "priority=1")
  {
    assert Contains(p, "high") by { ContainsAt(p, "high", 15); }
    assert !Contains(p, "priority=1") by { AbsentChar(p, "priority=1", 9); }
  }

  /** The high-severity alert pattern lacks "critical": its only 'l' comes too early to end one. */
  lemma HighAlertLacksCritical(p: string, c: string)
    requires p == "alert_severity=high sourcetype=IDS" && c == "critical"
    ensures !Contains(p, c)
  {
    assert c[|c| - 1] == 'l' && |c| - 1 == 7;
    assert p[7..] == "everity=high sourcetype=IDS";
    assert 'l' !in p[7..];
    LateLast(p, c);
  }

  /** "alert_severity=high sourcetype=IDS" is of high severity. */
  lemma HighAlertExample()
    ensures DetermineSeverity("alert_severity=high sourcetype=IDS") == High
  {
    HighAlertKeywords("alert_severity=high sourcetype=IDS");
    HighAlertLacksCritical("alert_severity=high sourcetype=IDS", "critical");
  }

  /** The keywords of the analysis and severity rules that the priority-one pattern holds. */
  lemma PriorityOneHolds(p: string)
    requires p == "priority=1 source=firewall"
    ensures Contains(p, "priority=1") && Contains(p, "firewall")
  {
    assert Contains(p, "priority=1") by { ContainsAt(p, "priority=1", 0); }
    assert Contains(p, "firewall") by { ContainsAt(p, "firewall", 18); }
  }

  /** The keywords ranked before "firewall", which the priority-one pattern lacks. */
  lemma PriorityOneLacks(p: string)
    requires p == "priority=1 source=firewall"
    ensures !Contains(p, "failed login") && !Contains(p, "privilege elevation")
  {
    assert !Contains(p, "failed login") by { AbsentChar(p, "failed login", 5); }
    assert !Contains(p, "privilege elevation") by { AbsentChar(p, "privilege elevation", 3); }
  }

  /** "priority=1 source=firewall" is a firewall event of critical severity. */
  lemma PriorityOneExample()
    ensures Classify("priority=1 source=firewall") == FirewallEvent
    ensures DetermineSeverity("priority=1 source=firewall") == Critical
  {
    PriorityOneHolds("priority=1 source=firewall");
    PriorityOneLacks("priority=1 source=firewall");
  }

  /** A cache filled at `now` is kept whole at any time within the hour, and then serves the
    * events it was filled with. */
  lemma CacheServesWithinHour(cache: map<string, (SecurityEvent, nat)>, now: nat, later: nat, order: seq<string>)
    requires VisitOrder(order, SecurityRecommendations)
    requires now <= later < now + MaxAge
    requires forall p :: p in cache ==> cache[p] == (NewEvent(p, now, order), now)
    ensures Retained(cache, later) == cache
    ensures forall p :: p in cache ==> Insight(Retained(cache, later), p, later, order) == NewEvent(p, now, order)
  {
    assert Retained(cache, later) == cache;
  }

  /** A second call within the hour reports exactly the events of the first. */
  method RepeatWithinHour(now: nat, later: nat, order: seq<string>)
    returns (first: seq<SecurityEvent>, second: seq<SecurityEvent>)
    requires VisitOrder(order, SecurityRecommendations)
    requires now <= later < now + MaxAge
    ensures first == second
  {
    var s := new SecurityScraper();
    first := s.GetSecurityInsights(now, order);
    CacheServesWithinHour(s.cache, now, later, order);
    second := s.GetSecurityInsights(later, order);
  }
}
