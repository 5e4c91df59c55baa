/** src/knowledge/network_knowledge.rs: networking concepts grouped by category, with a
  * case-insensitive search over topics and summaries. */
module NetworkKnowledge {
  import opened Wrappers
  import opened Strings
  import opened Collections

  datatype NetworkCategory = NetworkArchitecture | Protocols | Infrastructure | Security
                           | Troubleshooting | CloudNetworking

  datatype Difficulty = Beginner | Intermediate | Advanced

  datatype NetworkConcept = NetworkConcept(category: NetworkCategory, topic: string, summary: string,
                                           relatedConcepts: seq<string>, keyTerms: seq<string>,
                                           difficulty: Difficulty)

  /** The one concept `init_concepts` files under network architecture. */
  const OsiModel: NetworkConcept :=
    NetworkConcept(NetworkArchitecture, "OSI Model",
                   "Framework that standardizes network communication into 7 layers",
                   ["TCP/IP Model", "Encapsulation"], ["Layer", "Protocol", "PDU"], Beginner)

  /** `init_concepts`: only the network architecture category is populated. */
  function InitialConcepts(): map<NetworkCategory, seq<NetworkConcept>> {
    map[NetworkArchitecture := [OsiModel]]
  }

  /** `search_concepts`' test: the lowercased query occurs in the lowercased topic or summary. */
  predicate Matches(c: NetworkConcept, query: string) {
    Contains(Lower(c.topic), Lower(query)) || Contains(Lower(c.summary), Lower(query))
  }

  /** The test as a filter. */
  function MatchFilter(query: string): NetworkConcept -> bool {
    (c: NetworkConcept) => Matches(c, query)
  }

  /** The empty query occurs in every topic, so it matches every concept. */
  lemma EmptyQueryMatches(c: NetworkConcept)
    ensures Matches(c, "")
  {
    assert Lower("") == "";
    ContainsAt(Lower(c.topic), "", 0);
  }

  /** Only the query's lowercase form matters: searching "OSI" and "osi" agree. */
  lemma MatchesIgnoresQueryCase(c: NetworkConcept, query: string)
    ensures Matches(c, query) <==> Matches(c, Lower(query))
  {
    LowerIdempotent(query);
  }

  class NetworkKnowledge {
    var concepts: map<NetworkCategory, seq<NetworkConcept>>
    /** The injected clock at the last change. */
    var lastUpdated: nat

    /** `new` at the injected time `now`. */
    constructor (now: nat)
      ensures concepts == InitialConcepts() && lastUpdated == now
    {
      concepts := InitialConcepts();
      lastUpdated := now;
    }

    /** `add_concept` at `now`: appended to its own category's list, which is created if
      * missing; the update time is refreshed. */
    method AddConcept(concept: NetworkConcept, now: nat)
      modifies this
      ensures concept.category in old(concepts) ==>
                concepts == old(concepts)[concept.category := old(concepts)[concept.category] + [concept]]
      ensures concept.category !in old(concepts) ==> concepts == old(concepts)[concept.category := [concept]]
      ensures lastUpdated == now
    {
      if concept.category in concepts {
        concepts := concepts[concept.category := concepts[concept.category] + [concept]];
      } else {
        concepts := concepts[concept.category := [concept]];
      }
      lastUpdated := now;
    }

    /** `get_concepts_by_category`: None for a category that was never populated. */
    function GetConceptsByCategory(category: NetworkCategory): (r: Option<seq<NetworkConcept>>)
      reads this
      ensures r.Some? <==> category in concepts
      ensures r.Some? ==> r.value == concepts[category]
    {
      if category in concepts then Some(concepts[category]) else None
    }

    /** `search_concepts`, visiting the categories in the hash map's `order`: exactly the stored
      * concepts whose topic or summary contains the query, ignoring case. */
    method SearchConcepts(query: string, order: seq<NetworkCategory>) returns (results: seq<NetworkConcept>)
      requires VisitOrder(order, concepts)
      ensures results == Select(order, concepts, MatchFilter(query))
      ensures forall c :: c in results <==> Matches(c, query) && exists k :: k in concepts && c in concepts[k]
    {
      results := Collect(order, concepts, MatchFilter(query));
    }
  }

  /** The empty query returns every stored concept. */
  method EmptySearch(k: NetworkKnowledge, order: seq<NetworkCategory>) returns (results: seq<NetworkConcept>)
    requires VisitOrder(order, k.concepts)
    ensures forall cat, c :: cat in k.concepts && c in k.concepts[cat] ==> c in results
  {
    results := k.SearchConcepts("", order);
    forall cat, c | cat in k.concepts && c in k.concepts[cat] ensures c in results {
      EmptyQueryMatches(c);
    }
  }

  /** A fresh store: the OSI model is filed under architecture, protocols are not populated,
    * and a concept added there creates that category. */
  method FreshStore(now: nat, later: nat, c: NetworkConcept) returns (arch: Option<seq<NetworkConcept>>,
                                                                      before: Option<seq<NetworkConcept>>,
                                                                      after: Option<seq<NetworkConcept>>)
    requires c.category == Protocols
    ensures arch == Some([OsiModel]) && before == None && after == Some([c])
  {
    var k := new NetworkKnowledge(now);
    arch := k.GetConceptsByCategory(NetworkArchitecture);
    before := k.GetConceptsByCategory(Protocols);
    k.AddConcept(c, later);
    after := k.GetConceptsByCategory(Protocols);
  }
}
