/**
 * `LinkedInAnalyzer`: the fusion of the graph and vector result sets into a
 * ranked list, the end-to-end query, and the detail lookup. The graph store
 * and the vector query engine are given as functions from query text to
 * their results (the records, and the `source_nodes` of the response).
 */
module Analyzer {
  import opened Records
  import opened Text
  import opened Queries
  import opened Scoring
  import opened Ranking

  /** The graph store: Cypher text to the records it returns. */
  type GraphStore = string -> seq<GraphRecord>
  /** The vector query engine (top 50, similarity cutoff 0.7): query text to its source nodes. */
  type VectorEngine = string -> seq<VectorNode>

  /**
   * `out` is the ranking of the two result sets: the score items (every name of
   * either set once, with its total, in first-insertion order) sorted by score,
   * highest first, with ties in first-insertion order.
   */
  ghost predicate RankingOf(out: seq<Entry>, g: seq<GraphRecord>, ns: seq<VectorNode>, c: Criteria)
    requires GraphNamed(g) && NodesNamed(ns)
  {
    && StableDescending(out, Items(g, ns, c))
    && DistinctNames(out)
    && (forall e :: e in out <==>
          (e.name in GraphNames(g) || e.name in NodeNames(ns)) && e.score == TotalScore(g, ns, c, e.name))
  }

  /**
   * The score dictionary part-way through `_combine_and_rank_results`: its keys in
   * insertion order, and the score of each key.
   */
  datatype Tally = Tally(order: seq<string>, scores: map<string, real>)

  /** The tally's keys are exactly `order`, which is the first-seen order of `names`. */
  ghost predicate Keys(t: Tally, names: seq<string>)
  {
    && t.order == FirstSeen(names)
    && (forall k :: k in t.scores <==> k in t.order)
  }

  /**
   * `_combine_and_rank_results`: fills the score dictionary from the graph
   * records, then from the vector nodes, and sorts its items by score. A
   * record without `p.name` or a node without `name` raises `KeyError`.
   */
  method CombineAndRank(g: seq<GraphRecord>, ns: seq<VectorNode>, c: Criteria) returns (r: Result<seq<Entry>>)
    ensures r.Err? <==> !GraphNamed(g) || !NodesNamed(ns)
    ensures r.Err? ==> r.error == if !GraphNamed(g) then KeyError("p.name") else KeyError("name")
    ensures r.Ok? ==> GraphNamed(g) && NodesNamed(ns) && RankingOf(r.value, g, ns, c)
  {
    var afterGraph := TallyGraph(g, c);
    if afterGraph.Err? {
      return Err(afterGraph.error);
    }
    var afterVector := TallyVector(g, ns, c, afterGraph.value);
    if afterVector.Err? {
      return Err(afterVector.error);
    }
    var t := afterVector.value;
    var items := ItemsOf(t);
    TallyItems(g, ns, c, t);
    SortedItemsRank(g, ns, c);
    r := Ok(SortByScore(items));
  }

  /** The first loop: each graph record adds its contribution to its person's score. */
  method TallyGraph(g: seq<GraphRecord>, c: Criteria) returns (r: Result<Tally>)
    ensures r.Err? <==> !GraphNamed(g)
    ensures r.Err? ==> r.error == KeyError("p.name")
    ensures r.Ok? ==> GraphNamed(g) && Keys(r.value, GraphNames(g))
    ensures r.Ok? ==> forall k :: k in r.value.scores ==> r.value.scores[k] == GraphScore(g, c, k)
  {
    var scores: map<string, real> := map[];
    var order: seq<string> := [];  // the dictionary's key order
    ghost var seen: seq<string> := [];  // the names the dictionary has been given so far
    var i := 0;
    while i < |g|
      invariant 0 <= i <= |g|
      invariant GraphNamed(g[..i])
      invariant seen == GraphNames(g[..i])
      invariant Keys(Tally(order, scores), seen)
      invariant forall k :: k in scores ==> scores[k] == GraphScore(g[..i], c, k)
    {
      var result := g[i];
      if "p.name" !in result {
        return Err(KeyError("p.name"));
      }
      var name := result["p.name"];
      InFirstSeen(seen, name);
      ghost var before := Tally(order, scores);
      order, scores := AddGraphRecord(order, scores, result, c);
      GraphPrefixStep(g, c, i);
      KeysStep(before, Tally(order, scores), seen, name);
      GraphScoresStep(g, c, i, before.scores, scores);
      seen := seen + [name];
      i := i + 1;
    }
    assert g[..|g|] == g;
    r := Ok(Tally(order, scores));
  }

  /** `scores[name] = scores.get(name, 0) + delta`, the dictionary update both loops make. */
  function Bump(scores: map<string, real>, name: string, delta: real): (r: map<string, real>)
    ensures r.Keys == scores.Keys + {name}
    ensures r[name] == (if name in scores then scores[name] else 0.0) + delta
    ensures forall k :: k in scores && k != name ==> r[k] == scores[k]
  {
    scores[name := (if name in scores then scores[name] else 0.0) + delta]
  }

  /** One pass of the first loop's body: the record's person gets 1.0, plus the industry and seniority bonuses. */
  method AddGraphRecord(order: seq<string>, scores: map<string, real>, result: GraphRecord, c: Criteria)
    returns (order': seq<string>, scores': map<string, real>)
    requires "p.name" in result
    ensures var name := result["p.name"];
            && order' == (if name in scores then order else order + [name])
            && scores' == Bump(scores, name, GraphContribution(result, c))
  {
    var name := result["p.name"];
    order', scores' := order, scores;
    if name !in scores' {
      scores' := scores'[name := 0.0];
      order' := order' + [name];
    }
    scores' := scores'[name := scores'[name] + 1.0];
    if IndustryMatches(result, c) {
      scores' := scores'[name := scores'[name] + 0.5];
    }
    if SeniorTitle(result, c) {
      scores' := scores'[name := scores'[name] + 0.3];
    }
  }

  /** The second loop: each vector node adds its similarity (0.5 without one) to its person's score. */
  method TallyVector(g: seq<GraphRecord>, ns: seq<VectorNode>, c: Criteria, t: Tally) returns (r: Result<Tally>)
    requires GraphNamed(g) && Keys(t, GraphNames(g))
    requires forall k :: k in t.scores ==> t.scores[k] == GraphScore(g, c, k)
    ensures r.Err? <==> !NodesNamed(ns)
    ensures r.Err? ==> r.error == KeyError("name")
    ensures r.Ok? ==> NodesNamed(ns) && Keys(r.value, GraphNames(g) + NodeNames(ns))
    ensures r.Ok? ==> forall k :: k in r.value.scores ==> r.value.scores[k] == GraphScore(g, c, k) + VectorScore(ns, k)
  {
    var scores := t.scores;
    var order := t.order;
    ghost var seen := GraphNames(g);  // the names the dictionary has been given so far
    assert seen + NodeNames(ns[..0]) == seen;
    var j := 0;
    while j < |ns|
      invariant 0 <= j <= |ns|
      invariant NodesNamed(ns[..j])
      invariant seen == GraphNames(g) + NodeNames(ns[..j])
      invariant Keys(Tally(order, scores), seen)
      invariant forall k :: k in scores ==> scores[k] == GraphScore(g, c, k) + VectorScore(ns[..j], k)
    {
      var node := ns[j];
      if "name" !in node.metadata {
        return Err(KeyError("name"));
      }
      var name := node.metadata["name"];
      InFirstSeen(seen, name);
      ghost var before := Tally(order, scores);
      order, scores := AddVectorNode(order, scores, node);
      NodePrefixStep(g, ns, j);
      KeysStep(before, Tally(order, scores), seen, name);
      VectorScoresStep(g, ns, c, j, before.scores, scores);
      seen := seen + [name];
      j := j + 1;
    }
    assert ns[..|ns|] == ns;
    r := Ok(Tally(order, scores));
  }

  /** One pass of the second loop's body: the node's person gets the node's similarity, or 0.5. */
  method AddVectorNode(order: seq<string>, scores: map<string, real>, node: VectorNode)
    returns (order': seq<string>, scores': map<string, real>)
    requires "name" in node.metadata
    ensures var name := node.metadata["name"];
            && order' == (if name in scores then order else order + [name])
            && scores' == Bump(scores, name, VectorContribution(node))
  {
    var name := node.metadata["name"];
    var similarity := match node.score case Some(s) => s case None => 0.5;
    order', scores' := order, scores;
    if name !in scores' {
      scores' := scores'[name := 0.0];
      order' := order' + [name];
    }
    scores' := scores'[name := scores'[name] + similarity];
  }

  /** Adding a name to the dictionary keeps its keys in first-insertion order. */
  lemma KeysStep(t: Tally, u: Tally, names: seq<string>, name: string)
    requires Keys(t, names)
    requires u.order == (if name in t.scores then t.order else t.order + [name])
    requires u.scores.Keys == t.scores.Keys + {name}
    ensures Keys(u, names + [name])
  {
    FirstSeenSnoc(names, name);
    InFirstSeen(names, name);
  }

  /** After one more graph record, every score is the graph score of the longer prefix. */
  lemma GraphScoresStep(g: seq<GraphRecord>, c: Criteria, i: nat, scores: map<string, real>, scores': map<string, real>)
    requires i < |g| && GraphNamed(g[..i]) && "p.name" in g[i]
    requires forall k :: k in scores ==> scores[k] == GraphScore(g[..i], c, k)
    requires g[i]["p.name"] !in scores ==> g[i]["p.name"] !in GraphNames(g[..i])
    requires var name := g[i]["p.name"];
             scores' == Bump(scores, name, GraphContribution(g[i], c))
    ensures forall k :: k in scores' ==> scores'[k] == GraphScore(g[..i + 1], c, k)
  {
    var name := g[i]["p.name"];
    GraphPrefixStep(g, c, i);
    if name !in scores {
      GraphScoreAbsent(g[..i], c, name);
    }
  }

  /** After one more vector node, every score is the total over the longer prefix. */
  lemma VectorScoresStep(g: seq<GraphRecord>, ns: seq<VectorNode>, c: Criteria, j: nat,
                         scores: map<string, real>, scores': map<string, real>)
    requires GraphNamed(g) && j < |ns| && NodesNamed(ns[..j]) && "name" in ns[j].metadata
    requires forall k :: k in scores ==> scores[k] == GraphScore(g, c, k) + VectorScore(ns[..j], k)
    requires ns[j].metadata["name"] !in scores ==> ns[j].metadata["name"] !in GraphNames(g) + NodeNames(ns[..j])
    requires var name := ns[j].metadata["name"];
             scores' == Bump(scores, name, VectorContribution(ns[j]))
    ensures forall k :: k in scores' ==> scores'[k] == GraphScore(g, c, k) + VectorScore(ns[..j + 1], k)
  {
    var name := ns[j].metadata["name"];
    NodePrefixStep(g, ns, j);
    if name !in scores {
      GraphScoreAbsent(g, c, name);
      VectorScoreAbsent(ns[..j], name);
    }
  }

  /** `scores.items()`: each key with its score, in insertion order. */
  function ItemsOf(t: Tally): seq<Entry>
    requires forall k :: k in t.order ==> k in t.scores
  {
    seq(|t.order|, i requires 0 <= i < |t.order| => Entry(t.order[i], t.scores[t.order[i]]))
  }

  /** After both loops the dictionary's items are the score items of the two result sets. */
  lemma TallyItems(g: seq<GraphRecord>, ns: seq<VectorNode>, c: Criteria, t: Tally)
    requires GraphNamed(g) && NodesNamed(ns) && Keys(t, GraphNames(g) + NodeNames(ns))
    requires forall k :: k in t.scores ==> t.scores[k] == GraphScore(g, c, k) + VectorScore(ns, k)
    ensures ItemsOf(t) == Items(g, ns, c)
  {
  }

  /** Sorting the items yields the ranking. */
  lemma SortedItemsRank(g: seq<GraphRecord>, ns: seq<VectorNode>, c: Criteria)
    requires GraphNamed(g) && NodesNamed(ns)
    ensures RankingOf(SortByScore(Items(g, ns, c)), g, ns, c)
  {
    var items := Items(g, ns, c);
    var ranked := SortByScore(items);
    ItemsFacts(g, ns, c);
    SortKeepsNamesDistinct(items);
    forall e ensures e in ranked <==> e in items {
      assert e in ranked <==> e in multiset(ranked);
    }
  }

  /** Extending the processed prefix of the graph results by one record. */
  lemma GraphPrefixStep(g: seq<GraphRecord>, c: Criteria, i: nat)
    requires i < |g| && GraphNamed(g[..i]) && "p.name" in g[i]
    ensures GraphNamed(g[..i + 1])
    ensures GraphNames(g[..i + 1]) == GraphNames(g[..i]) + [g[i]["p.name"]]
    ensures forall k :: GraphScore(g[..i + 1], c, k) ==
              GraphScore(g[..i], c, k) + (if g[i]["p.name"] == k then GraphContribution(g[i], c) else 0.0)
  {
    assert g[..i + 1] == g[..i] + [g[i]];
    assert g[..i + 1][..i] == g[..i];
  }

  /** Extending the processed prefix of the vector results by one node. */
  lemma NodePrefixStep(g: seq<GraphRecord>, ns: seq<VectorNode>, j: nat)
    requires GraphNamed(g) && j < |ns| && NodesNamed(ns[..j]) && "name" in ns[j].metadata
    ensures NodesNamed(ns[..j + 1])
    ensures GraphNames(g) + NodeNames(ns[..j + 1]) == GraphNames(g) + NodeNames(ns[..j]) + [ns[j].metadata["name"]]
    ensures forall k :: VectorScore(ns[..j + 1], k) ==
              VectorScore(ns[..j], k) + (if ns[j].metadata["name"] == k then VectorContribution(ns[j]) else 0.0)
  {
    assert ns[..j + 1] == ns[..j] + [ns[j]];
    assert ns[..j + 1][..j] == ns[..j];
  }

  /**
   * `find_interesting_connections`: builds both queries from the criteria,
   * runs them, and ranks the combined results.
   */
  method FindInterestingConnections(c: Criteria, store: GraphStore, engine: VectorEngine)
    returns (r: Result<seq<Entry>>)
    ensures var g, ns := store(BuildGraphQuery(c)), engine(BuildVectorQuery(c));
            && (r.Err? <==> !GraphNamed(g) || !NodesNamed(ns))
            && (r.Err? ==> r.error == if !GraphNamed(g) then KeyError("p.name") else KeyError("name"))
            && (r.Ok? ==> GraphNamed(g) && NodesNamed(ns) && RankingOf(r.value, g, ns, c))
  {
    var graphQuery := BuildGraphQuery(c);
    var candidates := store(graphQuery);
    var vectorQuery := BuildVectorQuery(c);
    var vectorResults := engine(vectorQuery);
    r := CombineAndRank(candidates, vectorResults, c);
  }

  /**
   * A single graph match and no vector match, under criteria without an
   * industry or role level (such as a company and a start date), ranks as
   * exactly that person with score 1.0.
   */
  lemma SingleGraphMatch(r: GraphRecord, c: Criteria, out: seq<Entry>)
    requires "p.name" in r && !Truthy(c, "industry") && !Truthy(c, "role_level")
    requires GraphNamed([r]) && NodesNamed([])
    requires RankingOf(out, [r], [], c)
    ensures out == [Entry(r["p.name"], 1.0)]
  {
    var e := Entry(r["p.name"], 1.0);
    assert [r][..0] == [];
    assert GraphContribution(r, c) == 1.0;
    assert GraphScore([r], c, e.name) == GraphScore([], c, e.name) + 1.0;
    assert TotalScore([r], [], c, e.name) == 1.0;
    assert GraphNames([r]) == [e.name];
    assert e in out;
    forall i | 0 <= i < |out| ensures out[i] == e {
      assert out[i] in out;
    }
    assert |out| < 2 || out[0].name != out[1].name;
  }

  /** One entry of `similar_profiles`. */
  datatype Profile = Profile(name: string, company: string, similarity: Option<real>)

  /** The dictionary `get_connection_details` returns. */
  datatype Details = Details(graphInfo: seq<GraphRecord>, similarProfiles: seq<Profile>)

  function Min(a: int, b: int): (m: int)
  {
    if a <= b then a else b
  }

  /**
   * `get_connection_details`: the graph store's answer to the exact-name
   * lookup, unchanged, and the first five similar nodes as profiles.
   */
  function ConnectionDetails(name: string, store: GraphStore, engine: VectorEngine): (r: Result<Details>)
    ensures var nodes := engine(SimilarQuery(name));
            var top := nodes[..Min(5, |nodes|)];
            && (r.Err? <==> !NodesNamed(top))
            && (r.Err? ==> r.error == KeyError("name"))
            && (r.Ok? ==> r.value.graphInfo == store(DetailGraphQuery(name)))
            && (r.Ok? ==> |r.value.similarProfiles| == Min(5, |nodes|))
            && (r.Ok? ==> forall i :: 0 <= i < |r.value.similarProfiles| ==>
                  var p, n := r.value.similarProfiles[i], nodes[i];
                  p.name == n.metadata["name"] && p.company == Get(n.metadata, "company", "")
                  && p.similarity == n.score)
  {
    var graphInfo := store(DetailGraphQuery(name));
    var nodes := engine(SimilarQuery(name));
    var top := nodes[..Min(5, |nodes|)];
    if NodesNamed(top) then
      Ok(Details(graphInfo, seq(|top|, i requires 0 <= i < |top| =>
        Profile(top[i].metadata["name"], Get(top[i].metadata, "company", ""), top[i].score))))
    else
      Err(KeyError("name"))
  }
}
