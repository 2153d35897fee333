/**
 * The scoring policy of `_combine_and_rank_results`, stated as functions of
 * the two result sets: what each graph record and each vector node adds to
 * its person's score, the total a name ends with, and the order in which the
 * score dictionary first sees the names.
 */
module Scoring {
  import opened Records
  import opened Text

  /** Every graph record carries `p.name`; otherwise `result['p.name']` raises. */
  predicate GraphNamed(g: seq<GraphRecord>)
  {
    forall i :: 0 <= i < |g| ==> "p.name" in g[i]
  }

  /** Every vector node's metadata carries `name`; otherwise `node.metadata['name']` raises. */
  predicate NodesNamed(ns: seq<VectorNode>)
  {
    forall i :: 0 <= i < |ns| ==> "name" in ns[i].metadata
  }

  /** `criteria.get('industry') and result.get('i.name') == criteria['industry']` */
  predicate IndustryMatches(r: GraphRecord, c: Criteria)
  {
    Truthy(c, "industry") && "i.name" in r && r["i.name"] == c["industry"]
  }

  /** `criteria.get('role_level') and 'senior' in result.get('p.title', '').lower()` */
  predicate SeniorTitle(r: GraphRecord, c: Criteria)
  {
    Truthy(c, "role_level") && Occurs("senior", Lower(Get(r, "p.title", "")))
  }

  /** +0.5 when an industry criterion is given and the record's `i.name` equals it exactly. */
  function IndustryBonus(r: GraphRecord, c: Criteria): real
  {
    if IndustryMatches(r, c) then 0.5 else 0.0
  }

  /** +0.3 when a role-level criterion is given and the lower-cased `p.title` (default `''`) contains "senior". */
  function SeniorBonus(r: GraphRecord, c: Criteria): real
  {
    if SeniorTitle(r, c) then 0.3 else 0.0
  }

  /** What one graph record adds to its person: 1.0 plus the two bonuses. */
  function GraphContribution(r: GraphRecord, c: Criteria): real
  {
    1.0 + IndustryBonus(r, c) + SeniorBonus(r, c)
  }

  /** What one vector node adds to its person: its score, or 0.5 when it has none. */
  function VectorContribution(n: VectorNode): real
  {
    match n.score
    case Some(s) => s
    case None => 0.5
  }

  /** The sum of the contributions of the records of `g` that name `name`. */
  function GraphScore(g: seq<GraphRecord>, c: Criteria, name: string): (r: real)
    requires GraphNamed(g)
  {
    if g == [] then 0.0
    else
      var last := g[|g| - 1];
      GraphScore(g[..|g| - 1], c, name) + (if last["p.name"] == name then GraphContribution(last, c) else 0.0)
  }

  /** The sum of the contributions of the nodes of `ns` that name `name`. */
  function VectorScore(ns: seq<VectorNode>, name: string): (r: real)
    requires NodesNamed(ns)
  {
    if ns == [] then 0.0
    else
      var last := ns[|ns| - 1];
      VectorScore(ns[..|ns| - 1], name) + (if last.metadata["name"] == name then VectorContribution(last) else 0.0)
  }

  /** The score `name` ends with: everything both result sets contribute to it, uncapped. */
  function TotalScore(g: seq<GraphRecord>, ns: seq<VectorNode>, c: Criteria, name: string): real
    requires GraphNamed(g) && NodesNamed(ns)
  {
    GraphScore(g, c, name) + VectorScore(ns, name)
  }

  function GraphNames(g: seq<GraphRecord>): (r: seq<string>)
    requires GraphNamed(g)
    ensures |r| == |g| && forall i :: 0 <= i < |g| ==> r[i] == g[i]["p.name"]
  {
    seq(|g|, i requires 0 <= i < |g| => g[i]["p.name"])
  }

  function NodeNames(ns: seq<VectorNode>): (r: seq<string>)
    requires NodesNamed(ns)
    ensures |r| == |ns| && forall i :: 0 <= i < |ns| ==> r[i] == ns[i].metadata["name"]
  {
    seq(|ns|, i requires 0 <= i < |ns| => ns[i].metadata["name"])
  }

  predicate Distinct(s: seq<string>)
  {
    forall i, j :: 0 <= i < j < |s| ==> s[i] != s[j]
  }

  /**
   * The names of `s` in order of first occurrence: the key order of a Python
   * dictionary filled from `s`, where updating a key does not move it.
   */
  function FirstSeen(s: seq<string>): (r: seq<string>)
  {
    if s == [] then []
    else
      var d := FirstSeen(s[..|s| - 1]);
      if s[|s| - 1] in d then d else d + [s[|s| - 1]]
  }

  /** A name is among the first-seen names exactly when it occurs in `s`. */
  lemma {:induction false} InFirstSeen(s: seq<string>, x: string)
    ensures x in FirstSeen(s) <==> x in s
  {
    if s != [] {
      InFirstSeen(s[..|s| - 1], x);
      assert s == s[..|s| - 1] + [s[|s| - 1]];
    }
  }

  /** Each name occurs once among the first-seen names. */
  lemma {:induction false} FirstSeenDistinct(s: seq<string>)
    ensures Distinct(FirstSeen(s))
  {
    if s != [] {
      FirstSeenDistinct(s[..|s| - 1]);
    }
  }

  /** Appending a name moves no earlier name and adds it at the end if it is new. */
  lemma FirstSeenSnoc(s: seq<string>, x: string)
    ensures FirstSeen(s + [x]) == if x in FirstSeen(s) then FirstSeen(s) else FirstSeen(s) + [x]
  {
    assert (s + [x])[..|s + [x]| - 1] == s;
  }

  /** `scores.items()` once both loops have run: each name once, in insertion order, with its total. */
  function Items(g: seq<GraphRecord>, ns: seq<VectorNode>, c: Criteria): (r: seq<Entry>)
    requires GraphNamed(g) && NodesNamed(ns)
  {
    var order := FirstSeen(GraphNames(g) + NodeNames(ns));
    seq(|order|, i requires 0 <= i < |order| => Entry(order[i], TotalScore(g, ns, c, order[i])))
  }

  // ---------------------------------------------------------------------------
  // Properties of the policy
  // ---------------------------------------------------------------------------

  /**
   * One record adds exactly 1.0, then 0.5 exactly when the industry matches
   * and 0.3 exactly when the title is senior; so between 1.0 and 1.8.
   */
  lemma GraphContributionRange(r: GraphRecord, c: Criteria)
    ensures 1.0 <= GraphContribution(r, c) <= 1.8
    ensures GraphContribution(r, c) == 1.0
            + (if Truthy(c, "industry") && Get(r, "i.name", "") == c["industry"] && "i.name" in r then 0.5 else 0.0)
            + (if Truthy(c, "role_level") && IsSubstring("senior", Lower(Get(r, "p.title", ""))) then 0.3 else 0.0)
  {
  }

  /**
   * The seniority test is case-insensitive: with a role-level criterion,
   * "Senior Engineer" and "senior engineer" earn the bonus and "Engineer" does not.
   */
  lemma SeniorTitleExamples(name: string, role: string)
    requires role != ""
    ensures SeniorTitle(map["p.name" := name, "p.title" := "Senior Engineer"], map["role_level" := role])
    ensures SeniorTitle(map["p.name" := name, "p.title" := "senior engineer"], map["role_level" := role])
    ensures !SeniorTitle(map["p.name" := name, "p.title" := "Engineer"], map["role_level" := role])
  {
    assert Truthy(map["role_level" := role], "role_level");
    LowerExamples();
    assert OccursAt("senior", "senior engineer", 0);
    NoSeniorInEngineer();
  }

  lemma LowerExamples()
    ensures Lower("Senior Engineer") == "senior engineer"
    ensures Lower("senior engineer") == "senior engineer"
    ensures Lower("Engineer") == "engineer"
  {
  }

  lemma NoSeniorInEngineer()
    ensures !IsSubstring("senior", "engineer")
  {
    var e := "engineer";
    assert !OccursAt("senior", e, 0) by { assert e[0..6][0] == 'e'; }
    assert !OccursAt("senior", e, 1) by { assert e[1..7][0] == 'n'; }
    assert !OccursAt("senior", e, 2) by { assert e[2..8][0] == 'g'; }
    forall i | OccursAt("senior", e, i) ensures false {
    }
  }

  /** The number of records of `g` that name `name`. */
  function Count(g: seq<GraphRecord>, name: string): nat
    requires GraphNamed(g)
  {
    if g == [] then 0 else Count(g[..|g| - 1], name) + (if g[|g| - 1]["p.name"] == name then 1 else 0)
  }

  /** Graph contributions add up with no cap: n records give between n * 1.0 and n * 1.8. */
  lemma {:induction false} GraphScoreBounds(g: seq<GraphRecord>, c: Criteria, name: string)
    requires GraphNamed(g)
    ensures Count(g, name) as real <= GraphScore(g, c, name) <= 1.8 * Count(g, name) as real
  {
    if g != [] {
      GraphScoreBounds(g[..|g| - 1], c, name);
      GraphContributionRange(g[|g| - 1], c);
    }
  }

  /** Graph scores are additive over concatenated result sets. */
  lemma {:induction false} GraphScoreAppend(g1: seq<GraphRecord>, g2: seq<GraphRecord>, c: Criteria, name: string)
    requires GraphNamed(g1) && GraphNamed(g2)
    ensures GraphNamed(g1 + g2)
    ensures GraphScore(g1 + g2, c, name) == GraphScore(g1, c, name) + GraphScore(g2, c, name)
  {
    assert GraphNamed(g1 + g2) by {
      forall i | 0 <= i < |g1 + g2| ensures "p.name" in (g1 + g2)[i] {
        if i >= |g1| { assert (g1 + g2)[i] == g2[i - |g1|]; }
      }
    }
    if g2 != [] {
      var init := g2[..|g2| - 1];
      assert (g1 + g2)[..|g1 + g2| - 1] == g1 + init;
      GraphScoreAppend(g1, init, c, name);
    } else {
      assert g1 + g2 == g1;
    }
  }

  /** Vector scores are additive over concatenated result sets. */
  lemma {:induction false} VectorScoreAppend(n1: seq<VectorNode>, n2: seq<VectorNode>, name: string)
    requires NodesNamed(n1) && NodesNamed(n2)
    ensures NodesNamed(n1 + n2)
    ensures VectorScore(n1 + n2, name) == VectorScore(n1, name) + VectorScore(n2, name)
  {
    assert NodesNamed(n1 + n2) by {
      forall i | 0 <= i < |n1 + n2| ensures "name" in (n1 + n2)[i].metadata {
        if i >= |n1| { assert (n1 + n2)[i] == n2[i - |n1|]; }
      }
    }
    if n2 != [] {
      var init := n2[..|n2| - 1];
      assert (n1 + n2)[..|n1 + n2| - 1] == n1 + init;
      VectorScoreAppend(n1, init, name);
    } else {
      assert n1 + n2 == n1;
    }
  }

  /** A name no record carries gets nothing from the graph results. */
  lemma {:induction false} GraphScoreAbsent(g: seq<GraphRecord>, c: Criteria, name: string)
    requires GraphNamed(g) && name !in GraphNames(g)
    ensures GraphScore(g, c, name) == 0.0
  {
    if g != [] {
      assert GraphNames(g[..|g| - 1]) == GraphNames(g)[..|g| - 1];
      GraphScoreAbsent(g[..|g| - 1], c, name);
    }
  }

  /** A name no node carries gets nothing from the vector results. */
  lemma {:induction false} VectorScoreAbsent(ns: seq<VectorNode>, name: string)
    requires NodesNamed(ns) && name !in NodeNames(ns)
    ensures VectorScore(ns, name) == 0.0
  {
    if ns != [] {
      assert NodeNames(ns[..|ns| - 1]) == NodeNames(ns)[..|ns| - 1];
      VectorScoreAbsent(ns[..|ns| - 1], name);
    }
  }

  /**
   * A person found by both paths scores at least what either path alone gives
   * it (vector scores taken as non-negative, as similarities are).
   */
  lemma TotalScoreDominates(g: seq<GraphRecord>, ns: seq<VectorNode>, c: Criteria, name: string)
    requires GraphNamed(g) && NodesNamed(ns)
    requires forall i :: 0 <= i < |ns| ==> VectorContribution(ns[i]) >= 0.0
    ensures TotalScore(g, ns, c, name) >= GraphScore(g, c, name)
    ensures TotalScore(g, ns, c, name) >= VectorScore(ns, name)
  {
    GraphScoreBounds(g, c, name);
    VectorScoreNonNegative(ns, name);
  }

  lemma {:induction false} VectorScoreNonNegative(ns: seq<VectorNode>, name: string)
    requires NodesNamed(ns)
    requires forall i :: 0 <= i < |ns| ==> VectorContribution(ns[i]) >= 0.0
    ensures VectorScore(ns, name) >= 0.0
  {
    if ns != [] {
      VectorScoreNonNegative(ns[..|ns| - 1], name);
    }
  }

  /** The names of `t` that are not in `a`, in their order in `t`. */
  function Unseen(t: seq<string>, a: seq<string>): (r: seq<string>)
  {
    if t == [] then []
    else Unseen(t[..|t| - 1], a) + (if t[|t| - 1] in a then [] else [t[|t| - 1]])
  }

  /**
   * The key order after two result sets: the first set's names in first-seen
   * order, then the second set's names that the first did not carry, in
   * their own first-seen order. So graph names come before vector-only names.
   */
  lemma {:induction false} FirstSeenAppend(a: seq<string>, b: seq<string>)
    ensures FirstSeen(a + b) == FirstSeen(a) + Unseen(FirstSeen(b), a)
  {
    if b == [] {
      assert a + b == a;
      assert FirstSeen(a) + [] == FirstSeen(a);
    } else {
      var b', x := b[..|b| - 1], b[|b| - 1];
      assert b == b' + [x];
      assert a + b == (a + b') + [x];
      FirstSeenAppend(a, b');
      FirstSeenAppendSnoc(a, b', x);
    }
  }

  /** The induction step of `FirstSeenAppend`: one more name in the second set. */
  lemma FirstSeenAppendSnoc(a: seq<string>, b: seq<string>, x: string)
    requires FirstSeen(a + b) == FirstSeen(a) + Unseen(FirstSeen(b), a)
    ensures FirstSeen((a + b) + [x]) == FirstSeen(a) + Unseen(FirstSeen(b + [x]), a)
  {
    var f, u := FirstSeen(a), Unseen(FirstSeen(b), a);
    FirstSeenSnoc(a + b, x);
    InFirstSeen(a + b, x);
    FirstSeenAppendStep(a, b, x);
    if x in a || x in b {
      assert x in FirstSeen(a + b);
      assert FirstSeen((a + b) + [x]) == f + u;
      assert Unseen(FirstSeen(b + [x]), a) == u;
    } else {
      assert x !in FirstSeen(a + b);
      assert FirstSeen((a + b) + [x]) == (f + u) + [x];
      assert Unseen(FirstSeen(b + [x]), a) == u + [x];
      Reassociate(f, u, [x]);
    }
  }

  lemma Reassociate(p: seq<string>, q: seq<string>, t: seq<string>)
    ensures (p + q) + t == p + (q + t)
  {
  }

  /** The right-hand side of `FirstSeenAppend` after one more name in the second set. */
  lemma FirstSeenAppendStep(a: seq<string>, b: seq<string>, x: string)
    ensures var u := Unseen(FirstSeen(b), a);
            Unseen(FirstSeen(b + [x]), a) == if x in a || x in b then u else u + [x]
  {
    FirstSeenSnoc(b, x);
    InFirstSeen(b, x);
    if x !in FirstSeen(b) {
      UnseenSnoc(FirstSeen(b), x, a);
    }
  }

  lemma UnseenSnoc(t: seq<string>, x: string, a: seq<string>)
    ensures Unseen(t + [x], a) == Unseen(t, a) + (if x in a then [] else [x])
  {
    assert (t + [x])[..|t|] == t;
  }

  /** The items list each name of either result set once, with its total score, and nothing else. */
  lemma ItemsFacts(g: seq<GraphRecord>, ns: seq<VectorNode>, c: Criteria)
    requires GraphNamed(g) && NodesNamed(ns)
    ensures forall i, j :: 0 <= i < j < |Items(g, ns, c)| ==> Items(g, ns, c)[i].name != Items(g, ns, c)[j].name
    ensures forall e :: e in Items(g, ns, c) <==>
              (e.name in GraphNames(g) || e.name in NodeNames(ns)) && e.score == TotalScore(g, ns, c, e.name)
  {
    var all := GraphNames(g) + NodeNames(ns);
    var order := FirstSeen(all);
    var items := Items(g, ns, c);
    FirstSeenDistinct(all);
    forall e ensures e in items <==> (e.name in GraphNames(g) || e.name in NodeNames(ns)) && e.score == TotalScore(g, ns, c, e.name) {
      InFirstSeen(all, e.name);
      if e.name in all && e.score == TotalScore(g, ns, c, e.name) {
        var k :| 0 <= k < |order| && order[k] == e.name;
        assert items[k] == e;
      }
    }
  }
}
