/**
 * The query strings `LinkedInAnalyzer` sends to its two collaborators:
 * the Cypher text for the graph store (`_build_graph_query`), the natural
 * language sentence for the vector engine (`_build_vector_query`) and the two
 * lookups of `get_connection_details`. Values are inlined verbatim, without
 * escaping; each builder is paired with a parser that recovers the criteria
 * from the text, which pins down exactly which clauses a query holds.
 */
module Queries {
  import opened Records
  import opened Text

  // ---------------------------------------------------------------------------
  // The graph query
  // ---------------------------------------------------------------------------

  /** The fixed head of every graph query (the indentation is that of the literal). */
  const GraphPrefix: string := "\n        MATCH (p:Person)-[:WORKS_AT]->(c:Company)\n        WHERE 1=1\n        "
  const CompanyOpen: string := "\nAND c.name CONTAINS '"
  const AfterOpen: string := "\nAND p.connected_on >= '"
  const BeforeOpen: string := "\nAND p.connected_on <= '"
  /** The fixed tail of every graph query. */
  const GraphSuffix: string := "\nRETURN p, c"

  /** The criteria keys the graph query reads. */
  const GraphKeys: set<string> := {"company", "connected_after", "connected_before"}

  /** `open + value + "'"` when `key` is present (presence, not truthiness), else nothing. */
  function Clause(c: Criteria, key: string, open: string): string
  {
    if key in c then open + c[key] + "'" else ""
  }

  /** `_build_graph_query`: the prefix, the present clauses in fixed order, the suffix. */
  function BuildGraphQuery(c: Criteria): (q: string)
    ensures GraphPrefix <= q
    ensures |GraphPrefix| + |GraphSuffix| <= |q| && q[|q| - |GraphSuffix|..] == GraphSuffix
  {
    var q := GraphPrefix + GraphClauses(c) + GraphSuffix;
    assert q[..|GraphPrefix|] == GraphPrefix;
    q
  }

  /** The present clauses, in the fixed order company, connected-after, connected-before. */
  function GraphClauses(c: Criteria): string
  {
    Clause(c, "company", CompanyOpen) + Clause(c, "connected_after", AfterOpen)
    + Clause(c, "connected_before", BeforeOpen)
  }

  /** The part of `c` the graph query depends on. */
  function GraphFilters(c: Criteria): map<string, string>
  {
    map k | k in c && k in GraphKeys :: c[k]
  }

  /** `Some(c[key])` when `key` is present. */
  function Lookup(c: Criteria, key: string): (r: Option<string>)
    ensures r.Some? <==> key in c
  {
    if key in c then Some(c[key]) else None
  }

  /** The values of the given keys hold no single quote, so each clause ends at its closing quote. */
  predicate QuoteFree(c: Criteria, keys: set<string>)
  {
    forall k :: k in keys && k in c ==> '\'' !in c[k]
  }

  datatype Step = Step(value: Option<string>, rest: string)

  /** Reads the optional clause `open + value + "'"` at the front of `m`; `None` if it is unterminated. */
  function TakeClause(m: string, open: string): Option<Step>
  {
    if open <= m then
      var body := m[|open|..];
      var end := IndexOf(body, '\'');
      if end < |body| then Some(Step(Some(body[..end]), body[end + 1..])) else None
    else
      Some(Step(None, m))
  }

  function WithOptional(m: map<string, string>, key: string, v: Option<string>): map<string, string>
  {
    if v.Some? then m[key := v.value] else m
  }

  /** Reads the company, connected-after and connected-before clauses, in that order, and nothing else. */
  function ParseClauses(m: string): Option<map<string, string>>
  {
    match TakeClause(m, CompanyOpen)
    case None => None
    case Some(s1) =>
      match TakeClause(s1.rest, AfterOpen)
      case None => None
      case Some(s2) =>
        match TakeClause(s2.rest, BeforeOpen)
        case None => None
        case Some(s3) =>
          if s3.rest == "" then
            Some(WithOptional(WithOptional(WithOptional(map[], "company", s1.value),
                                           "connected_after", s2.value),
                              "connected_before", s3.value))
          else
            None
  }

  /** Recovers the filters from a graph query, or `None` if the text is not one. */
  function ParseGraphQuery(q: string): Option<map<string, string>>
  {
    if |GraphPrefix| + |GraphSuffix| <= |q| && GraphPrefix <= q && q[|q| - |GraphSuffix|..] == GraphSuffix then
      ParseClauses(q[|GraphPrefix|..|q| - |GraphSuffix|])
    else
      None
  }

  lemma TakeClauseOf(c: Criteria, key: string, open: string, tail: string)
    requires key in c ==> '\'' !in c[key]
    requires !(open <= tail)
    ensures TakeClause(Clause(c, key, open) + tail, open) == Some(Step(Lookup(c, key), tail))
  {
    var m := Clause(c, key, open) + tail;
    if key in c {
      var v := c[key];
      assert m == open + (v + ("'" + tail));
      assert m[..|open|] == open;
      var body := m[|open|..];
      assert body == v + ("'" + tail);
      IndexOfAfter(v, "'" + tail, '\'');
      assert body[..|v|] == v;
      assert body[|v| + 1..] == tail;
    } else {
      assert m == tail;
    }
  }

  /** The three clause openers differ, so none is mistaken for another. */
  lemma OpenersDiffer(c: Criteria)
    ensures !(CompanyOpen <= Clause(c, "connected_after", AfterOpen) + Clause(c, "connected_before", BeforeOpen))
    ensures !(AfterOpen <= Clause(c, "connected_before", BeforeOpen))
    ensures !(BeforeOpen <= "")
  {
    var t2 := Clause(c, "connected_before", BeforeOpen);
    var t1 := Clause(c, "connected_after", AfterOpen) + t2;
    assert CompanyOpen[5] == 'c' && AfterOpen[5] == 'p' && BeforeOpen[5] == 'p';
    assert AfterOpen[20] == '>' && BeforeOpen[20] == '<';
    if "connected_after" in c {
      assert t1[5] == AfterOpen[5];
    } else if "connected_before" in c {
      assert t1[5] == BeforeOpen[5];
    }
    if "connected_before" in c {
      assert t2[20] == BeforeOpen[20];
    }
  }

  /** The filters, as the parser assembles them from the three optional clauses. */
  lemma FiltersFromClauses(c: Criteria)
    ensures WithOptional(WithOptional(WithOptional(map[], "company", Lookup(c, "company")),
                                      "connected_after", Lookup(c, "connected_after")),
                         "connected_before", Lookup(c, "connected_before"))
            == GraphFilters(c)
  {
  }

  /** The parser's result once each of its three clause reads is known. */
  lemma ParseClausesOf(m: string, s1: Step, s2: Step, s3: Step)
    requires TakeClause(m, CompanyOpen) == Some(s1)
    requires TakeClause(s1.rest, AfterOpen) == Some(s2)
    requires TakeClause(s2.rest, BeforeOpen) == Some(s3)
    requires s3.rest == ""
    ensures ParseClauses(m) == Some(WithOptional(WithOptional(WithOptional(map[], "company", s1.value),
                                                              "connected_after", s2.value),
                                                 "connected_before", s3.value))
  {
  }

  /** Concatenation of three strings regrouped to the right. */
  lemma Regroup3(a: string, b: string, c: string)
    ensures a + b + c == a + (b + c)
  {
  }

  lemma ParseGraphClauses(c: Criteria)
    requires QuoteFree(c, GraphKeys)
    ensures ParseClauses(GraphClauses(c)) == Some(GraphFilters(c))
  {
    var c1 := Clause(c, "company", CompanyOpen);
    var c2 := Clause(c, "connected_after", AfterOpen);
    var c3 := Clause(c, "connected_before", BeforeOpen);
    Regroup3(c1, c2, c3);
    assert c3 + "" == c3;
    OpenersDiffer(c);
    TakeClauseOf(c, "company", CompanyOpen, c2 + c3);
    TakeClauseOf(c, "connected_after", AfterOpen, c3);
    TakeClauseOf(c, "connected_before", BeforeOpen, "");
    ParseClausesOf(GraphClauses(c), Step(Lookup(c, "company"), c2 + c3), Step(Lookup(c, "connected_after"), c3),
                   Step(Lookup(c, "connected_before"), ""));
    FiltersFromClauses(c);
  }

  /** Round trip: with quote-free values, parsing the graph query gives back exactly the filters. */
  lemma {:induction false} GraphQueryRoundTrip(c: Criteria)
    requires QuoteFree(c, GraphKeys)
    ensures ParseGraphQuery(BuildGraphQuery(c)) == Some(GraphFilters(c))
  {
    var q := BuildGraphQuery(c);
    assert q[|GraphPrefix|..|q| - |GraphSuffix|] == GraphClauses(c);
    ParseGraphClauses(c);
  }

  /**
   * With quote-free values, two criteria give the same graph query exactly
   * when they agree on the three filter keys: a clause is there if and only
   * if its key is, and it carries that key's value.
   */
  lemma GraphQueryDeterminesFilters(c1: Criteria, c2: Criteria)
    requires QuoteFree(c1, GraphKeys) && QuoteFree(c2, GraphKeys)
    ensures BuildGraphQuery(c1) == BuildGraphQuery(c2) <==> GraphFilters(c1) == GraphFilters(c2)
  {
    if BuildGraphQuery(c1) == BuildGraphQuery(c2) {
      GraphQueryRoundTrip(c1);
      GraphQueryRoundTrip(c2);
    }
    if GraphFilters(c1) == GraphFilters(c2) {
      forall k | k in GraphKeys
        ensures (k in c1 <==> k in c2) && (k in c1 ==> c1[k] == c2[k])
      {
        assert k in c1 <==> k in GraphFilters(c1);
        assert k in c2 <==> k in GraphFilters(c2);
      }
    }
  }

  /** With no criteria the query is the prefix and the suffix with no clause between. */
  lemma EmptyGraphQuery()
    ensures BuildGraphQuery(map[]) == GraphPrefix + GraphSuffix
    ensures ParseGraphQuery(BuildGraphQuery(map[])) == Some(map[])
  {
    assert GraphClauses(map[]) == "";
    DropEmpty(GraphPrefix, GraphSuffix);
    GraphQueryRoundTrip(map[]);
    assert GraphFilters(map[]) == map[];
  }

  lemma DropEmpty(a: string, b: string)
    ensures a + "" + b == a + b
  {
  }

  /**
   * Values are inlined without escaping: a company value holding a quote
   * forges a connected-after clause, giving the same text as other criteria.
   */
  lemma QuoteInjection()
    ensures var forged := map["company" := "Acme" + "'" + AfterOpen + "2023-01-01"];
            var honest := map["company" := "Acme", "connected_after" := "2023-01-01"];
            BuildGraphQuery(forged) == BuildGraphQuery(honest) && GraphFilters(forged) != GraphFilters(honest)
  {
    var forged := map["company" := "Acme" + "'" + AfterOpen + "2023-01-01"];
    var honest := map["company" := "Acme", "connected_after" := "2023-01-01"];
    assert "connected_after" !in forged && "connected_before" !in forged && "connected_before" !in honest;
    var a := Clause(forged, "company", CompanyOpen);
    var b := Clause(honest, "company", CompanyOpen);
    var b' := Clause(honest, "connected_after", AfterOpen);
    assert a == b + b';
    assert GraphClauses(forged) == a + "" + "";
    assert GraphClauses(honest) == b + b' + "";
    assert GraphClauses(forged) == GraphClauses(honest);
    assert "connected_after" in GraphFilters(honest);
  }

  // ---------------------------------------------------------------------------
  // The vector query
  // ---------------------------------------------------------------------------

  const VectorOpen: string := "\n        Find professionals who are "
  const VectorMid: string := " \n        in the "
  const VectorTail: string := " industry\n        "
  const SkillsOpen: string := " with expertise in "

  /** The criteria keys the vector query reads. */
  const VectorKeys: set<string> := {"role_level", "industry", "skills"}

  /** `_build_vector_query`: role level and industry (default `''`), then the skills suffix if `skills` is present. */
  function BuildVectorQuery(c: Criteria): (q: string)
    ensures VectorOpen <= q
  {
    var q := VectorOpen + Get(c, "role_level", "") + VectorMid + Get(c, "industry", "") + VectorTail
             + (if "skills" in c then SkillsOpen + c["skills"] else "");
    assert q[..|VectorOpen|] == VectorOpen;
    q
  }

  /** What the vector query carries: the role level, the industry, and the skills if present. */
  datatype VectorTerms = VectorTerms(roleLevel: string, industry: string, skills: Option<string>)

  function TermsOf(c: Criteria): VectorTerms
  {
    VectorTerms(Get(c, "role_level", ""), Get(c, "industry", ""), Lookup(c, "skills"))
  }

  /** The role level and industry hold no line break, so each ends where its line does. */
  predicate SingleLine(c: Criteria)
  {
    '\n' !in Get(c, "role_level", "") && '\n' !in Get(c, "industry", "")
  }

  /**
   * Splits `s` at the line break that sits `d` characters into `marker`: the
   * text before the marker and the text after it.
   */
  function TakeField(s: string, marker: string, d: nat): Option<(string, string)>
  {
    var i := IndexOf(s, '\n');
    if d <= i && marker <= s[i - d..] then Some((s[..i - d], s[i - d + |marker|..])) else None
  }

  lemma TakeFieldOf(x: string, marker: string, rest: string, d: nat)
    requires d < |marker| && marker[d] == '\n' && '\n' !in marker[..d]
    requires '\n' !in x
    ensures TakeField(x + marker + rest, marker, d) == Some((x, rest))
  {
    var s := x + marker + rest;
    assert s == (x + marker[..d]) + (marker[d..] + rest);
    IndexOfAfter(x + marker[..d], marker[d..] + rest, '\n');
    assert s[|x|..] == marker + rest;
    assert s[..|x|] == x;
    assert s[|x| + |marker|..] == rest;
  }

  /** Recovers the terms from a vector query, or `None` if the text is not one. */
  function ParseVectorQuery(q: string): Option<VectorTerms>
  {
    if VectorOpen <= q then ParseVectorFields(q[|VectorOpen|..]) else None
  }

  /** The terms from the text after the opening line: role level, industry, then skills. */
  function ParseVectorFields(s: string): Option<VectorTerms>
  {
    match TakeField(s, VectorMid, 1)
    case None => None
    case Some((role, rest)) =>
      match TakeField(rest, VectorTail, 9)
      case None => None
      case Some((industry, rest')) =>
        match ParseSkills(rest')
        case None => None
        case Some(skills) => Some(VectorTerms(role, industry, skills))
  }

  /** The skills suffix: nothing, or the skills marker followed by the skills. */
  function SkillsText(skills: Option<string>): string
  {
    if skills.Some? then SkillsOpen + skills.value else ""
  }

  /** Recovers the skills from the text after the industry line, or `None` if it is not a suffix. */
  function ParseSkills(rest: string): Option<Option<string>>
  {
    if rest == "" then Some(None)
    else if SkillsOpen <= rest then Some(Some(rest[|SkillsOpen|..]))
    else None
  }

  lemma ParseSkillsText(skills: Option<string>)
    ensures ParseSkills(SkillsText(skills)) == Some(skills)
  {
    if skills.Some? {
      var x := SkillsText(skills);
      assert x[..|SkillsOpen|] == SkillsOpen;
      assert x[|SkillsOpen|..] == skills.value;
    }
  }

  /** The text of a vector query with the given terms. */
  function VectorText(t: VectorTerms): string
  {
    VectorOpen + VectorFields(t)
  }

  /** The text after the opening line: role level, industry line, and the skills suffix. */
  function VectorFields(t: VectorTerms): string
  {
    t.roleLevel + VectorMid + (t.industry + VectorTail + SkillsText(t.skills))
  }

  /** `p` is a prefix of `p + s`, and what follows it is `s`. */
  lemma SplitAfter(p: string, s: string)
    ensures p <= p + s && (p + s)[|p|..] == s
  {
  }

  /** Where the line breaks of the two inner markers sit. */
  lemma VectorMarkerBreaks()
    ensures VectorMid[1] == '\n' && '\n' !in VectorMid[..1]
    ensures VectorTail[9] == '\n' && '\n' !in VectorTail[..9]
  {
    assert VectorMid[..1] == " ";
    assert VectorTail[..9] == " industry";
  }

  lemma ParseVectorText(t: VectorTerms)
    requires '\n' !in t.roleLevel && '\n' !in t.industry
    ensures ParseVectorQuery(VectorText(t)) == Some(t)
  {
    SplitAfter(VectorOpen, VectorFields(t));
    ParseVectorFieldsText(t);
  }

  lemma ParseVectorFieldsText(t: VectorTerms)
    requires '\n' !in t.roleLevel && '\n' !in t.industry
    ensures ParseVectorFields(VectorFields(t)) == Some(t)
  {
    var extra := SkillsText(t.skills);
    VectorMarkerBreaks();
    TakeFieldOf(t.roleLevel, VectorMid, t.industry + VectorTail + extra, 1);
    TakeFieldOf(t.industry, VectorTail, extra, 9);
    ParseSkillsText(t.skills);
  }

  /** The vector query is the text of the criteria's terms. */
  lemma BuildVectorQueryText(c: Criteria)
    ensures BuildVectorQuery(c) == VectorText(TermsOf(c))
  {
    var t := TermsOf(c);
    assert SkillsText(t.skills) == if "skills" in c then SkillsOpen + c["skills"] else "";
    Regroup(VectorOpen, t.roleLevel, VectorMid, t.industry, VectorTail, SkillsText(t.skills));
  }

  /** Concatenation regrouped the way `VectorText` nests it. */
  lemma Regroup(a: string, b: string, c: string, d: string, e: string, f: string)
    ensures a + b + c + d + e + f == a + (b + c + (d + e + f))
  {
  }

  /** Round trip: with single-line values, parsing the vector query gives back its terms. */
  lemma {:induction false} VectorQueryRoundTrip(c: Criteria)
    requires SingleLine(c)
    ensures ParseVectorQuery(BuildVectorQuery(c)) == Some(TermsOf(c))
  {
    BuildVectorQueryText(c);
    ParseVectorText(TermsOf(c));
  }

  /**
   * With single-line values, two criteria give the same vector query exactly
   * when they have the same role level and industry (absent reads as `''`)
   * and the same skills, present in both or absent from both.
   */
  lemma VectorQueryDeterminesTerms(c1: Criteria, c2: Criteria)
    requires SingleLine(c1) && SingleLine(c2)
    ensures BuildVectorQuery(c1) == BuildVectorQuery(c2) <==> TermsOf(c1) == TermsOf(c2)
  {
    if BuildVectorQuery(c1) == BuildVectorQuery(c2) {
      VectorQueryRoundTrip(c1);
      VectorQueryRoundTrip(c2);
    }
  }

  /** Keys other than the three each builder reads never change its query. */
  lemma QueriesIgnoreOtherKeys(c: Criteria, k: string, v: string)
    requires k !in GraphKeys && k !in VectorKeys
    ensures BuildGraphQuery(c[k := v]) == BuildGraphQuery(c)
    ensures BuildVectorQuery(c[k := v]) == BuildVectorQuery(c)
  {
    var c' := c[k := v];
    assert Clause(c', "company", CompanyOpen) == Clause(c, "company", CompanyOpen);
    assert Clause(c', "connected_after", AfterOpen) == Clause(c, "connected_after", AfterOpen);
    assert Clause(c', "connected_before", BeforeOpen) == Clause(c, "connected_before", BeforeOpen);
    assert Get(c', "role_level", "") == Get(c, "role_level", "");
    assert Get(c', "industry", "") == Get(c, "industry", "");
  }

  // ---------------------------------------------------------------------------
  // The lookups of get_connection_details
  // ---------------------------------------------------------------------------

  const DetailOpen: string := "\n            MATCH (p:Person {name: '"
  /** Starts with the quote that closes the name. */
  const DetailClose: string := "'" + "})-[r]->(c:Company)\n            RETURN {\n                person: p,\n                company: c\n            } as result\n        "
  const SimilarOpen: string := "Find professionals similar to "

  /** The graph lookup of one person, by exact name. */
  function DetailGraphQuery(name: string): (q: string)
    ensures DetailOpen <= q
  {
    var q := DetailOpen + name + DetailClose;
    assert q[..|DetailOpen|] == DetailOpen;
    q
  }

  /** The vector lookup of profiles similar to one person: the fixed phrase, then the name verbatim. */
  function SimilarQuery(name: string): (q: string)
    ensures SimilarOpen <= q && q[|SimilarOpen|..] == name
  {
    var q := SimilarOpen + name;
    assert q[..|SimilarOpen|] == SimilarOpen;
    q
  }

  /** Recovers the name from a detail graph query, or `None` if the text is not one. */
  function ParseDetailGraphQuery(q: string): Option<string>
  {
    if DetailOpen <= q then
      var body := q[|DetailOpen|..];
      var end := IndexOf(body, '\'');
      if body[end..] == DetailClose then Some(body[..end]) else None
    else
      None
  }

  /** Round trip: a quote-free name is recovered from its detail graph query. */
  lemma DetailGraphQueryRoundTrip(name: string)
    requires '\'' !in name
    ensures ParseDetailGraphQuery(DetailGraphQuery(name)) == Some(name)
  {
    var q := DetailGraphQuery(name);
    assert q[|DetailOpen|..] == name + DetailClose;
    IndexOfAfter(name, DetailClose, '\'');
  }
}
