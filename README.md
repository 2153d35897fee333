# LinkedIn connection analyzer — verified model of the hybrid ranker

This project models `LinkedInAnalyzer`, the retrieval core of a tool that
explores a person's LinkedIn connections. The analyzer sends two queries:

- a Cypher query to a Neo4j graph store, which filters people by company and connection date;
- a natural-language sentence to a vector query engine, which finds semantically similar profiles.

It then fuses the two result sets into one list of `(name, score)` pairs,
ranked by score. It also answers a detail lookup for a single person.

The graph store and the vector engine are parameters of the model. They are
functions from query text to results:

- a graph record is a string dictionary keyed by `p.name`, `i.name`, `p.title`;
- a vector node is a metadata dictionary plus an optional similarity score.

Modules:

- `Text` (text.dfy): the string operations the scoring relies on: ASCII `lower()`, substring search, first index of a character.
- `Records` (records.dfy): the values and errors: `Option`, `Result`, `KeyError`, the criteria and record dictionaries, vector nodes, ranked entries, `dict.get`.
- `Queries` (queries.dfy): `_build_graph_query`, `_build_vector_query` and the two lookups of `get_connection_details`. Each builder is paired with a parser that recovers the criteria from the text; round-trip lemmas then pin down exactly which clauses a query carries.
- `Scoring` (scoring.dfy): the fusion policy as functions of the two result sets: what each record and each node contributes, the per-name sums, and the dictionary's insertion order.
- `Ranking` (ranking.dfy): Python's stable `sorted(..., reverse=True)` on scores, as an insertion sort. It is proved sorted, a permutation of its input and stable, and these three properties are proved to determine the output.
- `Analyzer` (analyzer.dfy): `_combine_and_rank_results` as a method with two loops over a score map, plus `find_interesting_connections` and `get_connection_details`.

A missing `p.name` in a graph record, or a missing `name` in a node's metadata,
raises `KeyError` in the source. The model returns it as `Err(KeyError(key))`.

## Model

| member | source | states |
|---|---|---|
| Analyzer.CombineAndRank | analyzer.py:38-68 | Fails with `KeyError('p.name')` exactly when some graph record lacks `p.name`. Otherwise it fails with `KeyError('name')` exactly when some node lacks `name`. Otherwise the result is the score items sorted by score (highest first, ties in first-insertion order): each name of either result set exactly once, with the sum of all its contributions, and nothing else |
| Analyzer.TallyGraph | analyzer.py:40-53 | The first loop: fails on the first record without `p.name`. Otherwise the dictionary's keys are the graph names in first-seen order, and each key's value is the sum of its records' contributions |
| Analyzer.AddGraphRecord | analyzer.py:44-53 | One record: its person gets `get(name, 0) + 1.0` plus the bonuses, and is appended to the key order only if new |
| Analyzer.TallyVector | analyzer.py:55-59 | The second loop, continuing the dictionary: fails on the first node without `name`. Otherwise the keys are all names in first-seen order (graph names first), and each value is the graph sum plus the vector sum |
| Analyzer.AddVectorNode | analyzer.py:57-59 | One node: its person gets its score, or 0.5 when the node has none, and is appended to the key order only if new |
| Analyzer.Bump | analyzer.py:45 | `scores[k] = scores.get(k, 0) + d` adds `k` to the keys, adds `d` to `k`'s value (from 0 when absent) and leaves every other key unchanged |
| Analyzer.FindInterestingConnections | analyzer.py:19-36 | The ranking of the store's answer to the graph query built from the criteria, together with the engine's answer to the vector query built from them; same error cases as the combine step |
| Analyzer.SingleGraphMatch | analyzer.py:43-68 | One graph match, no vector match, and no industry or role-level criterion: the ranking is exactly that person with score 1.0 |
| Analyzer.ConnectionDetails | analyzer.py:99-124 | `graph_info` is the store's answer to the exact-name lookup, unchanged. `similar_profiles` has min(5, n) entries in source order, each with the node's name, its `company` or `""`, and its score or `None`. `KeyError('name')` exactly when one of those first five nodes lacks `name` |
| Scoring.GraphContributionRange | analyzer.py:45-53 | A record adds 1.0, plus 0.5 exactly when an industry criterion is given and equals the record's `i.name`, plus 0.3 exactly when a role-level criterion is given and the lower-cased title (default `''`) contains `senior`; so between 1.0 and 1.8 |
| Scoring.SeniorTitleExamples | analyzer.py:52 | With a role-level criterion, "Senior Engineer" and "senior engineer" earn the seniority bonus and "Engineer" does not |
| Scoring.GraphScoreBounds | analyzer.py:43-53 | A name carried by n graph records scores between n·1.0 and n·1.8 from them: contributions add up with no cap |
| Scoring.GraphScoreAppend | analyzer.py:43-53 | Graph sums are additive over concatenated result sets |
| Scoring.VectorScoreAppend | analyzer.py:56-59 | Vector sums are additive over concatenated result sets |
| Scoring.GraphScoreAbsent | analyzer.py:43-45 | A name no record carries gets 0 from the graph results |
| Scoring.VectorScoreAbsent | analyzer.py:56-59 | A name no node carries gets 0 from the vector results |
| Scoring.TotalScoreDominates | analyzer.py:45-59 | With non-negative similarities, a person's total is at least its graph part and at least its vector part |
| Scoring.VectorScoreNonNegative | analyzer.py:56-59 | Non-negative similarities give a non-negative vector sum |
| Scoring.InFirstSeen | analyzer.py:45 | A name is a key of the dictionary exactly when some processed result carried it |
| Scoring.FirstSeenDistinct | analyzer.py:40-45 | Each key occurs once in the dictionary's key order |
| Scoring.FirstSeenAppend | analyzer.py:40-59 | The dictionary's key order after both loops is the graph names in first-seen order, followed by the vector names that no graph record carried, in their own first-seen order |
| Scoring.ItemsFacts | analyzer.py:63 | `scores.items()` lists each name of either result set once with its total score, and nothing else |
| Ranking.SortByScore | analyzer.py:62-66 | The sorted list is non-increasing in score, a permutation of the items, and within each score keeps the items' order |
| Ranking.TiesKeepOrder | analyzer.py:62-66 | Two entries with equal scores come out in the same relative order as in the items |
| Ranking.StableDescendingIsUnique | analyzer.py:62-66 | Any two sorted sequences that agree on every score class are equal, so the ranking is fully determined |
| Ranking.SortKeepsNamesDistinct | analyzer.py:62-66 | Sorting items with distinct names gives a list with distinct names |
| Ranking.InsertSorted | analyzer.py:62-66 | Inserting into a non-increasing list keeps it non-increasing |
| Ranking.InsertPermutes | analyzer.py:62-66 | Inserting adds exactly the new entry to the multiset |
| Ranking.InsertStable | analyzer.py:62-66 | An inserted entry goes after every entry of its own score and changes no other score class |
| Queries.BuildGraphQuery | analyzer.py:70-86 | The graph query always starts with the `MATCH ... WHERE 1=1` head and ends with `\nRETURN p, c` |
| Queries.GraphQueryRoundTrip | analyzer.py:77-84 | With quote-free values, parsing the query gives back exactly the present `company`, `connected_after` and `connected_before` entries: a clause is there iff its key is, in fixed order, with its value verbatim |
| Queries.GraphQueryDeterminesFilters | analyzer.py:77-82 | With quote-free values, two criteria give the same graph query iff they agree on those three keys (presence and value) |
| Queries.EmptyGraphQuery | analyzer.py:72-86 | With no criteria the query is the head followed directly by the tail, with no `AND` clause |
| Queries.QuoteInjection | analyzer.py:77-82 | Values are inlined without escaping: a company value containing a quote yields the same text as a company plus a connected-after filter |
| Queries.BuildVectorQuery | analyzer.py:88-97 | The vector query always starts with the fixed `Find professionals who are ` line |
| Queries.VectorQueryRoundTrip | analyzer.py:90-95 | With single-line values, parsing the vector query gives back the role level and industry (default `''`), and the skills exactly when the key is present |
| Queries.VectorQueryDeterminesTerms | analyzer.py:90-95 | With single-line values, two criteria give the same vector query iff they agree on role level, industry and skills |
| Queries.QueriesIgnoreOtherKeys | analyzer.py:70-97 | Setting any key other than the six the builders read changes neither query |
| Queries.DetailGraphQueryRoundTrip | analyzer.py:102-108 | A quote-free name is recovered from its detail lookup query |
| Queries.SimilarQuery | analyzer.py:111-113 | The similarity query is the fixed phrase followed by the name verbatim |
| Text.Occurs | analyzer.py:52 | The search answers true exactly when the pattern occurs at some position of the text (Python's `in` on strings) |
| Text.Lower | analyzer.py:52 | `lower()` keeps the length and lower-cases each ASCII capital, leaving other characters unchanged |
| Records.Get | analyzer.py:120 | `d.get(k, default)` is `d[k]` when `k` is present and `default` otherwise |

## Left out

- Text.Lower: lower-cases ASCII letters only. It differs from Python's `str.lower()` on non-ASCII capitals such as 'É', and in length on 'İ' (U+0130), which `str.lower()` turns into 'i' followed by U+0307. Neither difference changes the seniority bonus: the only non-ASCII character whose `lower()` contains a letter of "senior" is 'İ', and its 'i' is followed by U+0307, so it cannot complete an occurrence of "senior" either way.
- A node whose `score` attribute exists but is `None` raises `TypeError` in the source. It is not modelled: an absent score (`hasattr` false) is `None` in the model and contributes 0.5.
- Scores are exact reals, not IEEE floats; rounding is not modelled.
- The engine configuration (top 50, similarity cutoff 0.7, analyzer.py:7-17) is inside the vector engine. The model takes whatever nodes the engine returns, so it does not say that nodes below 0.7 are dropped.
- How the graph store evaluates Cypher, and what it returns for a query, is not modelled. Records are taken as the combine step reads them, keyed by `p.name`, although the query's `RETURN p, c` shape does not produce that key by itself.
- Exceptions raised by the store or the engine (connection failures) propagate unchanged in the source. They are not modelled: the store and engine are total functions.
- Criteria and record values are taken to be strings. Other Python value types are not modelled.
- Queries.GraphQueryRoundTrip: holds only for quote-free values. Queries.QuoteInjection shows the source's unescaped inlining makes it fail otherwise.
- Queries.VectorQueryRoundTrip: holds only for role-level and industry values without line breaks, because the parser locates fields by line.
- Queries.DetailGraphQueryRoundTrip: holds only for quote-free names, for the same unescaped inlining.
- Ties in the ranking follow the code: dictionary insertion order and a stable sort give a deterministic order (graph names first, then vector-only names). No secondary sort key by name is modelled.
- A detail lookup for an unknown name returns the store's (possibly empty) answer unchanged, as the code does. There is no separate "not found" marker, and the similar profiles come from the same thresholded engine.
- ingest.py (CSV loading, graph upserts, index building), main.py (demo wiring) and st_app_kg.py (user interface) are not part of this model.
