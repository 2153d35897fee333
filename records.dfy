/**
 * The values that flow through `LinkedInAnalyzer`: the criteria mapping,
 * the records returned by the graph store and the scored nodes returned by
 * the vector query engine, and the error a missing dictionary key raises.
 */
module Records {

  datatype Option<+T> = None | Some(value: T)

  /** The one exception the analyzer itself can raise: a `KeyError`. */
  datatype Error = KeyError(key: string)

  datatype Result<+T> = Ok(value: T) | Err(error: Error)

  /** The criteria dictionary: filter keys to user-supplied strings. */
  type Criteria = map<string, string>

  /** A record of the graph store's answer, keyed by column name ("p.name", "i.name", "p.title"). */
  type GraphRecord = map<string, string>

  /**
   * A node of the vector engine's `source_nodes`: its metadata dictionary and its
   * similarity score, `None` when the node carries no `score` attribute.
   */
  datatype VectorNode = VectorNode(metadata: map<string, string>, score: Option<real>)

  /** One `(name, score)` pair of the ranked output. */
  datatype Entry = Entry(name: string, score: real)

  /** `d.get(k, default)` on a string dictionary. */
  function Get(d: map<string, string>, k: string, default: string): (r: string)
    ensures k in d ==> r == d[k]
    ensures k !in d ==> r == default
  {
    if k in d then d[k] else default
  }

  /** The truth value of `criteria.get(k)`: present and not the empty string. */
  predicate Truthy(c: Criteria, k: string)
  {
    k in c && c[k] != ""
  }
}
