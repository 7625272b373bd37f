/**
 * The text search the instructor list pages share: the box's content is
 * trimmed and lower-cased, an empty result matches everything, and
 * otherwise some lower-cased field must contain it.
 */
module Search {
  import opened Strings

  /** `query.trim().toLowerCase()`. */
  function Normalize(query: string): (q: string)
    ensures |q| == |Trim(query)|
    ensures q == "" <==> AllSpace(query)
  {
    TrimEmptyIffAllSpace(query);
    Lower(Trim(query))
  }

  /** `q ? fields.some(f => f.toLowerCase().includes(q)) : true`. */
  predicate Matches(q: string, fields: seq<string>) {
    q == "" || exists i :: 0 <= i < |fields| && Contains(Lower(fields[i]), q)
  }

  /** A blank search box matches every record. */
  lemma BlankQueryMatchesAll(query: string, fields: seq<string>)
    requires AllSpace(query)
    ensures Matches(Normalize(query), fields)
  {
  }

  /** A field that contains the normalised query verbatim is a match. */
  lemma FieldContainingQueryMatches(query: string, fields: seq<string>, i: nat)
    requires i < |fields| && Contains(Lower(fields[i]), Normalize(query))
    ensures Matches(Normalize(query), fields)
  {
  }
}
