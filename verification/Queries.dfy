/** Queries on the tables: the rows of an answer, in some order. */
module Queries {
  import opened Tables

  /** The rows that a query finds, each once. */
  method Select(ids: set<LeaseId>) returns (rows: seq<LeaseId>)
    ensures Lists(rows, ids)
  {
    rows := [];
    var rest := ids;
    while rest != {}
      invariant Lists(rows, ids - rest) && rest <= ids
      decreases rest
    {
      var l :| l in rest;
      rows, rest := rows + [l], rest - {l};
    }
  }
}
