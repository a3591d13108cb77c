/**
 * The list pages of notesheets and bills: the query is assembled clause by
 * clause from the optional search text and status filter, with its parameters
 * collected beside it.
 */
module Listing {

  datatype Kind = Notesheets | Bills

  /** The clauses the list query is built from, in the order they are appended. */
  datatype Clause =
    | SelectAll(kind: Kind)            // the base SELECT ... WHERE 1=1
    | SearchLike(kind: Kind)           // AND (<col> LIKE ? OR <col> LIKE ? OR <col> LIKE ?)
    | StatusEquals(kind: Kind)         // AND <table>.current_status = ?
    | OrderByReceivedDesc(kind: Kind)  // ORDER BY <table>.received_date DESC

  /** The columns the search text is matched against. */
  function SearchedColumns(kind: Kind): (cols: seq<string>)
    ensures |cols| == 3
    ensures forall i, j :: 0 <= i < j < |cols| ==> cols[i] != cols[j]
    ensures cols[0] == (if kind == Notesheets then "notesheet_number" else "bill_number")
  {
    match kind
    case Notesheets => ["notesheet_number", "subject", "sender_name"]
    case Bills => ["bill_number", "vendor_name", "invoice_number"]
  }

  /** The `?` placeholders a clause carries. */
  function Placeholders(c: Clause): nat {
    match c
    case SearchLike(k) => |SearchedColumns(k)|
    case StatusEquals(_) => 1
    case _ => 0
  }

  function PlaceholderCount(q: seq<Clause>): nat {
    if q == [] then 0 else PlaceholderCount(q[..|q| - 1]) + Placeholders(q[|q| - 1])
  }

  /** `f'%{search}%'`: a LIKE pattern matching any text that contains `search`. */
  function LikePattern(search: string): (p: string)
    ensures |p| == |search| + 2 && p[0] == '%' && p[|p| - 1] == '%'
    ensures p[1..|p| - 1] == search
  {
    "%" + search + "%"
  }

  /**
   * The query builder of `notesheets_list` / `bills_list`. A non-empty search adds
   * one LIKE clause and the pattern once per searched column; a non-empty status
   * adds one clause and itself; the query always starts with the base select and
   * ends with the ordering. Every placeholder gets exactly one parameter.
   */
  method BuildListQuery(kind: Kind, search: string, status: string)
    returns (query: seq<Clause>, params: seq<string>)
    ensures |query| >= 2 && query[0] == SelectAll(kind) && query[|query| - 1] == OrderByReceivedDesc(kind)
    ensures SearchLike(kind) in query <==> search != ""
    ensures StatusEquals(kind) in query <==> status != ""
    ensures |query| == 2 + (if search != "" then 1 else 0) + (if status != "" then 1 else 0)
    ensures |params| == (if search != "" then 3 else 0) + (if status != "" then 1 else 0)
    ensures PlaceholderCount(query) == |params|
    ensures search != "" ==> params[..3] == [LikePattern(search), LikePattern(search), LikePattern(search)]
    ensures status != "" ==> params[|params| - 1] == status
    ensures search != "" ==> query[1] == SearchLike(kind)
    ensures status != "" ==> query[|query| - 2] == StatusEquals(kind)
  {
    query := [SelectAll(kind)];
    params := [];
    assert [SelectAll(kind)][..0] == [];
    if search != "" {
      AppendClause(query, SearchLike(kind));
      query := query + [SearchLike(kind)];
      var pattern := LikePattern(search);
      params := params + [pattern, pattern, pattern];
    }
    if status != "" {
      AppendClause(query, StatusEquals(kind));
      query := query + [StatusEquals(kind)];
      params := params + [status];
    }
    AppendClause(query, OrderByReceivedDesc(kind));
    query := query + [OrderByReceivedDesc(kind)];
  }

  /** Appending a clause adds exactly its own placeholders. */
  lemma AppendClause(q: seq<Clause>, c: Clause)
    ensures PlaceholderCount(q + [c]) == PlaceholderCount(q) + Placeholders(c)
  {
    assert (q + [c])[..|q|] == q;
  }
}
