/** The shipments page's search: an optional status filter followed by a
    case-insensitive substring match on sender, recipient or tracking code. */
module Search {

  import opened Records
  import opened Text
  import opened Seqs
  import opened Shipments

  /** The text test for an already trimmed and lower-cased query `q`. */
  predicate MatchesText(s: Shipment, q: string)
  {
    Includes(Lower(s.sender), q) || Includes(Lower(s.recipient), q) || Includes(Lower(s.tracking), q)
  }

  function MatchesQuery(q: string): Shipment -> bool
  {
    (s: Shipment) => MatchesText(s, q)
  }

  /** The search string as the page normalises it. */
  function NormalizedQuery(query: string): string
  {
    Lower(Trim(query))
  }

  /** `filterAndRender`'s chain: the status filter unless it is 'all', then the
      text filter unless the normalised query is empty. What it keeps is stated by
      `SearchIsOneFilter` and `SearchSpec` below. */
  function SearchFilter(xs: seq<Shipment>, query: string, statusFilter: string): (r: seq<Shipment>)
    ensures |r| <= |xs|
  {
    var q := NormalizedQuery(query);
    var byStatus := if statusFilter != "all" then Filter(xs, HasStatus(statusFilter)) else xs;
    if q != "" then Filter(byStatus, MatchesQuery(q)) else byStatus
  }

  /** Reference definition of what the search keeps. */
  predicate Selected(s: Shipment, query: string, statusFilter: string)
  {
    && (statusFilter == "all" || s.status == statusFilter)
    && (NormalizedQuery(query) == "" || MatchesText(s, NormalizedQuery(query)))
  }

  function SelectedBy(query: string, statusFilter: string): Shipment -> bool
  {
    (s: Shipment) => Selected(s, query, statusFilter)
  }

  /** The filter chain is one filter by `Selected`. */
  lemma SearchIsOneFilter(xs: seq<Shipment>, query: string, statusFilter: string)
    ensures SearchFilter(xs, query, statusFilter) == Filter(xs, SelectedBy(query, statusFilter))
  {
    var q := NormalizedQuery(query);
    var sel := SelectedBy(query, statusFilter);
    if statusFilter != "all" {
      if q != "" {
        FilterFilter(xs, HasStatus(statusFilter), MatchesQuery(q), sel);
      } else {
        FilterFilter(xs, HasStatus(statusFilter), (s: Shipment) => true, sel);
        FilterAll(Filter(xs, HasStatus(statusFilter)), (s: Shipment) => true);
      }
    } else {
      if q != "" {
        FilterFilter(xs, (s: Shipment) => true, MatchesQuery(q), sel);
        FilterAll(xs, (s: Shipment) => true);
      } else {
        FilterAll(xs, sel);
      }
    }
  }

  /** The search result holds exactly the selected shipments, as an
      order-preserving subsequence of the list (witnessed by `idx`), and leaves
      none of the selected ones out. */
  lemma SearchSpec(xs: seq<Shipment>, query: string, statusFilter: string) returns (idx: seq<nat>)
    ensures forall s :: s in SearchFilter(xs, query, statusFilter) <==> s in xs && Selected(s, query, statusFilter)
    ensures EmbedsAt(SearchFilter(xs, query, statusFilter), xs, idx)
    ensures forall i :: 0 <= i < |xs| && Selected(xs[i], query, statusFilter) ==> i in idx
  {
    SearchIsOneFilter(xs, query, statusFilter);
    FilterMembers(xs, SelectedBy(query, statusFilter));
    idx := FilterIsSubsequence(xs, SelectedBy(query, statusFilter));
  }

  /** With no status filter and a blank query the whole list comes back. */
  lemma SearchNothing(xs: seq<Shipment>, query: string)
    requires forall i :: 0 <= i < |query| ==> IsSpace(query[i])
    ensures SearchFilter(xs, query, "all") == xs
  {
  }
}
