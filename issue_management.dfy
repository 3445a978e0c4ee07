/**
 * The issue table of src/pages/IssueManagement.tsx: a status filter that is either "All" or
 * one of the status names, and the cards beside it that count the issues by status.
 */
module IssueManagement {
  import opened Types
  import opened Seqs

  /** The filter's test: "All" shows every issue, any other value the issues whose status has that name. */
  predicate Shown(filter: string, i: Issue)
  {
    filter == "All" || StatusName(i.status) == filter
  }

  /** `filteredIssues`: the rows of the table for the chosen filter value. */
  function FilteredIssues(issues: seq<Issue>, filter: string): seq<Issue>
  {
    Filter(issues, i => Shown(filter, i))
  }

  /** A card: `issues.filter(i => i.status === name).length`. */
  function StatusCard(issues: seq<Issue>, name: string): nat
  {
    Count(issues, (i: Issue) => StatusName(i.status) == name)
  }

  predicate HasStatus(s: Status, i: Issue)
  {
    i.status == s
  }

  /** The filter value "All" shows the list as it is. */
  lemma AllShowsEverything(issues: seq<Issue>)
    ensures FilteredIssues(issues, "All") == issues
  {
    FilterAll(issues, i => Shown("All", i));
  }

  /** A status name shows exactly the issues with that status, in their order. */
  lemma StatusFilterShows(issues: seq<Issue>, s: Status)
    ensures FilteredIssues(issues, StatusName(s)) == Filter(issues, i => HasStatus(s, i))
    ensures forall i :: i in FilteredIssues(issues, StatusName(s)) <==> i in issues && i.status == s
  {
    forall i | i in issues ensures Shown(StatusName(s), i) <==> HasStatus(s, i) {
      StatusNameInjective(i.status, s);
    }
    FilterExt(issues, i => Shown(StatusName(s), i), i => HasStatus(s, i));
  }

  /** A filter value that is neither "All" nor a status name shows nothing. */
  lemma UnknownFilterShowsNothing(issues: seq<Issue>, filter: string)
    requires filter != "All" && filter !in {"Pending", "Processing", "Resolved"}
    ensures FilteredIssues(issues, filter) == []
  {
    FilterNone(issues, i => Shown(filter, i));
  }

  /** The rows shown are an order-preserving selection of the list, never more than the total card. */
  lemma FilteredIsSelection(issues: seq<Issue>, filter: string)
    ensures IsSubseq(FilteredIssues(issues, filter), issues)
    ensures |FilteredIssues(issues, filter)| <= |issues|
  {
    FilterIsSubseq(issues, i => Shown(filter, i));
  }

  /** The card for a status shows how many rows its filter view has. */
  lemma CardMatchesView(issues: seq<Issue>, s: Status)
    ensures StatusCard(issues, StatusName(s)) == |FilteredIssues(issues, StatusName(s))|
  {
    var name := StatusName(s);
    StatusNameInjective(s, s);
    FilterExt(issues, (i: Issue) => StatusName(i.status) == name, i => Shown(name, i));
  }

  /** The "Processing" and "Resolved" cards agree with the views of those filters. */
  lemma CardsMatchViews(issues: seq<Issue>)
    ensures StatusCard(issues, "Processing") == |FilteredIssues(issues, "Processing")|
    ensures StatusCard(issues, "Resolved") == |FilteredIssues(issues, "Resolved")|
  {
    CardMatchesView(issues, Processing);
    CardMatchesView(issues, Resolved);
  }

  /** Every issue has exactly one of the three statuses, so the three views together are the list. */
  lemma ViewsPartition(issues: seq<Issue>)
    ensures |FilteredIssues(issues, "Pending")| + |FilteredIssues(issues, "Processing")|
            + |FilteredIssues(issues, "Resolved")| == |issues|
  {
    StatusFilterShows(issues, Pending);
    StatusFilterShows(issues, Processing);
    StatusFilterShows(issues, Resolved);
    CountDisjoint3(issues, i => HasStatus(Pending, i), i => HasStatus(Processing, i), i => HasStatus(Resolved, i));
  }
}
