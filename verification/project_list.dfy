/** The project owner's list of projects (porteurs/porteur_dashboard.js): the
    order `renderProjects` shows them in, by status and then newest first,
    and the label shown for each status. */
module ProjectList {

  /** A project card's data. `date` is the publication date as a day number
      (any integer encoding that keeps the calendar order, such as days since
      1970-01-01 or `yyyymmdd`). */
  datatype Project = Project(id: int, title: string, sub: string, status: string, date: int)

  const Pending := "pending"
  const Published := "published"
  const Funded := "funded"
  const Closed := "closed"

  /** The rank given to a status missing from `statusOrder`. */
  const UnknownRank := 999

  /** `statusOrder`: the logical order of the four statuses. */
  const StatusOrder: map<string, int> := map[Pending := 1, Published := 2, Funded := 3, Closed := 4]

  predicate IsKnown(status: string) {
    status in StatusOrder
  }

  /** `statusOrder[status] || 999`: every rank in the table is non-zero, so
      the fallback applies exactly to the statuses the table lacks. */
  function Rank(status: string): (r: int)
    ensures IsKnown(status) ==> 1 <= r <= 4 && r == StatusOrder[status]
    ensures !IsKnown(status) ==> r == UnknownRank
  {
    if status in StatusOrder && StatusOrder[status] != 0 then StatusOrder[status] else UnknownRank
  }

  /** The four known statuses get four different ranks, in the order
      pending, published, funded, closed. */
  lemma RanksOrdered()
    ensures Rank(Pending) == 1 && Rank(Published) == 2 && Rank(Funded) == 3 && Rank(Closed) == 4
    ensures Rank(Closed) < UnknownRank
  {
  }

  /** The comparator handed to `sort`: by rank ascending, then by date with
      the most recent first (`new Date(b.date) - new Date(a.date)`). Only its
      sign matters to the sort. */
  function Compare(a: Project, b: Project): (r: int)
    ensures r < 0 <==> Rank(a.status) < Rank(b.status) || (Rank(a.status) == Rank(b.status) && a.date > b.date)
    ensures r == 0 <==> Rank(a.status) == Rank(b.status) && a.date == b.date
  {
    var ra, rb := Rank(a.status), Rank(b.status);
    if ra != rb then ra - rb else b.date - a.date
  }

  /** `a` may be placed before `b`: the comparator does not ask to swap them. */
  predicate Precedes(a: Project, b: Project) {
    Compare(a, b) <= 0
  }

  /** The comparator is consistent in the sense `Array.prototype.sort`
      requires: swapping the arguments negates it, and the order it induces
      is total and transitive. */
  lemma CompareConsistent(a: Project, b: Project, c: Project)
    ensures Compare(a, b) == -Compare(b, a)
    ensures Precedes(a, b) || Precedes(b, a)
    ensures Precedes(a, b) && Precedes(b, c) ==> Precedes(a, c)
  {
  }

  /** `a` precedes `b` exactly when its status ranks lower, or ranks the same
      and it is at least as recent. */
  lemma PrecedesMeans(a: Project, b: Project)
    ensures Precedes(a, b) <==>
              (Rank(a.status) < Rank(b.status) || (Rank(a.status) == Rank(b.status) && a.date >= b.date))
  {
  }

  ghost predicate Sorted(s: seq<Project>) {
    forall i, j :: 0 <= i < j < |s| ==> Precedes(s[i], s[j])
  }

  /** Inserting `p` into a sorted list after every entry that precedes it
      (so that entries the comparator ties with keep their order). */
  function Insert(p: Project, s: seq<Project>): (r: seq<Project>)
    ensures multiset(r) == multiset(s) + multiset{p}
    ensures |r| == |s| + 1
    decreases |s|
  {
    if s == [] then [p]
    else if Compare(s[0], p) > 0 then [p] + s
    else
      assert s == [s[0]] + s[1..];
      [s[0]] + Insert(p, s[1..])
  }

  /** `[...projects].sort(compare)`: a stable sort of a copy of the list;
      the list itself is a value here, so it is left as it was. */
  function SortProjects(s: seq<Project>): (r: seq<Project>)
    ensures multiset(r) == multiset(s)
    ensures |r| == |s|
    decreases |s|
  {
    if s == [] then []
    else
      assert s == s[..|s| - 1] + [s[|s| - 1]];
      Insert(s[|s| - 1], SortProjects(s[..|s| - 1]))
  }

  lemma {:induction false} InsertSorted(p: Project, s: seq<Project>)
    requires Sorted(s)
    ensures Sorted(Insert(p, s))
    decreases |s|
  {
    if s != [] && Compare(s[0], p) <= 0 {
      var t := Insert(p, s[1..]);
      InsertSorted(p, s[1..]);
      forall j | 0 <= j < |t| ensures Precedes(s[0], t[j]) {
        if t[j] != p {
          assert t[j] in multiset(t);
          SortedHeadPrecedes(s, t[j]);
        }
      }
      ConsSorted(s[0], t);
    } else if s != [] {
      forall j | 0 <= j < |s| ensures Precedes(p, s[j]) {
        CompareConsistent(p, s[0], s[j]);
      }
      ConsSorted(p, s);
    }
  }

  lemma SortedHeadPrecedes(s: seq<Project>, x: Project)
    requires Sorted(s) && s != [] && x in multiset(s[1..])
    ensures Precedes(s[0], x)
  {
    var m :| 0 <= m < |s[1..]| && s[1..][m] == x;
    assert s[m + 1] == x;
  }

  lemma ConsSorted(x: Project, t: seq<Project>)
    requires Sorted(t)
    requires forall j :: 0 <= j < |t| ==> Precedes(x, t[j])
    ensures Sorted([x] + t)
  {
    var r := [x] + t;
    forall i, j | 0 <= i < j < |r| ensures Precedes(r[i], r[j]) {
      assert r[j] == t[j - 1];
      if i > 0 {
        assert r[i] == t[i - 1];
      }
    }
  }

  /** The displayed list is in comparator order and holds exactly the
      projects of the original list, each as often as there. */
  lemma {:induction false} SortProjectsSorted(s: seq<Project>)
    ensures Sorted(SortProjects(s))
    ensures multiset(SortProjects(s)) == multiset(s)
    decreases |s|
  {
    if s != [] {
      var init := s[..|s| - 1];
      SortProjectsSorted(init);
      InsertSorted(s[|s| - 1], SortProjects(init));
    }
  }

  /** An entry that every entry of the list precedes is inserted last. */
  lemma {:induction false} InsertAfterAll(p: Project, s: seq<Project>)
    requires forall j :: 0 <= j < |s| ==> Precedes(s[j], p)
    ensures Insert(p, s) == s + [p]
    decreases |s|
  {
    if s != [] {
      InsertAfterAll(p, s[1..]);
      assert s == [s[0]] + s[1..];
    }
  }

  /** A list already in comparator order is displayed as it is: the sort
      keeps ties in their original order and moves nothing needlessly. */
  lemma {:induction false} SortProjectsKeepsSorted(s: seq<Project>)
    requires Sorted(s)
    ensures SortProjects(s) == s
    decreases |s|
  {
    if s != [] {
      var init := s[..|s| - 1];
      assert Sorted(init);
      SortProjectsKeepsSorted(init);
      InsertAfterAll(s[|s| - 1], init);
      assert init + [s[|s| - 1]] == s;
    }
  }

  /** Down the displayed list the status rank never decreases, and among
      projects of the same rank the dates never increase. */
  lemma SortedByRankThenNewest(s: seq<Project>, i: nat, j: nat)
    requires i < j < |SortProjects(s)|
    ensures var r := SortProjects(s);
            && Rank(r[i].status) <= Rank(r[j].status)
            && (Rank(r[i].status) == Rank(r[j].status) ==> r[i].date >= r[j].date)
  {
    SortProjectsSorted(s);
    var r := SortProjects(s);
    PrecedesMeans(r[i], r[j]);
  }

  /** A project whose status is not in `statusOrder` comes after every
      project whose status is. */
  lemma UnknownStatusesLast(s: seq<Project>, i: nat, j: nat)
    requires i < |SortProjects(s)| && j < |SortProjects(s)|
    requires !IsKnown(SortProjects(s)[i].status) && IsKnown(SortProjects(s)[j].status)
    ensures j < i
  {
    SortProjectsSorted(s);
    var r := SortProjects(s);
    if i < j {
      PrecedesMeans(r[i], r[j]);
      assert false;
    }
  }

  const PendingLabel := "Déposé (en attente de publication)"
  const PublishedLabel := "Publié (en attente d'attribution de dons)"
  const FundedLabel := "Dons attribués (en attente du rapport d'activité)"
  const ClosedLabel := "Finalisé"

  /** `statusLabel`: the French label of each known status; any other
      status is shown as it is. */
  function StatusLabel(status: string): (shown: string)
    ensures !IsKnown(status) ==> shown == status
  {
    if status == Pending then PendingLabel
    else if status == Published then PublishedLabel
    else if status == Funded then FundedLabel
    else if status == Closed then ClosedLabel
    else status
  }

  /** The four known statuses get four different labels, none of them the
      status word itself, so the label tells the status apart. */
  lemma KnownLabelsDistinct(a: string, b: string)
    requires IsKnown(a) && IsKnown(b) && a != b
    ensures StatusLabel(a) != StatusLabel(b)
    ensures StatusLabel(a) != a
  {
    assert |PendingLabel| == 34 && |PublishedLabel| == 41 && |FundedLabel| == 49 && |ClosedLabel| == 8;
  }
}
