/** The proposal list (client/src/pages/MyProposals.tsx): its filter, the
    comparator sort behind the sortable headers, the header clicks and the
    status colours. */
module MyProposals {
  import opened Common

  /** The fields of a proposal the page filters and sorts on. Dates are
      ISO strings such as "2024-02-15", so comparing them as strings orders
      them in time. */
  datatype Proposal = Proposal(id: string, title: string, kind: string, status: string,
                               lastModified: string, organization: string)

  /** The three proposals the page ships with. */
  const PROPOSALS: seq<Proposal> := [
    Proposal("1", "Community Health Initiative", "Healthcare", "submitted", "2024-02-15", "Health Foundation"),
    Proposal("2", "Youth Education Program", "Education", "draft", "2024-02-14", "Education Trust"),
    Proposal("3", "AI Ethics Research Grant", "Research", "approved", "2024-02-10", "Tech Foundation")
  ]

  // Filtering.

  /** The search test: the lower-cased query occurs in the lower-cased
      title or organization. */
  predicate MatchesSearch(p: Proposal, query: string)
  {
    Includes(ToLower(p.title), ToLower(query)) || Includes(ToLower(p.organization), ToLower(query))
  }

  /** The `filteredProposals` predicate. Only "thisMonth" restricts by
      date. It compares `getMonth()` alone, so it passes a proposal last
      modified in the current calendar month of any year; which proposals
      those are comes from the clock, given here as the set of their ids.
      Every other date option matches everything. */
  predicate Matches(p: Proposal, query: string, statusFilter: string, typeFilter: string,
                    dateFilter: string, sameCalendarMonth: set<string>)
  {
    && MatchesSearch(p, query)
    && (statusFilter == "all" || p.status == statusFilter)
    && (typeFilter == "all" || p.kind == typeFilter)
    && (dateFilter == "thisMonth" ==> p.id in sameCalendarMonth)
  }

  /** `filteredProposals`: the proposals passing every test, in order. */
  function FilterProposals(ps: seq<Proposal>, query: string, statusFilter: string, typeFilter: string,
                           dateFilter: string, sameCalendarMonth: set<string>): (r: seq<Proposal>)
    ensures forall p :: p in r <==> p in ps && Matches(p, query, statusFilter, typeFilter, dateFilter, sameCalendarMonth)
    ensures IsSubsequence(r, ps)
  {
    var keep := (p: Proposal) => Matches(p, query, statusFilter, typeFilter, dateFilter, sameCalendarMonth);
    FilterIsSubsequence(keep, ps);
    Filter(keep, ps)
  }

  /** With no query and every select on "all" the whole list is shown. */
  lemma NoFilterKeepsAll(ps: seq<Proposal>, sameCalendarMonth: set<string>)
    ensures FilterProposals(ps, "", "all", "all", "all", sameCalendarMonth) == ps
  {
    forall p: Proposal
      ensures Matches(p, "", "all", "all", "all", sameCalendarMonth)
    {
      assert StartsWith(ToLower(p.title), ToLower(""));
    }
    FilterAll((p: Proposal) => Matches(p, "", "all", "all", "all", sameCalendarMonth), ps);
  }

  /** A status filter other than "all" shows only proposals of exactly
      that status. */
  lemma StatusFilterIsExact(ps: seq<Proposal>, query: string, statusFilter: string, typeFilter: string,
                            dateFilter: string, sameCalendarMonth: set<string>)
    requires statusFilter != "all"
    ensures forall p :: p in FilterProposals(ps, query, statusFilter, typeFilter, dateFilter, sameCalendarMonth)
                        ==> p.status == statusFilter
  {
  }

  // Sorting.

  /** JavaScript's `<` on strings: lexicographic on character codes, a
      proper prefix first. */
  predicate StrLess(a: string, b: string)
    decreases |a|
  {
    if a == [] then b != []
    else if b == [] then false
    else if a[0] != b[0] then a[0] < b[0]
    else StrLess(a[1..], b[1..])
  }

  lemma {:induction false} StrLessIrreflexive(a: string)
    ensures !StrLess(a, a)
    decreases |a|
  {
    if a != [] {
      StrLessIrreflexive(a[1..]);
    }
  }

  lemma {:induction false} StrLessTransitive(a: string, b: string, c: string)
    requires StrLess(a, b) && StrLess(b, c)
    ensures StrLess(a, c)
    decreases |a|
  {
    if a != [] && b != [] && c != [] && a[0] == b[0] && b[0] == c[0] {
      StrLessTransitive(a[1..], b[1..], c[1..]);
    }
  }

  /** Two different strings are ordered one way or the other. */
  lemma {:induction false} StrLessTotal(a: string, b: string)
    requires a != b
    ensures StrLess(a, b) || StrLess(b, a)
    decreases |a|
  {
    if a != [] && b != [] && a[0] == b[0] {
      assert a == [a[0]] + a[1..] && b == [b[0]] + b[1..];
      StrLessTotal(a[1..], b[1..]);
    }
  }

  datatype Column = Title | LastModified

  datatype Order = Asc | Desc

  /** `a[sortBy]`. */
  function Key(p: Proposal, col: Column): string
  {
    match col
    case Title => p.title
    case LastModified => p.lastModified
  }

  /** The comparator `aValue > bValue ? order : -order`: it never answers
      0, and a positive answer puts `a` after `b`. */
  function Compare(a: Proposal, b: Proposal, col: Column, order: Order): (c: int)
    ensures c == 1 || c == -1
    ensures order == Asc ==> (c > 0 <==> StrLess(Key(b, col), Key(a, col)))
    ensures order == Desc ==> (c > 0 <==> !StrLess(Key(b, col), Key(a, col)))
  {
    var o := if order == Asc then 1 else -1;
    if StrLess(Key(b, col), Key(a, col)) then o else -o
  }

  /** Key `x` comes strictly before key `y` in the chosen order. */
  predicate Before(x: string, y: string, order: Order)
  {
    if order == Asc then StrLess(x, y) else StrLess(y, x)
  }

  /** Every earlier proposal's key comes strictly before every later one's. */
  predicate Sorted(s: seq<Proposal>, col: Column, order: Order)
  {
    forall i, j :: 0 <= i < j < |s| ==> Before(Key(s[i], col), Key(s[j], col), order)
  }

  /** No two proposals share a key. */
  predicate DistinctKeys(s: seq<Proposal>, col: Column)
  {
    forall i, j :: 0 <= i < j < |s| ==> Key(s[i], col) != Key(s[j], col)
  }

  /** Put `x` in front of the first element the comparator does not place
      it after. */
  function Insert(x: Proposal, s: seq<Proposal>, col: Column, order: Order): (r: seq<Proposal>)
    ensures multiset(r) == multiset(s) + multiset{x}
    decreases |s|
  {
    if s == [] then [x]
    else if Compare(x, s[0], col, order) > 0 then
      assert s == [s[0]] + s[1..];
      [s[0]] + Insert(x, s[1..], col, order)
    else [x] + s
  }

  /** `[...filteredProposals].sort(comparator)`, as an insertion sort
      driven by the same comparator: always a permutation of its input. */
  function SortProposals(s: seq<Proposal>, col: Column, order: Order): (r: seq<Proposal>)
    ensures multiset(r) == multiset(s)
    ensures |r| == |s|
    decreases |s|
  {
    if s == [] then []
    else
      assert s == [s[0]] + s[1..];
      Insert(s[0], SortProposals(s[1..], col, order), col, order)
  }

  /** `Before` is transitive, whichever the order. */
  lemma BeforeTransitive(x: string, y: string, z: string, order: Order)
    requires Before(x, y, order) && Before(y, z, order)
    ensures Before(x, z, order)
  {
    if order == Asc {
      StrLessTransitive(x, y, z);
    } else {
      StrLessTransitive(z, y, x);
    }
  }

  /** A key before `x`'s and before every key of `s` is before every key
      of `s` with `x` inserted. */
  lemma BeforeAllInserted(h: string, x: Proposal, s: seq<Proposal>, col: Column, order: Order)
    requires Before(h, Key(x, col), order)
    requires forall y :: y in s ==> Before(h, Key(y, col), order)
    ensures forall y :: y in Insert(x, s, col, order) ==> Before(h, Key(y, col), order)
  {
    forall y | y in Insert(x, s, col, order)
      ensures Before(h, Key(y, col), order)
    {
      assert y in multiset(Insert(x, s, col, order));
    }
  }

  /** With keys distinct from `x`'s, inserting into a sorted list keeps it
      sorted. */
  lemma {:induction false} InsertSorted(x: Proposal, s: seq<Proposal>, col: Column, order: Order)
    requires Sorted(s, col, order)
    requires forall y :: y in s ==> Key(y, col) != Key(x, col)
    ensures Sorted(Insert(x, s, col, order), col, order)
    decreases |s|
  {
    if s != [] {
      var h := Key(s[0], col);
      StrLessTotal(Key(x, col), h);
      var tail := s[1..];
      assert forall y :: y in tail ==> Before(h, Key(y, col), order) by {
        forall y | y in tail
          ensures Before(h, Key(y, col), order)
        {
          var k :| 0 <= k < |tail| && tail[k] == y;
          assert s[k + 1] == y;
        }
      }
      if Compare(x, s[0], col, order) > 0 {
        InsertSorted(x, tail, col, order);
        BeforeAllInserted(h, x, tail, col, order);
        var rest := Insert(x, tail, col, order);
        assert forall j :: 0 < j < |rest| + 1 ==> ([s[0]] + rest)[j] == rest[j - 1];
      } else {
        forall j | 0 < j < |s|
          ensures Before(Key(x, col), Key(s[j], col), order)
        {
          BeforeTransitive(Key(x, col), h, Key(s[j], col), order);
        }
      }
    }
  }

  /** When no two proposals share the sort key, the sorted list is
      ascending by that key for "asc" and descending for "desc". */
  lemma {:induction false} SortedWhenKeysDistinct(s: seq<Proposal>, col: Column, order: Order)
    requires DistinctKeys(s, col)
    ensures Sorted(SortProposals(s, col, order), col, order)
    decreases |s|
  {
    if s != [] {
      var tail := s[1..];
      assert DistinctKeys(tail, col);
      SortedWhenKeysDistinct(tail, col, order);
      var sorted := SortProposals(tail, col, order);
      forall y | y in sorted
        ensures Key(y, col) != Key(s[0], col)
      {
        assert y in multiset(sorted);
        var k :| 0 <= k < |tail| && tail[k] == y;
        assert s[k + 1] == y;
      }
      InsertSorted(s[0], sorted, col, order);
    }
  }

  // The sortable headers.

  /** Which column the list is sorted by and in which direction. */
  datatype SortState = SortState(sortBy: Column, order: Order)

  /** The state the page starts in. */
  const INITIAL_SORT: SortState := SortState(LastModified, Desc)

  function Flip(o: Order): Order
  {
    if o == Asc then Desc else Asc
  }

  /** The order a column starts with when it is first picked. */
  function DefaultOrder(col: Column): Order
  {
    if col == Title then Asc else Desc
  }

  /** A header click: the active column's header flips the order; another
      column's selects it with its default order. */
  function HeaderClick(s: SortState, col: Column): (r: SortState)
    ensures r.sortBy == col
    ensures s.sortBy == col ==> r.order != s.order
    ensures s.sortBy != col && col == Title ==> r.order == Asc
    ensures s.sortBy != col && col == LastModified ==> r.order == Desc
  {
    if s.sortBy == col then SortState(col, Flip(s.order)) else SortState(col, DefaultOrder(col))
  }

  /** Two clicks on the same header: on the active column they restore the
      state; on another column they leave it selected, in the order
      opposite to its default. */
  lemma ClickTwice(s: SortState, col: Column)
    ensures s.sortBy == col ==> HeaderClick(HeaderClick(s, col), col) == s
    ensures s.sortBy != col ==> HeaderClick(HeaderClick(s, col), col) == SortState(col, Flip(DefaultOrder(col)))
  {
  }

  /** The page's sort state, which the header buttons set. */
  class SortHeaders {
    var sortBy: Column
    var sortOrder: Order

    constructor ()
      ensures SortState(sortBy, sortOrder) == INITIAL_SORT
    {
      sortBy, sortOrder := LastModified, Desc;
    }

    /** The click handler of the header of column `col`. */
    method Click(col: Column)
      modifies this
      ensures SortState(sortBy, sortOrder) == HeaderClick(old(SortState(sortBy, sortOrder)), col)
    {
      if sortBy == col {
        sortOrder := if sortOrder == Asc then Desc else Asc;
      } else {
        sortBy := col;
        sortOrder := if col == Title then Asc else Desc;
      }
    }
  }

  // Status colours.

  /** `getStatusColor`: the five known statuses have their own colours;
      anything else falls back to grey. */
  function StatusColor(status: string): (color: string)
    ensures status == "draft" ==> color == "bg-yellow-100 text-yellow-800"
    ensures status == "submitted" ==> color == "bg-blue-100 text-blue-800"
    ensures status == "approved" ==> color == "bg-green-100 text-green-800"
    ensures status == "denied" ==> color == "bg-red-100 text-red-800"
    ensures status == "reviewing" ==> color == "bg-purple-100 text-purple-800"
    ensures status !in {"draft", "submitted", "approved", "denied", "reviewing"} ==> color == "bg-gray-100 text-gray-800"
  {
    if status == "draft" then "bg-yellow-100 text-yellow-800"
    else if status == "submitted" then "bg-blue-100 text-blue-800"
    else if status == "approved" then "bg-green-100 text-green-800"
    else if status == "denied" then "bg-red-100 text-red-800"
    else if status == "reviewing" then "bg-purple-100 text-purple-800"
    else "bg-gray-100 text-gray-800"
  }
}
