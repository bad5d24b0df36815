/**
 The customer list of the customers page and the search box and status buttons that
 narrow it (app/customers/page.tsx). A customer is shown when the lower-cased query
 occurs in its lower-cased name, e-mail or id, and its status equals the selected
 status unless the selection is the "all" sentinel.
 */
module Customers {
  import opened Text

  datatype Customer = Customer(
    id: string,
    name: string,
    email: string,
    phone: string,
    address: string,
    joinDate: string,
    totalBookings: nat,
    status: string)

  /** The status button that shows every customer. */
  const AllStatuses: string := "all"

  /**
   The search check: the lower-cased query occurs somewhere in the lower-cased name,
   e-mail or id. The empty query matches every customer.
   */
  function MatchesSearch(c: Customer, query: string): (b: bool)
    ensures b <==> exists i :: OccursAt(ToLower(c.name), ToLower(query), i)
                             || OccursAt(ToLower(c.email), ToLower(query), i)
                             || OccursAt(ToLower(c.id), ToLower(query), i)
    ensures query == [] ==> b
  {
    var q := ToLower(query);
    EmptyIncluded(ToLower(c.name));
    Includes(ToLower(c.name), q) || Includes(ToLower(c.email), q) || Includes(ToLower(c.id), q)
  }

  /** The status check: "all" lets every customer through, any other value only its own status. */
  function MatchesStatus(c: Customer, statusFilter: string): (b: bool)
    ensures statusFilter == AllStatuses ==> b
    ensures statusFilter != AllStatuses ==> (b <==> c.status == statusFilter)
  {
    statusFilter == AllStatuses || c.status == statusFilter
  }

  predicate Shown(c: Customer, query: string, statusFilter: string) {
    MatchesSearch(c, query) && MatchesStatus(c, statusFilter)
  }

  /** `a` is `b` with some elements dropped and the rest kept in their order. */
  predicate IsSubsequence<T(==)>(a: seq<T>, b: seq<T>)
    decreases |b|
  {
    if a == [] then true
    else if b == [] then false
    else (a[0] == b[0] && IsSubsequence(a[1..], b[1..])) || IsSubsequence(a, b[1..])
  }

  /**
   `filteredCustomers`: the customers the table shows. It keeps the list order and keeps
   exactly the customers that pass both checks (`FilterKeepsMultiplicity`: each as often as
   the list holds it).
   */
  function FilterCustomers(cs: seq<Customer>, query: string, statusFilter: string): (r: seq<Customer>)
    ensures IsSubsequence(r, cs)
    ensures forall c :: c in r ==> Shown(c, query, statusFilter)
    ensures forall i :: 0 <= i < |cs| && Shown(cs[i], query, statusFilter) ==> cs[i] in r
    decreases |cs|
  {
    if cs == [] then []
    else
      var rest := FilterCustomers(cs[1..], query, statusFilter);
      assert cs == [cs[0]] + cs[1..];
      if Shown(cs[0], query, statusFilter) then [cs[0]] + rest else rest
  }

  /** Each shown customer appears as often as in the full list; a hidden one not at all. */
  lemma {:induction false} FilterKeepsMultiplicity(cs: seq<Customer>, query: string, statusFilter: string)
    ensures forall c :: multiset(FilterCustomers(cs, query, statusFilter))[c]
                     == if Shown(c, query, statusFilter) then multiset(cs)[c] else 0
    decreases |cs|
  {
    if cs != [] {
      FilterKeepsMultiplicity(cs[1..], query, statusFilter);
      assert cs == [cs[0]] + cs[1..];
      assert multiset(cs) == multiset([cs[0]]) + multiset(cs[1..]);
    }
  }

  /** An empty search box with the "all" button selected shows the whole list, unchanged. */
  lemma {:induction false} EmptySearchShowsAll(cs: seq<Customer>)
    ensures FilterCustomers(cs, "", AllStatuses) == cs
    decreases |cs|
  {
    if cs != [] {
      EmptyQueryShown(cs[0]);
      EmptySearchShowsAll(cs[1..]);
      assert FilterCustomers(cs, "", AllStatuses) == [cs[0]] + FilterCustomers(cs[1..], "", AllStatuses);
      assert cs == [cs[0]] + cs[1..];
    }
  }

  lemma EmptyQueryShown(c: Customer)
    ensures Shown(c, "", AllStatuses)
  {
    EmptyIncluded(ToLower(c.name));
    assert ToLower("") == "";
  }

  /** Filtering the shown list again with the same query and status shows the same list. */
  lemma {:induction false} FilterIdempotent(cs: seq<Customer>, query: string, statusFilter: string)
    ensures FilterCustomers(FilterCustomers(cs, query, statusFilter), query, statusFilter)
         == FilterCustomers(cs, query, statusFilter)
    decreases |cs|
  {
    if cs != [] {
      FilterIdempotent(cs[1..], query, statusFilter);
      var rest := FilterCustomers(cs[1..], query, statusFilter);
      if Shown(cs[0], query, statusFilter) {
        assert ([cs[0]] + rest)[1..] == rest;
      }
    }
  }

  /** The search is case-blind: upper- and lower-case spellings of a query show the same customers. */
  lemma SearchIgnoresCase(cs: seq<Customer>, query: string, statusFilter: string)
    ensures FilterCustomers(cs, ToLower(query), statusFilter) == FilterCustomers(cs, query, statusFilter)
  {
    ToLowerIdempotent(query);
    SameShownSameFilter(cs, ToLower(query), query, statusFilter);
  }

  lemma {:induction false} SameShownSameFilter(cs: seq<Customer>, q1: string, q2: string, statusFilter: string)
    requires ToLower(q1) == ToLower(q2)
    ensures FilterCustomers(cs, q1, statusFilter) == FilterCustomers(cs, q2, statusFilter)
    decreases |cs|
  {
    if cs != [] {
      SameShownSameFilter(cs[1..], q1, q2, statusFilter);
    }
  }
}
