/**
 The withdrawal-request list (app/withdrawals/page.tsx): the status badge of each row,
 the search box and status selector that narrow the server query, and the page state.
 Its page count is `Paging.TotalPages(total, pageSize, 1)`, the rule the transit-point
 list shares (`TransitPoints.TransitTotalPages`).
 */
module Withdrawals {
  import opened Text
  import opened Wallet

  // ---------------------------------------------------------------------------
  // Status badge
  // ---------------------------------------------------------------------------

  /** The badge a status is drawn with: its CSS classes and its caption. */
  datatype Badge = Badge(classes: string, text: string)

  const KnownStatuses: seq<WalletCommandStatus> := [WaitToResolve, WaitToPay, Rejected, Success, Returned]

  const OtherText: string := "Khác"
  const GrayClasses: string := "bg-gray-100 text-gray-800"
  const BlueClasses: string := "bg-blue-100 text-blue-800"

  /** `getStatusBadge`: a colour and a caption per named status; anything else is a gray "other". */
  function GetStatusBadge(status: WalletCommandStatus): (badge: Badge)
    ensures status.Other? ==> badge == Badge(GrayClasses, OtherText)
    ensures !status.Other? ==> badge.text != OtherText && badge.classes != GrayClasses
  {
    match status
    case WaitToResolve => Badge("bg-yellow-100 text-yellow-800", "Chờ xử lý")
    case WaitToPay => Badge(BlueClasses, "Chờ thanh toán")
    case Rejected => Badge("bg-red-100 text-red-800", "Từ chối")
    case Success => Badge("bg-green-100 text-green-800", "Thành công")
    case Returned => Badge(BlueClasses, "Hoàn tác")
    case Other(_) => Badge(GrayClasses, OtherText)
  }

  /** A status is one of the five the badge table names exactly when it is not `Other`. */
  lemma KnownStatusesAreTheNamedOnes(status: WalletCommandStatus)
    ensures status in KnownStatuses <==> !status.Other?
  {
    if !status.Other? {
      match status
      case WaitToResolve => assert KnownStatuses[0] == status;
      case WaitToPay => assert KnownStatuses[1] == status;
      case Rejected => assert KnownStatuses[2] == status;
      case Success => assert KnownStatuses[3] == status;
      case Returned => assert KnownStatuses[4] == status;
    }
  }

  /**
   The caption identifies the status: two statuses share a caption only if they are the
   same named status or both unnamed. Colour alone does not: waiting-to-pay and returned
   share the blue classes.
   */
  lemma BadgeTextIdentifiesStatus(s1: WalletCommandStatus, s2: WalletCommandStatus)
    ensures GetStatusBadge(s1).text == GetStatusBadge(s2).text <==> s1 == s2 || (s1.Other? && s2.Other?)
  {
  }

  lemma SharedBlueBadge()
    ensures GetStatusBadge(WaitToPay).classes == GetStatusBadge(Returned).classes
    ensures GetStatusBadge(WaitToPay).text != GetStatusBadge(Returned).text
  {
  }

  // ---------------------------------------------------------------------------
  // Filter and paging state
  // ---------------------------------------------------------------------------

  /** The status selector: "all" or one status. */
  datatype StatusFilter = All | Only(status: WalletCommandStatus)

  /** The selector's options after "all", in order, with their captions. */
  const FilterOptions: seq<WalletCommandStatus> := [WaitToResolve, WaitToPay, Rejected, Success]
  const FilterCaptions: seq<string> := ["Chờ xử lý", "Chờ thanh toán", "Từ chối", "Thành công"]

  /** Each selector option is captioned as the badge of the rows it selects. */
  lemma FilterCaptionsMatchBadges(i: nat)
    requires i < |FilterOptions|
    ensures FilterCaptions[i] == GetStatusBadge(FilterOptions[i]).text
  {
  }

  datatype PageState = PageState(searchQuery: string, statusFilter: StatusFilter, page: int)

  const InitialState: PageState := PageState("", All, 1)

  /** Typing in the search box: the new text, and back to the first page. */
  function OnSearchChange(s: PageState, text: string): (s': PageState)
    ensures s'.searchQuery == text && s'.page == 1 && s'.statusFilter == s.statusFilter
  {
    PageState(text, s.statusFilter, 1)
  }

  /** Picking a status: the new filter, and back to the first page. */
  function OnStatusFilterChange(s: PageState, f: StatusFilter): (s': PageState)
    ensures s'.statusFilter == f && s'.page == 1 && s'.searchQuery == s.searchQuery
  {
    PageState(s.searchQuery, f, 1)
  }

  /** The pagination control sets the page directly. */
  function OnPageChange(s: PageState, page: int): (s': PageState)
    ensures s'.page == page && s'.searchQuery == s.searchQuery && s'.statusFilter == s.statusFilter
  {
    s.(page := page)
  }

  // ---------------------------------------------------------------------------
  // Query
  // ---------------------------------------------------------------------------

  const PageSize: nat := 10

  /** `getWalletCommand` parameters; `statuses` is absent (undefined) or a list. */
  datatype WalletCommandQuery = WalletCommandQuery(
    pageIndex: int,
    keyword: string,
    pageSize: nat,
    actions: seq<WalletAction>,
    statuses: Option<seq<WalletCommandStatus>>)

  /** The status restriction the selector sends. */
  function StatusesParam(f: StatusFilter): (statuses: Option<seq<WalletCommandStatus>>)
    ensures statuses.None? <==> f.All?
    ensures f.Only? ==> statuses == Some([f.status])
  {
    match f
    case All => None
    case Only(st) => Some([st])
  }

  /** The query for a page state: withdrawals only, ten a page, the state's page and search. */
  function BuildQuery(s: PageState): (q: WalletCommandQuery)
    ensures q.actions == [Withdraw] && q.pageSize == PageSize
    ensures q.pageIndex == s.page && q.keyword == s.searchQuery
    ensures q.statuses == StatusesParam(s.statusFilter)
  {
    WalletCommandQuery(s.page, s.searchQuery, PageSize, [Withdraw], StatusesParam(s.statusFilter))
  }

  /**
   Whatever page the user was on, changing the search or the status asks the server for
   the first page of the new result; only the changed parameter differs from before.
   */
  lemma FilterChangesQueryFirstPage(s: PageState, text: string, f: StatusFilter)
    ensures BuildQuery(OnSearchChange(s, text)) == BuildQuery(s).(keyword := text, pageIndex := 1)
    ensures BuildQuery(OnStatusFilterChange(s, f)) == BuildQuery(s).(statuses := StatusesParam(f), pageIndex := 1)
  {
  }

  /**
   The list as it first appears: page 1 of the withdrawals, ten a page, with no keyword and
   no status restriction, and any later filter change returns to that first page.
   */
  lemma InitialQueryIsFirstUnfilteredPage(text: string, f: StatusFilter)
    ensures BuildQuery(InitialState) == WalletCommandQuery(1, "", PageSize, [Withdraw], None)
    ensures BuildQuery(OnStatusFilterChange(InitialState, f)).pageIndex == BuildQuery(InitialState).pageIndex
    ensures BuildQuery(OnSearchChange(OnStatusFilterChange(InitialState, f), text)) ==
              WalletCommandQuery(1, text, PageSize, [Withdraw], StatusesParam(f))
  {
  }
}
