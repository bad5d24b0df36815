/**
 The transit-point list page (app/transit-points/page.tsx): its paging and filter state,
 the query it derives from that state, the type labels of the table, and the guarded
 delete of the selected point.
 */
module TransitPoints {
  import opened Text
  import Paging
  import Toasts

  /**
   A transit point as the server sends it. The type is kept as the wire string the page
   calls `toString()` on; the TypeScript enum declares PLACE, STATION, OFFICE, TRANSPORT.
   */
  datatype TransitPoint = TransitPoint(id: string, name: string, address: string, hotline: string, pointType: string)

  /**
   The page's own state: page index (from 1), page size (a parsed number, None for NaN),
   the search text and the type filter, where "all" means no restriction.
   */
  datatype PageState = PageState(pageIndex: int, pageSize: Option<int>, searchQuery: string, typeFilter: string)

  const AllTypes: string := "all"

  const InitialState: PageState := PageState(1, Some(5), "", AllTypes)

  // ---------------------------------------------------------------------------
  // Paging and filter state
  // ---------------------------------------------------------------------------

  /** `handlePageChange`: moves to the requested page and leaves size, search and filter as they were. */
  function HandlePageChange(s: PageState, newPageIndex: int): (s': PageState)
    ensures s'.pageIndex == newPageIndex
    ensures s'.pageSize == s.pageSize && s'.searchQuery == s.searchQuery && s'.typeFilter == s.typeFilter
  {
    s.(pageIndex := newPageIndex)
  }

  /**
   `handlePageSizeChange`: stores `Number.parseInt` of the selected value and returns to
   the first page; search and filter are untouched.
   */
  function HandlePageSizeChange(s: PageState, value: string): (s': PageState)
    ensures s'.pageSize == ParseInt(value) && s'.pageIndex == 1
    ensures s'.searchQuery == s.searchQuery && s'.typeFilter == s.typeFilter
  {
    s.(pageSize := ParseInt(value), pageIndex := 1)
  }

  /** The values the page-size selector offers. */
  const PageSizeOptions: seq<nat> := [5, 10, 20, 50]

  /** Picking any offered page size stores exactly that number and shows page 1. */
  lemma PageSizeOptionsParse(s: PageState, i: nat)
    requires i < |PageSizeOptions|
    ensures HandlePageSizeChange(s, NatToString(PageSizeOptions[i])) == s.(pageSize := Some(PageSizeOptions[i]), pageIndex := 1)
  {
    ParseIntNatToString(PageSizeOptions[i]);
  }

  /** Typing in the search box or picking a type changes that field only (this page keeps the page index). */
  function HandleSearchChange(s: PageState, text: string): (s': PageState)
    ensures s'.searchQuery == text
    ensures s'.pageIndex == s.pageIndex && s'.pageSize == s.pageSize && s'.typeFilter == s.typeFilter
  {
    s.(searchQuery := text)
  }

  function HandleTypeFilterChange(s: PageState, value: string): (s': PageState)
    ensures s'.typeFilter == value
    ensures s'.pageIndex == s.pageIndex && s'.pageSize == s.pageSize && s'.searchQuery == s.searchQuery
  {
    s.(typeFilter := value)
  }

  // ---------------------------------------------------------------------------
  // Query
  // ---------------------------------------------------------------------------

  /** `getTransit` parameters; `types` is absent (undefined) or a list of type codes. */
  datatype TransitQuery = TransitQuery(pageIndex: int, pageSize: Option<int>, keyword: string, types: Option<seq<string>>)

  /** The `types` parameter: nothing for "all", otherwise the one selected type. */
  function TypesParam(typeFilter: string): (types: Option<seq<string>>)
    ensures types.None? <==> typeFilter == AllTypes
    ensures types.Some? ==> types.value == [typeFilter]
  {
    if typeFilter == AllTypes then None else Some([typeFilter])
  }

  /** The query sent for a page state. */
  function BuildQuery(s: PageState): (q: TransitQuery)
    ensures q.pageIndex == s.pageIndex && q.pageSize == s.pageSize && q.keyword == s.searchQuery
    ensures q.types == TypesParam(s.typeFilter)
  {
    TransitQuery(s.pageIndex, s.pageSize, s.searchQuery, TypesParam(s.typeFilter))
  }

  /** The query never restricts to more than one type, and restricts to none only for "all". */
  lemma QueryTypesAtMostOne(s: PageState)
    ensures BuildQuery(s).types.Some? ==> |BuildQuery(s).types.value| == 1
    ensures BuildQuery(s).types.None? <==> s.typeFilter == AllTypes
  {
  }

  /**
   The list as it first appears asks for page 1, five points a page, with no keyword and
   no type restriction; a later size change comes back to that first page.
   */
  lemma InitialQueryIsFirstUnfilteredPage(value: string)
    ensures BuildQuery(InitialState) == TransitQuery(1, Some(5), "", None)
    ensures BuildQuery(HandlePageSizeChange(InitialState, value)).pageIndex == BuildQuery(InitialState).pageIndex
  {
  }

  // ---------------------------------------------------------------------------
  // Type labels
  // ---------------------------------------------------------------------------

  const KnownTypes: seq<string> := ["PLACE", "STATION", "OFFICE", "TRANSPORT"]

  /** `getTypeLabel`: the Vietnamese label of the four known codes; any other value is shown as is. */
  function GetTypeLabel(pointType: string): (caption: string)
    ensures pointType !in KnownTypes ==> caption == pointType
  {
    if pointType == "PLACE" then "Địa điểm"
    else if pointType == "STATION" then "Trạm"
    else if pointType == "OFFICE" then "Văn phòng"
    else if pointType == "TRANSPORT" then "Trung chuyển"
    else pointType
  }

  /** The captions of the type filter's options, in the order the selector lists them. */
  const TypeFilterCaptions: seq<string> := ["Địa điểm", "Trạm", "Văn phòng", "Trung chuyển"]

  /**
   The table labels a type exactly as the filter's option for that type is captioned, and
   the four known codes get four different labels, none equal to a code.
   */
  lemma TypeLabelsMatchFilter(i: nat, j: nat)
    requires i < |KnownTypes| && j < |KnownTypes|
    ensures GetTypeLabel(KnownTypes[i]) == TypeFilterCaptions[i]
    ensures GetTypeLabel(KnownTypes[i]) !in KnownTypes
    ensures i != j ==> GetTypeLabel(KnownTypes[i]) != GetTypeLabel(KnownTypes[j])
  {
  }

  /** A value is shown under a label different from itself exactly when it is one of the known codes. */
  lemma LabelChangesOnlyKnownTypes(pointType: string)
    ensures GetTypeLabel(pointType) != pointType <==> pointType in KnownTypes
  {
    if pointType in KnownTypes {
      var i :| 0 <= i < |KnownTypes| && KnownTypes[i] == pointType;
      TypeLabelsMatchFilter(i, i);
    }
  }

  // ---------------------------------------------------------------------------
  // Delete
  // ---------------------------------------------------------------------------

  /** The delete confirmation: the point it is about and whether the dialog is open. */
  datatype DeleteState = DeleteState(current: Option<TransitPoint>, dialogOpen: bool)

  /** `handleDeleteClick`: the row's point becomes the one the open confirmation is about. */
  function HandleDeleteClick(s: DeleteState, p: TransitPoint): (s': DeleteState)
    ensures s'.current == Some(p) && s'.dialogOpen
  {
    DeleteState(Some(p), true)
  }

  /** The confirmation's cancel button: the dialog closes and the selection is dropped. */
  function HandleCancel(s: DeleteState): (s': DeleteState)
    ensures s'.current.None? && !s'.dialogOpen
  {
    DeleteState(None, false)
  }

  /**
   `handleDeleteTransitPoint`: without a selected point nothing happens; otherwise one
   delete request for that point's id is sent and the dialog closes at once, before and
   whatever the request's outcome.
   */
  function HandleDelete(s: DeleteState): (result: (DeleteState, seq<string>))
    ensures s.current.None? ==> result.0 == s && result.1 == []
    ensures s.current.Some? ==> result.1 == [s.current.value.id]
    ensures s.current.Some? ==> !result.0.dialogOpen && result.0.current == s.current
  {
    if s.current.None? then (s, [])
    else (s.(dialogOpen := false), [s.current.value.id])
  }

  const DeletedText: string := "Xóa diểm trung chuyển thành công"

  /** What follows the delete request's answer: whether the list is fetched again, and the toasts. */
  datatype DeleteFollowUp = DeleteFollowUp(refetch: bool, toasts: seq<Toasts.Toast>)

  /**
   The answer to the delete request, `None` for success: a success refreshes the list and
   shows one success toast; a failure refreshes nothing and shows the shared error toast,
   which the HTTP client's response interceptor raises for every failed request.
   */
  function OnDeleteSettled(failure: Option<Toasts.RequestError>): (after: DeleteFollowUp)
    ensures after.refetch <==> failure.None?
    ensures failure.None? ==> after.toasts == Toasts.ShowSuccess(DeletedText)
    ensures failure.Some? ==> after.toasts == Toasts.ShowError(failure.value)
  {
    match failure
    case None => DeleteFollowUp(true, Toasts.ShowSuccess(DeletedText))
    case Some(e) => DeleteFollowUp(false, Toasts.ShowError(e))
  }

  /**
   Confirming a clicked row deletes that row's point, and the delete does not clear the
   selection: only cancelling does. Either way exactly one toast follows the answer.
   */
  lemma DeleteKeepsSelection(s: DeleteState, p: TransitPoint, failure: Option<Toasts.RequestError>)
    ensures HandleDelete(HandleDeleteClick(s, p)).1 == [p.id]
    ensures HandleDelete(HandleDeleteClick(s, p)).0.current == Some(p)
    ensures HandleDelete(HandleCancel(HandleDeleteClick(s, p))).1 == []
    ensures |OnDeleteSettled(failure).toasts| == 1
  {
  }

  // ---------------------------------------------------------------------------
  // Pagination
  // ---------------------------------------------------------------------------

  /** The page count under the table, with one point a page when the server gives no size. */
  function TransitTotalPages(total: Option<nat>, pageSize: Option<nat>): (pages: nat)
    ensures pages >= 1
    ensures (pages - 1) * Paging.OrElse(pageSize, 1) < Paging.OrElse(total, 1)
    ensures Paging.OrElse(total, 1) <= pages * Paging.OrElse(pageSize, 1)
    ensures total.None? || total.value == 0 ==> pages == 1
  {
    Paging.TotalPages(total, pageSize, 1)
  }
}
