# Decision rules of the FUTA bus-ticketing admin dashboard, in Dafny

The admin dashboard is a set of React pages over an HTTP back end. This project models the
small, deterministic rules inside those pages as pure Dafny functions, and proves what each
page promises about them:

- the customer search and status filter (`Customers`, app/customers/page.tsx);
- the shared toasts, with the message cascade of the error toast (`Toasts`, lib/toast-utils.ts);
- the overview page's rules (`Dashboard`, app/dashboard/page.tsx):
  - the statistic-query argument;
  - the `YYYY-MM-DD` reporting window;
  - the summary-card key lookup;
  - the totals that fall back to zero;
  - the year selector;
  - the outflow table's page count.
- the transit-point list (`TransitPoints`, app/transit-points/page.tsx):
  - paging and page-size state;
  - the `types` filter parameter;
  - the type labels;
  - the guarded delete;
  - the page count.
- the withdrawal list (`Withdrawals`, app/withdrawals/page.tsx):
  - the status badges;
  - the query parameters;
  - the page reset on a search or filter change;
  - the page count.
- the withdrawal dialog (`WithdrawDialog`, app/withdrawals/withdraw-dialog.tsx):
  - loading the command on open;
  - the polling condition;
  - the QR card;
  - the status-gated footer buttons and their resolution targets.
- the profile form (`Profile`, app/profile/page.tsx):
  - field edits;
  - the profile-update payload;
  - the password-change check and its aftermath.

Shared helpers:

- `Text` holds the JavaScript string built-ins the pages use: ASCII `toLowerCase`, `includes`, decimal printing, `padStart` and `Number.parseInt`.
- `Paging` holds JavaScript's `||` fallback and the common page-count rule `Math.ceil((total || 1) / (pageSize || d))`.
- `Wallet` holds the wallet-command record and its status and action enumerations.

Handlers do not mutate anything. Each one maps the old state to a new state. Where a handler talks to the server or shows a toast, it returns the request or toast as data. The clock (current month and year) is a parameter; where one page reads it more than once, the model reads it once.

## Model

| member | source | states |
|---|---|---|
| Customers.MatchesSearch | app/customers/page.tsx:130-133 | a customer matches exactly when the lower-cased query occurs at some position of the lower-cased name, e-mail or id; the empty query matches everyone |
| Customers.MatchesStatus | app/customers/page.tsx:134 | "all" lets every customer through; any other value exactly the customers with that status |
| Customers.FilterCustomers | app/customers/page.tsx:129-136 | the shown list is an order-preserving subsequence of the customers; every shown customer matches the lower-cased query in name, e-mail or id and has the selected status unless "all" is selected; every customer that passes both checks is shown |
| Customers.FilterKeepsMultiplicity | app/customers/page.tsx:129-136 | each shown customer appears in the table as often as in the full list, and a hidden one not at all |
| Customers.EmptySearchShowsAll | app/customers/page.tsx:130-134 | an empty query with "all" selected shows the whole list unchanged |
| Customers.FilterIdempotent | app/customers/page.tsx:129-136 | filtering the shown list again with the same query and status changes nothing |
| Customers.SearchIgnoresCase | app/customers/page.tsx:130-133 | a query and its lower-cased form show exactly the same customers |
| Toasts.ChooseMessage | lib/toast-utils.ts:5-23 | with a response: the data message if truthy, else the data error if truthy, else "Lỗi: {status} - {statusText}" if the status text is truthy, else the default; without a response: the network message if a request was made, else the error's own message if truthy, else the default; never empty |
| Toasts.ShowError | lib/toast-utils.ts:5-25 | one call emits exactly one toast, of the error kind, whose text is the non-empty message the cascade chooses for that error |
| Toasts.ShowSuccess | lib/toast-utils.ts:27-29 | one call emits exactly one toast, of the success kind, with the given text |
| Toasts.ResponseDecidesAlone | lib/toast-utils.ts:7-16 | once a response exists, the request flag and the error's own message never influence the text |
| Text.ToLower | app/customers/page.tsx:131 | `toLowerCase` keeps the length and lower-cases each ASCII capital in place |
| Text.ToLowerIdempotent | app/customers/page.tsx:131-133 | lower-casing twice is lower-casing once |
| Text.Includes | app/customers/page.tsx:131-133 | `includes` holds exactly when the query occurs at some position of the text |
| Text.TrimStartDropsOnlySpace | app/transit-points/page.tsx:131 | `parseInt` skips a suffix-preserving prefix of white space only |
| Text.EmptyIncluded | app/customers/page.tsx:131 | every text includes the empty query |
| Text.NatToString | app/dashboard/page.tsx:205 | `toString` of a count: non-empty decimal digits without a leading zero; one digit exactly below 10 |
| Text.NatToStringValue | app/dashboard/page.tsx:205 | the printed digits denote the number printed |
| Text.ParseInt | app/transit-points/page.tsx:131 | `parseInt` gives NaN exactly when no digit follows the leading white space and the optional sign; a negative result only comes from a leading minus |
| Text.ParseIntNatToString | app/transit-points/page.tsx:131 | parsing a printed count gives the count back |
| Text.ParseIntNoDigits | app/transit-points/page.tsx:131 | a value that starts with neither white space, a sign nor a digit parses to NaN |
| Dashboard.StatisticArgument | app/dashboard/page.tsx:68-97 | the booking, revenue and trip statistics get the selected year in the monthly view and the empty string in the yearly view |
| Dashboard.StatisticArgumentIsWindowYear | app/dashboard/page.tsx:68-110 | in the monthly view the statistic argument is the year both window dates read back as; in the yearly view the statistics get no year while the window lies in the selected year |
| Dashboard.ReportingRange | app/dashboard/page.tsx:104-110 | read back as dates, the window is day 1 to day 31 of the current month of the selected year (monthly) or January 1 to December 31 of that year (yearly); both strings are the year plus six characters |
| Dashboard.ParseFormatDate | app/dashboard/page.tsx:107-110 | a `{year}-{MM}-{DD}` string with two-digit month and day reads back as the same year, month and day |
| Dashboard.MonthlyRangeSpelling | app/dashboard/page.tsx:104-110 | the monthly window is literally `{year}-{MM}-01` to `{year}-{MM}-31` with MM the two-digit current month |
| Dashboard.YearlyRangeSpelling | app/dashboard/page.tsx:107-110 | the yearly window is literally `{year}-01-01` to `{year}-12-31` |
| Text.TwoDigitsIsPadStart | app/dashboard/page.tsx:104 | the two-digit month equals `String(month).padStart(2, "0")` |
| Dashboard.TotalOutQuery | app/dashboard/page.tsx:100-112 | the outflow total asks for outgoing transfers over the reporting window |
| Dashboard.TransactionsOutQuery | app/dashboard/page.tsx:117-132 | the outflow table asks for outgoing transfers over the reporting window, ten a page, at the selected page and keyword |
| Dashboard.TotalCommandOutQuery | app/dashboard/page.tsx:137-150 | the withdrawal total asks for successful withdraw commands over the reporting window |
| Dashboard.OutflowQueriesShareWindow | app/dashboard/page.tsx:104-110 | for one reading of the clock, the three outflow queries cover the same window |
| Dashboard.FindIndex | app/dashboard/page.tsx:203-206 | the index found holds the key and no earlier item does; no index means no item holds the key |
| Dashboard.SummaryKey | app/dashboard/page.tsx:200-211 | the monthly key is the decimal current month without leading zero; the yearly key is the selected year |
| Dashboard.SummaryValue | app/dashboard/page.tsx:228-237 | a value is shown exactly when the statistics have arrived and some item has the summary key, and it is the value of the first such item |
| Dashboard.MonthKeyIsUnpadded | app/dashboard/page.tsx:205 | for months 1 to 9 the looked-up key differs from the zero-padded month of the date window |
| Dashboard.DisplayedTotal | app/dashboard/page.tsx:282 | the withdrawal total (and, by the same expression at line 300, the outflow total) show 0 while no value has arrived, and the value otherwise |
| Dashboard.YearOptions | app/dashboard/page.tsx:176-179 | the year options are the consecutive years 2020, 2021, … up to two years after the current one, in increasing order, and nothing else |
| Dashboard.OutflowTotalPages | app/dashboard/page.tsx:520-523 | at least one page, and just enough pages of the reported size (10 by default) to hold the reported total |
| Paging.OrElse | app/transit-points/page.tsx:312-313 | JavaScript `v \|\| d` on a count: the value when present and non-zero, the default otherwise |
| Paging.TotalPages | app/withdrawals/page.tsx:257-259 | the withdrawal list's page count (and, with other defaults, every list's): never fewer than one page, and the smallest count of pages of the effective size that holds the effective total |
| Paging.EmptyTotalIsOnePage | app/transit-points/page.tsx:311-314 | a total of zero, or no answer yet, gives exactly one page |
| TransitPoints.HandlePageChange | app/transit-points/page.tsx:126-128 | a page change sets the page index and nothing else |
| TransitPoints.HandlePageSizeChange | app/transit-points/page.tsx:130-133 | a page-size change stores the parsed size and returns to page 1, keeping search and filter |
| TransitPoints.PageSizeOptionsParse | app/transit-points/page.tsx:222-225 | choosing 5, 10, 20 or 50 stores exactly that size |
| TransitPoints.HandleSearchChange | app/transit-points/page.tsx:197 | typing a search changes the search text only, and the page index stays |
| TransitPoints.HandleTypeFilterChange | app/transit-points/page.tsx:202 | picking a type changes the type filter only |
| TransitPoints.TypesParam | app/transit-points/page.tsx:95-98 | "all" sends no `types`; any other value sends the one-element list holding it |
| TransitPoints.BuildQuery | app/transit-points/page.tsx:91-99 | the query carries the state's page, size, search as keyword and the `types` parameter |
| TransitPoints.QueryTypesAtMostOne | app/transit-points/page.tsx:95-98 | the query restricts to at most one type, and to none exactly for "all" |
| TransitPoints.InitialQueryIsFirstUnfilteredPage | app/transit-points/page.tsx:65-68 | the list first asks for page 1, five a page, with no keyword and no type restriction; a size change returns to that page |
| TransitPoints.GetTypeLabel | app/transit-points/page.tsx:150-163 | any code other than PLACE, STATION, OFFICE and TRANSPORT is shown unchanged |
| TransitPoints.TypeLabelsMatchFilter | app/transit-points/page.tsx:207-211 | each known code's label is the caption of its filter option; the four labels are distinct and none is a code |
| TransitPoints.LabelChangesOnlyKnownTypes | app/transit-points/page.tsx:150-163 | a code is shown differently from itself exactly when it is one of the four known codes |
| TransitPoints.HandleDeleteClick | app/transit-points/page.tsx:110-113 | a row's delete button selects that point and opens the confirmation |
| TransitPoints.HandleCancel | app/transit-points/page.tsx:333-340 | cancelling closes the confirmation and drops the selection |
| TransitPoints.HandleDelete | app/transit-points/page.tsx:115-124 | with no selected point nothing happens; otherwise one delete request for its id is sent and the dialog is closed whatever the outcome |
| TransitPoints.OnDeleteSettled | app/transit-points/page.tsx:117-122 | a successful delete refreshes the list and shows the success toast "Xóa diểm trung chuyển thành công"; a failed one refreshes nothing and shows the shared error toast of the HTTP client's interceptor |
| TransitPoints.DeleteKeepsSelection | app/transit-points/page.tsx:110-124 | confirming a clicked row deletes that row's point; the delete does not clear the selection, only cancelling does (line 337); exactly one toast follows the answer |
| TransitPoints.TransitTotalPages | app/transit-points/page.tsx:311-314 | at least one page, one page for an empty or missing total, and just enough pages of the reported size (1 by default) |
| Withdrawals.GetStatusBadge | app/withdrawals/page.tsx:46-79 | every status outside the five named ones gets the gray "Khác" badge, and none of the five does |
| Withdrawals.KnownStatusesAreTheNamedOnes | app/withdrawals/page.tsx:46-79 | the badge table's named statuses are exactly the five non-`Other` statuses |
| Withdrawals.BadgeTextIdentifiesStatus | app/withdrawals/page.tsx:46-79 | two statuses get the same caption exactly when they are the same named status or both unnamed |
| Withdrawals.SharedBlueBadge | app/withdrawals/page.tsx:53-57 | waiting-to-pay and returned share their classes but not their caption |
| Withdrawals.FilterCaptionsMatchBadges | app/withdrawals/page.tsx:162-174 | each status-filter option is captioned as the badge of the rows it selects |
| Withdrawals.OnSearchChange | app/withdrawals/page.tsx:144-147 | a search change stores the text and resets the page to 1 |
| Withdrawals.OnStatusFilterChange | app/withdrawals/page.tsx:153-156 | a status change stores the filter and resets the page to 1 |
| Withdrawals.OnPageChange | app/withdrawals/page.tsx:260 | the pagination sets the page only |
| Withdrawals.StatusesParam | app/withdrawals/page.tsx:104 | "all" sends no `statuses`; a single status sends the list holding it |
| Withdrawals.BuildQuery | app/withdrawals/page.tsx:99-105 | every query asks for withdrawals only, ten a page, at the state's page and search |
| Withdrawals.FilterChangesQueryFirstPage | app/withdrawals/page.tsx:144-156 | after a search or status change the query asks for page 1 and differs from before only in the changed parameter |
| Withdrawals.InitialQueryIsFirstUnfilteredPage | app/withdrawals/page.tsx:82-105 | the list first asks for page 1 of the withdrawals, ten a page, with no keyword and no status restriction; filtering from there stays on page 1 |
| WithdrawDialog.OnOpenEffect | app/withdrawals/withdraw-dialog.tsx:53-58 | opening loads the command with the dialog's id; closing sends nothing |
| WithdrawDialog.OnSelectedChange | app/withdrawals/withdraw-dialog.tsx:60-67 | polling every 3000 ms starts exactly when the loaded command waits for payment and the dialog is open |
| WithdrawDialog.OpenLoadsThenPolls | app/withdrawals/withdraw-dialog.tsx:44-67 | opening asks for the command; once a fetched command is shown in the open dialog, polling every 3000 ms is set up exactly when it waits for payment, and a poll answering any other status sets up nothing more |
| WithdrawDialog.FooterButtons | app/withdrawals/withdraw-dialog.tsx:200-221 | reject and accept are offered exactly when the command waits to be resolved; otherwise only close |
| WithdrawDialog.QrImage | app/withdrawals/withdraw-dialog.tsx:177-178 | the QR card appears exactly when the payment link is non-empty and the command waits for payment, and shows that link |
| WithdrawDialog.View | app/withdrawals/withdraw-dialog.tsx:88-224 | nothing is shown before a command is loaded; afterwards its badge, QR card and footer |
| WithdrawDialog.ResolutionTarget | app/withdrawals/withdraw-dialog.tsx:69-71 | a resolution target is only ever rejected or waiting-to-pay; close has none |
| WithdrawDialog.OnClick | app/withdrawals/withdraw-dialog.tsx:202-220 | reject and accept send a resolve request with their target for the dialog's id; close closes |
| WithdrawDialog.OnResolved | app/withdrawals/withdraw-dialog.tsx:72-76 | the shown command becomes exactly the server's answer; the list is refreshed if a callback was given; one success toast follows |
| WithdrawDialog.ResolveOnlyWaitingCommands | app/withdrawals/withdraw-dialog.tsx:69-77 | resolve buttons are offered only for a displayed command that waits to be resolved, and ask only for rejected or waiting-to-pay; the request carries the dialog's id |
| WithdrawDialog.StaleCommandResolvesDialogId | app/withdrawals/withdraw-dialog.tsx:69-77 | when the displayed command is still the previous row's and waits to be resolved, accept sends the resolve request for the new row's id, not the displayed one's |
| WithdrawDialog.QrLoadedStartsPolling | app/withdrawals/withdraw-dialog.tsx:60-67 | a command with a QR code, once loaded into an open dialog, starts the polling |
| WithdrawDialog.AcceptStartsPolling | app/withdrawals/withdraw-dialog.tsx:72-73 | once the server confirms a move to waiting-to-pay, the open dialog polls and offers only close |
| Profile.FormFromProfile | app/profile/page.tsx:47-54 | a loaded profile fills name, e-mail and phone and empties the password inputs |
| Profile.FieldNamed | app/profile/page.tsx:103-108 | an input name designates the field of that name, or none when no field has it |
| Profile.HandleInputChange | app/profile/page.tsx:103-109 | an edit sets the field its input names and leaves every other field as it was |
| Profile.InputNamesRoundTrip | app/profile/page.tsx:103-108 | every field's input name routes the edit back to that field |
| Profile.RetypingChangesNothing | app/profile/page.tsx:103-108 | entering a field's current value leaves the form unchanged |
| Profile.HandleProfileUpdate | app/profile/page.tsx:64-71 | the update raises the loading flag and sends the name as fullName and the phone as phoneNumber |
| Profile.OnProfileUpdateSettled | app/profile/page.tsx:72-73 | the answer lowers the loading flag; a success shows the toast "Thông tin cơ bản đã cập nhật", a failure no toast of the page's own; the form is left as it is |
| Profile.ProfileUpdateIgnoresOtherFields | app/profile/page.tsx:68-71 | e-mail and passwords never influence the update; a freshly loaded form sends the profile back unchanged |
| Profile.HandlePasswordChange | app/profile/page.tsx:76-90 | a request is sent exactly when the new password equals its confirmation, carrying the current and new passwords; a mismatch gives one error toast, no request and no loading |
| Profile.OnPasswordSettled | app/profile/page.tsx:91-99 | the answer lowers the loading flag; success empties the three password inputs, restores name, e-mail and phone as submitted and shows one success toast; failure leaves the form as it is with no toast of the page's own |
| Profile.PasswordRequestOnlyWhenConfirmed | app/profile/page.tsx:81-98 | the password set is the one typed twice; afterwards the form is as freshly loaded with the submitted profile values |
| Profile.EditsDuringRequestRevert | app/profile/page.tsx:93-98 | the success handler rebuilds the form from the values captured at submission, so a name edited while the request was pending reverts; after a failure the edit stays |
| Profile.SubmissionsEndIdle | app/profile/page.tsx:64-99 | whenever either form raises the loading flag, the answer lowers it again, on success and on failure |

## Left out

- Rendering is not modelled: JSX markup, charts, tables, dialogs and navigation, and the icons (`getTypeIcon`).
- HTTP is not modelled: the API clients, axios and react-query caching and refetch. Requests are returned as data. The one part of the client that is modelled is the error toast its response interceptor shows for a failed request (services/index.ts, lines 23-29), in `TransitPoints.OnDeleteSettled`.
- The loading spinner flag is left out, except where the profile page's two forms return it. The withdrawal dialog raises and lowers it around the fetch call in the same tick, which has no visible effect.
- Authentication and session storage are not modelled.
- Timers are reduced to whether polling is active. The interval's clean-up and re-arming are left out.
- Locale and floating point are not modelled: `toLocaleString` formatting, `new Date` parsing and the per-customer averages.
- The trip-transit reorder editor is outside the modelled core.
- services/API/walletAPI.ts is not part of this model. Its string values for the statuses and actions are unknown, so a status is one of the five names the pages use or `Other`, and an action is `Withdraw` (the only one the pages send) or `OtherAction`.
- Text.ToLower: only ASCII letters are folded. JavaScript's `toLowerCase` also folds other Unicode letters, such as Vietnamese capitals.
- Text.ParseInt: it covers leading white space, one sign and a decimal digit prefix. It leaves out hexadecimal prefixes and the Unicode white space set. NaN is modelled as `None`.
- TransitPoints.GetTypeLabel: point types are treated as the strings the server sends. The TypeScript enum declares numeric members, which would print as "0" to "3" and fall through to the default branch.
- Profile.HandleInputChange: an input name outside the six fields leaves the form unchanged. JavaScript would add a new key, but every input on the page carries one of the six names.
- Toasts.ChooseMessage: the response's message, error and status text are modelled as optional strings. Non-string values are not modelled.
- Dashboard.ReportingRange: it states what the page sends. The monthly window always ends on day 31, even in months with 30 days and in February. Whether the server accepts such a date is not part of this model.
- WithdrawDialog.OnSelectedChange: it runs only when the selected command changes. Opening or closing the dialog on its own does not re-evaluate it, and the model leaves it that way.
- WithdrawDialog.QrLoadedStartsPolling: it holds when the command is loaded. A dialog closed and reopened keeps its last command, so until the new fetch answers it can show a stale QR card without polling, because the polling effect runs only when the loaded command changes.
- Failed requests on the profile page and in the withdrawal dialog show the HTTP client's error toast. The profile page's account client is not part of this model, so `Profile.OnProfileUpdateSettled` and `Profile.OnPasswordSettled` list only the page's own toasts.
- WithdrawDialog.ResolveOnlyWaitingCommands: it speaks of the displayed command, not of the command the request is for. The list keeps the dialog mounted once a row was viewed (app/withdrawals/page.tsx, lines 266-273). Choosing another row changes the dialog's id and starts a fetch, but until it answers the previous row's command stays displayed. Its footer can then resolve the new row whatever that row's status; `WithdrawDialog.StaleCommandResolvesDialogId` exhibits this.
- Dashboard.OutflowQueriesShareWindow: it holds for one reading of the clock. Each of the three queries reads the date itself when it runs (app/dashboard/page.tsx, lines 104, 121 and 141), and they are fetched under separate keys; the outflow table alone refetches on every page or keyword change. Across a month boundary the table and the two totals can cover different months.
- Profile.HandleProfileUpdate: the form is modelled only after the profile has loaded. Before that, name, e-mail and phone are read from an empty profile object and are undefined (lines 30-39): a submit then sends an undefined name and phone, and an edit typed then is overwritten when the profile arrives (app/profile/page.tsx, line 47). A `string` field cannot hold that state.
