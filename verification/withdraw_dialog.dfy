/**
 The withdrawal detail dialog (app/withdrawals/withdraw-dialog.tsx). The dialog loads
 the command when it opens, polls it every three seconds while it waits for payment,
 shows its badge and (while waiting for payment) its QR code, and offers reject/accept
 buttons while the command waits to be resolved. Side effects are returned as a list
 of requests instead of being performed.
 */
module WithdrawDialog {
  import opened Text
  import opened Wallet
  import Withdrawals
  import Toasts

  /** What a handler asks the outside world to do. */
  datatype Effect =
    | FetchById(id: string)
    | StartPolling(id: string, periodMs: nat)
    | Resolve(id: string, target: WalletCommandStatus)
    | RefetchList
    | Notify(toasts: seq<Toasts.Toast>)
    | CloseDialog

  const PollPeriodMs: nat := 3000
  const ResolvedText: string := "Thành công"

  // ---------------------------------------------------------------------------
  // Effects
  // ---------------------------------------------------------------------------

  /** The effect on `open`: opening loads the command with the dialog's id; closing does nothing. */
  function OnOpenEffect(open: bool, id: string): (effects: seq<Effect>)
    ensures open ==> effects == [FetchById(id)]
    ensures !open ==> effects == []
  {
    if open then [FetchById(id)] else []
  }

  /** Whether the polling effect, run after the loaded command changed, sets up the timer. */
  predicate PollingActive(selected: Option<WalletCommand>, open: bool) {
    selected.Some? && selected.value.status == WaitToPay && open
  }

  /** The effect on `selected`: poll the same id every three seconds while payment is awaited. */
  function OnSelectedChange(selected: Option<WalletCommand>, open: bool, id: string): (effects: seq<Effect>)
    ensures |effects| <= 1
    ensures effects == [StartPolling(id, PollPeriodMs)] <==> PollingActive(selected, open)
    ensures !PollingActive(selected, open) ==> effects == []
  {
    if PollingActive(selected, open) then [StartPolling(id, PollPeriodMs)] else []
  }

  // ---------------------------------------------------------------------------
  // View
  // ---------------------------------------------------------------------------

  datatype FooterButton = RejectButton | AcceptButton | CloseButton

  /** The footer: reject and accept while the command waits to be resolved, otherwise a close button. */
  function FooterButtons(status: WalletCommandStatus): (buttons: seq<FooterButton>)
    ensures status == WaitToResolve ==> buttons == [RejectButton, AcceptButton]
    ensures status != WaitToResolve ==> buttons == [CloseButton]
  {
    if status == WaitToResolve then [RejectButton, AcceptButton] else [CloseButton]
  }

  /** The QR payment card: present when the command has a non-empty link and waits for payment. */
  function QrImage(cmd: WalletCommand): (qr: Option<string>)
    ensures qr.Some? <==> Truthy(cmd.paymentLink) && cmd.status == WaitToPay
    ensures qr.Some? ==> cmd.paymentLink == Some(qr.value) && qr.value != ""
  {
    if Truthy(cmd.paymentLink) && cmd.status == WaitToPay then cmd.paymentLink else None
  }

  /** What the dialog body shows for a loaded command. */
  datatype Body = Body(badge: Withdrawals.Badge, qr: Option<string>, buttons: seq<FooterButton>)

  /** The dialog body: nothing until a command is loaded; afterwards badge, QR card and footer. */
  function View(selected: Option<WalletCommand>): (body: Option<Body>)
    ensures body.Some? <==> selected.Some?
    ensures body.Some? ==> body.value.badge == Withdrawals.GetStatusBadge(selected.value.status)
    ensures body.Some? ==> body.value.qr == QrImage(selected.value)
    ensures body.Some? ==> body.value.buttons == FooterButtons(selected.value.status)
  {
    match selected
    case None => None
    case Some(cmd) =>
      Some(Body(Withdrawals.GetStatusBadge(cmd.status), QrImage(cmd), FooterButtons(cmd.status)))
  }

  // ---------------------------------------------------------------------------
  // Resolving
  // ---------------------------------------------------------------------------

  /** The status a footer button asks the server to move the command to, if any. */
  function ResolutionTarget(b: FooterButton): (target: Option<WalletCommandStatus>)
    ensures target.Some? ==> target.value in {Rejected, WaitToPay}
    ensures target.None? <==> b == CloseButton
  {
    match b
    case RejectButton => Some(Rejected)
    case AcceptButton => Some(WaitToPay)
    case CloseButton => None
  }

  /** A click on a footer button: `handleResolve` with the button's target, or close. */
  function OnClick(b: FooterButton, id: string): (effects: seq<Effect>)
    ensures ResolutionTarget(b).Some? ==> effects == [Resolve(id, ResolutionTarget(b).value)]
    ensures ResolutionTarget(b).None? ==> effects == [CloseDialog]
  {
    match ResolutionTarget(b)
    case Some(target) => [Resolve(id, target)]
    case None => [CloseDialog]
  }

  /**
   The answer to a resolve request: the returned command is shown as is, the list is
   refreshed when the dialog was given a refresh callback, and a success toast appears.
   */
  function OnResolved(res: WalletCommand, hasRefetch: bool): (result: (Option<WalletCommand>, seq<Effect>))
    ensures result.0 == Some(res)
    ensures hasRefetch ==> result.1 == [RefetchList, Notify(Toasts.ShowSuccess(ResolvedText))]
    ensures !hasRefetch ==> result.1 == [Notify(Toasts.ShowSuccess(ResolvedText))]
  {
    var notify := Notify(Toasts.ShowSuccess(ResolvedText));
    (Some(res), if hasRefetch then [RefetchList, notify] else [notify])
  }

  /**
   Resolve buttons appear only in the footer of a displayed command that waits to be
   resolved, and they ask only for rejection or payment: every click on a shown button of
   any other displayed command closes. The request carries the dialog's `id`, which is not
   always the displayed command's (see `StaleCommandResolvesDialogId`).
   */
  lemma ResolveOnlyWaitingCommands(selected: Option<WalletCommand>, b: FooterButton, id: string, target: WalletCommandStatus)
    requires View(selected).Some? && b in View(selected).value.buttons
    requires Resolve(id, target) in OnClick(b, id)
    ensures selected.value.status == WaitToResolve
    ensures target == Rejected || target == WaitToPay
  {
  }

  /**
   The footer is decided by the displayed command, the request by the dialog's `id`. While
   a newly chosen row is loading, the previous row's command is still displayed: if that one
   waits to be resolved, accepting sends the resolve request for the new row's id whatever
   the new row's status.
   */
  lemma StaleCommandResolvesDialogId(shown: WalletCommand, id: string)
    requires shown.status == WaitToResolve && shown.id != id
    ensures AcceptButton in View(Some(shown)).value.buttons
    ensures OnClick(AcceptButton, id) == [Resolve(id, WaitToPay)]
    ensures Resolve(shown.id, WaitToPay) !in OnClick(AcceptButton, id)
  {
  }

  /**
   Opening the dialog asks for the command; once the answer (or a later poll's answer) is
   shown, the dialog keeps polling exactly when that command still waits for payment, and
   stops asking as soon as a poll returns any other status.
   */
  lemma OpenLoadsThenPolls(res: WalletCommand, id: string)
    ensures OnOpenEffect(true, id) == [FetchById(id)]
    ensures res.status == WaitToPay ==> OnSelectedChange(Some(res), true, id) == [StartPolling(id, PollPeriodMs)]
    ensures res.status != WaitToPay ==> OnSelectedChange(Some(res), true, id) == []
    ensures View(Some(res)).value.qr.Some? ==> res.status == WaitToPay
  {
  }

  /** A command with a QR code, once loaded into an open dialog, starts the dialog polling. */
  lemma QrLoadedStartsPolling(selected: Option<WalletCommand>, open: bool, id: string)
    requires open && View(selected).Some? && View(selected).value.qr.Some?
    ensures OnSelectedChange(selected, open, id) == [StartPolling(id, PollPeriodMs)]
  {
  }

  /**
   Accepting a waiting command starts polling as soon as the server confirms the move to
   payment, and the dialog then offers only the close button.
   */
  lemma AcceptStartsPolling(res: WalletCommand, hasRefetch: bool, id: string)
    requires res.status == WaitToPay
    ensures OnSelectedChange(OnResolved(res, hasRefetch).0, true, id) == [StartPolling(id, PollPeriodMs)]
    ensures View(OnResolved(res, hasRefetch).0).value.buttons == [CloseButton]
  {
  }
}
