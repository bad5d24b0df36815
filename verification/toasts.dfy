/**
 The toast helpers (lib/toast-utils.ts). `showError`: every failed request ends in exactly
 one error toast, whose text is chosen from the shape of the error object by a fixed
 priority cascade. `showSuccess`: one success toast with the given text.
 */
module Toasts {
  import opened Text

  /** The body the server sent back, if it sent one. */
  datatype ResponseData = ResponseData(message: Option<string>, error: Option<string>)

  datatype Response = Response(data: Option<ResponseData>, status: nat, statusText: Option<string>)

  /**
   The error object: a server response (the server answered), a pending request with no
   answer, and the error's own message.
   */
  datatype RequestError = RequestError(response: Option<Response>, request: bool, message: Option<string>)

  datatype ToastKind = Success | Error

  datatype Toast = Toast(kind: ToastKind, text: string)

  const DefaultMessage: string := "Đã xảy ra lỗi. Vui lòng thử lại sau."
  const NetworkMessage: string := "Không thể kết nối đến máy chủ. Vui lòng kiểm tra kết nối mạng."

  predicate DataMessageTruthy(resp: Response) {
    resp.data.Some? && Truthy(resp.data.value.message)
  }

  predicate DataErrorTruthy(resp: Response) {
    resp.data.Some? && Truthy(resp.data.value.error)
  }

  /** "Lỗi: {status} - {statusText}" */
  function StatusMessage(resp: Response): string
    requires resp.statusText.Some?
  {
    "Lỗi: " + NatToString(resp.status) + " - " + resp.statusText.value
  }

  /** The `errorMessage` the cascade settles on. */
  function ChooseMessage(e: RequestError): (m: string)
    // a server response decides alone, in the order message, error, status line
    ensures e.response.Some? && DataMessageTruthy(e.response.value) ==>
              m == e.response.value.data.value.message.value
    ensures e.response.Some? && !DataMessageTruthy(e.response.value) && DataErrorTruthy(e.response.value) ==>
              m == e.response.value.data.value.error.value
    ensures e.response.Some? && !DataMessageTruthy(e.response.value) && !DataErrorTruthy(e.response.value)
              && Truthy(e.response.value.statusText) ==>
              m == StatusMessage(e.response.value)
    ensures e.response.Some? && !DataMessageTruthy(e.response.value) && !DataErrorTruthy(e.response.value)
              && !Truthy(e.response.value.statusText) ==>
              m == DefaultMessage
    // with no response, a pending request means the server was unreachable
    ensures e.response.None? && e.request ==> m == NetworkMessage
    ensures e.response.None? && !e.request && Truthy(e.message) ==> m == e.message.value
    ensures e.response.None? && !e.request && !Truthy(e.message) ==> m == DefaultMessage
    // whatever the shape, the user never sees an empty message
    ensures m != ""
  {
    match e.response
    case Some(resp) =>
      if DataMessageTruthy(resp) then resp.data.value.message.value
      else if DataErrorTruthy(resp) then resp.data.value.error.value
      else if Truthy(resp.statusText) then StatusMessage(resp)
      else DefaultMessage
    case None =>
      if e.request then NetworkMessage
      else if Truthy(e.message) then e.message.value
      else DefaultMessage
  }

  /** The toasts one call of `showError` emits: exactly one, an error, carrying the chosen text. */
  function ShowError(e: RequestError): (toasts: seq<Toast>)
    ensures |toasts| == 1
    ensures toasts[0].kind == Error && toasts[0].text != ""
    ensures toasts[0].text == ChooseMessage(e)
  {
    [Toast(Error, ChooseMessage(e))]
  }

  /** `showSuccess`: one success toast with the given text. */
  function ShowSuccess(message: string): (toasts: seq<Toast>)
    ensures |toasts| == 1 && toasts[0].kind == Success && toasts[0].text == message
  {
    [Toast(Success, message)]
  }

  /**
   Once the server has answered, the request flag and the error's own message are never
   consulted: two errors with the same response get the same text.
   */
  lemma ResponseDecidesAlone(e1: RequestError, e2: RequestError)
    requires e1.response.Some? && e1.response == e2.response
    ensures ChooseMessage(e1) == ChooseMessage(e2)
  {
  }
}
