/** The payments page: status badges, status icons and the toast shown on
    return from the hosted checkout. */
module PaymentsPage {
  import opened Wrappers

  datatype BadgeVariant = Default | Secondary | Destructive | Outline
  datatype Badge = Badge(caption: string, variant: BadgeVariant)

  function PendingBadge(): Badge { Badge("Pendiente", Secondary) }

  /** `getStatusBadge`: the four known statuses, anything else as pending. */
  function StatusBadge(status: string): (b: Badge)
    ensures status == "pending" ==> b == Badge("Pendiente", Secondary)
    ensures status == "succeeded" ==> b == Badge("Completado", Default)
    ensures status == "failed" ==> b == Badge("Fallido", Destructive)
    ensures status == "canceled" ==> b == Badge("Cancelado", Outline)
    ensures status !in {"pending", "succeeded", "failed", "canceled"} ==> b == PendingBadge()
  {
    match status
    case "pending" => Badge("Pendiente", Secondary)
    case "succeeded" => Badge("Completado", Default)
    case "failed" => Badge("Fallido", Destructive)
    case "canceled" => Badge("Cancelado", Outline)
    case _ => PendingBadge()
  }

  datatype StatusIcon = CheckIcon | ClockIcon

  /** Only a succeeded payment gets the check mark. */
  function PaymentIcon(status: string): (i: StatusIcon)
    ensures i == CheckIcon <==> status == "succeeded"
  {
    if status == "succeeded" then CheckIcon else ClockIcon
  }

  datatype Toast = PaymentSucceededToast | PaymentCanceledToast

  /** The toast for the `success` and `canceled` query parameters: success
      wins, and without either there is none. */
  function RedirectToast(success: Option<string>, canceled: Option<string>): (t: Option<Toast>)
    ensures success == Some("true") ==> t == Some(PaymentSucceededToast)
    ensures success != Some("true") && canceled == Some("true") ==> t == Some(PaymentCanceledToast)
    ensures t.None? <==> success != Some("true") && canceled != Some("true")
  {
    if success == Some("true") then Some(PaymentSucceededToast)
    else if canceled == Some("true") then Some(PaymentCanceledToast)
    else None
  }
}
