/**
 * The three string enums of src/constants/index.ts. Requests carry them as
 * strings; `Parse…` is membership in the enum and `…Name` the stored string.
 */
module Constants {
  import opened Wrappers

  datatype OrderStatus = PENDING | SHIPPING | DELIVERED | CANCELLED
  datatype PaymentMethod = CASH | BANK_TRANSFER
  datatype PaymentStatus = PENDING | PAID | FAILED

  function OrderStatusName(s: OrderStatus): string {
    match s
    case PENDING => "PENDING"
    case SHIPPING => "SHIPPING"
    case DELIVERED => "DELIVERED"
    case CANCELLED => "CANCELLED"
  }

  function ParseOrderStatus(s: string): (r: Option<OrderStatus>)
    ensures r.Some? ==> OrderStatusName(r.value) == s
  {
    if s == "PENDING" then Some(OrderStatus.PENDING)
    else if s == "SHIPPING" then Some(SHIPPING)
    else if s == "DELIVERED" then Some(DELIVERED)
    else if s == "CANCELLED" then Some(CANCELLED)
    else None
  }

  function PaymentMethodName(m: PaymentMethod): string {
    match m
    case CASH => "CASH"
    case BANK_TRANSFER => "BANK_TRANSFER"
  }

  function ParsePaymentMethod(s: string): (r: Option<PaymentMethod>)
    ensures r.Some? ==> PaymentMethodName(r.value) == s
  {
    if s == "CASH" then Some(CASH)
    else if s == "BANK_TRANSFER" then Some(BANK_TRANSFER)
    else None
  }

  function PaymentStatusName(p: PaymentStatus): string {
    match p
    case PENDING => "PENDING"
    case PAID => "PAID"
    case FAILED => "FAILED"
  }

  function ParsePaymentStatus(s: string): (r: Option<PaymentStatus>)
    ensures r.Some? ==> PaymentStatusName(r.value) == s
  {
    if s == "PENDING" then Some(PaymentStatus.PENDING)
    else if s == "PAID" then Some(PAID)
    else if s == "FAILED" then Some(FAILED)
    else None
  }

  /** Every enum value is accepted under its own name, so parsing and naming are inverse. */
  lemma EnumNamesRoundTrip(s: OrderStatus, m: PaymentMethod, p: PaymentStatus)
    ensures ParseOrderStatus(OrderStatusName(s)) == Some(s)
    ensures ParsePaymentMethod(PaymentMethodName(m)) == Some(m)
    ensures ParsePaymentStatus(PaymentStatusName(p)) == Some(p)
  {
  }
}
