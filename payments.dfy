/** Strategy: a payment service whose payment method is selected once, by key, when the service
    is constructed. */
module Payments {
  import opened Outcomes

  datatype PaymentMethod = PaypalPaymentMethod | StripePaymentMethod
  {
    /** The fixed text each payment method returns when a payment is processed. */
    function ProcessPayment(): string
    {
      match this
      case PaypalPaymentMethod => "this is a paypal payment method \n"
      case StripePaymentMethod => "this is a stripe payment method \n"
    }

    /** The key that selects the method. */
    function Key(): string
    {
      match this
      case PaypalPaymentMethod => "paypal"
      case StripePaymentMethod => "stripe"
    }
  }

  const NoPaymentMethod := Exception("InvalidArgumentException", "no payment method selected")

  /** A constructed service; its method never changes afterwards. */
  datatype PaymentService = PaymentService(payment: PaymentMethod)
  {
    /** Delegates to the selected method. */
    function Pay(): (r: string)
      ensures r == payment.ProcessPayment()
    {
      payment.ProcessPayment()
    }
  }

  /** The constructor: strict, case-sensitive selection among "paypal" and "stripe"; any other
      key throws and no service exists. */
  function NewPaymentService(paymentMethodSelected: string): (r: Result<PaymentService>)
    ensures r.Ok? <==> paymentMethodSelected == "paypal" || paymentMethodSelected == "stripe"
    ensures r.Ok? ==> r.value.payment.Key() == paymentMethodSelected
    ensures r.Thrown? ==> r.error == NoPaymentMethod
  {
    if paymentMethodSelected == "paypal" then Ok(PaymentService(PaypalPaymentMethod))
    else if paymentMethodSelected == "stripe" then Ok(PaymentService(StripePaymentMethod))
    else Thrown(NoPaymentMethod)
  }

  /** Each method is selected by its own key, and by no other. */
  lemma KeySelects(choice: PaymentMethod, key: string)
    ensures NewPaymentService(key) == Ok(PaymentService(choice)) <==> key == choice.Key()
  {
  }

  /** What a payment returns is determined by the key alone. */
  lemma PayByKey(key: string)
    ensures NewPaymentService(key).Ok? ==>
      NewPaymentService(key).value.Pay() ==
        (if key == "paypal" then "this is a paypal payment method \n"
         else "this is a stripe payment method \n")
  {
  }

  /** The demonstration script: "stripe", then "paypal", then "invalid", which throws. */
  method PaymentDemo() returns (stripe: string, paypal: string, invalid: Result<PaymentService>)
    ensures stripe == "this is a stripe payment method \n"
    ensures paypal == "this is a paypal payment method \n"
    ensures invalid == Thrown(Exception("InvalidArgumentException", "no payment method selected"))
  {
    var s := NewPaymentService("stripe");
    stripe := s.value.Pay();
    var p := NewPaymentService("paypal");
    paypal := p.value.Pay();
    invalid := NewPaymentService("invalid");
  }

  /** Selection compares strictly: a key differing only in letter case is refused. */
  lemma SelectionIsCaseSensitive()
    ensures NewPaymentService("PayPal").Thrown? && NewPaymentService("Stripe").Thrown?
  {
  }
}
