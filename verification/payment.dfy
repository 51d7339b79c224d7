/**
 * The payment page's submit handler: clear the error, check that a payment method is chosen
 * and, for a credit card, that all card fields are filled in, post the payment, then either
 * move on to the completion page or show why the payment did not go through.
 */
module Payment {
  import opened Wrappers

  datatype CardDetails = CardDetails(cardNumber: string, expiryDate: string, cvv: string)

  /** The body posted to `/api/payment-processing`. */
  datatype PaymentRequest = PaymentRequest(amount: real, paymentMethod: string, cardDetails: Option<CardDetails>)

  /** What the post came back with: a response carrying `success`, or a thrown error. */
  datatype PostResult = Responded(success: bool) | Threw

  const Credit := "credit"
  const MethodMissing := "支払い方法を選択してください。"
  const CardIncomplete := "クレジットカード情報を全て入力してください。"
  const PaymentFailed := "支払いに失敗しました。もう一度お試しください。"
  const ProcessingFailed := "支払い処理中にエラーが発生しました。"
  const CompletionPage := "/ServiceCompletion"

  /** The guard chain: the message it stops on, or `None` when the request may be sent. */
  function ValidationError(paymentMethod: string, card: CardDetails): (e: Option<string>)
    ensures e == Some(MethodMissing) <==> paymentMethod == ""
    ensures e == Some(CardIncomplete) <==>
      paymentMethod == Credit && (card.cardNumber == "" || card.expiryDate == "" || card.cvv == "")
    ensures e.None? <==>
      paymentMethod != "" && (paymentMethod == Credit ==> card.cardNumber != "" && card.expiryDate != "" && card.cvv != "")
  {
    if paymentMethod == "" then Some(MethodMissing)
    else if paymentMethod == Credit && (card.cardNumber == "" || card.expiryDate == "" || card.cvv == "") then
      Some(CardIncomplete)
    else None
  }

  /** The request body: card details travel only with the credit method. */
  function RequestFor(amount: real, paymentMethod: string, card: CardDetails): (req: PaymentRequest)
    ensures req.amount == amount && req.paymentMethod == paymentMethod
    ensures req.cardDetails.Some? <==> paymentMethod == Credit
    ensures req.cardDetails.Some? ==> req.cardDetails.value == card
  {
    PaymentRequest(amount, paymentMethod, if paymentMethod == Credit then Some(card) else None)
  }

  /** The message shown after the post, or `None` when the page moves on. */
  function OutcomeError(result: PostResult): (e: Option<string>)
    ensures e.None? <==> result == Responded(true)
    ensures result == Responded(false) ==> e == Some(PaymentFailed)
    ensures result == Threw ==> e == Some(ProcessingFailed)
  {
    match result
    case Responded(success) => if success then None else Some(PaymentFailed)
    case Threw => Some(ProcessingFailed)
  }

  /** The method check comes first: an empty method never reports the card error. */
  lemma MethodCheckFirst(card: CardDetails)
    ensures ValidationError("", card) == Some(MethodMissing)
  {
  }

  /** A method other than credit is never stopped by the card fields. */
  lemma NonCreditSkipsCardChecks(amount: real, paymentMethod: string, card: CardDetails)
    requires paymentMethod != "" && paymentMethod != Credit
    ensures ValidationError(paymentMethod, card).None?
    ensures RequestFor(amount, paymentMethod, card).cardDetails.None?
  {
  }

  /** The page's state, as its `useState` hooks hold it; `route` is where the router was sent. */
  class PaymentPage {
    var totalAmount: real
    var paymentMethod: string
    var cardNumber: string
    var expiryDate: string
    var cvv: string
    var error: string
    var route: Option<string>

    constructor ()
      ensures totalAmount == 0.0 && paymentMethod == "" && cardNumber == "" && expiryDate == ""
      ensures cvv == "" && error == "" && route == None
    {
      totalAmount := 0.0;
      paymentMethod, cardNumber, expiryDate, cvv, error := "", "", "", "", "";
      route := None;
    }

    function Card(): CardDetails
      reads this
    {
      CardDetails(cardNumber, expiryDate, cvv)
    }

    /** The successful branch of `fetchTotalAmount`. */
    method LoadTotalAmount(amount: real)
      modifies this`totalAmount
      ensures totalAmount == amount
    {
      totalAmount := amount;
    }

    /** The payment-method buttons. */
    method SelectPaymentMethod(m: string)
      modifies this`paymentMethod
      ensures paymentMethod == m
    {
      paymentMethod := m;
    }

    /** The card form's inputs. */
    method EnterCard(number: string, expiry: string, code: string)
      modifies this`cardNumber, this`expiryDate, this`cvv
      ensures cardNumber == number && expiryDate == expiry && cvv == code
    {
      cardNumber, expiryDate, cvv := number, expiry, code;
    }

    /**
     * `handlePaymentSubmit`. `post` stands for what the payment endpoint would answer;
     * `sent` is the request actually posted, `None` when a guard stopped the handler.
     */
    method HandlePaymentSubmit(post: PostResult) returns (sent: Option<PaymentRequest>)
      modifies this`error, this`route
      ensures var stop := ValidationError(paymentMethod, Card());
        && (sent.None? <==> stop.Some?)
        && (stop.Some? ==> error == stop.value && route == old(route))
        && (stop.None? ==>
              && sent == Some(RequestFor(totalAmount, paymentMethod, Card()))
              && error == (if OutcomeError(post).Some? then OutcomeError(post).value else "")
              && route == (if post == Responded(true) then Some(CompletionPage) else old(route)))
    {
      error := "";

      if paymentMethod == "" {
        error := MethodMissing;
        return None;
      }

      if paymentMethod == Credit && (cardNumber == "" || expiryDate == "" || cvv == "") {
        error := CardIncomplete;
        return None;
      }

      var request := PaymentRequest(totalAmount, paymentMethod,
        if paymentMethod == Credit then Some(CardDetails(cardNumber, expiryDate, cvv)) else None);
      sent := Some(request);

      match post {
        case Responded(success) =>
          if success {
            route := Some(CompletionPage);
          } else {
            error := PaymentFailed;
          }
        case Threw =>
          error := ProcessingFailed;
      }
    }
  }
}
