/** The two route handlers, composed from the normaliser and the translator. The
    processor client's `payment.create` and `payment.get` are parameters: `create`
    maps a request body to the processor's payment record or thrown error, `get`
    does the same for a payment id. */
module Handlers {
  import opened Js
  import opened Digits
  import opened Checkout
  import opened Translate

  /** The early reply for a missing or falsy `payment_method_id`. */
  const IncompleteReply := Reply(Code(BadRequest), ErrorBody(Str(IncompleteMessage)))

  /** The `catch` of the creation route: an exception anywhere in the `try` block
      becomes the 400 creation-failure reply. */
  function Catch(attempt: Completion<Reply>): (r: Reply)
    ensures attempt.Normal? ==> r == attempt.value
    ensures attempt.Throw? ==> r == CreationFailure(attempt.error)
  {
    match attempt
    case Normal(reply) => reply
    case Throw(e) => CreationFailure(e)
  }

  /** The `try` block of the PIX branch: build the body, create, shape. It completes
      normally exactly when the body builds, the processor returns a payment and
      that payment has transaction data; the exception it raises otherwise is the
      first one met on the way. */
  function PixAttempt(fd: FormData, create: PaymentBody -> Completion<ProcessorPayment>): (r: Completion<Reply>)
    ensures BuildPixBody(fd).Throw? ==> r == Throw(BuildPixBody(fd).error)
    ensures BuildPixBody(fd).Normal? && create(BuildPixBody(fd).value).Throw?
            ==> r == Throw(create(BuildPixBody(fd).value).error)
    ensures r.Normal? <==>
      PixBodyBuilds(fd) && create(BuildPixBody(fd).value).Normal?
      && ShapePixSuccess(create(BuildPixBody(fd).value).value).Normal?
    ensures r.Normal? ==> r.value.code == Code(Created) && r.value.body.PixCreated?
  {
    match BuildPixBody(fd)
    case Throw(e) => Throw(e)
    case Normal(body) =>
      match create(body)
      case Throw(e) => Throw(e)
      case Normal(resp) => ShapePixSuccess(resp)
  }

  /** The `try` block of the card branch: build the body, create, shape. It completes
      normally exactly when the body builds and the processor returns a payment;
      the exception it raises otherwise is the first one met on the way. */
  function CardAttempt(fd: FormData, create: PaymentBody -> Completion<ProcessorPayment>): (r: Completion<Reply>)
    ensures BuildCardBody(fd).Throw? ==> r == Throw(BuildCardBody(fd).error)
    ensures BuildCardBody(fd).Normal? && create(BuildCardBody(fd).value).Throw?
            ==> r == Throw(create(BuildCardBody(fd).value).error)
    ensures r.Normal? <==> CardBodyBuilds(fd) && create(BuildCardBody(fd).value).Normal?
    ensures r.Normal? ==> r.value.code == Code(Created) && r.value.body.PaymentSummary?
  {
    match BuildCardBody(fd)
    case Throw(e) => Throw(e)
    case Normal(body) =>
      match create(body)
      case Throw(e) => Throw(e)
      case Normal(resp) => Normal(ShapeCardSuccess(resp))
  }

  /** `POST /api/create-payment`. Every reply is either a 201 with a payment result
      or a 400 with an error body. */
  function CreatePayment(fd: FormData, create: PaymentBody -> Completion<ProcessorPayment>): (r: Reply)
    ensures r.code == Code(Created) || r.code == Code(BadRequest)
    ensures r.body.ErrorBody? <==> r.code == Code(BadRequest)
    ensures r.body.ErrorBody? ==> Truthy(r.body.error)
    ensures !Truthy(fd.paymentMethodId) ==> r == IncompleteReply
  {
    match SelectBranch(fd.paymentMethodId)
    case None => IncompleteReply
    case Some(PixBranch) => Catch(PixAttempt(fd, create))
    case Some(CardBranch) => Catch(CardAttempt(fd, create))
  }

  /** `GET /api/payment-status/:id`. */
  function PaymentStatus(id: string, get: string -> Completion<ProcessorPayment>): (r: Reply)
    ensures r.body.ErrorBody? <==> get(id).Throw?
    ensures get(id).Normal? ==>
      r.code == Code(Ok) && r.body == PaymentSummary(get(id).value.id, get(id).value.status, get(id).value.statusDetail)
    ensures get(id).Throw? ==>
      r.body == ErrorBody(Str(LookupMessage))
      && r.code == (if Truthy(get(id).error.status) then get(id).error.status else Code(InternalServerError))
  {
    match get(id)
    case Normal(details) => LookupSuccess(details)
    case Throw(e) => LookupFailure(e)
  }

  /** A missing or falsy method is rejected before any body is built, so the reply
      cannot depend on the processor. */
  lemma MissingMethodRejected(fd: FormData, create1: PaymentBody -> Completion<ProcessorPayment>,
                              create2: PaymentBody -> Completion<ProcessorPayment>)
    requires !Truthy(fd.paymentMethodId)
    ensures RequestBody(fd).None?
    ensures CreatePayment(fd, create1) == IncompleteReply == CreatePayment(fd, create2)
  {
  }

  /** The handler sends exactly the normaliser's body: whatever the processor does
      with any other body does not change the reply. */
  lemma CreateDependsOnlyOnSentBody(fd: FormData, create1: PaymentBody -> Completion<ProcessorPayment>,
                                    create2: PaymentBody -> Completion<ProcessorPayment>)
    requires RequestBody(fd).Some? && RequestBody(fd).value.Normal?
    requires create1(RequestBody(fd).value.value) == create2(RequestBody(fd).value.value)
    ensures CreatePayment(fd, create1) == CreatePayment(fd, create2)
  {
  }

  /** A creation reply is a 201 exactly when the method is truthy, the branch's
      body builds (amount, for card also installments, converting to numbers and a
      well-formed payer), the processor returns a payment and, for PIX, that
      payment has transaction data. */
  lemma CreatedExactly(fd: FormData, create: PaymentBody -> Completion<ProcessorPayment>)
    ensures CreatePayment(fd, create).code == Code(Created)
        <==> Truthy(fd.paymentMethodId)
             && (if fd.paymentMethodId == Str(PixMethod) then PixBodyBuilds(fd) else CardBodyBuilds(fd))
             && var body := RequestBody(fd).value.value;
                create(body).Normal?
                && (body.PixBody? ==> create(body).value.pointOfInteraction.Some?
                                      && create(body).value.pointOfInteraction.value.transactionData.Some?)
  {
  }

  /** A PIX payment that succeeds replies 201 with the QR code fields of the
      processor's transaction data and its root `id` and `status`; the body sent had
      method `"pix"` and a digits-only identification number. */
  lemma PixCreatedReply(fd: FormData, create: PaymentBody -> Completion<ProcessorPayment>)
    requires fd.paymentMethodId == Str(PixMethod)
    requires CreatePayment(fd, create).code == Code(Created)
    ensures PixBodyBuilds(fd)
    ensures
      var body := BuildPixBody(fd).value;
      var resp := create(body).value;
      var tx := resp.pointOfInteraction.value.transactionData.value;
      && body.paymentMethodId == Str(PixMethod)
      && body.payer.identification.number == NormalizedNumber(fd)
      && AllDigits(body.payer.identification.number)
      && CreatePayment(fd, create) == Reply(Code(Created), PixCreated(tx.qrCodeBase64, tx.qrCode, resp.id, resp.status))
  {
    CreatedExactly(fd, create);
  }

  /** A card payment that succeeds replies 201 with exactly the payment's `id`,
      `status` and `status_detail`, and no QR fields; the body sent carried the
      form's own method. */
  lemma CardCreatedReply(fd: FormData, create: PaymentBody -> Completion<ProcessorPayment>)
    requires Truthy(fd.paymentMethodId) && fd.paymentMethodId != Str(PixMethod)
    requires CreatePayment(fd, create).code == Code(Created)
    ensures CardBodyBuilds(fd)
    ensures
      var body := BuildCardBody(fd).value;
      var resp := create(body).value;
      && body.paymentMethodId == fd.paymentMethodId
      && body.token == fd.token
      && CreatePayment(fd, create) == Reply(Code(Created), PaymentSummary(resp.id, resp.status, resp.statusDetail))
  {
    CreatedExactly(fd, create);
  }

  /** A processor rejection is reported with status 400 and the most specific
      message it carries, in priority order. */
  lemma ProcessorRejectionReply(fd: FormData, create: PaymentBody -> Completion<ProcessorPayment>)
    requires RequestBody(fd).Some? && RequestBody(fd).value.Normal?
    requires create(RequestBody(fd).value.value).Throw?
    ensures
      var e := create(RequestBody(fd).value.value).error;
      var m := CreatePayment(fd, create).body.error;
      && CreatePayment(fd, create).code == Code(BadRequest)
      && (Truthy(FirstCauseDescription(e)) ==> m == FirstCauseDescription(e))
      && (!Truthy(FirstCauseDescription(e)) && Truthy(e.message) ==> m == e.message)
      && (!Truthy(FirstCauseDescription(e)) && !Truthy(e.message) ==> m == Str(CreationFallback))
  {
  }

  /** A PIX response without transaction data is caught like any other exception
      in the `try`: a 400 whose message is the TypeError's, not the fallback. */
  lemma PixMissingTransactionData(fd: FormData, create: PaymentBody -> Completion<ProcessorPayment>)
    requires fd.paymentMethodId == Str(PixMethod) && PixBodyBuilds(fd)
    requires create(BuildPixBody(fd).value).Normal?
    requires ShapePixSuccess(create(BuildPixBody(fd).value).value).Throw?
    ensures CreatePayment(fd, create)
         == Reply(Code(BadRequest), ErrorBody(ShapePixSuccess(create(BuildPixBody(fd).value).value).error.message))
  {
  }

  /** A malformed payer (absent, no identification, or a number that is not a
      string) is caught in the `try` too: a 400 carrying the TypeError's message. */
  lemma MalformedPayerReply(fd: FormData, create: PaymentBody -> Completion<ProcessorPayment>)
    requires Truthy(fd.paymentMethodId) && !HasValidPayer(fd)
    ensures RequestBody(fd).Some? && RequestBody(fd).value.Throw?
    ensures CreatePayment(fd, create) == Reply(Code(BadRequest), ErrorBody(RequestBody(fd).value.error.message))
  {
  }

  /** The amount is converted first in both literals: an amount that cannot be
      converted to a number gives 400 with the conversion TypeError's message. */
  lemma UnconvertibleAmountReply(fd: FormData, create: PaymentBody -> Completion<ProcessorPayment>)
    requires Truthy(fd.paymentMethodId) && ToNumber(fd.transactionAmount).Throw?
    ensures CreatePayment(fd, create) == Reply(Code(BadRequest), ErrorBody(ConversionError.message))
  {
  }
}
