/** The response and error translator: what the processor returns (a payment
    record, or a thrown error) becomes the HTTP status and JSON body the client
    sees. */
module Translate {
  import opened Js

  /** `point_of_interaction.transaction_data` of a PIX payment. */
  datatype TransactionData = TransactionData(qrCodeBase64: JsValue, qrCode: JsValue)

  /** `point_of_interaction`; `transactionData` is `None` when it is absent. */
  datatype PointOfInteraction = PointOfInteraction(transactionData: Option<TransactionData>)

  /** The payment record the processor returns from `create` and `get`; only the
      properties the handlers read are kept. */
  datatype ProcessorPayment = ProcessorPayment(
    id: JsValue,
    status: JsValue,
    statusDetail: JsValue,
    pointOfInteraction: Option<PointOfInteraction>)

  /** The JSON body of a reply. The card result and the status lookup share the
      `{ id, status, status_detail }` shape. */
  datatype ReplyBody =
    | ErrorBody(error: JsValue)
    | PixCreated(qrCodeImage: JsValue, copyPasteCode: JsValue, id: JsValue, status: JsValue)
    | PaymentSummary(id: JsValue, status: JsValue, statusDetail: JsValue)

  /** An HTTP reply: `res.status(code).json(body)`. */
  datatype Reply = Reply(code: JsValue, body: ReplyBody)

  const Ok := 200
  const Created := 201
  const BadRequest := 400
  const InternalServerError := 500
  const CreationFallback := "Ocorreu um erro interno ao processar o pagamento."
  const LookupMessage := "Erro ao consultar status do pagamento."

  /** The PIX success reply: 201 with the QR image and copy-paste code of the
      transaction data and the root `id` and `status`. Reading the transaction data
      of a response that has none throws. */
  function ShapePixSuccess(resp: ProcessorPayment): (r: Completion<Reply>)
    ensures r.Normal? <==> resp.pointOfInteraction.Some? && resp.pointOfInteraction.value.transactionData.Some?
    ensures r.Normal? ==>
      var tx := resp.pointOfInteraction.value.transactionData.value;
      r.value == Reply(Code(Created), PixCreated(tx.qrCodeBase64, tx.qrCode, resp.id, resp.status))
    ensures r.Throw? ==> r.error.cause.None? && Truthy(r.error.message)
  {
    match resp.pointOfInteraction
    case None => Throw(TypeErrorReading("transaction_data"))
    case Some(poi) =>
      match poi.transactionData
      case None => Throw(TypeErrorReading("qr_code_base64"))
      case Some(tx) => Normal(Reply(Code(Created), PixCreated(tx.qrCodeBase64, tx.qrCode, resp.id, resp.status)))
  }

  /** The card success reply: 201 with the payment's `id`, `status`, `status_detail`. */
  function ShapeCardSuccess(resp: ProcessorPayment): (r: Reply)
    ensures r == Reply(Code(Created), PaymentSummary(resp.id, resp.status, resp.statusDetail))
  {
    Reply(Code(Created), PaymentSummary(resp.id, resp.status, resp.statusDetail))
  }

  /** `error.cause?.[0]?.description`. */
  function FirstCauseDescription(e: JsError): (d: JsValue)
    ensures e.cause.None? ==> d == Undefined
    ensures e.cause.Some? && e.cause.value == [] ==> d == Undefined
    ensures e.cause.Some? && e.cause.value != [] ==> d == e.cause.value[0].description
  {
    match e.cause
    case None => Undefined
    case Some(causes) => if causes == [] then Undefined else causes[0].description
  }

  /** The message of a creation failure: the first cause's description, else the
      error's message, else the fixed fallback, each taken only when truthy. */
  function CreationErrorMessage(e: JsError): (m: JsValue)
    ensures Truthy(m)
    ensures Truthy(FirstCauseDescription(e)) ==> m == FirstCauseDescription(e)
    ensures !Truthy(FirstCauseDescription(e)) && Truthy(e.message) ==> m == e.message
    ensures !Truthy(FirstCauseDescription(e)) && !Truthy(e.message) ==> m == Str(CreationFallback)
  {
    Or(Or(FirstCauseDescription(e), e.message), Str(CreationFallback))
  }

  /** The `catch` block of the creation route: always 400. */
  function CreationFailure(e: JsError): (r: Reply)
    ensures r.code == Code(BadRequest)
    ensures r.body == ErrorBody(CreationErrorMessage(e))
    ensures Truthy(r.body.error)
  {
    Reply(Code(BadRequest), ErrorBody(CreationErrorMessage(e)))
  }

  /** The status-lookup success reply: 200 with `id`, `status`, `status_detail`. */
  function LookupSuccess(details: ProcessorPayment): (r: Reply)
    ensures r == Reply(Code(Ok), PaymentSummary(details.id, details.status, details.statusDetail))
  {
    Reply(Code(Ok), PaymentSummary(details.id, details.status, details.statusDetail))
  }

  /** The `catch` block of the status route: the error's own status when truthy,
      else 500, and always the fixed message. */
  function LookupFailure(e: JsError): (r: Reply)
    ensures Truthy(r.code)
    ensures Truthy(e.status) ==> r.code == e.status
    ensures !Truthy(e.status) ==> r.code == Code(InternalServerError)
    ensures r.body == ErrorBody(Str(LookupMessage))
  {
    Reply(Or(e.status, Code(InternalServerError)), ErrorBody(Str(LookupMessage)))
  }

  /** The card reply is `{ id, status, status_detail }` and nothing else: two
      payments give the same reply exactly when they agree on those three. */
  lemma CardSuccessDependsOnSummary(a: ProcessorPayment, b: ProcessorPayment)
    ensures ShapeCardSuccess(a).code == Code(Created)
    ensures ShapeCardSuccess(a).body == PaymentSummary(a.id, a.status, a.statusDetail)
    ensures ShapeCardSuccess(a) == ShapeCardSuccess(b)
        <==> a.id == b.id && a.status == b.status && a.statusDetail == b.statusDetail
  {
  }

  /** The PIX reply does not carry `status_detail`: it depends on the root `id` and
      `status` and on the transaction data only. */
  lemma PixSuccessIgnoresStatusDetail(resp: ProcessorPayment, statusDetail: JsValue)
    ensures ShapePixSuccess(resp.(statusDetail := statusDetail)) == ShapePixSuccess(resp)
  {
  }

  /** A creation failure is reported as 400 whatever status the processor gave:
      the reply depends on the first cause's description and the message only. */
  lemma CreationFailureIgnoresStatus(a: JsError, b: JsError)
    requires FirstCauseDescription(a) == FirstCauseDescription(b) && a.message == b.message
    ensures CreationFailure(a) == CreationFailure(b)
  {
  }

  /** The lookup failure reply never echoes what the processor said: errors with
      the same status give the same reply, whatever their cause and message. */
  lemma LookupFailureIgnoresDetail(a: JsError, b: JsError)
    requires a.status == b.status
    ensures LookupFailure(a) == LookupFailure(b)
  {
  }

  /** The lookup success reply passes the status values through unrenamed; it
      differs from every failure reply in its body. */
  lemma LookupRepliesDistinct(details: ProcessorPayment, e: JsError)
    ensures LookupSuccess(details).code == Code(Ok)
    ensures LookupSuccess(details).body == PaymentSummary(details.id, details.status, details.statusDetail)
    ensures LookupSuccess(details) != LookupFailure(e)
  {
  }
}
