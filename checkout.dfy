/** The request normaliser of `POST /api/create-payment`: the Payment Brick's
    `formData`, the dispatch on `payment_method_id`, and the two processor request
    bodies (PIX and card). The request-side property names are those of the JSON
    payload, written in camelCase (`payment_method_id` is `paymentMethodId`, the
    identification's `type` is `docType`). */
module Checkout {
  import opened Js
  import opened Digits

  const PixMethod := "pix"
  /** The fixed description both bodies carry. */
  const Description := "Ingressos para evento"
  /** The message of the early 400 reply when the method is missing. */
  const IncompleteMessage := "Dados da requisição do Brick incompletos."

  /** `formData.payer.identification`. */
  datatype Identification = Identification(docType: JsValue, number: JsValue)

  /** `formData.payer`. A payer that is a JSON primitive reads as a payer with no
      fields; `identification` is `None` when it is `undefined` or `null`. */
  datatype Payer = Payer(email: JsValue, firstName: JsValue, lastName: JsValue, identification: Option<Identification>)

  /** `req.body.formData`; `payer` is `None` when it is `undefined` or `null`. */
  datatype FormData = FormData(
    paymentMethodId: JsValue,
    transactionAmount: JsValue,
    token: JsValue,
    installments: JsValue,
    issuerId: JsValue,
    payer: Option<Payer>)

  /** `payer.identification` of a request body: the type as given, the number
      reduced to its digits. */
  datatype IdentificationBody = IdentificationBody(docType: JsValue, number: string)

  datatype BodyPayer =
    | PixPayer(email: JsValue, firstName: JsValue, lastName: JsValue, identification: IdentificationBody)
    | CardPayer(email: JsValue, identification: IdentificationBody)

  /** The body handed to the processor's `create`; each constructor has exactly the
      properties of the corresponding object literal. */
  datatype PaymentBody =
    | PixBody(transactionAmount: Coerced, description: string, paymentMethodId: JsValue, payer: BodyPayer)
    | CardBody(
        transactionAmount: Coerced,
        token: JsValue,
        description: string,
        installments: Coerced,
        paymentMethodId: JsValue,
        issuerId: JsValue,
        payer: BodyPayer)

  datatype Branch = PixBranch | CardBranch

  /** The dispatch: no branch for a falsy method, PIX for exactly the string
      `"pix"`, the card branch for every other value. */
  function SelectBranch(pm: JsValue): (b: Option<Branch>)
    ensures b.None? <==> !Truthy(pm)
    ensures b == Some(PixBranch) <==> pm == Str(PixMethod)
    ensures b == Some(CardBranch) <==> Truthy(pm) && pm != Str(PixMethod)
  {
    if !Truthy(pm) then None
    else if pm == Str(PixMethod) then Some(PixBranch)
    else Some(CardBranch)
  }

  /** Evaluates `identification.type` and `identification.number.replace(/\D/g, '')`:
      an absent identification or a number that is not a string throws. */
  function NormalizeIdentification(ident: Option<Identification>): (r: Completion<IdentificationBody>)
    ensures r.Normal? <==> ident.Some? && ident.value.number.Str?
    ensures r.Normal? ==> r.value.docType == ident.value.docType
    ensures r.Normal? ==> r.value.number == StripNonDigits(ident.value.number.s)
    ensures r.Normal? ==> AllDigits(r.value.number) && |r.value.number| <= |ident.value.number.s|
    ensures r.Throw? ==> r.error.cause.None? && Truthy(r.error.message)
  {
    match ident
    case None => Throw(TypeErrorReading("type"))
    case Some(i) =>
      match i.number
      case Str(s) => Normal(IdentificationBody(i.docType, StripNonDigits(s)))
      case Undefined => Throw(TypeErrorReading("replace"))
      case Null => Throw(TypeErrorReading("replace"))
      case _ => Throw(TypeErrorNotFunction("formData.payer.identification.number.replace"))
  }

  /** The payer shape both builders need: present, with an identification whose
      number is a string. */
  predicate HasValidPayer(fd: FormData) {
    fd.payer.Some? && fd.payer.value.identification.Some? && fd.payer.value.identification.value.number.Str?
  }

  /** The digits-only normalisation of the payer's identification number. */
  function NormalizedNumber(fd: FormData): (n: string)
    requires HasValidPayer(fd)
    ensures AllDigits(n) && |n| <= |fd.payer.value.identification.value.number.s|
  {
    StripNonDigits(fd.payer.value.identification.value.number.s)
  }

  /** The PIX literal evaluates without throwing: the amount converts to a number
      and the payer is well formed. */
  predicate PixBodyBuilds(fd: FormData) {
    ToNumber(fd.transactionAmount).Normal? && HasValidPayer(fd)
  }

  /** The card literal evaluates without throwing: amount and installments convert
      to numbers and the payer is well formed. */
  predicate CardBodyBuilds(fd: FormData) {
    ToNumber(fd.transactionAmount).Normal? && ToNumber(fd.installments).Normal? && HasValidPayer(fd)
  }

  /** The body literal of the PIX branch, evaluated in its order: the amount's
      conversion, then the payer's email, names and identification. It has method
      `"pix"`, the fixed description, the payer's email, names and identification
      type copied and the number reduced to its digits; anything that throws on the
      way throws a TypeError. */
  function BuildPixBody(fd: FormData): (r: Completion<PaymentBody>)
    ensures r.Normal? <==> PixBodyBuilds(fd)
    ensures r.Normal? ==>
      var p := fd.payer.value;
      r.value == PixBody(NumberOf(fd.transactionAmount), Description, Str(PixMethod),
                         PixPayer(p.email, p.firstName, p.lastName,
                                  IdentificationBody(p.identification.value.docType, NormalizedNumber(fd))))
    ensures r.Normal? ==> AllDigits(r.value.payer.identification.number)
    ensures r.Throw? ==> r.error.cause.None? && Truthy(r.error.message)
  {
    match ToNumber(fd.transactionAmount)
    case Throw(e) => Throw(e)
    case Normal(amount) =>
      match fd.payer
      case None => Throw(TypeErrorReading("email"))
      case Some(p) =>
        match NormalizeIdentification(p.identification)
        case Throw(e) => Throw(e)
        case Normal(id) =>
          Normal(PixBody(amount, Description, Str(PixMethod), PixPayer(p.email, p.firstName, p.lastName, id)))
  }

  /** The body literal of the card branch, evaluated in its order: the amount's and
      the installments' conversions, then the payer's email and identification.
      Token, method and issuer are the form's own values, the description is fixed,
      the payer's email and identification type are copied and the number is
      reduced to its digits; anything that throws on the way throws a TypeError. */
  function BuildCardBody(fd: FormData): (r: Completion<PaymentBody>)
    ensures r.Normal? <==> CardBodyBuilds(fd)
    ensures r.Normal? ==>
      var p := fd.payer.value;
      r.value == CardBody(NumberOf(fd.transactionAmount), fd.token, Description,
                          NumberOf(fd.installments), fd.paymentMethodId, fd.issuerId,
                          CardPayer(p.email, IdentificationBody(p.identification.value.docType, NormalizedNumber(fd))))
    ensures r.Normal? ==> AllDigits(r.value.payer.identification.number)
    ensures r.Throw? ==> r.error.cause.None? && Truthy(r.error.message)
  {
    match ToNumber(fd.transactionAmount)
    case Throw(e) => Throw(e)
    case Normal(amount) =>
      match ToNumber(fd.installments)
      case Throw(e) => Throw(e)
      case Normal(installments) =>
        match fd.payer
        case None => Throw(TypeErrorReading("email"))
        case Some(p) =>
          match NormalizeIdentification(p.identification)
          case Throw(e) => Throw(e)
          case Normal(id) =>
            Normal(CardBody(amount, fd.token, Description, installments, fd.paymentMethodId, fd.issuerId,
                            CardPayer(p.email, id)))
  }

  /** What the handler sends to the processor: nothing when the method is falsy,
      otherwise the branch's body or the exception building it raised. */
  function RequestBody(fd: FormData): (r: Option<Completion<PaymentBody>>)
    ensures r.None? <==> !Truthy(fd.paymentMethodId)
  {
    match SelectBranch(fd.paymentMethodId)
    case None => None
    case Some(PixBranch) => Some(BuildPixBody(fd))
    case Some(CardBranch) => Some(BuildCardBody(fd))
  }

  /** Dispatch as the request body shows it: a built body goes to the PIX branch
      exactly when the method is the string `"pix"`, and in both branches its
      `payment_method_id` is the form's own value. */
  lemma RequestBodyDispatch(fd: FormData)
    requires RequestBody(fd).Some? && RequestBody(fd).value.Normal?
    ensures RequestBody(fd).value.value.PixBody? <==> fd.paymentMethodId == Str(PixMethod)
    ensures RequestBody(fd).value.value.CardBody? <==> fd.paymentMethodId != Str(PixMethod)
    ensures RequestBody(fd).value.value.paymentMethodId == fd.paymentMethodId
    ensures AllDigits(RequestBody(fd).value.value.payer.identification.number)
  {
  }

  /** The PIX body reads only the amount and the payer: the card fields of the
      form (token, installments, issuer) do not reach it. */
  lemma PixBodyIgnoresCardFields(fd: FormData, token: JsValue, installments: JsValue, issuerId: JsValue)
    ensures BuildPixBody(fd.(token := token, installments := installments, issuerId := issuerId)) == BuildPixBody(fd)
  {
  }

  /** The card body does not carry the payer's names. */
  lemma CardBodyIgnoresNames(fd: FormData, firstName: JsValue, lastName: JsValue)
    requires fd.payer.Some?
    ensures BuildCardBody(fd.(payer := Some(fd.payer.value.(firstName := firstName, lastName := lastName))))
         == BuildCardBody(fd)
  {
  }
}
