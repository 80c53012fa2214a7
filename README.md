# Payment request normalisation and response translation

This project models the request logic of a small Express backend. The backend
takes checkout submissions from the Mercado Pago Payment Brick, forwards them to
the payment processor, and lets the client poll a payment's status. The model
covers the two route handlers of `server.js`, written as pure functions:

- `POST /api/create-payment`. It rejects a form whose `payment_method_id` is
  missing or falsy. It dispatches on whether that method is exactly `"pix"`. It
  builds the PIX or the card request body, and the identification number of
  either body goes through the digits-only filter `replace(/\D/g, '')`. It shapes
  the processor's payment into the 201 reply. It turns any exception raised
  inside its `try` into a 400 reply, choosing the message in priority order.
- `GET /api/payment-status/:id`. It passes `id`, `status` and `status_detail`
  through with 200. On failure it replies with the error's own status, or 500,
  and a fixed message.

Modules:

- `Js` (`js.dfy`): the JavaScript semantics the handlers rely on. That is JSON
  values plus `undefined`, truthiness, `||`, thrown errors (`JsError`), and the
  normal-or-throw completion of an expression (`Completion`).
- `Digits` (`digits.dfy`): the `\D` filter (`StripNonDigits`) and its properties.
- `Checkout` (`checkout.dfy`): the Brick's `formData`, the dispatch, and the two
  request bodies.
- `Translate` (`translate.dfy`): the processor's payment record, the replies,
  success shaping, and the error message and status rules.
- `Handlers` (`handlers.dfy`): the two handlers put together from the modules
  above, and properties of each whole request.

The processor client's `payment.create` and `payment.get` are function
parameters. `create` maps a request body to a payment record or a thrown error.
`get` does the same for an id. A TypeError that the engine raises inside the
`try` is a `JsError` with no cause, no status and a non-empty message. Such
TypeErrors come from converting an amount or installments that `Number` cannot
convert to a primitive, reading the payer or identification when absent, calling
`.replace` on a number that is not a string, or reading the transaction data of
a PIX response that has none.

`Js.Truthy` and `Js.Or` are JavaScript's ToBoolean and `||` operator, which the
handlers use for the method check (server.js:37) and for the message and status
fallbacks (server.js:95, 113). They are language semantics rather than members
of `server.js`; `Js.Or` has a row below for the laws the fallbacks rely on.

The model states what `server.js` does, which is less than a fuller checkout
service might do:

- There is no "unsupported method" error: every truthy method other than
  `"pix"` takes the card branch.
- There is no token, issuer, amount or email check.
- `Number(...)` of the amount and installments throws only for a JSON object
  with an own `toString` property, or an array holding such an object at any
  depth of nested arrays. That TypeError is caught like any other and reported
  as 400.
- `installments` has no default of 1.
- A non-numeric amount is not rejected.
- A PIX response without transaction data is caught by the same `catch`. It is
  reported as 400 with the TypeError's message, not as a separate 500.

## Model

| member | source | states |
|---|---|---|
| `Digits.StripNonDigits` | server.js:55 | the filtered number has only characters `0`-`9` and is never longer than the input |
| `Digits.StripNonDigitsKeepsDigitString` | server.js:81 | a number that is already digits only passes the filter unchanged |
| `Digits.StripNonDigitsIdempotent` | server.js:55 | filtering twice gives the same result as filtering once |
| `Digits.StripNonDigitsConcat` | server.js:55 | the global replace works character by character: it distributes over concatenation |
| `Digits.StripNonDigitsIsSubsequence` | server.js:55 | the result is an in-order subsequence of the input |
| `Digits.StripNonDigitsCounts` | server.js:81 | each digit keeps as many occurrences as the input has; every other character has none |
| `Checkout.SelectBranch` | server.js:37-44 | no branch exactly when the method is falsy; PIX exactly when it is the string `"pix"`; card for every other truthy value |
| `Checkout.NormalizeIdentification` | server.js:53-56 | succeeds exactly when the identification is present and its number is a string; the type is copied and the number becomes its digits only; otherwise a TypeError with a non-empty message is thrown |
| `Js.Or` | server.js:95 | `a \|\| b` is `a` when `a` is truthy and `b` otherwise; the result is truthy exactly when either operand is |
| `Js.ToNumber` | server.js:46 | `Number(v)` throws exactly for an object with an own `toString` property or an array holding one at any depth, with a non-empty TypeError message, no cause and no status; otherwise it is the uninterpreted number of `v` |
| `Checkout.NormalizedNumber` | server.js:55 | the identification number sent is digits only and no longer than the form's |
| `Checkout.BuildPixBody` | server.js:45-58 | the PIX literal evaluates exactly when the amount converts and the payer is well formed; the body is method `"pix"`, the fixed description, the converted amount, and the payer's email, first and last name and identification type copied, with the number reduced to its digits; otherwise a TypeError with a non-empty message and no cause |
| `Checkout.BuildCardBody` | server.js:70-84 | the card literal evaluates exactly when amount and installments convert and the payer is well formed; the body carries the form's own token, method and issuer, the converted amount and installments, the fixed description, and the payer's email and identification type, with the number reduced to its digits; no names; otherwise a TypeError with a non-empty message and no cause |
| `Checkout.RequestBody` | server.js:35-48 | no request body is produced exactly when the method is falsy |
| `Checkout.RequestBodyDispatch` | server.js:44-75 | a built body is the PIX body exactly when the method is `"pix"`; in both branches its `payment_method_id` equals the form's |
| `Checkout.PixBodyIgnoresCardFields` | server.js:45-58 | token, installments and issuer of the form do not reach the PIX body |
| `Checkout.CardBodyIgnoresNames` | server.js:77-83 | the payer's names do not reach the card body |
| `Translate.ShapePixSuccess` | server.js:60-66 | succeeds exactly when the response has transaction data; then 201 with `qr_code_base64` as `qrCodeImage`, `qr_code` as `copyPasteCode`, and the root `id` and `status`; otherwise a TypeError |
| `Translate.ShapeCardSuccess` | server.js:86-90 | the card reply is 201 with the payment's own `id`, `status` and `status_detail` and no QR fields |
| `Translate.CardSuccessDependsOnSummary` | server.js:86-90 | the card reply is 201 with the payment's own `id`, `status` and `status_detail`, and two payments give the same reply exactly when they agree on those three |
| `Translate.PixSuccessIgnoresStatusDetail` | server.js:61-66 | the PIX reply does not depend on `status_detail` |
| `Translate.FirstCauseDescription` | server.js:95 | `undefined` without a cause list or with an empty one, otherwise the first entry's description |
| `Translate.CreationErrorMessage` | server.js:95 | the message is always truthy: the first cause's description if truthy, else the error's message if truthy, else the fixed fallback |
| `Translate.CreationFailure` | server.js:93-97 | a creation failure is always status 400 with the error body carrying the prioritised message, which is truthy |
| `Translate.CreationFailureIgnoresStatus` | server.js:95-97 | the creation-failure reply depends only on the cause description and the message, never on the processor's status |
| `Translate.LookupSuccess` | server.js:106-110 | the lookup success reply is 200 with the payment's own `id`, `status` and `status_detail` |
| `Translate.LookupFailure` | server.js:111-115 | status is the error's own status when truthy, else 500; the body is always the fixed lookup message |
| `Translate.LookupFailureIgnoresDetail` | server.js:113-115 | lookup errors with the same status give the same reply, whatever the processor said |
| `Translate.LookupRepliesDistinct` | server.js:106-110 | the lookup success reply is 200 with `id`, `status`, `status_detail` unchanged, and differs from every failure reply |
| `Handlers.Catch` | server.js:93-97 | a normal completion of the `try` is the reply; an exception becomes the creation-failure reply |
| `Handlers.PixAttempt` | server.js:44-66 | the PIX `try` completes exactly when the body builds, the processor returns a payment and it has transaction data, then with a 201 PIX result; a build error or processor error is raised unchanged |
| `Handlers.CardAttempt` | server.js:69-90 | the card `try` completes exactly when the body builds and the processor returns a payment, then with a 201 summary; a build error or processor error is raised unchanged |
| `Handlers.CreatePayment` | server.js:33-99 | every reply is 201 or 400; the body is an error exactly when the status is 400, and its message is truthy; a falsy method gives the fixed "incomplete" reply |
| `Handlers.PaymentStatus` | server.js:102-117 | a success passes `id`, `status`, `status_detail` with 200; a failure is the error's status or 500 with the fixed message; the body is an error exactly when the lookup threw |
| `Handlers.MissingMethodRejected` | server.js:35-39 | a falsy method gives the 400 "incomplete" reply, with no request body, whatever the processor would do |
| `Handlers.CreateDependsOnlyOnSentBody` | server.js:41-91 | the reply depends on the processor only through its answer to the one body the normaliser built |
| `Handlers.CreatedExactly` | server.js:41-97 | the reply is 201 exactly when the method is truthy, the branch's body builds (the amount, for card also the installments, converts and the payer is well formed), the processor returns a payment and, for PIX, that payment has transaction data |
| `Handlers.PixCreatedReply` | server.js:44-66 | a successful PIX request sent method `"pix"` with the digits-only number, and replies with the response's QR fields, `id` and `status` |
| `Handlers.CardCreatedReply` | server.js:69-90 | a successful card request sent the form's own method and token, and replies with exactly `id`, `status`, `status_detail` |
| `Handlers.ProcessorRejectionReply` | server.js:93-97 | a processor error gives 400 with the cause description, else the message, else the fallback |
| `Handlers.PixMissingTransactionData` | server.js:60-62 | a PIX response without transaction data gives 400 with the TypeError's message |
| `Handlers.MalformedPayerReply` | server.js:49-83 | a malformed payer gives 400 with the TypeError's message, for either branch |
| `Handlers.UnconvertibleAmountReply` | server.js:46-71 | an amount that `Number` cannot convert gives 400 with the conversion TypeError's message, for either branch |

## Left out

- Express setup, CORS, `express.json` and `app.listen` (server.js:8-18, 120-122): these are HTTP framework plumbing.
- dotenv loading, the `FRONTEND_URL` warning and the `MP_ACCESS_TOKEN` startup exit (server.js:3, 9-23): these are process configuration, not request logic.
- Constructing the Mercado Pago client, and the network calls `payment.create` and `payment.get` (server.js:25-30, 59, 85, 105): these are foreign library I/O. They are the parameters `create` and `get`.
- The value of `Number(...)` for `transaction_amount` and `installments` (server.js:46, 71, 74): JavaScript's numeric coercion, floats and NaN are not modelled. The body holds the uninterpreted value `NumberOf(arg)`. Only when the conversion throws is modelled.
- JSON numbers beyond the double range, which parse to `Infinity`: `Num` holds a finite `real`. An Infinity would be truthy, like every non-zero `Num`.
- JavaScript strings as UTF-16 code units: a Dafny `string` holds Unicode scalar values, so a JSON string with a lone surrogate cannot be represented, and lengths count characters rather than code units. The digits filter keeps the same characters either way.
- `console.error` and `console.warn` logging (server.js:94, 112): this is output with no effect on replies.
- An absent `formData` (server.js:35): the handler crashes outside its `try`. The model assumes the form is present.
- The exact wording of engine TypeErrors: the model's messages are non-empty stand-ins, and `null` and `undefined` are not told apart. No property depends on the wording.
- A `cause` that is not an array, an array or object `payer`, identification or number with unusual prototypes, and a processor result that is not an object: the model has records for the processor's documented shapes only.
- What Express does with a non-numeric `error.status` passed to `res.status` (server.js:113-115): the reply's status is the value as given.
- `server.js` has no `POST /api/create-pix-payment` route and reads only the flat `formData` shape, so neither a separate PIX route nor a nested `order`/`payer` payload is modelled.
