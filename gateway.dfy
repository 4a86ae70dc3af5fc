/**
  The payment gateway as this backend sees it: the JSON bodies of its three
  endpoints (CreatePBLAuthToken, MswipePayment, getPBLTransactionDetails), or
  a transport failure, which axios throws. The gateway itself is a parameter
  of every operation that calls it. The functions at the end are the success
  checks of services/mswipe.service.js, which the payment controller uses.
*/
module MswipeGateway {
  import opened Wrappers

  /** `Payment_Status` as JavaScript sees it: a number, or anything else (a string, null, missing). */
  datatype StatusCode = Num(n: int) | NotANumber

  /** One element of `Data` in a status reply; the fields besides `Payment_Status` are not modelled. */
  datatype StatusRow = StatusRow(paymentStatus: StatusCode)

  /** The reply to getPBLTransactionDetails: `Status` is "True" or not; `Data` may be missing. */
  datatype StatusReply =
    | StatusTransportError(reason: string)
    | StatusBody(statusTrue: bool, data: Option<seq<StatusRow>>)

  /** The status endpoint, called with the body `{ id }` (`None` for an undefined id). */
  type StatusGateway = Option<string> -> StatusReply

  /** The reply to CreatePBLAuthToken: `status` is the string "true" on success. */
  datatype TokenReply =
    | TokenTransportError(reason: string)
    | TokenBody(statusTrue: bool, token: Option<string>, msg: string)

  /**
    The fields of the MswipePayment request that the callers choose. The
    constant ones (custcode, versionno "VER4.0.0", ApplicationId "api",
    ChannelId "pbl", ClientId) come from configuration and are not modelled.
  */
  datatype LinkPayload = LinkPayload(
    amount: Option<int>,
    mobileno: Option<string>,
    userId: Option<string>,
    sessionToken: string,
    emailId: Option<string>,
    invoiceId: Option<string>,
    requestId: string)

  /** The reply to MswipePayment: `status` is the string "True" on success. */
  datatype LinkReply =
    | LinkTransportError(reason: string)
    | LinkBody(statusTrue: bool, txnId: Option<string>, smslink: Option<string>, responseMessage: string)

  type LinkGateway = LinkPayload -> LinkReply

  /** `generateToken()`: the token when `status === "true"`, otherwise the message it throws. */
  function GenerateToken(reply: TokenReply): (r: Result<Option<string>, string>)
    ensures r.Success? <==> reply.TokenBody? && reply.statusTrue
    ensures r.Success? ==> r.value == reply.token
    ensures reply.TokenTransportError? ==> r == Failure("Token generation failed: " + reply.reason)
    ensures reply.TokenBody? && !reply.statusTrue ==> r == Failure("Token generation failed: " + reply.msg)
  {
    match reply
    case TokenTransportError(reason) => Failure("Token generation failed: " + reason)
    case TokenBody(ok, token, msg) =>
      if ok then Success(token) else Failure("Token generation failed: " + msg)
  }

  /** What `generatePaymentLink` resolves to on success. */
  datatype LinkResult = LinkResult(txnId: Option<string>, paymentLink: Option<string>)

  /** `generatePaymentLink(...)`: the link when `status === "True"`, otherwise the message it throws. */
  function GeneratePaymentLink(reply: LinkReply): (r: Result<LinkResult, string>)
    ensures r.Success? <==> reply.LinkBody? && reply.statusTrue
    ensures r.Success? ==> r.value == LinkResult(reply.txnId, reply.smslink)
    ensures reply.LinkTransportError? ==> r == Failure("Payment link generation failed: " + reply.reason)
    ensures reply.LinkBody? && !reply.statusTrue ==>
      r == Failure("Payment link generation failed: " + reply.responseMessage)
  {
    match reply
    case LinkTransportError(reason) => Failure("Payment link generation failed: " + reason)
    case LinkBody(ok, txnId, link, message) =>
      if ok then Success(LinkResult(txnId, link)) else Failure("Payment link generation failed: " + message)
  }

  /**
    `checkTransactionStatus(id)`: `Data[0]` when `Status === "True"` (undefined,
    here `None`, when `Data` is empty); otherwise the message it throws, which
    includes the TypeError of indexing a missing `Data`.
  */
  function CheckTransactionStatus(reply: StatusReply): (r: Result<Option<StatusRow>, string>)
    ensures r.Success? <==> reply.StatusBody? && reply.statusTrue && reply.data.Some?
    ensures r.Success? ==> (r.value.Some? <==> reply.data.value != [])
    ensures r.Success? && r.value.Some? ==> r.value.value == reply.data.value[0]
    ensures reply.StatusTransportError? ==> r == Failure("Transaction status check failed: " + reply.reason)
    ensures reply.StatusBody? && !reply.statusTrue ==>
      r == Failure("Transaction status check failed: Transaction status check failed")
    ensures reply.StatusBody? && reply.statusTrue && reply.data.None? ==>
      r == Failure("Transaction status check failed: Cannot read properties of undefined (reading '0')")
  {
    match reply
    case StatusTransportError(reason) => Failure("Transaction status check failed: " + reason)
    case StatusBody(ok, data) =>
      if !ok then Failure("Transaction status check failed: Transaction status check failed")
      else if data.None? then Failure("Transaction status check failed: Cannot read properties of undefined (reading '0')")
      else if data.value == [] then Success(None)
      else Success(Some(data.value[0]))
  }
}
