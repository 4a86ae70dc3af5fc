/**
  controllers/payment.controller.js: `checkStatus` with its own status
  mapping, and `createPaymentLink`, both over the controller's `Transaction`
  collection, whose model file is not part of this model; only the fields the
  controller reads and writes are kept. The gateway's replies go through the
  success checks of services/mswipe.service.js.
*/
module PaymentController {
  import opened Wrappers
  import opened Http
  import opened Text
  import opened UserModel
  import opened MswipeGateway
  import opened Store
  import App

  /** The statuses this controller writes: "created" at issue, then the mapped codes. */
  datatype ControllerStatus = LinkCreated | PaySuccess | PayFailed | PayExpired | PayPending

  /** The nested conditional on `Payment_Status` (strict equality). */
  function MapCode(code: StatusCode): (r: ControllerStatus)
    ensures r == PaySuccess <==> code == Num(1)
    ensures r == PayFailed <==> code == Num(0)
    ensures r == PayExpired <==> code == Num(3)
    ensures r == PayPending <==> code != Num(0) && code != Num(1) && code != Num(3)
  {
    if code == Num(1) then PaySuccess
    else if code == Num(0) then PayFailed
    else if code == Num(3) then PayExpired
    else PayPending
  }

  /** A status of app.js and one of the controller name the same outcome. */
  predicate SameMeaning(s: Status, c: ControllerStatus) {
    (s == Completed && c == PaySuccess) || (s == Pending && c == PayPending) || (s == Failed && c == PayFailed)
  }

  /**
    The two mappings of the same gateway code agree exactly on 0, 1 and 2:
    app.js reads 3 (and every other code) as failed, the controller reads 3 as
    expired and every other code as pending.
  */
  lemma MappingsAgreeExactlyOn(code: StatusCode)
    ensures SameMeaning(App.DeriveStatus(code), MapCode(code)) <==> code == Num(0) || code == Num(1) || code == Num(2)
    ensures code == Num(3) ==> App.DeriveStatus(code) == Failed && MapCode(code) == PayExpired
    ensures code.NotANumber? ==> App.DeriveStatus(code) == Failed && MapCode(code) == PayPending
  {
  }

  /** What `mswipeResponse` holds: the link result at issue, the status row after a check. */
  datatype MswipeResponse = LinkResponse(link: LinkResult) | StatusResponse(row: StatusRow)

  /** A document of the controller's `Transaction` collection. */
  datatype PaymentRecord = PaymentRecord(
    id: ObjectId,
    userId: ObjectId,
    amount: int,
    txnId: Option<string>,
    status: ControllerStatus,
    paymentLink: Option<string>,
    requestId: string,
    mswipeResponse: MswipeResponse)

  /** The `Transaction` collection, held in memory. */
  class TransactionCollection {
    var records: seq<PaymentRecord>

    constructor (initial: seq<PaymentRecord>)
      ensures records == initial
    {
      records := initial;
    }
  }

  function FindRecord(records: seq<PaymentRecord>, id: ObjectId): (r: Option<nat>)
    ensures r.Some? ==> r.value < |records| && records[r.value].id == id
    ensures r.None? <==> forall k :: 0 <= k < |records| ==> records[k].id != id
  {
    FirstIndex(records, (p: PaymentRecord) => p.id == id)
  }

  /** What a controller action leaves behind. */
  datatype Checked = Checked(reply: Reply, records: seq<PaymentRecord>)

  // ----- checkStatus -----

  /**
    `checkStatus`: 404 for an unknown id, before any gateway call; the
    service's error message as a 500; a successful check with an empty `Data`
    fails on reading `Payment_Status` of undefined; otherwise the mapped
    status and the row overwrite the record, whatever its status was.
  */
  function CheckStatus(records: seq<PaymentRecord>, transactionId: ObjectId, gateway: StatusGateway): (r: Checked)
    ensures FindRecord(records, transactionId).None? ==> r == Checked(Reply(404, "Transaction not found"), records)
    ensures FindRecord(records, transactionId).Some? ==>
      && var i := FindRecord(records, transactionId).value;
      && var checked := CheckTransactionStatus(gateway(records[i].txnId));
      && (checked.Failure? ==> r == Checked(Reply(500, checked.error), records))
      && (checked.Success? && checked.value.None? ==>
            r == Checked(Reply(500, "Cannot read properties of undefined (reading 'Payment_Status')"), records))
      && (checked.Success? && checked.value.Some? ==>
            && r.reply.code == 200
            && r.records == records[i := records[i].(status := MapCode(checked.value.value.paymentStatus),
                                                     mswipeResponse := StatusResponse(checked.value.value))])
  {
    match FindRecord(records, transactionId)
    case None => Checked(Reply(404, "Transaction not found"), records)
    case Some(i) =>
      match CheckTransactionStatus(gateway(records[i].txnId))
      case Failure(msg) => Checked(Reply(500, msg), records)
      case Success(None) => Checked(Reply(500, "Cannot read properties of undefined (reading 'Payment_Status')"), records)
      case Success(Some(row)) =>
        var status := MapCode(row.paymentStatus);
        Checked(Reply(200, StatusText(status)), records[i := records[i].(status := status, mswipeResponse := StatusResponse(row))])
  }

  function StatusText(s: ControllerStatus): string {
    match s
    case LinkCreated => "created"
    case PaySuccess => "success"
    case PayFailed => "failed"
    case PayExpired => "expired"
    case PayPending => "pending"
  }

  /**
    Unlike the app.js sweep, a check is not sticky: a record already at
    success is set to whatever the gateway now reports, and its other fields
    stay as they were.
  */
  lemma CheckStatusNotSticky(records: seq<PaymentRecord>, i: nat, gateway: StatusGateway, code: StatusCode)
    requires i < |records| && FindRecord(records, records[i].id) == Some(i)
    requires records[i].status == PaySuccess
    requires gateway(records[i].txnId) == StatusBody(true, Some([StatusRow(code)]))
    ensures var r := CheckStatus(records, records[i].id, gateway);
      && r.reply.code == 200
      && r.records[i].status == MapCode(code)
      && (code != Num(1) ==> r.records[i].status != PaySuccess)
      && r.records[i] == records[i].(status := MapCode(code), mswipeResponse := StatusResponse(StatusRow(code)))
  {
  }

  /** An unknown id is answered without a gateway call: the reply does not depend on the gateway. */
  lemma CheckStatusUnknownIgnoresGateway(records: seq<PaymentRecord>, transactionId: ObjectId,
                                         g1: StatusGateway, g2: StatusGateway)
    requires FindRecord(records, transactionId).None?
    ensures CheckStatus(records, transactionId, g1) == CheckStatus(records, transactionId, g2)
  {
  }

  method CheckStatusRoute(coll: TransactionCollection, transactionId: ObjectId, gateway: StatusGateway)
    returns (reply: Reply)
    modifies coll
    ensures Checked(reply, coll.records) == CheckStatus(old(coll.records), transactionId, gateway)
  {
    var found := FindRecord(coll.records, transactionId);
    if found.None? {
      return Reply(404, "Transaction not found");
    }
    var i := found.value;
    var checked := CheckTransactionStatus(gateway(coll.records[i].txnId));
    if checked.Failure? {
      return Reply(500, checked.error);
    }
    if checked.value.None? {
      return Reply(500, "Cannot read properties of undefined (reading 'Payment_Status')");
    }
    var row := checked.value.value;
    var record := coll.records[i];
    record := record.(status := MapCode(row.paymentStatus));
    record := record.(mswipeResponse := StatusResponse(row));
    coll.records := coll.records[i := record];
    reply := Reply(200, StatusText(record.status));
  }

  // ----- createPaymentLink -----

  /**
    The MswipePayment request of the service: the amount, the mobile number
    and email, `orderId` as invoice id, the request id and the session token.
    The configured user id, customer code and the constant fields are not
    modelled.
  */
  datatype ServiceLinkRequest = ServiceLinkRequest(
    amount: int,
    mobileno: Option<string>,
    emailId: string,
    invoiceId: string,
    requestId: string,
    sessionToken: Option<string>)

  type ServiceLinkGateway = ServiceLinkRequest -> LinkReply

  /** `ORD${Date.now()}`. */
  function OrderId(now: nat): (s: string)
    ensures |s| > 3 && s[..3] == "ORD" && AllDigits(s[3..]) && DecimalValue(s[3..]) == now
  {
    DecimalRoundTrip(now);
    assert ("ORD" + NatToString(now))[3..] == NatToString(now);
    "ORD" + NatToString(now)
  }

  /** The request as the controller builds it: `phone: user.phone` reads a path the user schema does not have. */
  function LinkRequestAsWritten(user: User, amount: int, now: nat, requestId: string, token: Option<string>): ServiceLinkRequest {
    ServiceLinkRequest(amount, None, user.email, OrderId(now), requestId, token)
  }

  /** As written, the gateway never receives a mobile number, even for a user who has one. */
  lemma LinkRequestDropsPhone(user: User, amount: int, now: nat, requestId: string, token: Option<string>)
    requires user.phoneNumber != ""
    ensures LinkRequestAsWritten(user, amount, now, requestId, token).mobileno.None?
  {
  }

  /** The request with the mobile number read from `phoneNumber`, the path the schema defines. */
  function LinkRequest(user: User, amount: int, now: nat, requestId: string, token: Option<string>): (q: ServiceLinkRequest)
    ensures q.mobileno == Some(user.phoneNumber) && q.emailId == user.email
    ensures q.invoiceId == OrderId(now) && q.requestId == requestId && q.sessionToken == token && q.amount == amount
  {
    ServiceLinkRequest(amount, Some(user.phoneNumber), user.email, OrderId(now), requestId, token)
  }

  /** What `createPaymentLink` leaves behind, with the calls it made. */
  datatype Issue = Issue(reply: Reply, records: seq<PaymentRecord>, tokenRequested: bool, sent: Option<ServiceLinkRequest>)

  /**
    `createPaymentLink` as written: `User` is never required in the
    controller, so `User.findById` raises a ReferenceError inside the `try`,
    and the catch answers 500 with its message before any other step. The
    user id is read from `req.user` first; the model takes `req.user` as set
    by the auth middleware (were it unset, the 500 would carry a TypeError's
    message instead).
  */
  function CreatePaymentLinkAsWritten(records: seq<PaymentRecord>, users: seq<User>, userId: ObjectId,
                                      amount: Option<int>, token: TokenReply, linkGw: ServiceLinkGateway,
                                      requestId: string, now: nat, newId: ObjectId): Issue
  {
    Issue(Reply(500, "User is not defined"), records, false, None)
  }

  /** As written, the action can never succeed, and it neither calls the gateway nor saves anything. */
  lemma CreatePaymentLinkAsWrittenNeverSucceeds(records: seq<PaymentRecord>, users: seq<User>, userId: ObjectId,
                                                amount: Option<int>, token: TokenReply, linkGw: ServiceLinkGateway,
                                                requestId: string, now: nat, newId: ObjectId)
    ensures var r := CreatePaymentLinkAsWritten(records, users, userId, amount, token, linkGw, requestId, now, newId);
      r.reply == Reply(500, "User is not defined") && r.records == records && !r.tokenRequested && r.sent.None?
  {
  }

  /** The message of the TypeError `paymentData.amount.toString()` raises for an undefined amount. */
  const AmountMissing := "Payment link generation failed: Cannot read properties of undefined (reading 'toString')"

  /**
    `createPaymentLink` with the user model in scope and the mobile number
    taken from `phoneNumber`: the user lookup (404), the token (the service's
    message as a 500), the link request (500 on failure), and only then the
    new record with status "created" and the same request id that was sent.
  */
  function CreatePaymentLink(records: seq<PaymentRecord>, users: seq<User>, userId: ObjectId,
                             amount: Option<int>, token: TokenReply, linkGw: ServiceLinkGateway,
                             requestId: string, now: nat, newId: ObjectId): (r: Issue)
    ensures FindById(users, userId).None? ==> r == Issue(Reply(404, "User not found"), records, false, None)
    ensures r.tokenRequested <==> FindById(users, userId).Some?
    ensures r.sent.Some? ==> r.tokenRequested && GenerateToken(token).Success? && amount.Some?
    ensures r.records != records ==> r.reply.code == 200
    ensures r.reply.code == 200 <==> r.sent.Some? && GeneratePaymentLink(linkGw(r.sent.value)).Success?
    ensures r.reply.code == 200 ==>
      && var user := users[FindById(users, userId).value];
      && r.sent.value == LinkRequest(user, amount.value, now, requestId, GenerateToken(token).value)
      && var link := GeneratePaymentLink(linkGw(r.sent.value)).value;
      && r.records == records + [PaymentRecord(newId, userId, amount.value, link.txnId, LinkCreated, link.paymentLink,
                                               requestId, LinkResponse(link))]
      && r.reply.message == "Payment link generated successfully"
    ensures r.reply.code != 200 ==> r.records == records
    ensures FindById(users, userId).Some? && GenerateToken(token).Failure? ==>
      r == Issue(Reply(500, GenerateToken(token).error), records, true, None)
    ensures r.sent.Some? && GeneratePaymentLink(linkGw(r.sent.value)).Failure? ==>
      r.reply == Reply(500, GeneratePaymentLink(linkGw(r.sent.value)).error)
  {
    match FindById(users, userId)
    case None => Issue(Reply(404, "User not found"), records, false, None)
    case Some(i) =>
      match GenerateToken(token)
      case Failure(msg) => Issue(Reply(500, msg), records, true, None)
      case Success(sessionToken) =>
        if amount.None? then Issue(Reply(500, AmountMissing), records, true, None)
        else
          var request := LinkRequest(users[i], amount.value, now, requestId, sessionToken);
          match GeneratePaymentLink(linkGw(request))
          case Failure(msg) => Issue(Reply(500, msg), records, true, Some(request))
          case Success(link) =>
            var record := PaymentRecord(newId, userId, amount.value, link.txnId, LinkCreated, link.paymentLink,
                                        requestId, LinkResponse(link));
            Issue(Reply(200, "Payment link generated successfully"), records + [record], true, Some(request))
  }

  /**
    The request id stored on the new record is the one sent to the gateway,
    and the invoice id is "ORD" followed by the timestamp.
  */
  lemma CreatePaymentLinkSameRequestId(records: seq<PaymentRecord>, users: seq<User>, userId: ObjectId,
                                       amount: Option<int>, token: TokenReply, linkGw: ServiceLinkGateway,
                                       requestId: string, now: nat, newId: ObjectId)
    requires CreatePaymentLink(records, users, userId, amount, token, linkGw, requestId, now, newId).reply.code == 200
    ensures var r := CreatePaymentLink(records, users, userId, amount, token, linkGw, requestId, now, newId);
      && |r.records| == |records| + 1
      && r.records[|records|].requestId == r.sent.value.requestId
      && r.sent.value.invoiceId[..3] == "ORD" && DecimalValue(r.sent.value.invoiceId[3..]) == now
  {
  }

  /** With the user in scope, a link can be issued: known user, good token, an amount, a good link reply. */
  lemma CreatePaymentLinkCanSucceed(records: seq<PaymentRecord>, users: seq<User>, userId: ObjectId,
                                    amount: int, token: TokenReply, linkGw: ServiceLinkGateway,
                                    requestId: string, now: nat, newId: ObjectId)
    requires FindById(users, userId).Some?
    requires token.TokenBody? && token.statusTrue
    requires forall q :: linkGw(q).LinkBody? && linkGw(q).statusTrue
    ensures CreatePaymentLink(records, users, userId, Some(amount), token, linkGw, requestId, now, newId).reply.code == 200
    ensures CreatePaymentLink(records, users, userId, Some(amount), token, linkGw, requestId, now, newId).sent.value.mobileno
         == Some(users[FindById(users, userId).value].phoneNumber)
  {
    var q := LinkRequest(users[FindById(users, userId).value], amount, now, requestId, GenerateToken(token).value);
    assert linkGw(q).LinkBody? && linkGw(q).statusTrue;
  }

  method CreatePaymentLinkRoute(coll: TransactionCollection, users: seq<User>, userId: ObjectId,
                                amount: Option<int>, token: TokenReply, linkGw: ServiceLinkGateway,
                                requestId: string, now: nat, newId: ObjectId)
    returns (reply: Reply, tokenRequested: bool, sent: Option<ServiceLinkRequest>)
    modifies coll
    ensures Issue(reply, coll.records, tokenRequested, sent) ==
      CreatePaymentLink(old(coll.records), users, userId, amount, token, linkGw, requestId, now, newId)
  {
    tokenRequested, sent := false, None;
    var found := FindById(users, userId);
    if found.None? {
      return Reply(404, "User not found"), tokenRequested, sent;
    }
    var user := users[found.value];
    tokenRequested := true;
    var sessionToken := GenerateToken(token);
    if sessionToken.Failure? {
      return Reply(500, sessionToken.error), tokenRequested, sent;
    }
    if amount.None? {
      return Reply(500, AmountMissing), tokenRequested, sent;
    }
    var request := LinkRequest(user, amount.value, now, requestId, sessionToken.value);
    sent := Some(request);
    var response := GeneratePaymentLink(linkGw(request));
    if response.Failure? {
      return Reply(500, response.error), tokenRequested, sent;
    }
    var link := response.value;
    var record := PaymentRecord(newId, userId, amount.value, link.txnId, LinkCreated, link.paymentLink, requestId, LinkResponse(link));
    coll.records := coll.records + [record];
    reply := Reply(200, "Payment link generated successfully");
  }
}
