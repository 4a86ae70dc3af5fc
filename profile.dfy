/**
  routes/profile.js: the personal, password and bank updates, and the two
  transaction routes, for the user the `auth` middleware put in `userId`.
  Validators of express-validator that the code names (`isEmail`,
  `isNumeric`) and `bcrypt.compare` are parameters; `trim()`, `notEmpty()`,
  `isIn` and the IFSC pattern are modelled. A body field that is undefined
  reaches the validators as the empty string.
*/
module Profile {
  import opened Wrappers
  import opened Http
  import opened Text
  import opened UserModel
  import opened Store

  // ----- the IFSC pattern `^[A-Z]{4}0[A-Z0-9]{6}$` -----

  predicate IsUpper(c: char) {
    'A' <= c <= 'Z'
  }

  predicate IsUpperOrDigit(c: char) {
    IsUpper(c) || '0' <= c <= '9'
  }

  /** Four capital letters, a zero, then six capital letters or digits. */
  predicate IsValidIfsc(s: string) {
    && |s| == 11
    && (forall k :: 0 <= k < 4 ==> IsUpper(s[k]))
    && s[4] == '0'
    && (forall k :: 5 <= k < 11 ==> IsUpperOrDigit(s[k]))
  }

  /** A code the pattern accepts is left as it is by the `trim()` sanitizer that runs first. */
  lemma IfscSurvivesTrim(s: string)
    requires IsValidIfsc(s)
    ensures Trim(s) == s
  {
    assert !IsJsWhitespace(s[0]) && !IsJsWhitespace(s[10]);
    TrimOfTrimmed(s);
  }

  /** The pattern is case-sensitive: a lowercase letter anywhere in the code is refused. */
  lemma IfscRejectsLowercase(s: string, k: nat)
    requires k < |s| && 'a' <= s[k] <= 'z'
    ensures !IsValidIfsc(s)
  {
  }

  /** The code is built from a bank part of four letters and a branch part of six letters or digits. */
  lemma IfscParts(bank: string, branch: string)
    requires |bank| == 4 && (forall k :: 0 <= k < 4 ==> IsUpper(bank[k]))
    requires |branch| == 6 && (forall k :: 0 <= k < 6 ==> IsUpperOrDigit(branch[k]))
    ensures IsValidIfsc(bank + "0" + branch)
    ensures forall c :: c != '0' ==> !IsValidIfsc(bank + [c] + branch)
  {
    var s := bank + "0" + branch;
    assert forall k :: 5 <= k < 11 ==> s[k] == branch[k - 5];
  }

  // ----- PUT /personal -----

  /** Some user other than `userId` already holds `email` once normalized. */
  predicate EmailTakenByOther(users: seq<User>, email: string, userId: ObjectId) {
    exists k :: 0 <= k < |users| && users[k].email == NormalizeEmail(email) && users[k].id != userId
  }

  /**
    `PUT /personal`: the trimmed `fullName` must be non-empty and `emailValid`
    hold; an email held by another user is refused; then `findByIdAndUpdate`
    sets the two paths through their setters. A missing user is answered with
    `null` and nothing changes; the update does not run the schema validators.
  */
  function UpdatePersonal(users: seq<User>, userId: ObjectId, fullName: string, email: string,
                          emailValid: bool): (r: Outcome)
    ensures Trim(fullName) == "" || !emailValid ==> r == Outcome(ValidationFailed, users)
    ensures Trim(fullName) != "" && emailValid && EmailTakenByOther(users, email, userId) ==>
      r == Outcome(Reply(400, "Email already in use"), users)
    ensures r.users != users ==>
      && r.reply.code == 200 && !EmailTakenByOther(users, email, userId)
      && FindById(users, userId).Some?
      && var i := FindById(users, userId).value;
      && r.users == users[i := users[i].(fullName := Trim(fullName), email := NormalizeEmail(email))]
    ensures r.reply.code == 200 <==> Trim(fullName) != "" && emailValid && !EmailTakenByOther(users, email, userId)
    ensures Trim(fullName) != "" && emailValid && !EmailTakenByOther(users, email, userId) ==>
      && (FindById(users, userId).None? ==> r == Outcome(Reply(200, "null"), users))
      && (FindById(users, userId).Some? ==>
            var i := FindById(users, userId).value;
            r.users == users[i := users[i].(fullName := Trim(fullName), email := NormalizeEmail(email))])
  {
    if Trim(fullName) == "" || !emailValid then Outcome(ValidationFailed, users)
    else if EmailTakenByOther(users, email, userId) then Outcome(Reply(400, "Email already in use"), users)
    else match FindById(users, userId)
      case None => Outcome(Reply(200, "null"), users)
      case Some(i) =>
        Outcome(Reply(200, ""), users[i := users[i].(fullName := Trim(fullName), email := NormalizeEmail(email))])
  }

  /** The personal update never lets two users share an email, the caller keeping its own being allowed. */
  lemma UpdatePersonalKeepsEmailsUnique(users: seq<User>, userId: ObjectId, fullName: string, email: string,
                                        emailValid: bool)
    requires EmailsUnique(users) && IdsUnique(users)
    ensures EmailsUnique(UpdatePersonal(users, userId, fullName, email, emailValid).users)
  {
    var r := UpdatePersonal(users, userId, fullName, email, emailValid);
    if r.users != users {
      var i := FindById(users, userId).value;
      var us := r.users;
      forall a, b | 0 <= a < b < |us|
        ensures us[a].email != us[b].email
      {
        if a == i {
          assert users[b].id != userId;
          assert us[b] == users[b];
        } else if b == i {
          assert users[a].id != userId;
          assert us[a] == users[a];
        } else {
          assert us[a] == users[a] && us[b] == users[b];
        }
      }
    }
  }

  /** Re-sending one's own email is accepted: only other users' emails are refused. */
  lemma UpdatePersonalOwnEmail(users: seq<User>, i: nat, fullName: string)
    requires EmailsUnique(users) && i < |users| && Trim(fullName) != ""
    requires NormalizeEmail(users[i].email) == users[i].email
    ensures UpdatePersonal(users, users[i].id, fullName, users[i].email, true).reply.code == 200
  {
  }

  // ----- PUT /password -----

  /**
    `PUT /password`: a non-empty old password and a new one of at least six
    characters; a missing user makes `user.password` throw (500); the old
    password must match the stored hash (`matches`, bcrypt's compare); then
    the new hash `newHash` is stored.
  */
  function UpdatePassword(users: seq<User>, userId: ObjectId, oldPassword: string, newPassword: string,
                          matches: (string, string) -> bool, newHash: string): (r: Outcome)
    ensures oldPassword == "" || |newPassword| < 6 ==> r == Outcome(ValidationFailed, users)
    ensures oldPassword != "" && |newPassword| >= 6 && FindById(users, userId).None? ==> r == Outcome(ServerError, users)
    ensures r.users != users || r.reply.code == 200 ==>
      && oldPassword != "" && |newPassword| >= 6 && FindById(users, userId).Some?
      && var i := FindById(users, userId).value;
      && matches(oldPassword, users[i].password)
      && r == Outcome(Reply(200, "Password updated successfully"), users[i := users[i].(password := newHash)])
    ensures (oldPassword != "" && |newPassword| >= 6 && FindById(users, userId).Some? &&
             !matches(oldPassword, users[FindById(users, userId).value].password)) ==>
      r == Outcome(Reply(400, "Current password is incorrect"), users)
    ensures (oldPassword != "" && |newPassword| >= 6 && FindById(users, userId).Some? &&
             matches(oldPassword, users[FindById(users, userId).value].password)) ==>
      var i := FindById(users, userId).value;
      r == Outcome(Reply(200, "Password updated successfully"), users[i := users[i].(password := newHash)])
  {
    if oldPassword == "" || |newPassword| < 6 then Outcome(ValidationFailed, users)
    else match FindById(users, userId)
      case None => Outcome(ServerError, users)
      case Some(i) =>
        if !matches(oldPassword, users[i].password) then Outcome(Reply(400, "Current password is incorrect"), users)
        else Outcome(Reply(200, "Password updated successfully"), users[i := users[i].(password := newHash)])
  }

  // ----- PUT /bank -----

  /** The four sanitized fields pass their validators. */
  predicate BankFieldsValid(holder: string, number: string, ifsc: string, bankName: string) {
    Trim(holder) != "" && Trim(number) != "" && IsValidIfsc(Trim(ifsc)) && Trim(bankName) != ""
  }

  /**
    `PUT /bank`: each field is trimmed and checked; then `bankDetails` is
    replaced as a whole by the four trimmed fields. A missing user is
    answered with `null` and nothing changes.
  */
  function UpdateBank(users: seq<User>, userId: ObjectId, holder: string, number: string, ifsc: string,
                      bankName: string): (r: Outcome)
    ensures !BankFieldsValid(holder, number, ifsc, bankName) ==> r == Outcome(ValidationFailed, users)
    ensures BankFieldsValid(holder, number, ifsc, bankName) ==> r.reply.code == 200
    ensures r.users != users ==>
      && BankFieldsValid(holder, number, ifsc, bankName) && FindById(users, userId).Some?
      && var i := FindById(users, userId).value;
      && r.users == users[i := users[i].(bankDetails :=
           Some(BankDetails(Some(Trim(holder)), Some(Trim(number)), Some(Trim(ifsc)), Some(Trim(bankName)))))]
    ensures BankFieldsValid(holder, number, ifsc, bankName) ==>
      && (FindById(users, userId).None? ==> r == Outcome(Reply(200, "null"), users))
      && (FindById(users, userId).Some? ==>
            var i := FindById(users, userId).value;
            r.users == users[i := users[i].(bankDetails :=
              Some(BankDetails(Some(Trim(holder)), Some(Trim(number)), Some(Trim(ifsc)), Some(Trim(bankName)))))])
  {
    if !BankFieldsValid(holder, number, ifsc, bankName) then Outcome(ValidationFailed, users)
    else match FindById(users, userId)
      case None => Outcome(Reply(200, "null"), users)
      case Some(i) =>
        var details := BankDetails(Some(Trim(holder)), Some(Trim(number)), Some(Trim(ifsc)), Some(Trim(bankName)));
        Outcome(Reply(200, ""), users[i := users[i].(bankDetails := Some(details))])
  }

  /** A stored IFSC code always matches the pattern. */
  lemma UpdateBankStoresValidIfsc(users: seq<User>, userId: ObjectId, holder: string, number: string,
                                  ifsc: string, bankName: string, k: nat)
    requires k < |users|
    requires users[k].bankDetails.Some? && users[k].bankDetails.value.ifscCode.Some? ==>
      IsValidIfsc(users[k].bankDetails.value.ifscCode.value)
    ensures var after := UpdateBank(users, userId, holder, number, ifsc, bankName).users;
      k < |after| &&
      (after[k].bankDetails.Some? && after[k].bankDetails.value.ifscCode.Some? ==>
        IsValidIfsc(after[k].bankDetails.value.ifscCode.value))
  {
  }

  // ----- POST /transactions -----

  /** `isIn(['pending', 'success', 'failed'])`; an undefined value fails it. */
  predicate InRouteStatuses(v: Option<string>) {
    v == Some("pending") || v == Some("success") || v == Some("failed")
  }

  /** The body of `POST /transactions`. `utrNumber` and `utrStatus` are validated but not schema paths. */
  datatype AddBody = AddBody(fields: TxnFields, amountNumeric: bool, utrNumber: string, utrStatus: Option<string>)

  /** The route's validators; `isNumeric()` fails on a missing amount, so one must be present. */
  predicate AddBodyValid(b: AddBody) {
    b.fields.amount.Some? && b.amountNumeric && b.utrNumber != "" && InRouteStatuses(b.utrStatus) && InRouteStatuses(b.fields.paymentStatus)
  }

  /** The outcome of the append route, with the subdocument it answers with. */
  datatype Added = Added(outcome: Outcome, created: Option<Transaction>)

  /**
    `POST /transactions`: after validation, a missing user makes
    `user.transactions` throw (500); the pushed object is cast and validated
    on `save`, which fails for a value outside the schema's enum; otherwise the
    user gains the one subdocument, which is also the answer.
  */
  function AddTransaction(users: seq<User>, userId: ObjectId, b: AddBody, newId: ObjectId, now: nat): (r: Added)
    ensures !AddBodyValid(b) ==> r == Added(Outcome(ValidationFailed, users), None)
    ensures r.created.Some? <==> r.outcome.users != users
    ensures r.created.Some? <==>
      AddBodyValid(b) && FindById(users, userId).Some? && MakeTransaction(b.fields, newId, now).Success?
    ensures r.created.Some? ==>
      && var i := FindById(users, userId).value;
      && r.created.value == MakeTransaction(b.fields, newId, now).value
      && r.outcome == Outcome(Reply(201, ""), users[i := users[i].(transactions := users[i].transactions + [r.created.value])])
    ensures r.created.None? && AddBodyValid(b) ==> r.outcome == Outcome(ServerError, users)
  {
    if !AddBodyValid(b) then Added(Outcome(ValidationFailed, users), None)
    else match FindById(users, userId)
      case None => Added(Outcome(ServerError, users), None)
      case Some(i) =>
        match MakeTransaction(b.fields, newId, now)
        case Failure(_) => Added(Outcome(ServerError, users), None)
        case Success(t) =>
          Added(Outcome(Reply(201, ""), users[i := users[i].(transactions := users[i].transactions + [t])]), Some(t))
  }

  /**
    The append grows the user's array by exactly one, keeps its earlier
    elements, and answers with the new last element.
  */
  lemma AddTransactionAppendsOne(users: seq<User>, userId: ObjectId, b: AddBody, newId: ObjectId, now: nat)
    requires AddTransaction(users, userId, b, newId, now).created.Some?
    ensures var r := AddTransaction(users, userId, b, newId, now);
      var i := FindById(users, userId).value;
      var ts := r.outcome.users[i].transactions;
      && |ts| == |users[i].transactions| + 1
      && ts[..|users[i].transactions|] == users[i].transactions
      && ts[|ts| - 1] == r.created.value
  {
    var r := AddTransaction(users, userId, b, newId, now);
    var i := FindById(users, userId).value;
    assert r.outcome.users[i].transactions == users[i].transactions + [r.created.value];
  }

  /** The route lets "success" through, but the schema's enum does not: such an append never saves. */
  lemma AddTransactionSuccessRefused(users: seq<User>, userId: ObjectId, b: AddBody, newId: ObjectId, now: nat)
    requires AddBodyValid(b) && b.fields.paymentStatus == Some("success")
    ensures AddTransaction(users, userId, b, newId, now).outcome == Outcome(ServerError, users)
  {
  }

  // ----- PUT /transactions/:transactionId -----

  /** `user.transactions.id(id)`, as an index; an id that does not cast finds nothing. */
  function FindTransaction(ts: seq<Transaction>, id: Option<ObjectId>): (r: Option<nat>)
    ensures r.Some? ==> id.Some? && r.value < |ts| && ts[r.value].id == id.value
    ensures r.None? <==> id.None? || forall k :: 0 <= k < |ts| ==> ts[k].id != id.value
  {
    if id.None? then None else FirstIndex(ts, (t: Transaction) => t.id == id.value)
  }

  /**
    `PUT /transactions/:transactionId`: both statuses must pass `isIn`; a
    missing user makes `user.transactions` throw (500); an unknown
    transaction is 404. `utrStatus` is not a schema path and is not stored;
    `paymentStatus` is assigned and the `save` fails for "success".
  */
  function UpdateTransaction(users: seq<User>, userId: ObjectId, transactionId: Option<ObjectId>,
                             utrStatus: Option<string>, paymentStatus: Option<string>): (r: Outcome)
    ensures !InRouteStatuses(utrStatus) || !InRouteStatuses(paymentStatus) ==> r == Outcome(ValidationFailed, users)
    ensures r.users != users || r.reply.code == 200 ==>
      && FindById(users, userId).Some?
      && var i := FindById(users, userId).value;
      && FindTransaction(users[i].transactions, transactionId).Some?
      && var j := FindTransaction(users[i].transactions, transactionId).value;
      && ParseStatus(paymentStatus.value).Some?
      && r.users == WithTransaction(users, i, j,
           users[i].transactions[j].(paymentStatus := ParseStatus(paymentStatus.value).value))
    ensures InRouteStatuses(utrStatus) && InRouteStatuses(paymentStatus) && FindById(users, userId).Some? &&
            FindTransaction(users[FindById(users, userId).value].transactions, transactionId).None? ==>
      r == Outcome(Reply(404, "Transaction not found"), users)
  {
    if !InRouteStatuses(utrStatus) || !InRouteStatuses(paymentStatus) then Outcome(ValidationFailed, users)
    else match FindById(users, userId)
      case None => Outcome(ServerError, users)
      case Some(i) =>
        match FindTransaction(users[i].transactions, transactionId)
        case None => Outcome(Reply(404, "Transaction not found"), users)
        case Some(j) =>
          match ParseStatus(paymentStatus.value)
          case None => Outcome(ServerError, users)
          case Some(st) =>
            Outcome(Reply(200, ""), WithTransaction(users, i, j, users[i].transactions[j].(paymentStatus := st)))
  }

  /**
    For a user and transaction that exist, the update succeeds exactly when
    the payment status is "pending" or "failed": the route refuses
    "completed" and the schema refuses "success".
  */
  lemma UpdateTransactionAccepts(users: seq<User>, userId: ObjectId, transactionId: Option<ObjectId>,
                                 utrStatus: Option<string>, paymentStatus: Option<string>)
    requires InRouteStatuses(utrStatus)
    requires FindById(users, userId).Some?
    requires FindTransaction(users[FindById(users, userId).value].transactions, transactionId).Some?
    ensures UpdateTransaction(users, userId, transactionId, utrStatus, paymentStatus).reply.code == 200
        <==> paymentStatus == Some("pending") || paymentStatus == Some("failed")
  {
  }

  // ----- the routes as steps on the store -----

  method UpdatePersonalRoute(store: UserStore, userId: ObjectId, fullName: string, email: string,
                             emailValid: bool) returns (reply: Reply)
    modifies store
    ensures Outcome(reply, store.users) == UpdatePersonal(old(store.users), userId, fullName, email, emailValid)
  {
    if Trim(fullName) == "" || !emailValid {
      return ValidationFailed;
    }
    if EmailTakenByOther(store.users, email, userId) {
      return Reply(400, "Email already in use");
    }
    var found := FindById(store.users, userId);
    if found.None? {
      return Reply(200, "null");
    }
    var i := found.value;
    var user := store.users[i].(fullName := Trim(fullName), email := NormalizeEmail(email));
    store.users := store.users[i := user];
    reply := Reply(200, "");
  }

  method UpdatePasswordRoute(store: UserStore, userId: ObjectId, oldPassword: string, newPassword: string,
                             matches: (string, string) -> bool, newHash: string) returns (reply: Reply)
    modifies store
    ensures Outcome(reply, store.users) == UpdatePassword(old(store.users), userId, oldPassword, newPassword, matches, newHash)
  {
    if oldPassword == "" || |newPassword| < 6 {
      return ValidationFailed;
    }
    var found := FindById(store.users, userId);
    if found.None? {
      return ServerError;
    }
    var i := found.value;
    if !matches(oldPassword, store.users[i].password) {
      return Reply(400, "Current password is incorrect");
    }
    var user := store.users[i].(password := newHash);
    store.users := store.users[i := user];
    reply := Reply(200, "Password updated successfully");
  }

  method UpdateBankRoute(store: UserStore, userId: ObjectId, holder: string, number: string, ifsc: string,
                         bankName: string) returns (reply: Reply)
    modifies store
    ensures Outcome(reply, store.users) == UpdateBank(old(store.users), userId, holder, number, ifsc, bankName)
  {
    var holder, number, ifsc, bankName := Trim(holder), Trim(number), Trim(ifsc), Trim(bankName);
    if holder == "" || number == "" || !IsValidIfsc(ifsc) || bankName == "" {
      return ValidationFailed;
    }
    var found := FindById(store.users, userId);
    if found.None? {
      return Reply(200, "null");
    }
    var i := found.value;
    var user := store.users[i].(bankDetails := Some(BankDetails(Some(holder), Some(number), Some(ifsc), Some(bankName))));
    store.users := store.users[i := user];
    reply := Reply(200, "");
  }

  method AddTransactionRoute(store: UserStore, userId: ObjectId, b: AddBody, newId: ObjectId, now: nat)
    returns (reply: Reply, created: Option<Transaction>)
    modifies store
    ensures Added(Outcome(reply, store.users), created) == AddTransaction(old(store.users), userId, b, newId, now)
  {
    created := None;
    if !AddBodyValid(b) {
      return ValidationFailed, created;
    }
    var found := FindById(store.users, userId);
    if found.None? {
      return ServerError, created;
    }
    var i := found.value;
    var made := MakeTransaction(b.fields, newId, now);
    if made.Failure? {
      return ServerError, created;
    }
    var user := store.users[i].(transactions := store.users[i].transactions + [made.value]);
    store.users := store.users[i := user];
    created := Some(user.transactions[|user.transactions| - 1]);
    reply := Reply(201, "");
  }

  method UpdateTransactionRoute(store: UserStore, userId: ObjectId, transactionId: Option<ObjectId>,
                                utrStatus: Option<string>, paymentStatus: Option<string>) returns (reply: Reply)
    modifies store
    ensures Outcome(reply, store.users) == UpdateTransaction(old(store.users), userId, transactionId, utrStatus, paymentStatus)
  {
    if !InRouteStatuses(utrStatus) || !InRouteStatuses(paymentStatus) {
      return ValidationFailed;
    }
    var found := FindById(store.users, userId);
    if found.None? {
      return ServerError;
    }
    var i := found.value;
    var txn := FindTransaction(store.users[i].transactions, transactionId);
    if txn.None? {
      return Reply(404, "Transaction not found");
    }
    var j := txn.value;
    var status := ParseStatus(paymentStatus.value);
    if status.None? {
      return ServerError;
    }
    store.users := WithTransaction(store.users, i, j, store.users[i].transactions[j].(paymentStatus := status.value));
    reply := Reply(200, "");
  }
}
