/**
  routes/auth.js: signup, the first `/verify-otp`, forgot-password,
  reset-password, `update-profile`, `update-transactions` and the
  `payment-callback` webhook. Each route is a pure function from the
  collection to an `Outcome`, and a method that performs the same steps on a
  `UserStore` and is proved against it. express-validator's `isEmail` is the
  parameter `emailValid`; bcrypt hashes, OTP codes, JWTs and the clock are
  parameters too.
*/
module Auth {
  import opened Wrappers
  import opened Http
  import opened Text
  import opened UserModel
  import opened Store

  /** `setMinutes(getMinutes() + 10)`, in milliseconds. */
  const OtpLifetimeMs := 600000

  /** An OTP with code `code` issued at `now`. */
  function IssueOtp(code: string, now: int): (o: Otp)
    ensures o.code == code && o.expiresAt == now + OtpLifetimeMs
  {
    Otp(code, now + OtpLifetimeMs)
  }

  // ----- the OTP guards -----

  datatype OtpCheck = OtpOk | OtpMissing | OtpExpired | OtpMismatch

  /**
    The three OTP guards in their order: an OTP with a code must be present,
    `now` must not be strictly after its expiry, and the codes must be equal.
  */
  function CheckOtp(otp: Option<Otp>, code: string, now: int): (r: OtpCheck)
    ensures r == OtpOk <==>
      otp.Some? && otp.value.code != "" && now <= otp.value.expiresAt && code == otp.value.code
    ensures r == OtpMissing <==> otp.None? || otp.value.code == ""
    ensures r == OtpExpired ==> now > otp.value.expiresAt
    ensures r == OtpMismatch ==> now <= otp.value.expiresAt && code != otp.value.code
  {
    if otp.None? || otp.value.code == "" then OtpMissing
    else if now > otp.value.expiresAt then OtpExpired
    else if otp.value.code != code then OtpMismatch
    else OtpOk
  }

  /** The expiry comparison is strict: a code presented at its expiry instant, or earlier, is accepted. */
  lemma OtpValidThroughLifetime(code: string, issued: int, now: int)
    requires code != "" && issued <= now <= issued + OtpLifetimeMs
    ensures CheckOtp(Some(IssueOtp(code, issued)), code, now) == OtpOk
    ensures CheckOtp(Some(IssueOtp(code, issued)), code, issued + OtpLifetimeMs + 1) == OtpExpired
  {
  }

  // ----- signup -----

  /** The answer to a signup that created its user. */
  const SignupCreated := Reply(201, "User created successfully. Please verify OTP.")

  /**
    `POST /signup`: validation (`emailValid`, a password of at least six
    characters), then the duplicate check on the normalized email, then the
    new unverified user with a ten-minute OTP, whose `save` may fail
    validation. The user stays saved when the mail (`mailSent`) fails.
  */
  function Signup(users: seq<User>, email: string, password: string, fullName: Option<string>,
                  emailValid: bool, code: string, passwordHash: string, newId: ObjectId, now: nat,
                  mailSent: bool): (r: Outcome)
    ensures !emailValid || |password| < 6 ==> r == Outcome(ValidationFailed, users)
    ensures emailValid && |password| >= 6 && FindByEmail(users, email).Some? ==>
      r == Outcome(Reply(400, "User already exists"), users)
    ensures var u := NewUser(newId, email, passwordHash, IssueOtp(code, now), fullName, now);
      && (r.users == users || r.users == users + [u])
      && (r.users != users <==>
            emailValid && |password| >= 6 && FindByEmail(users, email).None? && NewUserValid(u))
      && (r.reply == SignupCreated <==> r.users != users && mailSent)
    ensures r.reply == SignupCreated || r.reply == ServerError || r.reply.code == 400
  {
    if !emailValid || |password| < 6 then Outcome(ValidationFailed, users)
    else if FindByEmail(users, email).Some? then Outcome(Reply(400, "User already exists"), users)
    else
      var u := NewUser(newId, email, passwordHash, IssueOtp(code, now), fullName, now);
      if !NewUserValid(u) then Outcome(ServerError, users)
      else if !mailSent then Outcome(ServerError, users + [u])
      else Outcome(SignupCreated, users + [u])
  }

  /** Signup never lets two users share an email. */
  lemma SignupKeepsEmailsUnique(users: seq<User>, email: string, password: string, fullName: Option<string>,
                                emailValid: bool, code: string, passwordHash: string, newId: ObjectId,
                                now: nat, mailSent: bool)
    requires EmailsUnique(users)
    ensures EmailsUnique(Signup(users, email, password, fullName, emailValid, code, passwordHash, newId, now, mailSent).users)
  {
    var r := Signup(users, email, password, fullName, emailValid, code, passwordHash, newId, now, mailSent);
    if r.users != users {
      var u := NewUser(newId, email, passwordHash, IssueOtp(code, now), fullName, now);
      var us := users + [u];
      assert r.users == us;
      forall a, b | 0 <= a < b < |us|
        ensures us[a].email != us[b].email
      {
        if b == |users| {
          assert us[a] == users[a] && us[b] == u;
        } else {
          assert us[a] == users[a] && us[b] == users[b];
        }
      }
    }
  }

  // ----- the first /verify-otp -----

  /** The user after a successful verification: verified, with no OTP. */
  function Verified(u: User): (v: User)
    ensures v.isVerified && v.otp.None?
    ensures v.(isVerified := u.isVerified, otp := u.otp) == u
  {
    u.(isVerified := true, otp := None)
  }

  /**
    `POST /verify-otp` (the first of the two registrations): validation of the
    email and of a six-character code, then the guards in order — user
    missing, already verified, OTP missing, expired, wrong code — and on
    success the user is verified and the OTP cleared. `token` is the JWT.
  */
  function VerifyOtp(users: seq<User>, email: string, otp: string, now: int, emailValid: bool,
                     token: string): (r: Outcome)
    ensures !emailValid || |otp| != 6 ==> r == Outcome(ValidationFailed, users)
    ensures emailValid && |otp| == 6 ==>
      match FindByEmail(users, email)
      case None => r == Outcome(Reply(400, "User not found"), users)
      case Some(i) =>
        var u := users[i];
        && (u.isVerified ==> r == Outcome(Reply(400, "User already verified"), users))
        && (!u.isVerified ==>
             match CheckOtp(u.otp, otp, now)
             case OtpMissing => r == Outcome(Reply(400, "OTP not found"), users)
             case OtpExpired => r == Outcome(Reply(400, "OTP expired"), users)
             case OtpMismatch => r == Outcome(Reply(400, "Invalid OTP"), users)
             case OtpOk => r == Outcome(Reply(200, token), users[i := Verified(u)]))
  {
    if !emailValid || |otp| != 6 then Outcome(ValidationFailed, users)
    else match FindByEmail(users, email)
      case None => Outcome(Reply(400, "User not found"), users)
      case Some(i) =>
        var u := users[i];
        if u.isVerified then Outcome(Reply(400, "User already verified"), users)
        else match CheckOtp(u.otp, otp, now)
          case OtpMissing => Outcome(Reply(400, "OTP not found"), users)
          case OtpExpired => Outcome(Reply(400, "OTP expired"), users)
          case OtpMismatch => Outcome(Reply(400, "Invalid OTP"), users)
          case OtpOk => Outcome(Reply(200, token), users[i := Verified(u)])
  }

  /** Verification changes the collection only on success, and then only the two fields of that user. */
  lemma VerifyOtpChangesOnlyTheUser(users: seq<User>, email: string, otp: string, now: int,
                                    emailValid: bool, token: string)
    ensures var r := VerifyOtp(users, email, otp, now, emailValid, token);
      r.users != users ==>
        && r.reply.code == 200 && FindByEmail(users, email).Some?
        && var i := FindByEmail(users, email).value;
        && r.users == users[i := Verified(users[i])]
        && !users[i].isVerified
  {
  }

  /** A code is good for one verification: the same request again finds the user already verified. */
  lemma VerifyOtpOneShot(users: seq<User>, email: string, otp: string, now: int, later: int,
                         token: string, token2: string)
    requires VerifyOtp(users, email, otp, now, true, token).reply.code == 200
    ensures VerifyOtp(VerifyOtp(users, email, otp, now, true, token).users, email, otp, later, true, token2).reply
         == Reply(400, "User already verified")
  {
    var i := FindByEmail(users, email).value;
    var after := users[i := Verified(users[i])];
    SameEmailsSameLookup(users, i, Verified(users[i]), email);
  }

  /** Replacing a user by one with the same email leaves every email lookup where it was. */
  lemma SameEmailsSameLookup(users: seq<User>, i: nat, u: User, email: string)
    requires i < |users| && u.email == users[i].email
    ensures FindByEmail(users[i := u], email) == FindByEmail(users, email)
  {
    var after := users[i := u];
    assert forall k :: 0 <= k < |users| ==> after[k].email == users[k].email;
    FirstIndexSameEmails(users, after, NormalizeEmail(email));
  }

  lemma {:induction false} FirstIndexSameEmails(a: seq<User>, b: seq<User>, e: string)
    requires |a| == |b| && forall k :: 0 <= k < |a| ==> a[k].email == b[k].email
    ensures FirstIndex(a, (u: User) => u.email == e) == FirstIndex(b, (u: User) => u.email == e)
    decreases |a|
  {
    if a != [] {
      FirstIndexSameEmails(a[1..], b[1..], e);
    }
  }

  /** A user just signed up can verify with the mailed code at any time within its lifetime. */
  lemma SignupThenVerify(users: seq<User>, email: string, password: string, fullName: Option<string>,
                         code: string, passwordHash: string, newId: ObjectId, now: nat, mailSent: bool,
                         later: int, token: string)
    requires |code| == 6 && now <= later <= now + OtpLifetimeMs
    requires Signup(users, email, password, fullName, true, code, passwordHash, newId, now, mailSent).users != users
    ensures var signed := Signup(users, email, password, fullName, true, code, passwordHash, newId, now, mailSent);
      VerifyOtp(signed.users, email, code, later, true, token).reply == Reply(200, token)
  {
    var u := NewUser(newId, email, passwordHash, IssueOtp(code, now), fullName, now);
    FindAppended(users, u, email);
  }

  /** A user appended with a fresh email is what the lookup by that email finds. */
  lemma FindAppended(users: seq<User>, u: User, email: string)
    requires FindByEmail(users, email).None? && u.email == NormalizeEmail(email)
    ensures FindByEmail(users + [u], email) == Some(|users|)
  {
    var all := users + [u];
    assert forall k :: 0 <= k < |users| ==> all[k] == users[k];
    assert all[|users|] == u;
  }

  // ----- forgot-password and reset-password -----

  /**
    `POST /forgot-password`: after validation and the user lookup, a fresh
    ten-minute OTP replaces any earlier one and is saved before the mail is
    sent; a failed mail is a 500 with the OTP kept.
  */
  function ForgotPassword(users: seq<User>, email: string, emailValid: bool, code: string, now: int,
                          mailSent: bool): (r: Outcome)
    ensures !emailValid ==> r == Outcome(ValidationFailed, users)
    ensures emailValid && FindByEmail(users, email).None? ==> r == Outcome(Reply(400, "User not found"), users)
    ensures emailValid && FindByEmail(users, email).Some? ==>
      && var i := FindByEmail(users, email).value;
      && r.users == users[i := users[i].(otp := Some(IssueOtp(code, now)))]
      && r.reply == (if mailSent then Reply(200, "Password reset OTP sent successfully") else ServerError)
  {
    if !emailValid then Outcome(ValidationFailed, users)
    else match FindByEmail(users, email)
      case None => Outcome(Reply(400, "User not found"), users)
      case Some(i) =>
        var saved := users[i := users[i].(otp := Some(IssueOtp(code, now)))];
        Outcome(if mailSent then Reply(200, "Password reset OTP sent successfully") else ServerError, saved)
  }

  /**
    `POST /reset-password`: validation (email, a six-character code, a new
    password of at least six characters), the user lookup, then the OTP guards
    without the verified check, and on success the new hash replaces the
    password and the OTP is cleared.
  */
  function ResetPassword(users: seq<User>, email: string, otp: string, newPassword: string, now: int,
                         emailValid: bool, newHash: string): (r: Outcome)
    ensures !emailValid || |otp| != 6 || |newPassword| < 6 ==> r == Outcome(ValidationFailed, users)
    ensures emailValid && |otp| == 6 && |newPassword| >= 6 ==>
      match FindByEmail(users, email)
      case None => r == Outcome(Reply(400, "User not found"), users)
      case Some(i) =>
        match CheckOtp(users[i].otp, otp, now)
        case OtpMissing => r == Outcome(Reply(400, "OTP not found. Please request a new one."), users)
        case OtpExpired => r == Outcome(Reply(400, "OTP expired. Please request a new one."), users)
        case OtpMismatch => r == Outcome(Reply(400, "Invalid OTP"), users)
        case OtpOk =>
          && r.reply == Reply(200, "Password reset successful. Please login with your new password.")
          && r.users == users[i := users[i].(password := newHash, otp := None)]
  {
    if !emailValid || |otp| != 6 || |newPassword| < 6 then Outcome(ValidationFailed, users)
    else match FindByEmail(users, email)
      case None => Outcome(Reply(400, "User not found"), users)
      case Some(i) =>
        match CheckOtp(users[i].otp, otp, now)
        case OtpMissing => Outcome(Reply(400, "OTP not found. Please request a new one."), users)
        case OtpExpired => Outcome(Reply(400, "OTP expired. Please request a new one."), users)
        case OtpMismatch => Outcome(Reply(400, "Invalid OTP"), users)
        case OtpOk =>
          Outcome(Reply(200, "Password reset successful. Please login with your new password."),
                  users[i := users[i].(password := newHash, otp := None)])
  }

  /** A reset consumes the OTP: the same reset again finds no OTP. */
  lemma ResetTwiceFails(users: seq<User>, email: string, otp: string, newPassword: string, now: int,
                        later: int, newHash: string, newHash2: string)
    requires ResetPassword(users, email, otp, newPassword, now, true, newHash).reply.code == 200
    ensures var once := ResetPassword(users, email, otp, newPassword, now, true, newHash).users;
      ResetPassword(once, email, otp, newPassword, later, true, newHash2).reply
        == Reply(400, "OTP not found. Please request a new one.")
  {
    var i := FindByEmail(users, email).value;
    SameEmailsSameLookup(users, i, users[i].(password := newHash, otp := None), email);
  }

  /** A reset with the code just mailed by forgot-password succeeds within the lifetime. */
  lemma ForgotThenReset(users: seq<User>, email: string, code: string, issued: int, mailSent: bool,
                        newPassword: string, now: int, newHash: string)
    requires |code| == 6 && |newPassword| >= 6 && issued <= now <= issued + OtpLifetimeMs
    requires FindByEmail(users, email).Some?
    ensures var sent := ForgotPassword(users, email, true, code, issued, mailSent).users;
      var i := FindByEmail(users, email).value;
      ResetPassword(sent, email, code, newPassword, now, true, newHash) ==
        Outcome(Reply(200, "Password reset successful. Please login with your new password."),
                users[i := users[i].(password := newHash, otp := None)])
  {
    var i := FindByEmail(users, email).value;
    var withOtp := users[i].(otp := Some(IssueOtp(code, issued)));
    SameEmailsSameLookup(users, i, withOtp, email);
    assert users[i := withOtp][i := withOtp.(password := newHash, otp := None)]
        == users[i := users[i].(password := newHash, otp := None)];
  }

  // ----- update-profile -----

  /**
    `PUT /update-profile`: 400 without a truthy email, 404 when no user has
    it; otherwise each truthy field overwrites its path (`fullName` through the
    trim setter), and `bankDetails`, when given, is replaced by its four fields.
  */
  function UpdateProfile(users: seq<User>, phoneNumber: Option<string>, fullName: Option<string>,
                         email: Option<string>, bankDetails: Option<BankDetails>): (r: Outcome)
    ensures !Truthy(email) ==> r == Outcome(Reply(400, "email is required"), users)
    ensures Truthy(email) && FindByEmail(users, email.value).None? ==>
      r == Outcome(Reply(404, "email  not found"), users)
    ensures Truthy(email) && FindByEmail(users, email.value).Some? ==>
      && var i := FindByEmail(users, email.value).value;
      && r.reply == Reply(200, "Profile updated successfully")
      && |r.users| == |users|
      && (forall k :: 0 <= k < |users| && k != i ==> r.users[k] == users[k])
      && r.users[i] == users[i].(fullName := r.users[i].fullName, phoneNumber := r.users[i].phoneNumber,
                                 bankDetails := r.users[i].bankDetails)
      && r.users[i].fullName == (if Truthy(fullName) then Trim(fullName.value) else users[i].fullName)
      && r.users[i].phoneNumber == (if Truthy(phoneNumber) then phoneNumber.value else users[i].phoneNumber)
      && r.users[i].bankDetails == (if bankDetails.Some? then bankDetails else users[i].bankDetails)
  {
    if !Truthy(email) then Outcome(Reply(400, "email is required"), users)
    else match FindByEmail(users, email.value)
      case None => Outcome(Reply(404, "email  not found"), users)
      case Some(i) =>
        var u := users[i];
        var u := if Truthy(fullName) then u.(fullName := Trim(fullName.value)) else u;
        var u := u.(email := NormalizeEmail(email.value));
        var u := if Truthy(phoneNumber) then u.(phoneNumber := phoneNumber.value) else u;
        var u := if bankDetails.Some? then
          u.(bankDetails := Some(BankDetails(bankDetails.value.accountHolder, bankDetails.value.accountNumber,
                                             bankDetails.value.ifscCode, bankDetails.value.bankName)))
        else u;
        Outcome(Reply(200, "Profile updated successfully"), users[i := u])
  }

  /** The email assignment rewrites the value the lookup matched, so emails stay unique. */
  lemma UpdateProfileKeepsEmailsUnique(users: seq<User>, phoneNumber: Option<string>, fullName: Option<string>,
                                       email: Option<string>, bankDetails: Option<BankDetails>)
    requires EmailsUnique(users)
    ensures EmailsUnique(UpdateProfile(users, phoneNumber, fullName, email, bankDetails).users)
  {
    var r := UpdateProfile(users, phoneNumber, fullName, email, bankDetails);
    if Truthy(email) && FindByEmail(users, email.value).Some? {
      var i := FindByEmail(users, email.value).value;
      assert r.users == users[i := r.users[i]];
      EmailsUniqueUpdate(users, i, r.users[i]);
    }
  }

  // ----- update-transactions -----

  /** `user.transactions.find(txn => txn.txn_id === txnId)`, as an index. */
  function FindByTxnId(ts: seq<Transaction>, txnId: Option<string>): (r: Option<nat>)
    ensures r.Some? ==> r.value < |ts| && ts[r.value].txnId == txnId
    ensures r.Some? ==> forall k :: 0 <= k < r.value ==> ts[k].txnId != txnId
    ensures r.None? <==> forall k :: 0 <= k < |ts| ==> ts[k].txnId != txnId
  {
    FirstIndex(ts, (t: Transaction) => t.txnId == txnId)
  }

  /**
    `PUT /update-transactions`: the user by email, then the first transaction
    with that `txn_id`; only its `paymentTransferStatus` is assigned. An
    undefined status takes the default, and a value outside the enum fails
    validation on `save`, a 500 that stores nothing.
  */
  function UpdateTransactions(users: seq<User>, email: string, txnId: Option<string>,
                              paymentTransferStatus: Option<string>): (r: Outcome)
    ensures FindByEmail(users, email).None? ==> r == Outcome(Reply(404, "User not found"), users)
    ensures FindByEmail(users, email).Some? ==>
      && var i := FindByEmail(users, email).value;
      && (FindByTxnId(users[i].transactions, txnId).None? ==> r == Outcome(Reply(404, "Transaction not found"), users))
      && (FindByTxnId(users[i].transactions, txnId).Some? ==>
            && var j := FindByTxnId(users[i].transactions, txnId).value;
            && (CastStatus(paymentTransferStatus).None? ==>
                  r == Outcome(Reply(500, "Failed to update payment transfer status"), users))
            && (CastStatus(paymentTransferStatus).Some? ==>
                  && r.reply == Reply(200, "Transaction paymentTransferStatus updated successfully")
                  && r.users == WithTransaction(users, i, j,
                       users[i].transactions[j].(paymentTransferStatus := CastStatus(paymentTransferStatus).value))))
  {
    match FindByEmail(users, email)
    case None => Outcome(Reply(404, "User not found"), users)
    case Some(i) =>
      match FindByTxnId(users[i].transactions, txnId)
      case None => Outcome(Reply(404, "Transaction not found"), users)
      case Some(j) =>
        match CastStatus(paymentTransferStatus)
        case None => Outcome(Reply(500, "Failed to update payment transfer status"), users)
        case Some(st) =>
          Outcome(Reply(200, "Transaction paymentTransferStatus updated successfully"),
                  WithTransaction(users, i, j, users[i].transactions[j].(paymentTransferStatus := st)))
  }

  /**
    Whatever the request, `update-transactions` leaves every payment status,
    every transaction count and every field other than one transfer status as
    it was.
  */
  lemma UpdateTransactionsTouchesOneField(users: seq<User>, email: string, txnId: Option<string>,
                                          paymentTransferStatus: Option<string>, i: nat, j: nat)
    requires i < |users| && j < |users[i].transactions|
    ensures var after := UpdateTransactions(users, email, txnId, paymentTransferStatus).users;
      && |after| == |users|
      && after[i] == users[i].(transactions := after[i].transactions)
      && |after[i].transactions| == |users[i].transactions|
      && after[i].transactions[j] ==
           users[i].transactions[j].(paymentTransferStatus := after[i].transactions[j].paymentTransferStatus)
  {
    var r := UpdateTransactions(users, email, txnId, paymentTransferStatus);
    if r.users != users {
      var k := FindByEmail(users, email).value;
      var m := FindByTxnId(users[k].transactions, txnId).value;
      var t := users[k].transactions[m].(paymentTransferStatus := CastStatus(paymentTransferStatus).value);
      assert r.users == WithTransaction(users, k, m, t);
      if k == i {
        assert r.users[i].transactions == users[i].transactions[m := t];
      }
    }
  }

  // ----- the payment webhook -----

  /** `POST /payment-callback`: the body is only logged; nothing is read from or written to the store. */
  method PaymentCallback(store: UserStore) returns (reply: Reply)
    ensures reply == Reply(200, "success")
  {
    reply := Reply(200, "success");
  }

  // ----- the routes as steps on the store -----

  method SignupRoute(store: UserStore, email: string, password: string, fullName: Option<string>,
                     emailValid: bool, code: string, passwordHash: string, newId: ObjectId, now: nat,
                     mailSent: bool) returns (reply: Reply)
    modifies store
    ensures Outcome(reply, store.users) ==
      Signup(old(store.users), email, password, fullName, emailValid, code, passwordHash, newId, now, mailSent)
  {
    if !emailValid || |password| < 6 {
      return ValidationFailed;
    }
    var existing := FindByEmail(store.users, email);
    if existing.Some? {
      return Reply(400, "User already exists");
    }
    var user := NewUser(newId, email, passwordHash, IssueOtp(code, now), fullName, now);
    if !NewUserValid(user) {
      return ServerError;
    }
    store.users := store.users + [user];
    if !mailSent {
      return ServerError;
    }
    reply := SignupCreated;
  }

  method VerifyOtpRoute(store: UserStore, email: string, otp: string, now: int, emailValid: bool,
                        token: string) returns (reply: Reply)
    modifies store
    ensures Outcome(reply, store.users) == VerifyOtp(old(store.users), email, otp, now, emailValid, token)
  {
    if !emailValid || |otp| != 6 {
      return ValidationFailed;
    }
    var found := FindByEmail(store.users, email);
    if found.None? {
      return Reply(400, "User not found");
    }
    var i := found.value;
    var user := store.users[i];
    if user.isVerified {
      return Reply(400, "User already verified");
    }
    var check := CheckOtp(user.otp, otp, now);
    if check == OtpMissing {
      return Reply(400, "OTP not found");
    } else if check == OtpExpired {
      return Reply(400, "OTP expired");
    } else if check == OtpMismatch {
      return Reply(400, "Invalid OTP");
    }
    user := user.(isVerified := true);
    user := user.(otp := None);
    store.users := store.users[i := user];
    reply := Reply(200, token);
  }

  method ForgotPasswordRoute(store: UserStore, email: string, emailValid: bool, code: string, now: int,
                             mailSent: bool) returns (reply: Reply)
    modifies store
    ensures Outcome(reply, store.users) == ForgotPassword(old(store.users), email, emailValid, code, now, mailSent)
  {
    if !emailValid {
      return ValidationFailed;
    }
    var found := FindByEmail(store.users, email);
    if found.None? {
      return Reply(400, "User not found");
    }
    var i := found.value;
    var user := store.users[i].(otp := Some(IssueOtp(code, now)));
    store.users := store.users[i := user];
    if !mailSent {
      return ServerError;
    }
    reply := Reply(200, "Password reset OTP sent successfully");
  }

  method ResetPasswordRoute(store: UserStore, email: string, otp: string, newPassword: string, now: int,
                            emailValid: bool, newHash: string) returns (reply: Reply)
    modifies store
    ensures Outcome(reply, store.users) == ResetPassword(old(store.users), email, otp, newPassword, now, emailValid, newHash)
  {
    if !emailValid || |otp| != 6 || |newPassword| < 6 {
      return ValidationFailed;
    }
    var found := FindByEmail(store.users, email);
    if found.None? {
      return Reply(400, "User not found");
    }
    var i := found.value;
    var user := store.users[i];
    var check := CheckOtp(user.otp, otp, now);
    if check == OtpMissing {
      return Reply(400, "OTP not found. Please request a new one.");
    } else if check == OtpExpired {
      return Reply(400, "OTP expired. Please request a new one.");
    } else if check == OtpMismatch {
      return Reply(400, "Invalid OTP");
    }
    user := user.(password := newHash);
    user := user.(otp := None);
    store.users := store.users[i := user];
    reply := Reply(200, "Password reset successful. Please login with your new password.");
  }

  method UpdateProfileRoute(store: UserStore, phoneNumber: Option<string>, fullName: Option<string>,
                            email: Option<string>, bankDetails: Option<BankDetails>) returns (reply: Reply)
    modifies store
    ensures Outcome(reply, store.users) == UpdateProfile(old(store.users), phoneNumber, fullName, email, bankDetails)
  {
    if !Truthy(email) {
      return Reply(400, "email is required");
    }
    var found := FindByEmail(store.users, email.value);
    if found.None? {
      return Reply(404, "email  not found");
    }
    var i := found.value;
    var user := store.users[i];
    if Truthy(fullName) {
      user := user.(fullName := Trim(fullName.value));
    }
    user := user.(email := NormalizeEmail(email.value));
    if Truthy(phoneNumber) {
      user := user.(phoneNumber := phoneNumber.value);
    }
    if bankDetails.Some? {
      var given := bankDetails.value;
      user := user.(bankDetails := Some(BankDetails(given.accountHolder, given.accountNumber, given.ifscCode, given.bankName)));
    }
    store.users := store.users[i := user];
    reply := Reply(200, "Profile updated successfully");
  }

  method UpdateTransactionsRoute(store: UserStore, email: string, txnId: Option<string>,
                                 paymentTransferStatus: Option<string>) returns (reply: Reply)
    modifies store
    ensures Outcome(reply, store.users) == UpdateTransactions(old(store.users), email, txnId, paymentTransferStatus)
  {
    var found := FindByEmail(store.users, email);
    if found.None? {
      return Reply(404, "User not found");
    }
    var i := found.value;
    var txn := FindByTxnId(store.users[i].transactions, txnId);
    if txn.None? {
      return Reply(404, "Transaction not found");
    }
    var j := txn.value;
    var status := CastStatus(paymentTransferStatus);
    if status.None? {
      return Reply(500, "Failed to update payment transfer status");
    }
    var t := store.users[i].transactions[j].(paymentTransferStatus := status.value);
    store.users := WithTransaction(store.users, i, j, t);
    reply := Reply(200, "Transaction paymentTransferStatus updated successfully");
  }
}
