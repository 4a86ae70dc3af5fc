/**
  The `User` document of models/User.js: the user schema with its embedded,
  ordered array of transaction subdocuments, the enums and defaults, and what
  Mongoose's casting and validation do when a new subdocument or user is saved.
*/
module UserModel {
  import opened Wrappers
  import Text

  /** Mongo's `_id`, as an abstract number. */
  type ObjectId = nat

  /** The `enum: ["pending", "completed", "failed"]` of `paymentStatus` and `paymentTransferStatus`. */
  datatype Status = Pending | Completed | Failed

  predicate IsTerminal(s: Status) {
    s != Pending
  }

  function StatusName(s: Status): string {
    match s
    case Pending => "pending"
    case Completed => "completed"
    case Failed => "failed"
  }

  /** What the enum validator accepts: exactly the three names. */
  function ParseStatus(s: string): (r: Option<Status>)
    ensures r.Some? <==> s == "pending" || s == "completed" || s == "failed"
    ensures r.Some? ==> StatusName(r.value) == s
  {
    if s == "pending" then Some(Pending)
    else if s == "completed" then Some(Completed)
    else if s == "failed" then Some(Failed)
    else None
  }

  /** Names and the enum are in one-to-one correspondence. */
  lemma ParseStatusName(st: Status)
    ensures ParseStatus(StatusName(st)) == Some(st)
  {
  }

  /** One element of `transactions`. `amount` is required; the two statuses default to pending. */
  datatype Transaction = Transaction(
    id: ObjectId,
    amount: int,
    receiveAmount: Option<int>,
    txnId: Option<string>,
    paymentTransactionId: Option<string>,
    smslink: Option<string>,
    email: Option<string>,
    paymentStatus: Status,
    paymentTransferStatus: Status,
    createdAt: nat)

  /** The `bankDetailsSchema` subdocument: four optional strings. */
  datatype BankDetails = BankDetails(
    accountHolder: Option<string>,
    accountNumber: Option<string>,
    ifscCode: Option<string>,
    bankName: Option<string>)

  /** The nested `otp` object. */
  datatype Otp = Otp(code: string, expiresAt: int)

  datatype User = User(
    id: ObjectId,
    phoneNumber: string,
    userRole: string,
    password: string,
    isVerified: bool,
    otp: Option<Otp>,
    createdAt: nat,
    fullName: string,
    email: string,
    bankDetails: Option<BankDetails>,
    transactions: seq<Transaction>)

  // ----- the email path: `trim`, `lowercase`, `match` -----

  /** The `trim` and `lowercase` setters. Mongoose also applies them to query filters and updates. */
  function NormalizeEmail(s: string): (r: string)
    ensures |r| == |Text.Trim(s)| <= |s|
    ensures forall k :: 0 <= k < |r| ==> r[k] == Text.LowerChar(Text.Trim(s)[k])
  {
    Text.ToLower(Text.Trim(s))
  }

  /** Setting an already stored email again stores the same string. */
  lemma NormalizeEmailIdempotent(s: string)
    ensures NormalizeEmail(NormalizeEmail(s)) == NormalizeEmail(s)
  {
    var t := Text.Trim(s);
    var l := Text.ToLower(t);
    Text.TrimOfTrimmed(l);
    Text.ToLowerIdempotent(t);
  }

  /** `\w` without the unicode flag. */
  predicate IsWordChar(c: char) {
    ('a' <= c <= 'z') || ('A' <= c <= 'Z') || ('0' <= c <= '9') || c == '_'
  }

  /** `[\w-]` */
  predicate IsLabelChar(c: char) {
    IsWordChar(c) || c == '-'
  }

  /** `[\w-\.]`: in a class, `\w-\.` is `\w`, a hyphen and a dot. */
  predicate IsLocalChar(c: char) {
    IsLabelChar(c) || c == '.'
  }

  predicate AllLabelChars(s: string) {
    forall i :: 0 <= i < |s| ==> IsLabelChar(s[i])
  }

  /** `[\w-]{2,4}` */
  predicate IsTld(s: string) {
    2 <= |s| <= 4 && AllLabelChars(s)
  }

  /** `([\w-]+\.)+[\w-]{2,4}`: labels cannot hold a dot, so the dots split the domain uniquely. */
  predicate IsDomain(d: string)
    decreases |d|
  {
    var k := Text.IndexOf(d, '.');
    0 < k < |d| && AllLabelChars(d[..k]) && (IsTld(d[k + 1..]) || IsDomain(d[k + 1..]))
  }

  /**
    `^[\w-\.]+@([\w-]+\.)+[\w-]{2,4}$`. Neither part can hold an `@`, so the
    first `@` is the only one.
  */
  predicate MatchesEmailPattern(s: string) {
    var k := Text.IndexOf(s, '@');
    0 < k < |s|
    && (forall i :: 0 <= i < k ==> IsLocalChar(s[i]))
    && IsDomain(s[k + 1..])
  }

  lemma {:induction false} DomainHasNoAt(d: string, i: nat)
    requires IsDomain(d) && i < |d|
    ensures d[i] != '@'
    decreases |d|
  {
    var k := Text.IndexOf(d, '.');
    if i < k {
      assert d[..k][i] == d[i];
    } else if i > k {
      var rest := d[k + 1..];
      assert rest[i - k - 1] == d[i];
      if !IsTld(rest) {
        DomainHasNoAt(rest, i - k - 1);
      }
    }
  }

  /** An address the pattern accepts has exactly one `@`, neither first nor last. */
  lemma EmailPatternOneAt(s: string)
    requires MatchesEmailPattern(s)
    ensures exists k :: 0 < k < |s| - 1 && s[k] == '@'
    ensures forall i, j :: 0 <= i < j < |s| && s[i] == '@' ==> s[j] != '@'
  {
    var k := Text.IndexOf(s, '@');
    var d := s[k + 1..];
    assert d != [];
    forall j | k < j < |s|
      ensures s[j] != '@'
    {
      assert d[j - k - 1] == s[j];
      DomainHasNoAt(d, j - k - 1);
    }
  }

  /** A domain needs a dot. */
  lemma DomainNeedsDot(t: string)
    requires Text.Free(t, '.')
    ensures !IsDomain(t)
  {
    Text.IndexOfAfterFreePrefix(t, [], '.');
    assert t + [] == t;
  }

  /** The domain `host.tld` splits at its one dot. */
  lemma SplitDomain(host: string, tld: string)
    requires AllLabelChars(host)
    ensures var d := host + "." + tld; Text.IndexOf(d, '.') == |host| && d[..|host|] == host && d[|host| + 1..] == tld
  {
    var d := host + "." + tld;
    assert d == host + ("." + tld);
    assert Text.Free(host, '.');
    Text.IndexOfAfterFreePrefix(host, "." + tld, '.');
    assert Text.IndexOf("." + tld, '.') == 0;
  }

  /** The address `local@d` splits at its first `@`. */
  lemma SplitAddress(local: string, d: string)
    requires Text.Free(local, '@')
    ensures var s := local + "@" + d; Text.IndexOf(s, '@') == |local| && s[..|local|] == local && s[|local| + 1..] == d
  {
    var s := local + "@" + d;
    assert s == local + ("@" + d);
    Text.IndexOfAfterFreePrefix(local, "@" + d, '@');
    assert Text.IndexOf("@" + d, '@') == 0;
  }

  /** `local@host.tld` with a dotted local part and a two-to-four character top-level domain matches. */
  lemma EmailPatternAccepts(local: string, host: string, tld: string)
    requires local != [] && forall i :: 0 <= i < |local| ==> IsLocalChar(local[i])
    requires host != [] && AllLabelChars(host) && IsTld(tld)
    ensures MatchesEmailPattern(local + "@" + host + "." + tld)
  {
    var d := host + "." + tld;
    assert local + "@" + host + "." + tld == local + "@" + d;
    SplitAddress(local, d);
    SplitDomain(host, tld);
  }

  /** A top-level domain of five or more characters is refused. */
  lemma EmailPatternRefusesLongTld(local: string, host: string, tld: string)
    requires AllLabelChars(host) && AllLabelChars(tld) && |tld| > 4
    requires Text.Free(local, '@')
    ensures !MatchesEmailPattern(local + "@" + host + "." + tld)
  {
    var d := host + "." + tld;
    assert local + "@" + host + "." + tld == local + "@" + d;
    SplitAddress(local, d);
    SplitDomain(host, tld);
    DomainNeedsDot(tld);
  }

  // ----- casting a pushed object into a subdocument, and validating it on save -----

  /**
    The plain object handed to `transactions.push`: every schema path it may
    carry, as JavaScript values (`None` for undefined), including a
    client-supplied `_id` and `createdAt`. Keys that are not schema paths are
    dropped by Mongoose's strict mode and do not appear here.
  */
  datatype TxnFields = TxnFields(
    id: Option<ObjectId>,
    createdAt: Option<nat>,
    amount: Option<int>,
    receiveAmount: Option<int>,
    txnId: Option<string>,
    paymentTransactionId: Option<string>,
    smslink: Option<string>,
    email: Option<string>,
    paymentStatus: Option<string>,
    paymentTransferStatus: Option<string>)

  /** An enum path holding `v`: undefined takes the default, a string must be one of the three names. */
  function CastStatus(v: Option<string>): (r: Option<Status>)
    ensures v.None? ==> r == Some(Pending)
    ensures v.Some? ==> r == ParseStatus(v.value)
  {
    if v.None? then Some(Pending) else ParseStatus(v.value)
  }

  /** Why `user.save()` rejects a new subdocument. */
  datatype SchemaError = AmountRequired | BadPaymentStatus | BadTransferStatus | BadEmail

  /**
    The subdocument Mongoose builds from `f`, and the first validation error
    `save()` reports for it. `_id` defaults to `id` and `createdAt` to `now`
    when `f` carries none. The `match` validator lets an empty string through,
    so an email that trims to "" is stored as "".
  */
  function MakeTransaction(f: TxnFields, id: ObjectId, now: nat): (r: Result<Transaction, SchemaError>)
    ensures r.Success? <==>
      && f.amount.Some?
      && CastStatus(f.paymentStatus).Some?
      && CastStatus(f.paymentTransferStatus).Some?
      && (f.email.Some? && NormalizeEmail(f.email.value) != "" ==> MatchesEmailPattern(NormalizeEmail(f.email.value)))
    ensures r.Success? ==>
      && r.value.id == f.id.GetOr(id) && r.value.createdAt == f.createdAt.GetOr(now)
      && r.value.amount == f.amount.value && r.value.receiveAmount == f.receiveAmount
      && r.value.txnId == f.txnId && r.value.paymentTransactionId == f.paymentTransactionId
      && r.value.smslink == f.smslink
      && r.value.email == (if f.email.Some? then Some(NormalizeEmail(f.email.value)) else None)
      && Some(r.value.paymentStatus) == CastStatus(f.paymentStatus)
      && Some(r.value.paymentTransferStatus) == CastStatus(f.paymentTransferStatus)
    ensures f.amount.None? ==> r == Failure(AmountRequired)
  {
    var email := if f.email.Some? then Some(NormalizeEmail(f.email.value)) else None;
    if f.amount.None? then Failure(AmountRequired)
    else if CastStatus(f.paymentStatus).None? then Failure(BadPaymentStatus)
    else if CastStatus(f.paymentTransferStatus).None? then Failure(BadTransferStatus)
    else if email.Some? && email.value != "" && !MatchesEmailPattern(email.value) then Failure(BadEmail)
    else Success(Transaction(
      f.id.GetOr(id), f.amount.value, f.receiveAmount, f.txnId, f.paymentTransactionId, f.smslink, email,
      CastStatus(f.paymentStatus).value, CastStatus(f.paymentTransferStatus).value, f.createdAt.GetOr(now)))
  }

  /** A subdocument pushed without statuses starts pending on both, independently. */
  lemma MakeTransactionDefaults(f: TxnFields, id: ObjectId, now: nat)
    requires f.paymentStatus.None? && f.paymentTransferStatus.None?
    requires MakeTransaction(f, id, now).Success?
    ensures MakeTransaction(f, id, now).value.paymentStatus == Pending
    ensures MakeTransaction(f, id, now).value.paymentTransferStatus == Pending
  {
  }

  /**
    `new User({...})` as signup builds it: `phoneNumber` "", `userRole` "User",
    `isVerified` false, `fullName` trimmed or "", no bank details and no
    transactions. The email is stored normalized.
  */
  function NewUser(id: ObjectId, email: string, passwordHash: string, otp: Otp, fullName: Option<string>, now: nat): (u: User)
    ensures u.id == id && u.email == NormalizeEmail(email) && u.password == passwordHash
    ensures u.otp == Some(otp) && u.createdAt == now
    ensures !u.isVerified && u.phoneNumber == "" && u.userRole == "User"
    ensures u.fullName == (if fullName.Some? then Text.Trim(fullName.value) else "")
    ensures u.bankDetails.None? && u.transactions == []
  {
    User(id, "", "User", passwordHash, false, Some(otp), now,
         if fullName.Some? then Text.Trim(fullName.value) else "",
         NormalizeEmail(email), None, [])
  }

  /**
    What `save()` checks of a new user: `password` is required (non-empty) and
    a non-empty email matches; the `match` validator lets "" through.
  */
  predicate NewUserValid(u: User) {
    u.password != "" && (u.email != "" ==> MatchesEmailPattern(u.email))
  }
}
