/**
  app.js: the gateway status mapping (`updatePaymentStatus`), the
  `/api/payment-status` route, one tick of the reconciliation sweep that the
  cron job and the interval timer both run, and the record-keeping half of
  `/api/generate-payment-link`.
*/
module App {
  import opened Wrappers
  import opened Http
  import opened Text
  import opened UserModel
  import opened MswipeGateway
  import opened Store
  import opened Url

  // ----- status derivation -----

  /** The if/else chain on `Payment_Status`, compared with `===`. */
  function DeriveStatus(code: StatusCode): (r: Status)
    ensures r == Completed <==> code == Num(1)
    ensures r == Pending <==> code == Num(2)
    ensures r == Failed <==> code != Num(1) && code != Num(2)
  {
    if code == Num(1) then Completed
    else if code == Num(2) then Pending
    else Failed
  }

  /** What `updatePaymentStatus` does: it throws, or resolves to a status or to undefined. */
  datatype Fetch = Threw | Returned(status: Option<Status>)

  /** `true` when the reply carries a non-empty `Data` array. */
  predicate HasRow(reply: StatusReply) {
    reply.StatusBody? && reply.data.Some? && reply.data.value != []
  }

  /**
    `updatePaymentStatus` applied to the gateway's reply: a transport failure is
    rethrown as "Failed to fetch payment status"; a missing or empty `Data`
    resolves to undefined; otherwise the first row's code is mapped. The
    reply's own `Status` flag is not looked at.
  */
  function UpdatePaymentStatus(reply: StatusReply): (r: Fetch)
    ensures r == Threw <==> reply.StatusTransportError?
    ensures r == Returned(None) <==> reply.StatusBody? && !HasRow(reply)
    ensures HasRow(reply) ==> r == Returned(Some(DeriveStatus(reply.data.value[0].paymentStatus)))
  {
    match reply
    case StatusTransportError(_) => Threw
    case StatusBody(_, data) =>
      if data.Some? && data.value != [] then Returned(Some(DeriveStatus(data.value[0].paymentStatus)))
      else Returned(None)
  }

  /**
    `POST /api/payment-status`: 400 without calling the gateway when the id is
    falsy; otherwise the gateway's answer, mapped as in `updatePaymentStatus`.
  */
  function PaymentStatusRoute(paymentTransactionId: Option<string>, gateway: StatusGateway): (r: Reply)
    ensures !Truthy(paymentTransactionId) ==> r == Reply(400, "paymentTransactionId is required")
    ensures Truthy(paymentTransactionId) ==>
      var fetched := UpdatePaymentStatus(gateway(paymentTransactionId));
      && (r.code == 500 <==> fetched == Threw)
      && (r.code == 404 <==> fetched == Returned(None))
      && (r.code == 200 <==> fetched.Returned? && fetched.status.Some?)
      && (r.code == 200 ==> r.message == StatusName(fetched.status.value))
    ensures r.code == 500 ==> r.message == "Failed to fetch payment status"
    ensures r.code == 404 ==> r.message == "Payment status not found"
  {
    if !Truthy(paymentTransactionId) then Reply(400, "paymentTransactionId is required")
    else
      match gateway(paymentTransactionId)
      case StatusTransportError(_) => Reply(500, "Failed to fetch payment status")
      case StatusBody(_, data) =>
        if data.Some? && data.value != [] then Reply(200, StatusName(DeriveStatus(data.value[0].paymentStatus)))
        else Reply(404, "Payment status not found")
  }

  // ----- the reconciliation sweep -----

  /**
    One iteration of the inner loop: a transaction that is not pending is left
    alone without a gateway call; a pending one gets the mapped status (an
    undefined status reads back as the default, pending); `None` is the
    exception that ends the tick.
  */
  function Poll(t: Transaction, gateway: StatusGateway): (r: Option<Transaction>)
    ensures IsTerminal(t.paymentStatus) ==> r == Some(t)
    ensures t.paymentStatus == Pending ==> (r.None? <==> gateway(t.paymentTransactionId).StatusTransportError?)
    ensures r.Some? ==> r.value == t.(paymentStatus := r.value.paymentStatus)
    ensures r.Some? && t.paymentStatus == Pending ==>
      (r.value.paymentStatus ==
        var reply := gateway(t.paymentTransactionId);
        if HasRow(reply) then DeriveStatus(reply.data.value[0].paymentStatus) else Pending)
  {
    if t.paymentStatus != Pending then Some(t)
    else
      match UpdatePaymentStatus(gateway(t.paymentTransactionId))
      case Threw => None
      case Returned(status) => Some(t.(paymentStatus := status.GetOr(Pending)))
  }

  /** The state a tick leaves behind, and whether an exception cut it short. */
  datatype Tick<T> = Tick(items: seq<T>, aborted: bool)

  function Prepend<T>(done: seq<T>, rest: Tick<T>): Tick<T> {
    Tick(done + rest.items, rest.aborted)
  }

  /** The inner loop over one user's transactions, stopping at the first exception. */
  function SweepTransactions(ts: seq<Transaction>, gateway: StatusGateway): (r: Tick<Transaction>)
    ensures |r.items| == |ts|
    decreases |ts|
  {
    if ts == [] then Tick([], false)
    else
      match Poll(ts[0], gateway)
      case None => Tick(ts, true)
      case Some(t) => Prepend([t], SweepTransactions(ts[1..], gateway))
  }

  /** The outer loop over all users. A user is saved after every transaction it changes. */
  function SweepUsers(us: seq<User>, gateway: StatusGateway): (r: Tick<User>)
    ensures |r.items| == |us|
    decreases |us|
  {
    if us == [] then Tick([], false)
    else
      var inner := SweepTransactions(us[0].transactions, gateway);
      var u := us[0].(transactions := inner.items);
      if inner.aborted then Tick([u] + us[1..], true)
      else Prepend([u], SweepUsers(us[1..], gateway))
  }

  /** None of the first `n` transactions makes the status call throw. */
  ghost predicate PollsSucceed(ts: seq<Transaction>, gateway: StatusGateway, n: nat)
    requires n <= |ts|
  {
    forall j :: 0 <= j < n ==> Poll(ts[j], gateway).Some?
  }

  /**
    The inner loop, element by element: a transaction is polled exactly when
    no exception happened at or before it; the one that throws and all after
    it are left as they were.
  */
  lemma {:induction false} SweepTransactionsPointwise(ts: seq<Transaction>, gateway: StatusGateway)
    ensures var r := SweepTransactions(ts, gateway);
      && (r.aborted <==> !PollsSucceed(ts, gateway, |ts|))
      && forall j :: 0 <= j < |ts| ==>
           r.items[j] == if PollsSucceed(ts, gateway, j + 1) then Poll(ts[j], gateway).value else ts[j]
    decreases |ts|
  {
    if ts != [] {
      var r := SweepTransactions(ts, gateway);
      if Poll(ts[0], gateway).Some? {
        var tail := ts[1..];
        SweepTransactionsPointwise(tail, gateway);
        forall n | 1 <= n <= |ts|
          ensures PollsSucceed(ts, gateway, n) <==> PollsSucceed(tail, gateway, n - 1)
        {
          if PollsSucceed(tail, gateway, n - 1) {
            forall j | 0 <= j < n
              ensures Poll(ts[j], gateway).Some?
            {
              if j > 0 { assert ts[j] == tail[j - 1]; }
            }
          }
          if PollsSucceed(ts, gateway, n) {
            forall j | 0 <= j < n - 1
              ensures Poll(tail[j], gateway).Some?
            {
              assert tail[j] == ts[j + 1];
            }
          }
        }
        forall j | 0 <= j < |ts|
          ensures r.items[j] == if PollsSucceed(ts, gateway, j + 1) then Poll(ts[j], gateway).value else ts[j]
        {
          if j > 0 {
            assert r.items[j] == SweepTransactions(tail, gateway).items[j - 1];
            assert tail[j - 1] == ts[j];
          }
        }
      } else {
        assert !PollsSucceed(ts, gateway, 1);
        forall n | 1 <= n <= |ts|
          ensures !PollsSucceed(ts, gateway, n)
        {
          assert Poll(ts[0], gateway).None?;
        }
      }
    }
  }

  /** None of the first `n` users' inner loops throws. */
  ghost predicate UsersSucceed(us: seq<User>, gateway: StatusGateway, n: nat)
    requires n <= |us|
  {
    forall i :: 0 <= i < n ==> !SweepTransactions(us[i].transactions, gateway).aborted
  }

  /**
    The outer loop, user by user: a user's transactions are walked exactly when
    no exception happened in an earlier user; later users are left as they were.
  */
  lemma {:induction false} SweepUsersPointwise(us: seq<User>, gateway: StatusGateway)
    ensures var r := SweepUsers(us, gateway);
      && (r.aborted <==> !UsersSucceed(us, gateway, |us|))
      && forall i :: 0 <= i < |us| ==>
           r.items[i] == if UsersSucceed(us, gateway, i)
                         then us[i].(transactions := SweepTransactions(us[i].transactions, gateway).items)
                         else us[i]
    decreases |us|
  {
    if us != [] {
      var r := SweepUsers(us, gateway);
      var tail := us[1..];
      if !SweepTransactions(us[0].transactions, gateway).aborted {
        SweepUsersPointwise(tail, gateway);
        forall n | 1 <= n <= |us|
          ensures UsersSucceed(us, gateway, n) <==> UsersSucceed(tail, gateway, n - 1)
        {
          if UsersSucceed(tail, gateway, n - 1) {
            forall i | 0 <= i < n
              ensures !SweepTransactions(us[i].transactions, gateway).aborted
            {
              if i > 0 { assert us[i] == tail[i - 1]; }
            }
          }
          if UsersSucceed(us, gateway, n) {
            forall i | 0 <= i < n - 1
              ensures !SweepTransactions(tail[i].transactions, gateway).aborted
            {
              assert tail[i] == us[i + 1];
            }
          }
        }
        forall i | 0 <= i < |us|
          ensures r.items[i] == if UsersSucceed(us, gateway, i)
                                then us[i].(transactions := SweepTransactions(us[i].transactions, gateway).items)
                                else us[i]
        {
          if i > 0 {
            assert r.items[i] == SweepUsers(tail, gateway).items[i - 1];
            assert tail[i - 1] == us[i];
          }
        }
      } else {
        forall n | 1 <= n <= |us|
          ensures !UsersSucceed(us, gateway, n)
        {
          assert SweepTransactions(us[0].transactions, gateway).aborted;
        }
        forall i | 0 <= i < |us|
          ensures r.items[i] == if UsersSucceed(us, gateway, i)
                                then us[i].(transactions := SweepTransactions(us[i].transactions, gateway).items)
                                else us[i]
        {
          if i > 0 {
            assert !UsersSucceed(us, gateway, i) by {
              assert SweepTransactions(us[0].transactions, gateway).aborted;
            }
          }
        }
      }
    }
  }

  /**
    What a tick does to transaction `j` of user `i`: it is the polled version
    of itself or unchanged. So the shape of the store is kept, only
    `paymentStatus` can change, and only on a pending transaction.
  */
  lemma SweepEffect(us: seq<User>, gateway: StatusGateway, i: nat, j: nat)
    requires i < |us| && j < |us[i].transactions|
    ensures var after := SweepUsers(us, gateway).items;
      var t := us[i].transactions[j];
      && after[i] == us[i].(transactions := after[i].transactions)
      && |after[i].transactions| == |us[i].transactions|
      && (after[i].transactions[j] == t || Some(after[i].transactions[j]) == Poll(t, gateway))
  {
    SweepUsersPointwise(us, gateway);
    SweepTransactionsPointwise(us[i].transactions, gateway);
  }

  /** Terminal states are sticky: a completed or failed transaction leaves a tick exactly as it entered. */
  lemma SweepKeepsTerminal(us: seq<User>, gateway: StatusGateway, i: nat, j: nat)
    requires i < |us| && j < |us[i].transactions|
    requires IsTerminal(us[i].transactions[j].paymentStatus)
    ensures var after := SweepUsers(us, gateway).items[i];
      j < |after.transactions| && after.transactions[j] == us[i].transactions[j]
  {
    SweepEffect(us, gateway, i, j);
  }

  /** A tick changes no field of a transaction but `paymentStatus`, and no field of a user but `transactions`. */
  lemma SweepOnlyTouchesPaymentStatus(us: seq<User>, gateway: StatusGateway, i: nat, j: nat)
    requires i < |us| && j < |us[i].transactions|
    ensures var after := SweepUsers(us, gateway).items[i];
      && after == us[i].(transactions := after.transactions)
      && |after.transactions| == |us[i].transactions|
      && after.transactions[j] == us[i].transactions[j].(paymentStatus := after.transactions[j].paymentStatus)
  {
    SweepEffect(us, gateway, i, j);
  }

  /** Position `(i, j)` comes at or after `(i0, j0)` in the order the nested loops visit them. */
  predicate AtOrAfter(i: nat, j: nat, i0: nat, j0: nat) {
    i > i0 || (i == i0 && j >= j0)
  }

  /**
    There is no per-transaction catch: once the status call of a pending
    transaction throws, that transaction and every later one, in this user and
    in later users, is left untouched for the rest of the tick.
  */
  lemma SweepAbandonsRest(us: seq<User>, gateway: StatusGateway, i0: nat, j0: nat, i: nat, j: nat)
    requires i0 < |us| && j0 < |us[i0].transactions|
    requires us[i0].transactions[j0].paymentStatus == Pending
    requires gateway(us[i0].transactions[j0].paymentTransactionId).StatusTransportError?
    requires i < |us| && j < |us[i].transactions| && AtOrAfter(i, j, i0, j0)
    ensures SweepUsers(us, gateway).aborted
    ensures var after := SweepUsers(us, gateway).items[i];
      j < |after.transactions| && after.transactions[j] == us[i].transactions[j]
  {
    SweepUsersPointwise(us, gateway);
    var ts0 := us[i0].transactions;
    SweepTransactionsPointwise(ts0, gateway);
    assert Poll(ts0[j0], gateway).None?;
    assert !PollsSucceed(ts0, gateway, |ts0|);
    assert !UsersSucceed(us, gateway, |us|);
    if i > i0 {
      assert !UsersSucceed(us, gateway, i);
    } else {
      if UsersSucceed(us, gateway, i) {
        assert !PollsSucceed(ts0, gateway, j + 1);
      }
    }
  }

  /** A status call that does not throw lets the tick continue; with none throwing, every pending transaction is polled. */
  lemma SweepCompletes(us: seq<User>, gateway: StatusGateway)
    requires forall i, j :: 0 <= i < |us| && 0 <= j < |us[i].transactions| ==>
      (us[i].transactions[j].paymentStatus == Pending ==>
         !gateway(us[i].transactions[j].paymentTransactionId).StatusTransportError?)
    ensures !SweepUsers(us, gateway).aborted
    ensures forall i, j :: 0 <= i < |us| && 0 <= j < |us[i].transactions| ==>
      && j < |SweepUsers(us, gateway).items[i].transactions|
      && Some(SweepUsers(us, gateway).items[i].transactions[j]) == Poll(us[i].transactions[j], gateway)
  {
    SweepUsersPointwise(us, gateway);
    forall i | 0 <= i < |us|
      ensures !SweepTransactions(us[i].transactions, gateway).aborted
      ensures forall j :: 0 <= j < |us[i].transactions| ==>
        Some(SweepTransactions(us[i].transactions, gateway).items[j]) == Poll(us[i].transactions[j], gateway)
    {
      var ts := us[i].transactions;
      SweepTransactionsPointwise(ts, gateway);
      assert forall j :: 0 <= j < |ts| ==> Poll(ts[j], gateway).Some?;
      assert forall n :: 0 <= n <= |ts| ==> PollsSucceed(ts, gateway, n);
    }
    assert forall n :: 0 <= n <= |us| ==> UsersSucceed(us, gateway, n);
  }

  /** Several ticks in a row, one gateway state per tick. */
  function SweepMany(us: seq<User>, gateways: seq<StatusGateway>): (r: seq<User>)
    decreases |gateways|
  {
    if gateways == [] then us else SweepMany(SweepUsers(us, gateways[0]).items, gateways[1..])
  }

  /** Over any number of ticks, whatever the gateway reports, a terminal transaction keeps its place and its value. */
  lemma {:induction false} SweepManyKeepsTerminal(us: seq<User>, gateways: seq<StatusGateway>, i: nat, j: nat)
    requires i < |us| && j < |us[i].transactions|
    requires IsTerminal(us[i].transactions[j].paymentStatus)
    ensures var r := SweepMany(us, gateways);
      i < |r| && j < |r[i].transactions| && r[i].transactions[j] == us[i].transactions[j]
    decreases |gateways|
  {
    if gateways != [] {
      var next := SweepUsers(us, gateways[0]).items;
      SweepEffect(us, gateways[0], i, j);
      SweepKeepsTerminal(us, gateways[0], i, j);
      SweepManyKeepsTerminal(next, gateways[1..], i, j);
    }
  }

  /** One step of the outer loop, unfolded at position `i`. */
  lemma SweepUsersStep(us: seq<User>, i: nat, gateway: StatusGateway)
    requires i < |us|
    ensures var inner := SweepTransactions(us[i].transactions, gateway);
      var u := us[i].(transactions := inner.items);
      SweepUsers(us[i..], gateway) ==
        if inner.aborted then Tick([u] + us[i + 1..], true) else Prepend([u], SweepUsers(us[i + 1..], gateway))
  {
    assert us[i..][0] == us[i] && us[i..][1..] == us[i + 1..];
  }

  lemma ConcatAssoc<T>(a: seq<T>, b: seq<T>, c: seq<T>)
    ensures a + (b + c) == a + b + c
  {
  }

  lemma PrependTwice<T>(a: seq<T>, b: seq<T>, rest: Tick<T>)
    ensures Prepend(a, Prepend(b, rest)) == Prepend(a + b, rest)
  {
    assert a + (b + rest.items) == (a + b) + rest.items;
  }

  /** One step of the inner loop, unfolded at position `j`. */
  lemma SweepTransactionsStep(ts: seq<Transaction>, j: nat, gateway: StatusGateway)
    requires j < |ts|
    ensures SweepTransactions(ts[j..], gateway) ==
      match Poll(ts[j], gateway)
      case None => Tick(ts[j..], true)
      case Some(t) => Prepend([t], SweepTransactions(ts[j + 1..], gateway))
  {
    assert ts[j..][0] == ts[j] && ts[j..][1..] == ts[j + 1..];
  }

  /** The inner loop's invariant survives a transaction whose poll does not throw. */
  lemma SweepTransactionsAdvance(txns: seq<Transaction>, cur: seq<Transaction>, j: nat, gateway: StatusGateway)
    requires j < |txns| && |cur| == |txns| && cur[j..] == txns[j..]
    requires SweepTransactions(txns, gateway) == Prepend(cur[..j], SweepTransactions(txns[j..], gateway))
    requires Poll(txns[j], gateway).Some?
    ensures var next := cur[j := Poll(txns[j], gateway).value];
      && next[j + 1..] == txns[j + 1..]
      && SweepTransactions(txns, gateway) == Prepend(next[..j + 1], SweepTransactions(txns[j + 1..], gateway))
  {
    var p := Poll(txns[j], gateway).value;
    var next := cur[j := p];
    SweepTransactionsStep(txns, j, gateway);
    assert next[..j + 1] == cur[..j] + [p];
    PrependTwice(cur[..j], [p], SweepTransactions(txns[j + 1..], gateway));
    assert next[j + 1..] == cur[j + 1..];
    assert cur[j + 1..] == cur[j..][1..];
  }

  /** When the poll at `j` throws, the inner loop's result is what the loop has built so far. */
  lemma SweepTransactionsAbort(txns: seq<Transaction>, cur: seq<Transaction>, j: nat, gateway: StatusGateway)
    requires j < |txns| && |cur| == |txns| && cur[j..] == txns[j..]
    requires SweepTransactions(txns, gateway) == Prepend(cur[..j], SweepTransactions(txns[j..], gateway))
    requires Poll(txns[j], gateway).None?
    ensures SweepTransactions(txns, gateway) == Tick(cur, true)
  {
    SweepTransactionsStep(txns, j, gateway);
    assert cur[..j] + txns[j..] == cur;
  }

  /** The outer loop's invariant after user `i`: on an exception the tick's result is the store as it stands. */
  lemma SweepUsersAdvance(us: seq<User>, done: seq<User>, i: nat, gateway: StatusGateway)
    requires i < |us| && |done| == i
    requires SweepUsers(us, gateway) == Prepend(done, SweepUsers(us[i..], gateway))
    ensures var inner := SweepTransactions(us[i].transactions, gateway);
      var u := us[i].(transactions := inner.items);
      if inner.aborted then SweepUsers(us, gateway) == Tick(done + [u] + us[i + 1..], true)
      else SweepUsers(us, gateway) == Prepend(done + [u], SweepUsers(us[i + 1..], gateway))
  {
    var inner := SweepTransactions(us[i].transactions, gateway);
    var u := us[i].(transactions := inner.items);
    SweepUsersStep(us, i, gateway);
    if inner.aborted {
      ConcatAssoc(done, [u], us[i + 1..]);
    } else {
      PrependTwice(done, [u], SweepUsers(us[i + 1..], gateway));
    }
  }

  /** One pass of the outer loop, on values: user `i` swept in place of `users[i]`. */
  lemma SweepTickStep(users: seq<User>, done: seq<User>, i: nat, gateway: StatusGateway,
                      after: seq<User>, aborted: bool)
    requires i < |users| && |done| == i
    requires SweepUsers(users, gateway) == Prepend(done, SweepUsers(users[i..], gateway))
    requires var inner := SweepTransactions(users[i].transactions, gateway);
      && after == (done + users[i..])[i := users[i].(transactions := inner.items)]
      && aborted == inner.aborted
    ensures after == done + [after[i]] + users[i + 1..]
    ensures aborted ==> SweepUsers(users, gateway) == Tick(after, true)
    ensures !aborted ==> SweepUsers(users, gateway) == Prepend(done + [after[i]], SweepUsers(users[i + 1..], gateway))
  {
    var inner := SweepTransactions(users[i].transactions, gateway);
    var u := users[i].(transactions := inner.items);
    UpdateAt(done, users[i..], u);
    assert users[i..][1..] == users[i + 1..];
    assert after == done + [u] + users[i + 1..];
    SweepUsersAdvance(users, done, i, gateway);
  }

  /** Replacing the first element after a prefix of a sequence. */
  lemma UpdateAt<T>(d: seq<T>, s: seq<T>, y: T)
    requires s != []
    ensures (d + s)[|d| := y] == d + [y] + s[1..]
  {
  }

  /**
    The inner loop for user `i` (app.js:254-261): each pending transaction is
    polled and the user saved; an exception leaves the loop at once.
  */
  method SweepUser(store: UserStore, i: nat, gateway: StatusGateway) returns (aborted: bool)
    requires i < |store.users|
    modifies store
    ensures var inner := SweepTransactions(old(store.users)[i].transactions, gateway);
      && store.users == old(store.users)[i := old(store.users)[i].(transactions := inner.items)]
      && aborted == inner.aborted
  {
    ghost var users := store.users;
    var txns := store.users[i].transactions;
    var cur := txns;
    var j := 0;
    while j < |txns|
      invariant 0 <= j <= |txns| && |cur| == |txns|
      invariant store.users == users[i := users[i].(transactions := cur)]
      invariant cur[j..] == txns[j..]
      invariant SweepTransactions(txns, gateway) == Prepend(cur[..j], SweepTransactions(txns[j..], gateway))
    {
      var t := txns[j];
      if t.paymentStatus == Pending {
        var fetched := UpdatePaymentStatus(gateway(t.paymentTransactionId));
        if fetched.Threw? {
          SweepTransactionsAbort(txns, cur, j, gateway);
          return true;
        }
        SweepTransactionsAdvance(txns, cur, j, gateway);
        cur := cur[j := t.(paymentStatus := fetched.status.GetOr(Pending))];
        store.users := store.users[i := store.users[i].(transactions := cur)];
      } else {
        SweepTransactionsAdvance(txns, cur, j, gateway);
        assert cur[j := t] == cur;
      }
      j := j + 1;
    }
    assert cur[..j] == cur && txns[j..] == [];
    assert SweepTransactions(txns[j..], gateway) == Tick([], false);
    assert cur + [] == cur;
    return false;
  }

  /**
    One tick of the cron job (app.js:248-266), identical to one run of the
    interval timer (app.js:272-291): `User.find()`, then the nested loops. An
    exception ends both loops; the outer catch only logs it.
  */
  method SweepTick(store: UserStore, gateway: StatusGateway) returns (aborted: bool)
    modifies store
    ensures store.users == SweepUsers(old(store.users), gateway).items
    ensures aborted == SweepUsers(old(store.users), gateway).aborted
  {
    var users := store.users;
    ghost var done: seq<User> := [];
    var i := 0;
    while i < |users|
      invariant 0 <= i <= |users| && |done| == i
      invariant store.users == done + users[i..]
      invariant SweepUsers(users, gateway) == Prepend(done, SweepUsers(users[i..], gateway))
    {
      assert store.users[i] == users[i];
      aborted := SweepUser(store, i, gateway);
      SweepTickStep(users, done, i, gateway, store.users, aborted);
      if aborted {
        return;
      }
      done := done + [store.users[i]];
      i := i + 1;
    }
    assert users[i..] == [] && done + [] == done;
    aborted := false;
  }

  // ----- issuing a payment link -----

  /** The fields of the request body; `id` is `None` when it does not cast to an ObjectId. */
  datatype LinkRequestBody = LinkRequestBody(
    amount: Option<int>,
    receiveAmount: Option<int>,
    mobileno: Option<string>,
    emailId: Option<string>,
    invoiceId: Option<string>,
    userId: Option<string>,
    id: Option<ObjectId>)

  /** The catch-all answer of the route. */
  const LinkFailed := Reply(500, "Failed to generate payment link")

  /** The MswipePayment request built from the body, the session token and `Date.now()`. */
  function LinkPayloadOf(body: LinkRequestBody, token: string, now: nat): (p: LinkPayload)
    ensures p.requestId == "REQ_" + NatToString(now) && p.sessionToken == token
    ensures p.amount == body.amount && p.mobileno == body.mobileno && p.userId == body.userId
    ensures p.emailId == body.emailId && p.invoiceId == body.invoiceId
  {
    LinkPayload(body.amount, body.mobileno, body.userId, token, body.emailId, body.invoiceId,
                "REQ_" + NatToString(now))
  }

  /** The object pushed onto `transactions`: both statuses "pending", the id taken from the link. */
  function LinkFields(body: LinkRequestBody, txnId: Option<string>, link: string): TxnFields {
    TxnFields(None, None, body.amount, body.receiveAmount, txnId, TransIdOf(link), Some(link), body.emailId,
              Some("pending"), Some("pending"))
  }

  /** The assignment to the first transaction with payment id `id`, when there is one. */
  function SetFirstStatus(ts: seq<Transaction>, id: Option<string>, st: Status): (r: seq<Transaction>)
    ensures |r| == |ts|
  {
    match FindByPaymentId(ts, id)
    case None => ts
    case Some(j) => ts[j := ts[j].(paymentStatus := st)]
  }

  /** A fresh payment id: the status lands on the transaction just pushed. */
  lemma SetFirstStatusFresh(ts: seq<Transaction>, t: Transaction, st: Status)
    requires forall k :: 0 <= k < |ts| ==> ts[k].paymentTransactionId != t.paymentTransactionId
    ensures SetFirstStatus(ts + [t], t.paymentTransactionId, st) == ts + [t.(paymentStatus := st)]
  {
    var all := ts + [t];
    assert all[|ts|].paymentTransactionId == t.paymentTransactionId;
    assert forall k :: 0 <= k < |ts| ==> all[k] == ts[k];
    assert FindByPaymentId(all, t.paymentTransactionId) == Some(|ts|);
  }

  /**
    A repeated payment id: the status lands on the earlier transaction, and the
    one just pushed stays as it was pushed.
  */
  lemma SetFirstStatusRepeated(ts: seq<Transaction>, t: Transaction, st: Status, k: nat)
    requires k < |ts| && ts[k].paymentTransactionId == t.paymentTransactionId
    ensures var r := SetFirstStatus(ts + [t], t.paymentTransactionId, st);
      && r[|ts|] == t
      && exists j :: 0 <= j <= k && r[j] == ts[j].(paymentStatus := st)
  {
    var all := ts + [t];
    assert all[k] == ts[k];
    var j := FindByPaymentId(all, t.paymentTransactionId);
    assert j.Some? && j.value <= k;
    assert all[j.value] == ts[j.value];
  }

  /** What the route leaves behind: the answer, the link request if one was sent, and the collection. */
  datatype Issued = Issued(reply: Reply, sent: Option<LinkPayload>, users: seq<User>)

  /**
    `POST /api/generate-payment-link` (app.js:82-170). The token reply is read
    only for a truthy `token`; the link reply's `Status` is not looked at.
    Every exception (a gateway failure, an id that does not cast, a missing or
    malformed `smslink` rejected by `new URL`, a validation error on `save`)
    ends in the catch-all 500; the status fetch's exception comes after the
    first `save`, whose push is kept. `isUrl` is the `new URL` parse, `newId`
    the `_id` of the new subdocument.
  */
  function IssueLink(users: seq<User>, body: LinkRequestBody, now: nat, token: TokenReply,
                     linkGw: LinkGateway, statusGw: StatusGateway, isUrl: string -> bool,
                     newId: ObjectId): (r: Issued)
    ensures r.sent.Some? <==> token.TokenBody? && Truthy(token.token)
    ensures r.sent.Some? ==> r.sent.value == LinkPayloadOf(body, token.token.value, now)
    ensures token.TokenBody? && !Truthy(token.token) ==> r == Issued(Reply(500, "Failed to generate auth token"), None, users)
    ensures r.reply.code == 200 || r.reply.code == 404 || r.reply.code == 500
    ensures r.reply.code == 404 <==>
      && r.sent.Some? && linkGw(r.sent.value).LinkBody?
      && body.id.Some? && FindById(users, body.id.value).None?
    ensures r.reply.code == 404 ==> r.reply.message == "User not found" && r.users == users
    ensures r.reply.code == 200 ==>
      && r.sent.Some? && linkGw(r.sent.value).LinkBody? && linkGw(r.sent.value).smslink.Some?
      && r.reply.message == linkGw(r.sent.value).smslink.value
    ensures r.users != users || r.reply.code == 200 ==>
      && r.sent.Some? && body.id.Some? && FindById(users, body.id.value).Some?
      && var i := FindById(users, body.id.value).value;
      && |r.users| == |users|
      && (forall k :: 0 <= k < |users| && k != i ==> r.users[k] == users[k])
      && |r.users[i].transactions| == |users[i].transactions| + 1
      && r.users[i] == users[i].(transactions := r.users[i].transactions)
    ensures r.users != users <==>
      && r.sent.Some? && linkGw(r.sent.value).LinkBody?
      && body.id.Some? && FindById(users, body.id.value).Some?
      && linkGw(r.sent.value).smslink.Some? && isUrl(linkGw(r.sent.value).smslink.value)
      && MakeTransaction(LinkFields(body, linkGw(r.sent.value).txnId, linkGw(r.sent.value).smslink.value), newId, now).Success?
    ensures r.reply.code == 200 <==>
      && r.users != users
      && !UpdatePaymentStatus(statusGw(TransIdOf(linkGw(r.sent.value).smslink.value))).Threw?
  {
    match token
    case TokenTransportError(_) => Issued(LinkFailed, None, users)
    case TokenBody(_, tok, _) =>
      if !Truthy(tok) then Issued(Reply(500, "Failed to generate auth token"), None, users)
      else
        var payload := LinkPayloadOf(body, tok.value, now);
        match linkGw(payload)
        case LinkTransportError(_) => Issued(LinkFailed, Some(payload), users)
        case LinkBody(_, txnId, link, _) =>
          if body.id.None? then Issued(LinkFailed, Some(payload), users)
          else match FindById(users, body.id.value)
            case None => Issued(Reply(404, "User not found"), Some(payload), users)
            case Some(i) =>
              if link.None? || !isUrl(link.value) then Issued(LinkFailed, Some(payload), users)
              else match MakeTransaction(LinkFields(body, txnId, link.value), newId, now)
                case Failure(_) => Issued(LinkFailed, Some(payload), users)
                case Success(t) =>
                  var pushed := users[i].transactions + [t];
                  var saved := users[i := users[i].(transactions := pushed)];
                  match UpdatePaymentStatus(statusGw(t.paymentTransactionId))
                  case Threw => Issued(LinkFailed, Some(payload), saved)
                  case Returned(st) =>
                    var updated := SetFirstStatus(pushed, t.paymentTransactionId, st.GetOr(Pending));
                    Issued(Reply(200, link.value), Some(payload), saved[i := users[i].(transactions := updated)])
  }

  /**
    Whenever the push is saved, the user's new transaction carries the link,
    its gateway `txn_id`, the `TransID` of the link, the body's amounts, and a
    pending transfer status. When the status fetch then throws, the push stays
    as it was saved, payment status pending; on success with a fresh payment
    id, its payment status is the one just fetched.
  */
  lemma IssueLinkRecords(users: seq<User>, body: LinkRequestBody, now: nat, token: TokenReply,
                         linkGw: LinkGateway, statusGw: StatusGateway, isUrl: string -> bool,
                         newId: ObjectId)
    requires IssueLink(users, body, now, token, linkGw, statusGw, isUrl, newId).users != users
    ensures var r := IssueLink(users, body, now, token, linkGw, statusGw, isUrl, newId);
      var reply := linkGw(r.sent.value);
      var i := FindById(users, body.id.value).value;
      var ts := users[i].transactions;
      var t := r.users[i].transactions[|ts|];
      && reply.LinkBody? && reply.smslink.Some? && isUrl(reply.smslink.value)
      && t.id == newId && t.createdAt == now
      && Some(t.amount) == body.amount && t.receiveAmount == body.receiveAmount
      && t.txnId == reply.txnId && t.smslink == reply.smslink
      && t.paymentTransactionId == TransIdOf(reply.smslink.value)
      && t.paymentTransferStatus == Pending
      && (r.reply.code != 200 ==> r.users[i].transactions == ts + [t] && t.paymentStatus == Pending)
      && (r.reply.code == 200 && (forall k :: 0 <= k < |ts| ==> ts[k].paymentTransactionId != t.paymentTransactionId) ==>
            && r.users[i].transactions[..|ts|] == ts
            && UpdatePaymentStatus(statusGw(t.paymentTransactionId)).Returned?
            && t.paymentStatus == UpdatePaymentStatus(statusGw(t.paymentTransactionId)).status.GetOr(Pending))
  {
    var r := IssueLink(users, body, now, token, linkGw, statusGw, isUrl, newId);
    var reply := linkGw(r.sent.value);
    var i := FindById(users, body.id.value).value;
    var ts := users[i].transactions;
    var t0 := MakeTransaction(LinkFields(body, reply.txnId, reply.smslink.value), newId, now).value;
    if r.reply.code != 200 {
      assert r.users[i].transactions == ts + [t0];
      assert (ts + [t0])[|ts|] == t0;
    } else {
      var st := UpdatePaymentStatus(statusGw(t0.paymentTransactionId)).status.GetOr(Pending);
      var updated := SetFirstStatus(ts + [t0], t0.paymentTransactionId, st);
      assert r.users[i].transactions == updated;
      if forall k :: 0 <= k < |ts| ==> ts[k].paymentTransactionId != t0.paymentTransactionId {
        SetFirstStatusFresh(ts, t0, st);
        assert updated[..|ts|] == ts;
      } else {
        var k :| 0 <= k < |ts| && ts[k].paymentTransactionId == t0.paymentTransactionId;
        SetFirstStatusRepeated(ts, t0, st, k);
      }
    }
  }

  /**
    The route as a sequence of steps on the collection: the push is saved
    before the status is fetched, and the status assignment is saved again.
  */
  method GeneratePaymentLinkRoute(store: UserStore, body: LinkRequestBody, now: nat, token: TokenReply,
                                  linkGw: LinkGateway, statusGw: StatusGateway, isUrl: string -> bool,
                                  newId: ObjectId) returns (reply: Reply, sent: Option<LinkPayload>)
    modifies store
    ensures Issued(reply, sent, store.users) ==
      IssueLink(old(store.users), body, now, token, linkGw, statusGw, isUrl, newId)
  {
    sent := None;
    if token.TokenTransportError? {
      return LinkFailed, sent;
    }
    if !Truthy(token.token) {
      return Reply(500, "Failed to generate auth token"), sent;
    }
    var payload := LinkPayloadOf(body, token.token.value, now);
    sent := Some(payload);
    var response := linkGw(payload);
    if response.LinkTransportError? || body.id.None? {
      return LinkFailed, sent;
    }
    var found := FindById(store.users, body.id.value);
    if found.None? {
      return Reply(404, "User not found"), sent;
    }
    var i := found.value;
    var link := response.smslink;
    if link.None? || !isUrl(link.value) {
      return LinkFailed, sent;
    }
    var made := MakeTransaction(LinkFields(body, response.txnId, link.value), newId, now);
    if made.Failure? {
      return LinkFailed, sent;
    }
    var t := made.value;
    var u := store.users[i];
    u := u.(transactions := u.transactions + [t]);
    store.users := store.users[i := u];
    var fetched := UpdatePaymentStatus(statusGw(t.paymentTransactionId));
    if fetched.Threw? {
      return LinkFailed, sent;
    }
    u := u.(transactions := SetFirstStatus(u.transactions, t.paymentTransactionId, fetched.status.GetOr(Pending)));
    store.users := store.users[i := u];
    reply := Reply(200, link.value);
  }
}
