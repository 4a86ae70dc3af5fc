/**
  The users collection, held in memory in place of MongoDB, and the lookups
  the handlers use on it and on a user's `transactions` array.
*/
module Store {
  import opened Wrappers
  import opened Http
  import opened UserModel

  /** The collection in natural order. Every `save()` of a handler writes its user back here. */
  class UserStore {
    var users: seq<User>

    constructor (initial: seq<User>)
      ensures users == initial
    {
      users := initial;
    }
  }

  /** What a route leaves behind: its answer and the collection after its saves. */
  datatype Outcome = Outcome(reply: Reply, users: seq<User>)

  /** The index of the first element satisfying `p`, as `Array.prototype.find` and `findOne` pick it. */
  function FirstIndex<T>(s: seq<T>, p: T -> bool): (r: Option<nat>)
    ensures r.Some? ==> r.value < |s| && p(s[r.value])
    ensures r.Some? ==> forall i :: 0 <= i < r.value ==> !p(s[i])
    ensures r.None? ==> forall i :: 0 <= i < |s| ==> !p(s[i])
    decreases |s|
  {
    if s == [] then None
    else if p(s[0]) then Some(0)
    else match FirstIndex(s[1..], p)
      case None => None
      case Some(k) => Some(k + 1)
  }

  /** `User.findOne({ email })`: the filter goes through the email setters first. */
  function FindByEmail(users: seq<User>, email: string): (r: Option<nat>)
    ensures r.Some? ==> r.value < |users| && users[r.value].email == NormalizeEmail(email)
    ensures r.None? <==> forall i :: 0 <= i < |users| ==> users[i].email != NormalizeEmail(email)
  {
    FirstIndex(users, (u: User) => u.email == NormalizeEmail(email))
  }

  /** `User.findById(id)`. */
  function FindById(users: seq<User>, id: ObjectId): (r: Option<nat>)
    ensures r.Some? ==> r.value < |users| && users[r.value].id == id
    ensures r.None? <==> forall i :: 0 <= i < |users| ==> users[i].id != id
  {
    FirstIndex(users, (u: User) => u.id == id)
  }

  /** `user.transactions.find(txn => txn.paymentTransactionId === id)`, as an index. */
  function FindByPaymentId(ts: seq<Transaction>, id: Option<string>): (r: Option<nat>)
    ensures r.Some? ==> r.value < |ts| && ts[r.value].paymentTransactionId == id
    ensures r.Some? ==> forall k :: 0 <= k < r.value ==> ts[k].paymentTransactionId != id
    ensures r.None? <==> forall k :: 0 <= k < |ts| ==> ts[k].paymentTransactionId != id
  {
    FirstIndex(ts, (t: Transaction) => t.paymentTransactionId == id)
  }

  /** No two users share an email: signup and the personal update both keep this. */
  predicate EmailsUnique(users: seq<User>) {
    forall i, j :: 0 <= i < j < |users| ==> users[i].email != users[j].email
  }

  /** No two users share an `_id`, as MongoDB's primary key guarantees. */
  predicate IdsUnique(users: seq<User>) {
    forall i, j :: 0 <= i < j < |users| ==> users[i].id != users[j].id
  }

  /** Replacing one user leaves the uniqueness of emails intact when the email does not change. */
  lemma EmailsUniqueUpdate(users: seq<User>, i: nat, u: User)
    requires EmailsUnique(users) && i < |users| && u.email == users[i].email
    ensures EmailsUnique(users[i := u])
  {
    var us := users[i := u];
    forall a, b | 0 <= a < b < |us|
      ensures us[a].email != us[b].email
    {
      assert us[a].email == users[a].email && us[b].email == users[b].email;
    }
  }

  /** `users[i]` with its transaction `j` replaced by `t`: the in-place assignment followed by `save()`. */
  function WithTransaction(users: seq<User>, i: nat, j: nat, t: Transaction): (r: seq<User>)
    requires i < |users| && j < |users[i].transactions|
    ensures |r| == |users| && forall k :: 0 <= k < |users| && k != i ==> r[k] == users[k]
    ensures r[i] == users[i].(transactions := users[i].transactions[j := t])
  {
    users[i := users[i].(transactions := users[i].transactions[j := t])]
  }
}
