/** The users collection as the current server (server.mjs) and the current
    webhook handler (src/webhooks/stripeWebhook.mjs) see it: one document
    per e-mail address, updated with `insertOne`, `$set` and `$inc`. */
module Accounts {
  import opened Wrappers

  /** A user document. Dates are clock readings in milliseconds; the
      fields the registration does not write are absent (None) until a
      payment sets them. */
  datatype Account = Account(
    name: string,
    email: string,
    password: string,
    createdAt: int,
    letterCount: int,
    selectedPlan: string,
    paymentStatus: Option<string>,
    lastPaymentDate: Option<int>,
    subscriptionEndDate: Option<int>,
    stripePaymentIntentId: Option<string>,
    lastUpdated: Option<int>,
    updateSource: Option<string>)

  /** A user document read with the projection `{ password: 0 }`. */
  datatype PublicAccount = PublicAccount(
    name: string,
    email: string,
    createdAt: int,
    letterCount: int,
    selectedPlan: string,
    paymentStatus: Option<string>,
    lastPaymentDate: Option<int>,
    subscriptionEndDate: Option<int>,
    stripePaymentIntentId: Option<string>,
    lastUpdated: Option<int>,
    updateSource: Option<string>)

  function WithoutPassword(a: Account): PublicAccount {
    PublicAccount(a.name, a.email, a.createdAt, a.letterCount, a.selectedPlan,
      a.paymentStatus, a.lastPaymentDate, a.subscriptionEndDate,
      a.stripePaymentIntentId, a.lastUpdated, a.updateSource)
  }

  /** The update documents the two server revisions send to `updateOne`:
      the current webhook's and update-plan-status's `$set`, the legacy
      webhook's and legacy update-plan-status's narrower `$set`, and the
      `$inc` of the counter. */
  datatype Patch =
    | SetPayment(selectedPlan: string, letterCount: int, paymentStatus: string,
                 lastPaymentDate: int, subscriptionEndDate: int,
                 stripePaymentIntentId: string, lastUpdated: int, updateSource: string)
    | SetPlanStatus(plan: string, count: int, paidOn: Option<int>, endsOn: Option<int>)
    | SetLegacyPayment(legacyPlan: string, legacyCount: int, legacyStatus: string,
                       legacyPaidOn: int, legacyIntentId: string)
    | SetLegacyPlanStatus(copiedPlan: string, copiedCount: int, copiedPaidOn: Option<int>)
    | IncLetterCount(delta: int)

  /** The document after the update: `$set` overwrites exactly the listed
      fields, `$inc` adds to the counter. */
  function ApplyPatch(a: Account, p: Patch): Account {
    match p
    case SetPayment(plan, count, status, paidOn, endsOn, intentId, updatedOn, source) =>
      a.(selectedPlan := plan, letterCount := count, paymentStatus := Some(status),
         lastPaymentDate := Some(paidOn), subscriptionEndDate := Some(endsOn),
         stripePaymentIntentId := Some(intentId), lastUpdated := Some(updatedOn),
         updateSource := Some(source))
    case SetPlanStatus(plan, count, paidOn, endsOn) =>
      a.(selectedPlan := plan, letterCount := count, lastPaymentDate := paidOn,
         subscriptionEndDate := endsOn)
    case SetLegacyPayment(plan, count, status, paidOn, intentId) =>
      a.(selectedPlan := plan, letterCount := count, paymentStatus := Some(status),
         lastPaymentDate := Some(paidOn), stripePaymentIntentId := Some(intentId))
    case SetLegacyPlanStatus(plan, count, paidOn) =>
      a.(selectedPlan := plan, letterCount := count, lastPaymentDate := paidOn)
    case IncLetterCount(delta) =>
      a.(letterCount := a.letterCount + delta)
  }

  /** MongoDB's `matchedCount` and `modifiedCount`. */
  datatype UpdateResult = UpdateResult(matched: nat, modified: nat)

  /** Every document is filed under its own e-mail address (registration
      refuses a second account for an address, so `findOne({ email })` has at
      most one answer), and no counter is negative. */
  ghost predicate WellFormed(users: map<string, Account>) {
    forall e | e in users :: users[e].email == e && users[e].letterCount >= 0
  }

  /** The collection shared by both server revisions (the same database and
      collection name). */
  class UserCollection {
    var users: map<string, Account>

    ghost predicate Valid()
      reads this
    {
      WellFormed(users)
    }

    constructor ()
      ensures Valid() && users == map[]
    {
      users := map[];
    }

    /** `insertOne` of a document whose address is not taken yet. */
    method InsertOne(a: Account)
      requires Valid()
      requires a.email !in users && a.letterCount >= 0
      modifies this
      ensures Valid()
      ensures users == old(users)[a.email := a]
    {
      users := users[a.email := a];
    }

    /** `updateOne({ email }, patch)`: no match changes nothing; a match is
        counted as modified only when the document actually changes. */
    method UpdateOne(email: string, p: Patch) returns (res: UpdateResult)
      requires Valid()
      requires email in users ==> ApplyPatch(users[email], p).letterCount >= 0
      modifies this
      ensures Valid()
      ensures email !in old(users) ==> users == old(users) && res == UpdateResult(0, 0)
      ensures email in old(users) ==>
        var after := ApplyPatch(old(users)[email], p);
        users == old(users)[email := after] && res.matched == 1 &&
        res.modified == (if after == old(users)[email] then 0 else 1)
    {
      if email in users {
        var after := ApplyPatch(users[email], p);
        res := UpdateResult(1, if after == users[email] then 0 else 1);
        users := users[email := after];
      } else {
        res := UpdateResult(0, 0);
      }
    }
  }
}
