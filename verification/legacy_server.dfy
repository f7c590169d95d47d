/** The route handlers of the legacy server (server.js). Here `letterCount`
    counts the letters used rather than the letters left. */
module LegacyServer {
  import opened Wrappers
  import opened JsStrings
  import opened Plans
  import opened Accounts
  import opened Mail
  import opened LegacyStripeWebhook

  datatype Reply = Reply(status: int, message: string)

  /** The document the legacy `/api/register` inserts: the Free Plan with
      no letters used. */
  function LegacyNewAccount(name: string, email: string, passwordHash: string, now: int): (a: Account)
    ensures a.email == email && a.name == name && a.password == passwordHash && a.createdAt == now
    ensures a.selectedPlan == FREE_PLAN && a.letterCount == 0
    ensures a.paymentStatus.None? && a.lastPaymentDate.None? && a.stripePaymentIntentId.None?
  {
    Account(name, email, passwordHash, now, 0, FREE_PLAN, None, None, None, None, None, None)
  }

  /** The legacy `/api/register`: 400 for a taken address with nothing
      inserted, 201 with the new document otherwise. */
  method LegacyRegister(store: UserCollection, name: string, email: string, passwordHash: string, now: int)
    returns (r: Reply)
    requires store.Valid()
    modifies store
    ensures store.Valid()
    ensures email in old(store.users) ==>
      r == Reply(400, "User with this email already exists") && store.users == old(store.users)
    ensures email !in old(store.users) ==>
      r == Reply(201, "User registered successfully") &&
      store.users == old(store.users)[email := LegacyNewAccount(name, email, passwordHash, now)]
  {
    if email in store.users {
      return Reply(400, "User with this email already exists");
    }
    store.InsertOne(LegacyNewAccount(name, email, passwordHash, now));
    r := Reply(201, "User registered successfully");
  }

  /** The user fields the login reply carries. */
  datatype LoginView = LoginView(name: string, email: string, selectedPlan: string, letterCount: int)

  datatype LoginReply =
    | LoggedIn(token: string, user: LoginView)
    | LoginRefused(status: int, message: string)

  /** `/api/login`: an unknown address and a wrong password get the same
      400 answer; a success returns a token and four fields of the account,
      never its password. `passwordMatches` is bcrypt's comparison with the
      stored hash and `token` what `jwt.sign` returns. */
  function LegacyLogin(users: map<string, Account>, email: string, passwordMatches: Account -> bool, token: string)
    : (r: LoginReply)
    ensures r.LoggedIn? <==> email in users && passwordMatches(users[email])
    ensures r.LoginRefused? ==> r == LoginRefused(400, "Invalid email or password")
    ensures r.LoggedIn? ==>
      r.token == token &&
      r.user == LoginView(users[email].name, users[email].email, users[email].selectedPlan, users[email].letterCount)
  {
    if email !in users then LoginRefused(400, "Invalid email or password")
    else
      var user := users[email];
      if !passwordMatches(user) then LoginRefused(400, "Invalid email or password")
      else LoggedIn(token, LoginView(user.name, user.email, user.selectedPlan, user.letterCount))
  }

  /** The fixed letter the legacy server answers with, signed with the name
      from the request. */
  function TemplateLetter(name: string): string {
    "Dear Hiring Manager,\n\nI am writing to express my interest in the position...\n\nBest regards,\n" + name
  }

  /** The legacy `/api/generate-cover-letter`: no quota check at all; the
      template letter is returned and the counter of the address in the
      request body goes up by one (nothing changes when no account has that
      address). */
  method LegacyGenerateCoverLetter(store: UserCollection, name: string, email: string)
    returns (status: int, coverLetter: string)
    requires store.Valid()
    modifies store
    ensures store.Valid()
    ensures status == 200 && coverLetter == TemplateLetter(name)
    ensures email !in old(store.users) ==> store.users == old(store.users)
    ensures email in old(store.users) ==>
      store.users == old(store.users)[email := old(store.users)[email].(letterCount := old(store.users)[email].letterCount + 1)]
  {
    coverLetter := TemplateLetter(name);
    var _ := store.UpdateOne(email, IncLetterCount(1));
    status := 200;
  }

  /** The `findOne` of the legacy `/api/update-plan-status`: the plan, count
      and payment time of the document with this address, provided its
      payment status is "completed". */
  function CompletedPayment(users: map<string, Account>, email: string): Option<Patch> {
    if email in users && users[email].paymentStatus == Some("completed") then
      Some(SetLegacyPlanStatus(users[email].selectedPlan, users[email].letterCount, users[email].lastPaymentDate))
    else None
  }

  /** The record found is the account's own, so copying it back changes no
      value. */
  lemma CopyBackChangesNothing(users: map<string, Account>, email: string)
    requires CompletedPayment(users, email).Some?
    ensures email in users && ApplyPatch(users[email], CompletedPayment(users, email).value) == users[email]
  {
  }

  /** The legacy `/api/update-plan-status`: writes back the completed payment
      record when there is one, which leaves the collection unchanged, and
      answers 200 with the account without its password, or with null when
      there is no account. */
  method LegacyUpdatePlanStatus(store: UserCollection, email: string) returns (status: int, body: Option<PublicAccount>)
    requires store.Valid()
    modifies store
    ensures store.Valid() && store.users == old(store.users)
    ensures status == 200
    ensures body == (if email in store.users then Some(WithoutPassword(store.users[email])) else None)
  {
    var latestPayment := CompletedPayment(store.users, email);
    if latestPayment.Some? {
      CopyBackChangesNothing(store.users, email);
      var _ := store.UpdateOne(email, latestPayment.value);
    }
    var userData := Lookup(store.users, email);
    status := 200;
    body := if userData.Some? then Some(WithoutPassword(userData.value)) else None;
  }

  /** The checkout session the legacy server asks Stripe to create. */
  datatype SessionRequest = SessionRequest(customerEmail: string, productName: string, unitAmount: int)

  /** The legacy `/api/create-checkout-session`: 400 for a falsy plan name
      or price; otherwise a session is requested for the authenticated
      address, and `createdSession` (None: the call throws) decides between
      200 and 500. */
  function LegacyCreateCheckoutSession(userEmail: string, planName: Option<string>, planPrice: Option<int>,
                                       createdSession: Option<string>)
    : (r: (int, Option<SessionRequest>, Option<string>))
    ensures r.0 == 400 <==> !Truthy(planName) || planPrice.None? || planPrice.value == 0
    ensures r.1.Some? <==> r.0 != 400
    ensures r.1.Some? ==> r.1.value == SessionRequest(userEmail, planName.value, planPrice.value)
    ensures r.0 == 200 <==> r.1.Some? && createdSession.Some?
    ensures r.2 == (if r.0 == 200 then createdSession else None)
  {
    if !Truthy(planName) || planPrice.None? || planPrice.value == 0 then (400, None, None)
    else
      var request := SessionRequest(userEmail, planName.value, planPrice.value);
      if createdSession.None? then (500, Some(request), None) else (200, Some(request), createdSession)
  }

  /** The legacy `/api/webhook`: `{ received: true }` with 200 when the
      handler returns, 400 when it throws. */
  method LegacyWebhookRoute(store: UserCollection, signature: Option<string>, endpointSecret: Option<string>,
                            constructed: Option<Event>, intents: map<string, PaymentIntent>,
                            transporter: Option<Mailer>, now: int)
    returns (status: int, received: bool)
    requires store.Valid()
    modifies store
    ensures store.Valid()
    ensures var o := LegacyWebhookOutcome(old(store.users), signature, endpointSecret, constructed, intents, now);
      store.users == o.users && (status == 200 <==> o.result.Ok?) && (status == 400 <==> o.result.Err?) &&
      received == o.result.Ok?
  {
    var r, verified := LegacyHandleWebhook(store, signature, endpointSecret, constructed, intents, transporter, now);
    if r.Ok? {
      status, received := 200, true;
    } else {
      status, received := 400, false;
    }
  }
}
