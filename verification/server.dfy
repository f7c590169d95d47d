/** The route handlers of the current server (server.mjs) that read or write
    the entitlement fields, and its small validators. Generators, Stripe
    calls and bcrypt are inputs: the answer they would give, None when
    they throw. */
module Server {
  import opened Wrappers
  import opened JsStrings
  import opened EmailPatterns
  import opened Plans
  import opened Accounts
  import opened Mail
  import opened StripeWebhook

  /** A status code with the `message` of its JSON body. */
  datatype Reply = Reply(status: int, message: string)

  // ---------------------------------------------------------------------
  // CORS

  const ALLOWED_ORIGINS: seq<string> := [
    "https://tailoredlettersai.com",
    "https://www.tailoredlettersai.com",
    "http://localhost:5173"
  ]

  /** The CORS origin callback: a request without an origin passes, any
      other only from an origin on the list, compared as a whole string. */
  predicate OriginAllowed(origin: Option<string>) {
    !Truthy(origin) || origin.value in ALLOWED_ORIGINS
  }

  /** Requests without an origin pass; listed origins pass; the same host
      over plain HTTP or with a trailing slash does not. */
  lemma OriginDecisions()
    ensures OriginAllowed(None) && OriginAllowed(Some(""))
    ensures OriginAllowed(Some("https://www.tailoredlettersai.com"))
    ensures !OriginAllowed(Some("http://tailoredlettersai.com"))
    ensures !OriginAllowed(Some("https://tailoredlettersai.com/"))
  {
    var plain, slashed := "http://tailoredlettersai.com", "https://tailoredlettersai.com/";
    assert plain[4] != ALLOWED_ORIGINS[0][4] && plain[4] != ALLOWED_ORIGINS[1][4];
    assert |plain| != |ALLOWED_ORIGINS[2]|;
    assert |slashed| != |ALLOWED_ORIGINS[0]| && slashed[8] != ALLOWED_ORIGINS[1][8];
    assert slashed[4] != ALLOWED_ORIGINS[2][4];
  }

  // ---------------------------------------------------------------------
  // Contact form

  /** `/api/contact`: 400 when a field is missing or the address does not
      match `^[^\s@]+@[^\s@]+\.[^\s@]+$`; otherwise the message is mailed
      when a transporter is configured, and a failing send is a 500. */
  function ContactReply(name: Option<string>, email: Option<string>, message: Option<string>,
                        transporter: Option<Mailer>): (r: Reply)
    ensures r.status == 400 <==>
      !Truthy(name) || !Truthy(email) || !Truthy(message) || !ContactEmailShape(email.value)
    ensures r.status == 500 <==>
      Truthy(name) && Truthy(email) && Truthy(message) && ContactEmailShape(email.value) &&
      transporter.Some? && !Delivered(transporter)
    ensures r.status == 200 <==>
      Truthy(name) && Truthy(email) && Truthy(message) && ContactEmailShape(email.value) &&
      (transporter.None? || Delivered(transporter))
  {
    if !Truthy(name) || !Truthy(email) || !Truthy(message) then Reply(400, "All fields are required")
    else
      ContactEmailMatchesShape(email.value);
      if !ContactEmailMatches(email.value) then Reply(400, "Invalid email address")
      else if transporter.Some? && !transporter.value.delivers then Reply(500, "Failed to process message")
      else Reply(200, "Message received successfully")
  }

  // ---------------------------------------------------------------------
  // Registration

  /** The document `/api/register` inserts: the Free Plan with the quota
      `getLetterCountForPlan` gives it, and no payment fields. */
  function NewAccount(name: string, email: string, passwordHash: string, now: int): (a: Account)
    ensures a.email == email && a.name == name && a.password == passwordHash && a.createdAt == now
    ensures a.selectedPlan == FREE_PLAN && a.letterCount == 5
    ensures a.paymentStatus.None? && a.lastPaymentDate.None? && a.subscriptionEndDate.None?
    ensures a.stripePaymentIntentId.None? && a.lastUpdated.None? && a.updateSource.None?
  {
    Account(name, email, passwordHash, now, LetterCountForPlan(FREE_PLAN), FREE_PLAN,
            None, None, None, None, None, None)
  }

  /** `/api/register`: 400 for a taken address with nothing inserted, 201
      with the new document otherwise. `passwordHash` is what bcrypt
      returns for the password. */
  method Register(store: UserCollection, name: string, email: string, passwordHash: string, now: int)
    returns (r: Reply)
    requires store.Valid()
    modifies store
    ensures store.Valid()
    ensures email in old(store.users) ==>
      r == Reply(400, "User with this email already exists") && store.users == old(store.users)
    ensures email !in old(store.users) ==>
      r == Reply(201, "User registered successfully") &&
      store.users == old(store.users)[email := NewAccount(name, email, passwordHash, now)]
  {
    var existingUser := Lookup(store.users, email);
    if existingUser.Some? {
      return Reply(400, "User with this email already exists");
    }
    store.InsertOne(NewAccount(name, email, passwordHash, now));
    r := Reply(201, "User registered successfully");
  }

  // ---------------------------------------------------------------------
  // Cover-letter generation

  datatype Backend = Gemini | OpenAI

  /** Free Plan letters come from Gemini, every other plan's from OpenAI. */
  function BackendFor(plan: string): (b: Backend)
    ensures b == Gemini <==> plan == FREE_PLAN
  {
    if plan == FREE_PLAN then Gemini else OpenAI
  }

  /** A generation request's status, letter and resulting collection. */
  datatype Generation = Generation(status: int, coverLetter: Option<string>, users: map<string, Account>)

  /** `/api/generate-cover-letter` for the address in the request body:
      400 without letters left, 500 when the chosen backend fails, and
      otherwise the letter with one letter taken off the quota. `gemini` and
      `openAI` are the backends' answers (None: they throw). */
  function GenerateOutcome(users: map<string, Account>, email: string, gemini: Option<string>, openAI: Option<string>)
    : Generation
  {
    if email !in users || users[email].letterCount <= 0 then Generation(400, None, users)
    else
      var answer := if BackendFor(users[email].selectedPlan) == Gemini then gemini else openAI;
      match answer
      case None => Generation(500, None, users)
      case Some(letter) =>
        Generation(200, Some(letter), users[email := ApplyPatch(users[email], IncLetterCount(-1))])
  }

  /** A served letter costs exactly one from a positive quota; a refused or
      failed request costs nothing; no quota becomes negative. */
  lemma GenerationSpendsOneLetter(users: map<string, Account>, email: string, gemini: Option<string>, openAI: Option<string>)
    requires WellFormed(users)
    ensures var o := GenerateOutcome(users, email, gemini, openAI);
      WellFormed(o.users) && o.users.Keys == users.Keys &&
      (o.status == 200 ==>
         users[email].letterCount > 0 &&
         o.users == users[email := users[email].(letterCount := users[email].letterCount - 1)]) &&
      (o.status != 200 ==> o.users == users && o.coverLetter.None?)
  {
  }

  method GenerateCoverLetter(store: UserCollection, email: string, gemini: Option<string>, openAI: Option<string>)
    returns (status: int, coverLetter: Option<string>, called: Option<Backend>)
    requires store.Valid()
    modifies store
    ensures store.Valid()
    ensures Generation(status, coverLetter, store.users) == GenerateOutcome(old(store.users), email, gemini, openAI)
    ensures called.Some? <==> email in old(store.users) && old(store.users)[email].letterCount > 0
    ensures called.Some? ==> called.value == BackendFor(old(store.users)[email].selectedPlan)
  {
    var user := Lookup(store.users, email);
    if user.None? || user.value.letterCount <= 0 {
      return 400, None, None;
    }
    var backend := BackendFor(user.value.selectedPlan);
    called := Some(backend);
    var letter := if backend == Gemini then gemini else openAI;
    if letter.None? {
      return 500, None, called;
    }
    var _ := store.UpdateOne(email, IncLetterCount(-1));
    status, coverLetter := 200, letter;
  }

  /** Serving requests one after another for one address, each answered
      with the given generator result: the final collection and the number
      of letters served. */
  function ServeAll(users: map<string, Account>, email: string, answers: seq<Option<string>>)
    : (map<string, Account>, nat)
  {
    if answers == [] then (users, 0)
    else
      var o := GenerateOutcome(users, email, answers[0], answers[0]);
      var (after, served) := ServeAll(o.users, email, answers[1..]);
      (after, served + if o.status == 200 then 1 else 0)
  }

  /** However the generators answer, an account is served at most as many
      letters as its quota held, and the quota falls by exactly the number
      served; other accounts are untouched. */
  lemma {:induction false} ServedLettersBoundedByQuota(users: map<string, Account>, email: string, answers: seq<Option<string>>)
    requires WellFormed(users) && email in users
    ensures var (after, served) := ServeAll(users, email, answers);
      served <= users[email].letterCount && email in after &&
      after[email].letterCount == users[email].letterCount - served &&
      after.Keys == users.Keys && (forall e | e in users && e != email :: after[e] == users[e])
  {
    if answers != [] {
      GenerationSpendsOneLetter(users, email, answers[0], answers[0]);
      var o := GenerateOutcome(users, email, answers[0], answers[0]);
      ServedLettersBoundedByQuota(o.users, email, answers[1..]);
    }
  }

  // ---------------------------------------------------------------------
  // Plan status refresh

  /** The second `findOne` of `/api/update-plan-status`: the document with
      this address, provided it has a payment intent id and a payment date. */
  function LatestPayment(users: map<string, Account>, email: string): Option<Account> {
    if email in users && users[email].stripePaymentIntentId.Some? && users[email].lastPaymentDate.Some?
    then Some(users[email]) else None
  }

  /** The conditional `$set` of `/api/update-plan-status`: written only when
      the payment record's plan differs from the user's. */
  function PlanStatusPatch(user: Account, latest: Option<Account>): Option<Patch> {
    if latest.Some? && latest.value.selectedPlan != user.selectedPlan then
      Some(SetPlanStatus(latest.value.selectedPlan, latest.value.letterCount,
                         latest.value.lastPaymentDate, latest.value.subscriptionEndDate))
    else None
  }

  /** Addresses are unique, so the payment record is the user's own document
      and the conditional write never happens. */
  lemma PlanStatusNeverWrites(users: map<string, Account>, email: string)
    requires email in users
    ensures PlanStatusPatch(users[email], LatestPayment(users, email)) == None
  {
  }

  /** `/api/update-plan-status` for the authenticated address: 404 without
      an account, and otherwise the account as stored, without its password.
      Nothing is written. */
  method UpdatePlanStatus(store: UserCollection, email: string) returns (status: int, body: Option<PublicAccount>)
    ensures email !in store.users ==> status == 404 && body == None
    ensures email in store.users ==> status == 200 && body == Some(WithoutPassword(store.users[email]))
  {
    var user := Lookup(store.users, email);
    if user.None? {
      return 404, None;
    }
    var latestPayment := LatestPayment(store.users, email);
    var patch := PlanStatusPatch(user.value, latestPayment);
    PlanStatusNeverWrites(store.users, email);
    assert patch == None;
    var userData := Lookup(store.users, email);
    status, body := 200, Some(WithoutPassword(userData.value));
  }

  // ---------------------------------------------------------------------
  // Checkout

  /** The answers of the checkout endpoint's Stripe calls: whether
      `customers.list` answers at all, the first customer it lists for the
      address (None: none listed), the id `customers.create` returns and the
      id of the created session (None: that call throws). */
  datatype CheckoutApi = CheckoutApi(
    listSucceeds: bool,
    listedCustomer: Option<string>,
    createdCustomer: Option<string>,
    createdSession: Option<string>)

  /** The checkout session the server asks Stripe to create. */
  datatype SessionRequest = SessionRequest(
    customer: string,
    productName: string,
    unitAmount: int,
    metadata: map<string, string>)

  /** `!planPrice` is false for a present non-zero price. */
  predicate PriceTruthy(price: Option<int>) {
    price.Some? && price.value != 0
  }

  /** `/api/create-checkout-session`: 503 without Stripe, 400 for a falsy
      plan name or price, 500 when a Stripe call throws; otherwise the
      session is requested for the listed (or else newly created) customer,
      with the plan name, the price as a decimal string and the
      authenticated address as metadata. `createCalled` says whether
      `customers.create` was called: only after a list that answered with
      no customer. */
  method CreateCheckoutSession(stripe: Option<CheckoutApi>, userEmail: string, planName: Option<string>, planPrice: Option<int>)
    returns (status: int, request: Option<SessionRequest>, sessionId: Option<string>, createCalled: bool)
    ensures stripe.None? ==> status == 503 && request.None? && sessionId.None?
    ensures stripe.Some? && (!Truthy(planName) || !PriceTruthy(planPrice)) ==>
      status == 400 && request.None? && sessionId.None?
    ensures createCalled <==>
      stripe.Some? && Truthy(planName) && PriceTruthy(planPrice) &&
      stripe.value.listSucceeds && stripe.value.listedCustomer.None?
    ensures stripe.Some? && Truthy(planName) && PriceTruthy(planPrice) && !stripe.value.listSucceeds ==>
      status == 500 && request.None? && sessionId.None?
    ensures stripe.Some? && Truthy(planName) && PriceTruthy(planPrice) ==>
      (request.Some? <==> stripe.value.listSucceeds &&
                          (stripe.value.listedCustomer.Some? || stripe.value.createdCustomer.Some?))
    ensures request.Some? ==>
      stripe.Some? && Truthy(planName) && PriceTruthy(planPrice) &&
      request.value.customer == stripe.value.listedCustomer.GetOr(stripe.value.createdCustomer.GetOr("")) &&
      request.value.productName == planName.value && request.value.unitAmount == planPrice.value &&
      request.value.metadata.Keys == {"planName", "planPrice", "userEmail"} &&
      request.value.metadata["planName"] == planName.value &&
      DecimalIntValue(request.value.metadata["planPrice"]) == planPrice.value &&
      request.value.metadata["userEmail"] == userEmail
    ensures status == 200 <==> request.Some? && stripe.value.createdSession.Some?
    ensures status == 200 ==> sessionId == stripe.value.createdSession
    ensures status != 200 ==> sessionId.None?
    ensures status in {200, 400, 500, 503}
  {
    request, sessionId, createCalled := None, None, false;
    if stripe.None? {
      return 503, request, sessionId, createCalled;
    }
    if !Truthy(planName) || !PriceTruthy(planPrice) {
      return 400, request, sessionId, createCalled;
    }
    if !stripe.value.listSucceeds {
      return 500, request, sessionId, createCalled;
    }
    var customer := stripe.value.listedCustomer;
    if customer.None? {
      createCalled := true;
      customer := stripe.value.createdCustomer;
      if customer.None? {
        return 500, request, sessionId, createCalled;
      }
    }
    var price := IntToDecimal(planPrice.value);
    IntDecimalRoundTrip(planPrice.value);
    var metadata := map["planName" := planName.value, "planPrice" := price, "userEmail" := userEmail];
    request := Some(SessionRequest(customer.value, planName.value, planPrice.value, metadata));
    if stripe.value.createdSession.None? {
      return 500, request, sessionId, createCalled;
    }
    status, sessionId := 200, stripe.value.createdSession;
  }

  // ---------------------------------------------------------------------
  // Webhook route

  /** `/api/webhook`: the handler's reply with status 200, or 400 for
      anything it throws, store errors included. */
  method WebhookRoute(store: UserCollection, signature: Option<string>, endpointSecret: Option<string>,
                      stripe: Option<StripeApi>, constructed: Option<Event>, transporter: Option<Mailer>, now: int)
    returns (status: int, body: Result<WebhookReply, WebhookError>)
    requires store.Valid()
    modifies store
    ensures store.Valid()
    ensures status == (if body.Ok? then 200 else 400)
    ensures Outcome(body, store.users) == WebhookOutcome(old(store.users), signature, endpointSecret, stripe, constructed, now)
  {
    var verified, confirmationSent;
    body, verified, confirmationSent := HandleWebhook(store, signature, endpointSecret, stripe, constructed, transporter, now);
    status := if body.Ok? then 200 else 400;
  }
}
