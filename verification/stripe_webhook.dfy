/** Payment reconciliation of the current revision
    (src/webhooks/stripeWebhook.mjs): resolve the payer's e-mail, map the
    amount paid through the price table, and overwrite the plan, quota and
    payment fields of that user's document.

    Stripe is an input: `None` when no secret key is configured, otherwise
    the answers its retrieve calls would give (a key missing from a map is a
    retrieve call that throws). Signature verification is the event that
    `constructEvent` would return, `None` when it throws. `now` is the clock
    reading of `new Date()`, in milliseconds. */
module StripeWebhook {
  import opened Wrappers
  import opened JsStrings
  import opened Plans
  import opened Accounts
  import opened Mail

  datatype Customer = Customer(email: Option<string>)

  datatype CheckoutSession = CheckoutSession(
    id: string,
    customerEmail: Option<string>,
    customerDetailsEmail: Option<string>,
    paymentIntent: Option<string>)

  datatype PaymentIntent = PaymentIntent(
    id: string,
    amount: int,
    receiptEmail: Option<string>,
    customerDetailsEmail: Option<string>,
    metadata: map<string, string>,
    customer: Option<string>)

  datatype StripeApi = StripeApi(
    customers: map<string, Customer>,
    sessions: map<string, CheckoutSession>,
    paymentIntents: map<string, PaymentIntent>,
    intentUpdateSucceeds: bool)

  datatype Event =
    | CheckoutSessionCompleted(session: CheckoutSession)
    | PaymentIntentSucceeded(intent: PaymentIntent)
    | OtherEvent(eventType: string)

  /** The errors the handlers throw. */
  datatype WebhookError =
    | NoCustomerEmail
    | UnrecognizedAmount(amount: int)
    | NoUserFound(email: string)
    | NoDocumentMatched
    | DocumentNotModified
    | StripeNotInitialized
    | NoPaymentIntentInSession
    | StripeCallFailed
    | NoSignature
    | SecretNotConfigured
    | SignatureInvalid

  datatype Tier = Tier(plan: string, letters: int, days: int)

  /** `{ customerEmail, selectedPlan, letterCount }`. */
  datatype PaymentReceipt = PaymentReceipt(customerEmail: string, selectedPlan: string, letterCount: int)

  /** `{ success, result }`; `result` is null for the skipped and unhandled
      cases. */
  datatype WebhookReply = WebhookReply(success: bool, result: Option<PaymentReceipt>)

  /** What a handler answers (or throws) together with the collection it
      leaves behind. */
  datatype Outcome<T> = Outcome(result: Result<T, WebhookError>, users: map<string, Account>)

  // ---------------------------------------------------------------------
  // Resolving the payer's e-mail

  /** `receipt_email || customer_details?.email || metadata?.email`. */
  function DirectEmails(pi: PaymentIntent): seq<Option<string>> {
    [pi.receiptEmail, pi.customerDetailsEmail, Lookup(pi.metadata, "email")]
  }

  /** The customer's e-mail, or nothing when the retrieve call throws. */
  function CustomerEmail(api: StripeApi, id: string): Option<string> {
    if id in api.customers then api.customers[id].email else None
  }

  /** The customer-object lookup, when the intent names a customer and the
      client exists. */
  function CustomerFallback(pi: PaymentIntent, stripe: Option<StripeApi>): seq<Option<string>> {
    if Truthy(pi.customer) && stripe.Some? then [CustomerEmail(stripe.value, pi.customer.value)] else []
  }

  /** The checkout-session lookup (`customer_email || customer_details?.email`),
      when the metadata names a session and the client exists; a throwing
      retrieve call contributes nothing. */
  function SessionFallback(pi: PaymentIntent, stripe: Option<StripeApi>): seq<Option<string>> {
    var sid := Lookup(pi.metadata, "checkout_session_id");
    if Truthy(sid) && stripe.Some? && sid.value in stripe.value.sessions then
      var s := stripe.value.sessions[sid.value];
      [s.customerEmail, s.customerDetailsEmail]
    else []
  }

  /** The e-mail `getCustomerEmail` returns; None where it throws. */
  function ResolvedEmail(pi: PaymentIntent, stripe: Option<StripeApi>): Option<string> {
    FirstTruthy(DirectEmails(pi) + CustomerFallback(pi, stripe) + SessionFallback(pi, stripe))
  }

  /** `getCustomerEmail`: the direct fields first; the customer lookup only
      when they give nothing; the session lookup only when there is still
      nothing; lookup failures fall through; no e-mail at all throws. The two
      flags say which retrieve calls were made. */
  method GetCustomerEmail(pi: PaymentIntent, stripe: Option<StripeApi>)
    returns (r: Result<string, WebhookError>, customerLookedUp: bool, sessionLookedUp: bool)
    ensures ResolvedEmail(pi, stripe).Some? ==> r == Ok(ResolvedEmail(pi, stripe).value)
    ensures ResolvedEmail(pi, stripe).None? ==> r == Err(NoCustomerEmail)
    ensures customerLookedUp <==> NoneTruthy(DirectEmails(pi)) && Truthy(pi.customer) && stripe.Some?
    ensures sessionLookedUp <==>
      NoneTruthy(DirectEmails(pi) + CustomerFallback(pi, stripe)) &&
      Truthy(Lookup(pi.metadata, "checkout_session_id")) && stripe.Some?
  {
    var direct, byCustomer, bySession := DirectEmails(pi), CustomerFallback(pi, stripe), SessionFallback(pi, stripe);
    FirstTruthyAppend(direct, byCustomer);
    FirstTruthyAppend(direct + byCustomer, bySession);
    FirstTruthyAppend(byCustomer, []);
    assert byCustomer + [] == byCustomer;

    var email := if Truthy(pi.receiptEmail) then pi.receiptEmail
      else if Truthy(pi.customerDetailsEmail) then pi.customerDetailsEmail
      else Lookup(pi.metadata, "email");
    assert FirstTruthy(direct[2..]) == if Truthy(direct[2]) then direct[2] else None;
    assert FirstTruthy(direct[1..]) == if Truthy(direct[1]) then direct[1] else FirstTruthy(direct[2..]);
    assert Truthy(email) ==> email == FirstTruthy(direct);
    assert !Truthy(email) <==> NoneTruthy(direct);

    customerLookedUp := false;
    if !Truthy(email) && Truthy(pi.customer) && stripe.Some? {
      customerLookedUp := true;
      email := CustomerEmail(stripe.value, pi.customer.value);
    }
    assert Truthy(email) ==> email == FirstTruthy(direct + byCustomer);
    assert !Truthy(email) <==> NoneTruthy(direct + byCustomer);

    sessionLookedUp := false;
    var sid := Lookup(pi.metadata, "checkout_session_id");
    if !Truthy(email) && Truthy(sid) && stripe.Some? {
      sessionLookedUp := true;
      if sid.value in stripe.value.sessions {
        var session := stripe.value.sessions[sid.value];
        email := if Truthy(session.customerEmail) then session.customerEmail else session.customerDetailsEmail;
      }
    }
    assert Truthy(email) ==> email == ResolvedEmail(pi, stripe);
    assert !Truthy(email) <==> ResolvedEmail(pi, stripe).None?;

    if !Truthy(email) {
      r := Err(NoCustomerEmail);
    } else {
      r := Ok(email.value);
    }
  }

  /** A truthy direct field decides the e-mail: no lookup can override it. */
  lemma DirectEmailWins(pi: PaymentIntent, stripe: Option<StripeApi>)
    requires !NoneTruthy(DirectEmails(pi))
    ensures ResolvedEmail(pi, stripe) == FirstTruthy(DirectEmails(pi))
  {
    FirstTruthyAppend(DirectEmails(pi), CustomerFallback(pi, stripe));
    FirstTruthyAppend(DirectEmails(pi) + CustomerFallback(pi, stripe), SessionFallback(pi, stripe));
  }

  /** A customer retrieve call that throws is swallowed: the session lookup
      decides as if the customer had not been named. */
  lemma CustomerLookupFailureFallsThrough(pi: PaymentIntent, api: StripeApi)
    requires Truthy(pi.customer) && pi.customer.value !in api.customers
    ensures ResolvedEmail(pi, Some(api)) == FirstTruthy(DirectEmails(pi) + SessionFallback(pi, Some(api)))
  {
    var d, c, s := DirectEmails(pi), CustomerFallback(pi, Some(api)), SessionFallback(pi, Some(api));
    assert c == [None];
    FirstTruthyAppend(d, c);
    FirstTruthyAppend(d + c, s);
    FirstTruthyAppend(d, s);
    FirstTruthyAppend(c, []);
    assert c + [] == c;
  }

  // ---------------------------------------------------------------------
  // The price table and the account update

  /** The price table in cents: 399 buys the Basic Plan (20 letters, 7
      days), 999 the Premium Plan (40 letters, 14 days); any other amount
      has no entry. */
  function PlanForAmount(amount: int): (t: Option<Tier>)
    ensures t.Some? <==> amount == 399 || amount == 999
    ensures t.Some? ==> t.value.plan != FREE_PLAN && t.value.days > 0
    ensures t.Some? ==> t.value.letters == LetterCountForPlan(t.value.plan)
  {
    if amount == 399 then Some(Tier(BASIC_PLAN, 20, 7))
    else if amount == 999 then Some(Tier(PREMIUM_PLAN, 40, 14))
    else None
  }

  /** Milliseconds in a day. */
  const DAY_MS: int := 86400000

  /** The `$set` document of a payment of tier `t` at clock reading `now`:
      paid and updated at `now`, ending `t.days` days later. */
  function PaymentPatch(t: Tier, intentId: string, now: int): Patch {
    SetPayment(t.plan, t.letters, "completed", now, now + t.days * DAY_MS, intentId, now, "webhook")
  }

  /** `handlePaymentSuccess` once the e-mail is known: look the amount up,
      find the account, apply the `$set`, and fail when nothing changed. */
  function Reconcile(users: map<string, Account>, email: string, amount: int, intentId: string, now: int)
    : Outcome<PaymentReceipt>
  {
    match PlanForAmount(amount)
    case None => Outcome(Err(UnrecognizedAmount(amount)), users)
    case Some(t) =>
      if email !in users then Outcome(Err(NoUserFound(email)), users)
      else
        var after := ApplyPatch(users[email], PaymentPatch(t, intentId, now));
        if after == users[email] then Outcome(Err(DocumentNotModified), users)
        else Outcome(Ok(PaymentReceipt(email, t.plan, t.letters)), users[email := after])
  }

  /** `handlePaymentSuccess` for a payment intent. */
  function PaymentOutcome(users: map<string, Account>, pi: PaymentIntent, stripe: Option<StripeApi>, now: int)
    : Outcome<PaymentReceipt>
  {
    match ResolvedEmail(pi, stripe)
    case None => Outcome(Err(NoCustomerEmail), users)
    case Some(email) => Reconcile(users, email, pi.amount, pi.id, now)
  }

  /** Every failure leaves the collection as it was; a success keeps the
      collection well formed. */
  lemma {:induction false} PaymentOutcomeFrame(users: map<string, Account>, pi: PaymentIntent, stripe: Option<StripeApi>, now: int)
    requires WellFormed(users)
    ensures var o := PaymentOutcome(users, pi, stripe, now);
      (o.result.Err? ==> o.users == users) && WellFormed(o.users)
  {
    var o := PaymentOutcome(users, pi, stripe, now);
    if o.result.Ok? {
      var email := ResolvedEmail(pi, stripe).value;
      ReconcileSuccess(users, email, pi.amount, pi.id, now);
    }
  }

  /** An amount outside the table is refused before the collection is
      touched, whoever paid. */
  lemma UnrecognizedAmountRejected(users: map<string, Account>, pi: PaymentIntent, stripe: Option<StripeApi>, now: int)
    requires pi.amount != 399 && pi.amount != 999
    ensures PaymentOutcome(users, pi, stripe, now).users == users
    ensures ResolvedEmail(pi, stripe).Some? ==>
      PaymentOutcome(users, pi, stripe, now).result == Err(UnrecognizedAmount(pi.amount))
  {
  }

  /** A successful reconciliation writes exactly the payment fields of the
      payer's document: the plan and quota of the tier (the quota replaces
      the old count, it is not added to it), status "completed", the end
      date `days` days after `now` and the intent id; every other document and every
      identity field stay as they were, and the stored plan and count equal
      the ones reported back. */
  lemma ReconcileSuccess(users: map<string, Account>, email: string, amount: int, intentId: string, now: int)
    requires WellFormed(users)
    requires Reconcile(users, email, amount, intentId, now).result.Ok?
    ensures var o := Reconcile(users, email, amount, intentId, now);
      var t := PlanForAmount(amount).value;
      var a, b := users[email], o.users[email];
      email in users && PlanForAmount(amount).Some? &&
      o.users.Keys == users.Keys && WellFormed(o.users) &&
      (forall e | e in users && e != email :: o.users[e] == users[e]) &&
      b.selectedPlan == t.plan && b.letterCount == t.letters &&
      b.selectedPlan == o.result.value.selectedPlan && b.letterCount == o.result.value.letterCount &&
      o.result.value.customerEmail == email &&
      b.paymentStatus == Some("completed") && b.subscriptionEndDate == Some(now + t.days * DAY_MS) &&
      b.lastPaymentDate == Some(now) && b.lastUpdated == Some(now) && b.stripePaymentIntentId == Some(intentId) &&
      b.name == a.name && b.email == a.email && b.password == a.password && b.createdAt == a.createdAt
  {
  }

  /** "Document not modified" needs a document already stamped at this very
      millisecond with this very payment: a delivery at any other clock
      reading to a known account with a recognised amount always writes. */
  lemma NotModifiedOnlyAtSameInstant(users: map<string, Account>, email: string, amount: int, intentId: string, now: int)
    requires PlanForAmount(amount).Some? && email in users
    ensures Reconcile(users, email, amount, intentId, now).result == Err(DocumentNotModified) <==>
      users[email] == ApplyPatch(users[email], PaymentPatch(PlanForAmount(amount).value, intentId, now))
    ensures Reconcile(users, email, amount, intentId, now).result == Err(DocumentNotModified) ==>
      users[email].lastPaymentDate == Some(now) && users[email].lastUpdated == Some(now)
    ensures users[email].lastUpdated != Some(now) ==> Reconcile(users, email, amount, intentId, now).result.Ok?
  {
  }

  /** Redelivering an intent at a later clock reading writes again and sets
      the count back to the tier's full quota: letters spent since the first
      delivery are granted again. */
  lemma RedeliveryRestoresSpentLetters(users: map<string, Account>, email: string, amount: int, intentId: string,
                                       now: int, later: int, spent: int)
    requires WellFormed(users)
    requires Reconcile(users, email, amount, intentId, now).result.Ok?
    requires now < later && 0 <= spent <= PlanForAmount(amount).value.letters
    ensures var once := Reconcile(users, email, amount, intentId, now).users;
      var used := once[email := once[email].(letterCount := once[email].letterCount - spent)];
      var twice := Reconcile(used, email, amount, intentId, later);
      twice.result.Ok? && twice.users[email].letterCount == PlanForAmount(amount).value.letters &&
      twice.users[email].letterCount == used[email].letterCount + spent
  {
    ReconcileSuccess(users, email, amount, intentId, now);
    var once := Reconcile(users, email, amount, intentId, now).users;
    var used := once[email := once[email].(letterCount := once[email].letterCount - spent)];
    assert used[email].lastUpdated == Some(now);
    NotModifiedOnlyAtSameInstant(used, email, amount, intentId, later);
    ReconcileSuccess(used, email, amount, intentId, later);
  }

  /** Redelivering the same intent at another clock reading may write again,
      but the plan and the quota stay as after the first delivery: nothing
      adds up. */
  lemma RedeliveryKeepsQuota(users: map<string, Account>, email: string, amount: int, intentId: string, now: int, later: int)
    requires WellFormed(users)
    requires Reconcile(users, email, amount, intentId, now).result.Ok?
    ensures var once := Reconcile(users, email, amount, intentId, now).users;
      var twice := Reconcile(once, email, amount, intentId, later).users;
      email in twice && twice[email].selectedPlan == once[email].selectedPlan &&
      twice[email].letterCount == once[email].letterCount
  {
    ReconcileSuccess(users, email, amount, intentId, now);
    var once := Reconcile(users, email, amount, intentId, now).users;
    if Reconcile(once, email, amount, intentId, later).result.Ok? {
      ReconcileSuccess(once, email, amount, intentId, later);
    }
  }

  /** `handlePaymentSuccess`: the outcome is PaymentOutcome's; a confirmation
      e-mail goes out only after a success and only through a working
      transporter, and a failed send does not turn the success into an
      error. */
  method HandlePaymentSuccess(store: UserCollection, pi: PaymentIntent, stripe: Option<StripeApi>,
                              transporter: Option<Mailer>, now: int)
    returns (r: Result<PaymentReceipt, WebhookError>, confirmationSent: bool)
    requires store.Valid()
    modifies store
    ensures store.Valid()
    ensures Outcome(r, store.users) == PaymentOutcome(old(store.users), pi, stripe, now)
    ensures confirmationSent <==> r.Ok? && Delivered(transporter)
  {
    confirmationSent := false;
    var found, _, _ := GetCustomerEmail(pi, stripe);
    if found.Err? {
      r := Err(found.error);
      return;
    }
    var customerEmail := found.value;
    ghost var users := store.users;
    assert PaymentOutcome(users, pi, stripe, now) == Reconcile(users, customerEmail, pi.amount, pi.id, now);
    var tier := PlanForAmount(pi.amount);
    if tier.None? {
      r := Err(UnrecognizedAmount(pi.amount));
      return;
    }
    var t := tier.value;
    var subscriptionEndDate := now + t.days * DAY_MS;
    var currentUser := Lookup(store.users, customerEmail);
    if currentUser.None? {
      r := Err(NoUserFound(customerEmail));
      return;
    }
    var updateData := SetPayment(t.plan, t.letters, "completed", now, subscriptionEndDate, pi.id, now, "webhook");
    var res := store.UpdateOne(customerEmail, updateData);
    if res.matched == 0 || res.modified == 0 {
      r := Err(if res.matched == 0 then NoDocumentMatched else DocumentNotModified);
      return;
    }
    // The re-read of lines 121-134 always agrees with what was written.
    var updatedUser := store.users[customerEmail];
    assert updatedUser.selectedPlan == t.plan && updatedUser.letterCount == t.letters;
    confirmationSent := Delivered(transporter);
    r := Ok(PaymentReceipt(customerEmail, t.plan, t.letters));
  }

  // ---------------------------------------------------------------------
  // Checkout sessions and the webhook dispatch

  /** `handleCheckoutSession`: needs a client and a payment intent id, then
      retrieves the intent and updates its metadata on Stripe's side, and
      reconciles the intent as retrieved, before that update. */
  function CheckoutOutcome(users: map<string, Account>, session: CheckoutSession, stripe: Option<StripeApi>, now: int)
    : Outcome<PaymentReceipt>
  {
    if stripe.None? then Outcome(Err(StripeNotInitialized), users)
    else if !Truthy(session.paymentIntent) then Outcome(Err(NoPaymentIntentInSession), users)
    else if session.paymentIntent.value !in stripe.value.paymentIntents then Outcome(Err(StripeCallFailed), users)
    else if !stripe.value.intentUpdateSucceeds then Outcome(Err(StripeCallFailed), users)
    else PaymentOutcome(users, stripe.value.paymentIntents[session.paymentIntent.value], stripe, now)
  }

  /** The session's own `customer_email` reaches the intent only through the
      metadata update, which the reconciliation does not see: an intent
      without any e-mail source of its own is refused even when the session
      carries the payer's address. */
  lemma CheckoutIgnoresSessionEmail(users: map<string, Account>, session: CheckoutSession, api: StripeApi, now: int)
    requires Truthy(session.paymentIntent) && session.paymentIntent.value in api.paymentIntents
    requires api.intentUpdateSucceeds
    requires var pi := api.paymentIntents[session.paymentIntent.value];
      NoneTruthy(DirectEmails(pi)) && !Truthy(pi.customer) &&
      !Truthy(Lookup(pi.metadata, "checkout_session_id"))
    ensures CheckoutOutcome(users, session, Some(api), now) == Outcome(Err(NoCustomerEmail), users)
  {
    var pi := api.paymentIntents[session.paymentIntent.value];
    assert DirectEmails(pi) + CustomerFallback(pi, Some(api)) + SessionFallback(pi, Some(api)) == DirectEmails(pi);
  }

  method HandleCheckoutSession(store: UserCollection, session: CheckoutSession, stripe: Option<StripeApi>,
                               transporter: Option<Mailer>, now: int)
    returns (r: Result<PaymentReceipt, WebhookError>, confirmationSent: bool)
    requires store.Valid()
    modifies store
    ensures store.Valid()
    ensures Outcome(r, store.users) == CheckoutOutcome(old(store.users), session, stripe, now)
    ensures confirmationSent <==> r.Ok? && Delivered(transporter)
  {
    confirmationSent := false;
    if stripe.None? {
      r := Err(StripeNotInitialized);
      return;
    }
    if !Truthy(session.paymentIntent) {
      r := Err(NoPaymentIntentInSession);
      return;
    }
    var retrieved := Lookup(stripe.value.paymentIntents, session.paymentIntent.value);
    if retrieved.None? || !stripe.value.intentUpdateSucceeds {
      r := Err(StripeCallFailed);
      return;
    }
    r, confirmationSent := HandlePaymentSuccess(store, retrieved.value, stripe, transporter, now);
  }

  /** Wraps a handler's receipt into the webhook reply. */
  function Reply(o: Outcome<PaymentReceipt>): Outcome<WebhookReply> {
    match o.result
    case Ok(receipt) => Outcome(Ok(WebhookReply(true, Some(receipt))), o.users)
    case Err(e) => Outcome(Err(e), o.users)
  }

  /** `handleWebhook`: without a client it acknowledges without verifying;
      a missing signature or secret throws before verification; a verified
      event is dispatched on its type. `constructed` is what
      `constructEvent` returns for this request (None: it throws). */
  function WebhookOutcome(users: map<string, Account>, signature: Option<string>, endpointSecret: Option<string>,
                          stripe: Option<StripeApi>, constructed: Option<Event>, now: int): Outcome<WebhookReply>
  {
    if stripe.None? then Outcome(Ok(WebhookReply(true, None)), users)
    else if !Truthy(signature) then Outcome(Err(NoSignature), users)
    else if !Truthy(endpointSecret) then Outcome(Err(SecretNotConfigured), users)
    else
      match constructed
      case None => Outcome(Err(SignatureInvalid), users)
      case Some(CheckoutSessionCompleted(session)) => Reply(CheckoutOutcome(users, session, stripe, now))
      case Some(PaymentIntentSucceeded(pi)) => Reply(PaymentOutcome(users, pi, stripe, now))
      case Some(OtherEvent(_)) => Outcome(Ok(WebhookReply(true, None)), users)
  }

  /** Only a verified payment event can change the collection; everything
      the handler refuses or skips leaves it as it was, and every change
      keeps it well formed. */
  lemma {:induction false} WebhookFrame(users: map<string, Account>, signature: Option<string>, endpointSecret: Option<string>,
                                         stripe: Option<StripeApi>, constructed: Option<Event>, now: int)
    requires WellFormed(users)
    ensures var o := WebhookOutcome(users, signature, endpointSecret, stripe, constructed, now);
      WellFormed(o.users) &&
      (o.users != users ==>
         stripe.Some? && Truthy(signature) && Truthy(endpointSecret) && o.result.Ok? &&
         constructed.Some? && !constructed.value.OtherEvent?)
  {
    if stripe.Some? && Truthy(signature) && Truthy(endpointSecret) && constructed.Some? {
      match constructed.value
      case CheckoutSessionCompleted(session) =>
        var api := stripe.value;
        if Truthy(session.paymentIntent) && session.paymentIntent.value in api.paymentIntents && api.intentUpdateSucceeds {
          PaymentOutcomeFrame(users, api.paymentIntents[session.paymentIntent.value], stripe, now);
        }
      case PaymentIntentSucceeded(pi) =>
        PaymentOutcomeFrame(users, pi, stripe, now);
      case OtherEvent(_) =>
    }
  }

  /** `handleWebhook`. `verified` says whether `constructEvent` was called. */
  method HandleWebhook(store: UserCollection, signature: Option<string>, endpointSecret: Option<string>,
                       stripe: Option<StripeApi>, constructed: Option<Event>, transporter: Option<Mailer>, now: int)
    returns (r: Result<WebhookReply, WebhookError>, verified: bool, confirmationSent: bool)
    requires store.Valid()
    modifies store
    ensures store.Valid()
    ensures Outcome(r, store.users) == WebhookOutcome(old(store.users), signature, endpointSecret, stripe, constructed, now)
    ensures verified <==> stripe.Some? && Truthy(signature) && Truthy(endpointSecret)
    ensures confirmationSent <==> r.Ok? && r.value.result.Some? && Delivered(transporter)
  {
    verified, confirmationSent := false, false;
    if stripe.None? {
      r := Ok(WebhookReply(true, None));
      return;
    }
    if !Truthy(signature) {
      r := Err(NoSignature);
      return;
    }
    if !Truthy(endpointSecret) {
      r := Err(SecretNotConfigured);
      return;
    }
    verified := true;
    if constructed.None? {
      r := Err(SignatureInvalid);
      return;
    }
    var handled: Result<PaymentReceipt, WebhookError>;
    match constructed.value {
      case CheckoutSessionCompleted(session) =>
        handled, confirmationSent := HandleCheckoutSession(store, session, stripe, transporter, now);
      case PaymentIntentSucceeded(pi) =>
        handled, confirmationSent := HandlePaymentSuccess(store, pi, stripe, transporter, now);
      case OtherEvent(_) =>
        r := Ok(WebhookReply(true, None));
        return;
    }
    r := if handled.Ok? then Ok(WebhookReply(true, Some(handled.value))) else Err(handled.error);
  }
}
