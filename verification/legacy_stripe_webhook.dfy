/** Payment reconciliation of the legacy revision (src/webhooks/stripeWebhook.js):
    a single `||` chain for the e-mail, a 5/15 quota table that falls back
    to the Free Plan with no letters instead of failing, and a confirmation
    e-mail whose failure is always swallowed. The Stripe client always
    exists in this revision; its retrieve calls are inputs. */
module LegacyStripeWebhook {
  import opened Wrappers
  import opened JsStrings
  import opened Plans
  import opened Accounts
  import opened Mail

  /** `paymentIntent.customer`: an id, or an expanded customer object. */
  datatype CustomerRef = CustomerId(id: string) | ExpandedCustomer(email: Option<string>)

  datatype PaymentIntent = PaymentIntent(
    id: string,
    amount: int,
    receiptEmail: Option<string>,
    customerDetailsEmail: Option<string>,
    metadata: map<string, string>,
    customer: Option<CustomerRef>)

  datatype CheckoutSession = CheckoutSession(id: string, paymentIntent: Option<string>)

  datatype Event =
    | PaymentIntentSucceeded(intent: PaymentIntent)
    | CheckoutSessionCompleted(session: CheckoutSession)
    | OtherEvent(eventType: string)

  datatype LegacyError =
    | NoCustomerEmail
    | NoUserFound(email: string)
    | UpdateFailed
    | NoSignature
    | SecretNotConfigured
    | SignatureInvalid
    | RetrieveFailed

  datatype Tier = Tier(plan: string, letters: int)

  datatype PaymentReceipt = PaymentReceipt(customerEmail: string, selectedPlan: string, letterCount: int)

  datatype Outcome<T> = Outcome(result: Result<T, LegacyError>, users: map<string, Account>)

  /** `paymentIntent.customer && paymentIntent.customer.email`: only an
      expanded customer object carries an address. */
  function CustomerRefEmail(c: Option<CustomerRef>): Option<string> {
    match c
    case Some(ExpandedCustomer(email)) => email
    case _ => None
  }

  /** The legacy `getCustomerEmail`: the first truthy value among the receipt
      e-mail, the customer-details e-mail, the metadata e-mail and the
      expanded customer's e-mail; None where it throws. */
  function LegacyEmail(pi: PaymentIntent): (r: Option<string>)
    ensures r.Some? ==> Truthy(r)
    ensures Truthy(pi.receiptEmail) ==> r == pi.receiptEmail
    ensures r.None? <==>
      !Truthy(pi.receiptEmail) && !Truthy(pi.customerDetailsEmail) &&
      !Truthy(Lookup(pi.metadata, "email")) && !Truthy(CustomerRefEmail(pi.customer))
  {
    var candidates := [pi.receiptEmail, pi.customerDetailsEmail, Lookup(pi.metadata, "email"),
                       CustomerRefEmail(pi.customer)];
    assert candidates[0] == pi.receiptEmail;
    assert NoneTruthy(candidates) <==>
      !Truthy(candidates[0]) && !Truthy(candidates[1]) && !Truthy(candidates[2]) && !Truthy(candidates[3]);
    FirstTruthy(candidates)
  }

  /** The legacy price table: 399 buys the Basic Plan with 5 letters, 999
      the Premium Plan with 15, and every other amount silently becomes the
      Free Plan with no letters. */
  function LegacyPlanForAmount(amount: int): (t: Tier)
    ensures t.plan == BASIC_PLAN <==> amount == 399
    ensures t.plan == PREMIUM_PLAN <==> amount == 999
    ensures amount != 399 && amount != 999 ==> t == Tier(FREE_PLAN, 0)
    ensures t.letters >= 0 && t.letters < LetterCountForPlan(t.plan)
  {
    if amount == 399 then Tier(BASIC_PLAN, 5)
    else if amount == 999 then Tier(PREMIUM_PLAN, 15)
    else Tier(FREE_PLAN, 0)
  }

  /** The legacy `handlePaymentSuccess`: resolve the address, `$set` the
      five payment fields, and fail when nothing matched or nothing
      changed. */
  function LegacyPaymentOutcome(users: map<string, Account>, pi: PaymentIntent, now: int): Outcome<PaymentReceipt> {
    match LegacyEmail(pi)
    case None => Outcome(Err(NoCustomerEmail), users)
    case Some(email) =>
      var t := LegacyPlanForAmount(pi.amount);
      if email !in users then Outcome(Err(NoUserFound(email)), users)
      else
        var after := ApplyPatch(users[email], SetLegacyPayment(t.plan, t.letters, "completed", now, pi.id));
        if after == users[email] then Outcome(Err(UpdateFailed), users)
        else Outcome(Ok(PaymentReceipt(email, t.plan, t.letters)), users[email := after])
  }

  /** A success writes the plan and count of the table, status "completed",
      the payment time and the intent id on the payer's document and nowhere
      else; failures change nothing. */
  lemma LegacyPaymentFrame(users: map<string, Account>, pi: PaymentIntent, now: int)
    requires WellFormed(users)
    ensures var o := LegacyPaymentOutcome(users, pi, now);
      WellFormed(o.users) && o.users.Keys == users.Keys &&
      (o.result.Err? ==> o.users == users) &&
      (o.result.Ok? ==>
         var email, t := o.result.value.customerEmail, LegacyPlanForAmount(pi.amount);
         LegacyEmail(pi) == Some(email) && email in users &&
         o.users == users[email := users[email].(selectedPlan := t.plan, letterCount := t.letters,
                                                 paymentStatus := Some("completed"),
                                                 lastPaymentDate := Some(now),
                                                 stripePaymentIntentId := Some(pi.id))])
  {
  }

  /** The update fails only on a document that already holds this very
      payment, stamped at this very millisecond: a delivery at any other
      clock reading to a known account always writes. */
  lemma LegacyNotModifiedOnlyAtSameInstant(users: map<string, Account>, pi: PaymentIntent, now: int)
    ensures LegacyPaymentOutcome(users, pi, now).result == Err(UpdateFailed) ==>
      LegacyEmail(pi).Some? && LegacyEmail(pi).value in users &&
      users[LegacyEmail(pi).value].lastPaymentDate == Some(now) &&
      users[LegacyEmail(pi).value].stripePaymentIntentId == Some(pi.id)
    ensures (LegacyEmail(pi).Some? && LegacyEmail(pi).value in users &&
             users[LegacyEmail(pi).value].lastPaymentDate != Some(now)) ==>
      LegacyPaymentOutcome(users, pi, now).result.Ok?
  {
  }

  /** Redelivering an intent at a later clock reading writes again and sets
      the count back to the table's quota: letters spent since the first
      delivery are granted again. */
  lemma LegacyRedeliveryRestoresSpentLetters(users: map<string, Account>, pi: PaymentIntent, now: int, later: int, spent: int)
    requires WellFormed(users)
    requires LegacyPaymentOutcome(users, pi, now).result.Ok?
    requires now < later && 0 <= spent <= LegacyPlanForAmount(pi.amount).letters
    ensures var email := LegacyPaymentOutcome(users, pi, now).result.value.customerEmail;
      var once := LegacyPaymentOutcome(users, pi, now).users;
      var used := once[email := once[email].(letterCount := once[email].letterCount - spent)];
      var twice := LegacyPaymentOutcome(used, pi, later);
      twice.result.Ok? && twice.users[email].letterCount == LegacyPlanForAmount(pi.amount).letters &&
      twice.users[email].letterCount == used[email].letterCount + spent
  {
    LegacyPaymentFrame(users, pi, now);
    var email := LegacyPaymentOutcome(users, pi, now).result.value.customerEmail;
    var once := LegacyPaymentOutcome(users, pi, now).users;
    var used := once[email := once[email].(letterCount := once[email].letterCount - spent)];
    assert used[email].lastPaymentDate == Some(now);
    LegacyNotModifiedOnlyAtSameInstant(used, pi, later);
  }

  /** An amount outside the table is not refused: it downgrades a paying
      account to the Free Plan with no letters left. */
  lemma OddAmountDowngrades(users: map<string, Account>, pi: PaymentIntent, now: int)
    requires pi.amount != 399 && pi.amount != 999
    requires LegacyEmail(pi).Some? && LegacyEmail(pi).value in users
    requires users[LegacyEmail(pi).value].selectedPlan == PREMIUM_PLAN
    ensures var o := LegacyPaymentOutcome(users, pi, now);
      o.result.Ok? && o.users[LegacyEmail(pi).value].selectedPlan == FREE_PLAN &&
      o.users[LegacyEmail(pi).value].letterCount == 0
  {
  }

  /** The legacy `handlePaymentSuccess`. The confirmation is attempted after
      every successful update; a missing transporter or a failed send is
      caught inside `sendConfirmationEmail` and changes nothing. */
  method LegacyHandlePaymentSuccess(store: UserCollection, pi: PaymentIntent, transporter: Option<Mailer>, now: int)
    returns (r: Result<PaymentReceipt, LegacyError>, confirmationSent: bool)
    requires store.Valid()
    modifies store
    ensures store.Valid()
    ensures Outcome(r, store.users) == LegacyPaymentOutcome(old(store.users), pi, now)
    ensures confirmationSent <==> r.Ok? && Delivered(transporter)
  {
    confirmationSent := false;
    var found := LegacyEmail(pi);
    if found.None? {
      return Err(NoCustomerEmail), false;
    }
    var customerEmail := found.value;
    var t := LegacyPlanForAmount(pi.amount);
    var res := store.UpdateOne(customerEmail, SetLegacyPayment(t.plan, t.letters, "completed", now, pi.id));
    if res.matched == 0 {
      return Err(NoUserFound(customerEmail)), false;
    }
    if res.modified == 0 {
      return Err(UpdateFailed), false;
    }
    confirmationSent := SendConfirmationEmail(transporter);
    r := Ok(PaymentReceipt(customerEmail, t.plan, t.letters));
  }

  /** The legacy `sendConfirmationEmail`: whether the mail went out. It
      never fails, whatever the transporter does. */
  method SendConfirmationEmail(transporter: Option<Mailer>) returns (sent: bool)
    ensures sent <==> Delivered(transporter)
  {
    if transporter.None? {
      return false;
    }
    sent := transporter.value.delivers;
  }

  /** The legacy `handleWebhook`. `constructed` is what `constructEvent`
      returns (None: it throws); `intents` answers
      `paymentIntents.retrieve` (a missing id: it throws). A completed
      checkout without a payment intent is acknowledged without effect. */
  function LegacyWebhookOutcome(users: map<string, Account>, signature: Option<string>, endpointSecret: Option<string>,
                                constructed: Option<Event>, intents: map<string, PaymentIntent>, now: int): Outcome<()>
  {
    if !Truthy(signature) then Outcome(Err(NoSignature), users)
    else if !Truthy(endpointSecret) then Outcome(Err(SecretNotConfigured), users)
    else
      match constructed
      case None => Outcome(Err(SignatureInvalid), users)
      case Some(PaymentIntentSucceeded(pi)) => Acknowledge(LegacyPaymentOutcome(users, pi, now))
      case Some(CheckoutSessionCompleted(session)) =>
        if !Truthy(session.paymentIntent) then Outcome(Ok(()), users)
        else if session.paymentIntent.value !in intents then Outcome(Err(RetrieveFailed), users)
        else Acknowledge(LegacyPaymentOutcome(users, intents[session.paymentIntent.value], now))
      case Some(OtherEvent(_)) => Outcome(Ok(()), users)
  }

  /** `{ success: true }` in place of the receipt. */
  function Acknowledge(o: Outcome<PaymentReceipt>): Outcome<()> {
    Outcome(if o.result.Ok? then Ok(()) else Err(o.result.error), o.users)
  }

  /** Unsigned or unverifiable deliveries, checkouts without an intent and
      unhandled events leave the collection as it was; only a payment that
      resolves to an account can change it. */
  lemma {:induction false} LegacyWebhookFrame(users: map<string, Account>, signature: Option<string>, endpointSecret: Option<string>,
                                               constructed: Option<Event>, intents: map<string, PaymentIntent>, now: int)
    requires WellFormed(users)
    ensures var o := LegacyWebhookOutcome(users, signature, endpointSecret, constructed, intents, now);
      WellFormed(o.users) &&
      (o.users != users ==>
         Truthy(signature) && Truthy(endpointSecret) && o.result.Ok? &&
         constructed.Some? && !constructed.value.OtherEvent?)
  {
    if Truthy(signature) && Truthy(endpointSecret) && constructed.Some? {
      match constructed.value
      case PaymentIntentSucceeded(pi) =>
        LegacyPaymentFrame(users, pi, now);
      case CheckoutSessionCompleted(session) =>
        if Truthy(session.paymentIntent) && session.paymentIntent.value in intents {
          LegacyPaymentFrame(users, intents[session.paymentIntent.value], now);
        }
      case OtherEvent(_) =>
    }
  }

  method LegacyHandleWebhook(store: UserCollection, signature: Option<string>, endpointSecret: Option<string>,
                             constructed: Option<Event>, intents: map<string, PaymentIntent>,
                             transporter: Option<Mailer>, now: int)
    returns (r: Result<(), LegacyError>, verified: bool)
    requires store.Valid()
    modifies store
    ensures store.Valid()
    ensures Outcome(r, store.users) == LegacyWebhookOutcome(old(store.users), signature, endpointSecret, constructed, intents, now)
    ensures verified <==> Truthy(signature) && Truthy(endpointSecret)
  {
    verified := false;
    if !Truthy(signature) {
      return Err(NoSignature), verified;
    }
    if !Truthy(endpointSecret) {
      return Err(SecretNotConfigured), verified;
    }
    verified := true;
    if constructed.None? {
      return Err(SignatureInvalid), verified;
    }
    var handled: Result<PaymentReceipt, LegacyError>;
    var sent: bool;
    match constructed.value {
      case PaymentIntentSucceeded(pi) =>
        handled, sent := LegacyHandlePaymentSuccess(store, pi, transporter, now);
      case CheckoutSessionCompleted(session) =>
        if !Truthy(session.paymentIntent) {
          return Ok(()), verified;
        }
        var retrieved := Lookup(intents, session.paymentIntent.value);
        if retrieved.None? {
          return Err(RetrieveFailed), verified;
        }
        handled, sent := LegacyHandlePaymentSuccess(store, retrieved.value, transporter, now);
      case OtherEvent(_) =>
        return Ok(()), verified;
    }
    r := if handled.Ok? then Ok(()) else Err(handled.error);
  }
}
