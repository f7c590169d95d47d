# Plan and quota bookkeeping of the cover-letter service

This project models, in Dafny, how the cover-letter service keeps track of
what each user has paid for and how many letters they may still generate.
Each part is proved against a specification.

What is modelled:

- **Stripe webhook of the current revision** (`src/webhooks/stripeWebhook.mjs`):
  - payer resolution, as a first-truthy chain with two Stripe fallbacks;
  - the 399/999 price table, which gives 20 and 40 letters;
  - the `$set` reconciliation with its matched/modified checks;
  - the confirmation e-mail;
  - the event dispatch.
- **Routes of `server.mjs`**:
  - registration, which grants 5 letters on the Free Plan;
  - generation, which takes one letter off the quota;
  - plan-status refresh, checkout-session creation and the webhook route;
  - the contact form, bearer-token authentication and the CORS allow-list.
- **The legacy revision** (`src/webhooks/stripeWebhook.js`, `server.js`), kept in separate modules:
  - a 5/15 price table that falls back to the Free Plan with no letters;
  - a counter that counts letters used, starting at 0 and raised on every generation with no check at all.
- **Client side** (`src/App.tsx`, `PersonalDataPopup.tsx`, `PersonalDataForm.tsx`):
  - the page's Free Plan gate (5 letters) and its local counter;
  - the form validators;
  - the one-experience-per-line text of the popup.

How each kind of code is modelled:

- **The users collection.** It is one class, `Accounts.UserCollection`, holding a map from e-mail address to document. Both revisions share it.
- **MongoDB's `updateOne`.** It reports a modification only when the `$set` actually changes the document.
- **Route handlers.** Each one that writes is a method. It is proved equal to a pure outcome function (`PaymentOutcome`, `WebhookOutcome`, `GenerateOutcome`, `LegacyWebhookOutcome`, …). The lemmas state what the source promises about those functions.
- **Client components.** Each is a class whose handlers update its fields. The page (`App.Page`) is proved against the transition functions over `App.View`.
- **External services are inputs:**
  - Stripe's API is maps: a missing key means the call throws. `None` means no client is configured.
  - The signature check is the event that `constructEvent` returns, or `None` when it throws.
  - `jwt.verify` and `bcrypt` are passed-in functions or values.
  - The AI backends and the database calls made by the page are `Option`/`Result` answers.
  - The mail transporter is absent, delivering or failing.
  - Dates are clock readings in milliseconds, as `new Date()` gives them.
- **JavaScript semantics are written out:**
  - `''` is falsy, and so is a price of 0.
  - `||` returns the first truthy value.
  - `trim` and `\s` follow the ECMAScript whitespace set.
  - `split('\n')`, `join('\n')` and `toString` are modelled as written.

Behaviour worth knowing that the model makes explicit (proved as lemmas):

- **Current handler: the checkout session's own `customer_email` is never seen.** `handleCheckoutSession` passes on the payment intent as it was retrieved, before its metadata update. An intent with no address of its own is therefore refused (`StripeWebhook.CheckoutIgnoresSessionEmail`).
- **Current webhook: unverified events are acknowledged when no Stripe client is configured.** The signature is not checked in that case (`StripeWebhook.WebhookOutcome`).
- **Current generation route: the quota charged is that of the address in the request body,** not that of the authenticated user (`server.mjs:500-503`). The model keys generation on the body's address.
- **Legacy webhook: an amount outside the table downgrades a paying account** to the Free Plan with no letters (`LegacyStripeWebhook.OddAmountDowngrades`).
- **The page counts a letter before storing it.** When the cover-letter insert throws, the shown counter runs ahead of the stored one (`App.FailedInsertStillCounts`).
- **The personal-data popup sends data without an e-mail.** Once the page keeps that data, the writes that follow carry no address (`App.PopupDataLosesAddress`).

## Model

| member | source | states |
|---|---|---|
| Accounts.UserCollection.InsertOne | server.mjs:408-415 | the new document is filed under its own address; nothing else changes; the collection stays well formed |
| Accounts.UserCollection.UpdateOne | src/webhooks/stripeWebhook.mjs:103-118 | with no matching address nothing changes and (0, 0) is reported; otherwise the patched document replaces the old one, matched is 1, and modified is 0 exactly when the document did not change |
| Plans.LetterCountForPlan | server.mjs:183-193 | Basic Plan gets 20 letters and Premium Plan 40, each iff the plan is that one; any other name gets 5; always positive |
| JsStrings.BlankIffTrimEmpty | src/components/PersonalDataPopup.tsx:18-24 | `s.trim()` is empty exactly when every character of `s` is ECMAScript whitespace |
| JsStrings.TrimsToEmpty | src/components/PersonalDataForm.tsx:25-30 | computing `s.trim() === ''` answers whether `s` is blank |
| JsStrings.Split | src/components/PersonalDataPopup.tsx:35 | `split` yields at least one piece and no piece contains the separator |
| JsStrings.SplitJoin | src/components/PersonalDataPopup.tsx:12 | joining the pieces of a split gives the string back |
| JsStrings.JoinSplit | src/components/PersonalDataPopup.tsx:12 | splitting a join of separator-free pieces gives the pieces back |
| JsStrings.NonBlank | src/components/PersonalDataPopup.tsx:35 | the filter keeps only lines that are not blank, each taken from the input |
| JsStrings.NonBlankKeepsAll | src/components/PersonalDataPopup.tsx:35 | a list with no blank item passes the filter unchanged |
| JsStrings.JoinThenNonBlankPieces | src/components/PersonalDataPopup.tsx:12 | join, split and filter give back any list of non-blank, newline-free items |
| JsStrings.IntDecimalRoundTrip | server.mjs:357-361 | reading back `planPrice.toString()` gives the price, so the metadata carries the exact amount |
| JsStrings.FirstTruthy | src/webhooks/stripeWebhook.mjs:8 | an `a \|\| b \|\| c` chain: None iff no value is truthy; otherwise the first truthy value, with every earlier one falsy |
| JsStrings.FirstTruthyAppend | src/webhooks/stripeWebhook.mjs:8-26 | the chain over a concatenation is the first list's answer when it has one, and otherwise the second list's answer |
| EmailPatterns.ContactEmailMatchesShape | server.mjs:144-147 | `^[^\s@]+@[^\s@]+\.[^\s@]+$` matches exactly the addresses with no whitespace, exactly one '@' (not the first character) and a '.' strictly inside the part after it |
| EmailPatterns.ContactImpliesLoose | src/components/PersonalDataForm.tsx:31 | every address the contact route accepts also matches the form's unanchored `\S+@\S+\.\S+` |
| EmailPatterns.LooseAcceptsTwoAts | src/components/PersonalDataForm.tsx:31 | the converse fails: "a@b@c.d" passes the form and is refused by the contact route |
| Auth.BearerToken | server.mjs:286 | a token is produced only for a truthy header that contains a space; the token is truthy and has no space |
| Auth.BearerTokenOfHeader | server.js:92-93 | "scheme token" and "scheme token rest" both yield exactly the token, whatever the scheme |
| Auth.NoTokenWithoutSecondWord | server.js:92-97 | a one-word header, or one with nothing after its first space, yields no token |
| Auth.Authenticate | server.mjs:284-299 | authenticated iff a token is present and `jwt.verify` accepts it, with the e-mail claim of the token; every refusal is 401 |
| Server.OriginDecisions | server.mjs:50-66 | a worked example on four concrete origins, not a statement about all inputs: a request without an origin (absent or empty) passes, a listed origin passes, and the listed host over plain HTTP or with a trailing slash is refused |
| Server.ContactReply | server.mjs:134-174 | 400 iff a field is falsy or the address fails the anchored pattern; 500 iff the input is valid, a transporter exists and its send fails; 200 otherwise |
| Server.NewAccount | server.mjs:404-415 | the inserted document: Free Plan, 5 letters, the hashed password, no payment fields |
| Server.Register | server.mjs:393-424 | a taken address gets 400 and nothing is written; otherwise 201 and exactly the new document is added |
| Server.BackendFor | server.mjs:507-512 | Gemini serves exactly the Free Plan; every other plan goes to OpenAI |
| Server.GenerationSpendsOneLetter | server.mjs:494-525 | a served letter requires a positive quota and lowers it by exactly one; a refusal (400) or a backend failure (500) changes nothing; no quota becomes negative |
| Server.GenerateCoverLetter | server.mjs:494-525 | the route's status, letter and collection are GenerateOutcome's; a backend is called iff the account has letters left, and it is the plan's backend |
| Server.ServedLettersBoundedByQuota | server.mjs:515-521 | over any run of requests, the letters served never exceed the starting quota, the quota falls by exactly the number served, and other accounts are untouched |
| Server.PlanStatusNeverWrites | server.mjs:560-587 | the "latest payment" is the user's own document, so the plan comparison never differs and the update is never sent |
| Server.UpdatePlanStatus | server.mjs:544-605 | 404 for an unknown user; otherwise 200 with the stored document without its password |
| Server.CreateCheckoutSession | server.mjs:323-390 | 503 without a client; 400 for a falsy plan name or price; 500 with no customer created and no session requested when `customers.list` throws; `customers.create` is called iff the list answered with no customer; otherwise the session request carries the listed or created customer, the plan, the amount and metadata whose price reads back as the amount; 200 iff Stripe creates the session, else 500 |
| Server.WebhookRoute | server.mjs:312-320 | 200 iff the handler returns, 400 iff it throws; the collection is WebhookOutcome's |
| StripeWebhook.GetCustomerEmail | src/webhooks/stripeWebhook.mjs:7-33 | the address is the first truthy of receipt, customer-details and metadata e-mail, then the customer's, then the checkout session's; it throws when there is none; the customer lookup runs only when no direct address is truthy and a customer is set, and the session lookup only when that also failed and a session id is set |
| StripeWebhook.DirectEmailWins | src/webhooks/stripeWebhook.mjs:8-10 | a truthy direct address is used and no fallback is consulted |
| StripeWebhook.CustomerLookupFailureFallsThrough | src/webhooks/stripeWebhook.mjs:10-26 | a failed or address-less customer lookup falls through to the session lookup |
| StripeWebhook.PlanForAmount | src/webhooks/stripeWebhook.mjs:59-72 | only 399 and 999 are recognised; each gives a paid plan, a positive number of days and exactly that plan's server quota |
| StripeWebhook.PaymentOutcomeFrame | src/webhooks/stripeWebhook.mjs:36-151 | every failure leaves the collection as it was; a success keeps it well formed |
| StripeWebhook.UnrecognizedAmountRejected | src/webhooks/stripeWebhook.mjs:66-72 | an amount outside the table changes nothing and, once a payer is found, is reported as unrecognised |
| StripeWebhook.ReconcileSuccess | src/webhooks/stripeWebhook.mjs:74-146 | on success, only the payer's document changes: plan and quota from the table (the quota replaces the old count), status completed, payment and update time `now`, end time `days` days after `now`, and intent id; identity fields and other documents are kept; the receipt equals what was stored |
| StripeWebhook.NotModifiedOnlyAtSameInstant | src/webhooks/stripeWebhook.mjs:87-118 | for a known payer and a recognised amount, "not modified" is reported iff the `$set` leaves the document equal, which needs a document already stamped at this very millisecond; at any other clock reading the update succeeds |
| StripeWebhook.RedeliveryRestoresSpentLetters | src/webhooks/stripeWebhook.mjs:87-118 | redelivering an intent at a later clock reading succeeds and sets the count back to the tier's full quota, granting again the letters spent since the first delivery |
| StripeWebhook.RedeliveryKeepsQuota | src/webhooks/stripeWebhook.mjs:88-106 | a redelivery at another clock reading leaves plan and quota as after the first delivery: quotas never add up |
| StripeWebhook.HandlePaymentSuccess | src/webhooks/stripeWebhook.mjs:36-151 | result and collection are PaymentOutcome's; a confirmation goes out iff the update succeeded and a working transporter exists, and a failed send does not fail the payment |
| StripeWebhook.CheckoutIgnoresSessionEmail | src/webhooks/stripeWebhook.mjs:174-191 | an intent without an address of its own is refused even when the session has one, because the intent is passed on as retrieved |
| StripeWebhook.HandleCheckoutSession | src/webhooks/stripeWebhook.mjs:154-196 | result and collection are CheckoutOutcome's: no client, no intent id and failed Stripe calls are errors that change nothing; a confirmation goes out iff the reconciliation succeeded and a working transporter exists |
| StripeWebhook.WebhookFrame | src/webhooks/stripeWebhook.mjs:224-295 | only a verified payment or checkout event that succeeds can change the collection, and it stays well formed |
| StripeWebhook.HandleWebhook | src/webhooks/stripeWebhook.mjs:224-295 | result and collection are WebhookOutcome's; the signature is checked iff a client, a signature and a secret exist; a confirmation goes out iff a payment or checkout event was reconciled and a working transporter exists |
| LegacyStripeWebhook.LegacyEmail | src/webhooks/stripeWebhook.js:3-16 | the first truthy of receipt, customer-details, metadata and expanded-customer e-mail; a truthy receipt e-mail wins; None iff all four are falsy |
| LegacyStripeWebhook.LegacyPlanForAmount | src/webhooks/stripeWebhook.js:34-43 | 399 gives Basic Plan with 5, 999 gives Premium Plan with 15, any other amount gives Free Plan with 0; always below the current server's quota for that plan |
| LegacyStripeWebhook.LegacyPaymentFrame | src/webhooks/stripeWebhook.js:18-73 | on success the payer's plan, count, status, payment time and intent id are set and nothing else changes; failures change nothing |
| LegacyStripeWebhook.LegacyNotModifiedOnlyAtSameInstant | src/webhooks/stripeWebhook.js:47-66 | the update fails only on a document that already holds this payment stamped at this very millisecond; at any other clock reading a known payer is always updated |
| LegacyStripeWebhook.LegacyRedeliveryRestoresSpentLetters | src/webhooks/stripeWebhook.js:47-58 | redelivering an intent at a later clock reading succeeds and sets the count back to the table's quota, whatever was spent in between |
| LegacyStripeWebhook.OddAmountDowngrades | src/webhooks/stripeWebhook.js:34-58 | a Premium Plan account paying an unlisted amount ends on the Free Plan with 0 letters, and this is reported as success |
| LegacyStripeWebhook.LegacyHandlePaymentSuccess | src/webhooks/stripeWebhook.js:18-73 | result and collection are LegacyPaymentOutcome's; a confirmation goes out iff the update succeeded and delivery works |
| LegacyStripeWebhook.SendConfirmationEmail | src/webhooks/stripeWebhook.js:75-96 | never fails; reports delivery iff a transporter exists and its send succeeds |
| LegacyStripeWebhook.LegacyWebhookFrame | src/webhooks/stripeWebhook.js:98-141 | only a verified payment or checkout event that succeeds can change the collection, and it stays well formed |
| LegacyStripeWebhook.LegacyHandleWebhook | src/webhooks/stripeWebhook.js:98-141 | result and collection are LegacyWebhookOutcome's; the signature is checked iff both signature and secret are truthy |
| LegacyServer.LegacyNewAccount | server.js:179-192 | the legacy document: Free Plan, 0 letters used, no payment fields |
| LegacyServer.LegacyRegister | server.js:174-201 | a taken address gets 400 and nothing is written; otherwise 201 and exactly the new document is added |
| LegacyServer.LegacyLogin | server.js:204-233 | logged in iff the address exists and the password matches; unknown address and wrong password get the same 400; the reply carries the token and name, e-mail, plan and count, never the password |
| LegacyServer.LegacyGenerateCoverLetter | server.js:271-287 | always 200 with the template letter; the counter of the body's address rises by one with no limit; nothing changes for an unknown address |
| LegacyServer.CopyBackChangesNothing | server.js:130-154 | the completed-payment record is the account itself, so writing it back changes no value |
| LegacyServer.LegacyUpdatePlanStatus | server.js:123-171 | always 200; the collection is unchanged; the body is the account without its password, or null for an unknown user |
| LegacyServer.LegacyCreateCheckoutSession | server.js:306-342 | 400 iff the plan name or price is falsy; otherwise a session for the authenticated address; 200 with its id iff Stripe creates it, else 500 |
| LegacyServer.LegacyWebhookRoute | server.js:109-120 | 200 with received iff the handler returns, 400 iff it throws; the collection is LegacyWebhookOutcome's |
| PersonalDataPopup.Popup.EditStudies | src/components/PersonalDataPopup.tsx:58 | typing replaces the studies text and nothing else |
| PersonalDataPopup.Popup.EditExperiences | src/components/PersonalDataPopup.tsx:72 | typing replaces the experiences text and nothing else |
| PersonalDataPopup.PopupErrors | src/components/PersonalDataPopup.tsx:15-28 | one error per blank field, with its message; no other keys |
| PersonalDataPopup.Popup.ValidateForm | src/components/PersonalDataPopup.tsx:15-28 | the errors shown are PopupErrors of the fields; valid iff there are none; the fields are untouched |
| PersonalDataPopup.Popup.HandleSubmit | src/components/PersonalDataPopup.tsx:30-38 | submits iff valid; the studies exactly as typed and the non-blank lines of the experiences in order |
| PersonalDataPopup.AcceptedHasExperiences | src/components/PersonalDataPopup.tsx:22-35 | an accepted submission has at least one experience, each non-blank and on one line |
| PersonalDataPopup.ResubmitIsStable | src/components/PersonalDataPopup.tsx:12-35 | reopening the popup on what it submitted and saving again submits the same data |
| PersonalDataPopup.InitialDataRoundTrip | src/components/__tests__/PersonalDataPopup.test.tsx:49-62 | initial data of non-blank, newline-free experiences (at least one) and non-blank studies is accepted and submitted unchanged |
| PersonalDataPopup.EmptyFieldsReportBoth | src/components/__tests__/PersonalDataPopup.test.tsx:36-47 | emptying both fields reports both messages at once |
| PersonalDataForm.FormErrors | src/components/PersonalDataForm.tsx:22-37 | a name error iff the name is blank; an e-mail error iff the address is blank or fails the pattern, "required" when blank and "invalid" otherwise, never both |
| PersonalDataForm.ContactAddressesPassForm | src/components/PersonalDataForm.tsx:29-33 | an address the contact route accepts never gets an e-mail error on the form |
| PersonalDataForm.BlankEmailIsRequiredNotInvalid | src/components/PersonalDataForm.tsx:29-33 | a blank address is reported as required, never as invalid |
| PersonalDataForm.Form.EditName | src/components/PersonalDataForm.tsx:67 | typing replaces the name and keeps every other form field, the errors and the popup state |
| PersonalDataForm.Form.EditEmail | src/components/PersonalDataForm.tsx:82 | typing replaces the address and keeps every other form field, the errors and the popup state |
| PersonalDataForm.Form.ValidateForm | src/components/PersonalDataForm.tsx:22-37 | the errors shown are FormErrors of the name and address; valid iff there are none; the data is untouched |
| PersonalDataForm.Form.HandleSubmit | src/components/PersonalDataForm.tsx:39-44 | the whole form data is submitted iff no error was found |
| PersonalDataForm.Form.HandlePopupSubmit | src/components/PersonalDataForm.tsx:46-53 | only studies and experiences are replaced; name, address, plan and count are kept; the popup closes |
| PersonalDataForm.Form.PopupInitialData | src/components/PersonalDataForm.tsx:113-116 | the popup opens on the form's studies and experiences |
| PersonalDataForm.PopupRoundTripKeepsForm | src/components/PersonalDataForm.tsx:46-53 | for filled-in studies and non-blank single-line experiences, opening the popup and saving it untouched leaves the form exactly as it was |
| PersonalDataForm.InitialPopupRefused | src/components/PersonalDataForm.tsx:10-17 | the popup opened on the initial form reports both fields missing |
| PersonalDataForm.InitialFormRefused | src/components/PersonalDataForm.tsx:10-37 | the initial form reports the name and the address missing |
| PersonalDataForm.Form.constructor | src/components/PersonalDataForm.tsx:10-20 | empty name, address and studies, one empty experience, Free Plan, 0 letters, popup closed, no errors |
| App.Initial | src/App.tsx:12-27 | unregistered, Free Plan, 0 letters, no writes; an error iff the OpenAI key is missing |
| App.Registered | src/App.tsx:29-45 | a successful insert registers the page on the Free Plan with 0 letters and keeps the data; a failed one only sets the error |
| App.PlanSelected | src/App.tsx:47-57 | the plan is taken iff personal data exists and the update succeeds; otherwise only the error changes; the counter is kept |
| App.PersonalDataSubmitted | src/App.tsx:59-68 | a successful update keeps the submitted data and closes the popup; a failed one only sets the error |
| App.GenerationGate | src/App.tsx:71-79 | generation may start iff personal data and a job ad exist and the Free Plan has fewer than 5 letters; the limit message is given iff only the quota blocks |
| App.ButtonMatchesGate | src/App.tsx:155 | when not loading and the inputs are present, the button is disabled exactly when the handler refuses for the limit |
| App.RefusedPressChangesOnlyError | src/App.tsx:71-79 | a refused press changes only the error, which names the reason |
| App.ErrorResultIsNotCounted | src/App.tsx:84-86 | a result starting with "Error:" becomes the error; the letter shown, the counter and the database stay as they were; loading ends |
| App.LetterIsCountedOnce | src/App.tsx:87-97 | any other result is shown, counted exactly once, and stored (the letter, then the new count) under the kept address; paid plans are never limited |
| App.FailedInsertStillCounts | src/App.tsx:89-101 | when the letter insert throws, the counter has already risen but nothing was written |
| App.PressEndsLoaded | src/App.tsx:81-104 | a press that passes the gate ends with nothing loading; a press raises the counter by at most one and never lowers it |
| App.FreeCountStaysWithinLimit | src/App.tsx:76-79 | on the Free Plan the counter never passes 5, however many presses follow |
| App.RegistrationGrantsFiveLetters | src/App.tsx:29-40 | after registering, at most 5 letters can be generated until a plan is chosen |
| App.PaidPlanLiftsLimit | src/App.tsx:47-52 | once a paid plan is taken, the gate lets generation start whatever the counter |
| App.PopupDataLosesAddress | src/App.tsx:59-62 | after the popup's data replaces the kept data, the next plan update goes out without an address |
| App.Page.EditJobAd | src/components/JobAdForm.tsx:20 | typing replaces the job ad and nothing else on the page |
| App.Page.HandleRegistration | src/App.tsx:29-45 | the new state is Registered of the old one |
| App.Page.HandlePlanSelection | src/App.tsx:47-57 | the new state is PlanSelected of the old one |
| App.Page.HandlePersonalDataSubmit | src/App.tsx:59-68 | the new state is PersonalDataSubmitted of the old one |
| App.Page.BeginGeneration | src/App.tsx:70-82 | starts iff the gate passes, and then loading is on and the error cleared; otherwise only the error is set |
| App.Page.CompleteGeneration | src/App.tsx:83-104 | the new state is Finished of the old one, and loading is off |
| App.Page.HandleGenerateCoverLetter | src/App.tsx:70-105 | the new state is Generate of the old one |

## Left out

- Express and server plumbing are not modelled: CORS middleware wiring, rate limiters, dotenv, the MongoDB connection, static files and `listen`. Only the CORS allow-list decision is modelled.
- `PUT /api/users/:email` (`server.mjs:459-474`, `server.js:236-251`) is not modelled. It `$set`s the request body on any address for any authenticated caller, so it can overwrite the plan, the letter count (negative values included) and the e-mail of any document. `Accounts.WellFormed`, `Server.ServedLettersBoundedByQuota` and `Server.PlanStatusNeverWrites` hold only for runs in which that route is not used.
- `GET /api/users/:email`, `/api/check-auth` and `/api/config` are not modelled. They only read.
- `/api/login` of `server.mjs` is not modelled separately. Its logic is the legacy one, modelled as `LegacyServer.LegacyLogin`.
- The AI backends are not modelled: prompts, language detection, `src/utils/coverLetterGenerator.ts` and the legacy template text. Their results are inputs.
- The Stripe SDK internals are not modelled: HMAC verification, and what the customer, session and intent calls do on Stripe's side.
  - The checkout handler's metadata update on the intent is not modelled as an effect.
  - The metadata of the created customer is not modelled.
- Dates are integer clock readings in milliseconds. Time zones and daylight-saving changes are not modelled.
- StripeWebhook.PaymentPatch, StripeWebhook.Reconcile: the three `new Date()` readings of one delivery (`stripeWebhook.mjs:74`, `92`, `95`) are taken as one reading `now`, and `setDate(getDate() + days)` as adding `days` times 86400000 ms. The source's readings may differ by a millisecond, and a daylight-saving change moves its end date by an hour.
- Concurrency and atomicity are not modelled. Concurrent webhook deliveries and the interleaving of the page's asynchronous handlers are out of scope, so each handler runs to completion.
- Database unavailability (the `catch` paths that answer 500) is not modelled. Neither are documents written by older code without `letterCount`.
- Server.CreateCheckoutSession: does not model a `planPrice` that is not an integer number, because the price is an `int` in the model.
- `src/components/PaymentPlanSelection.tsx`, `RegistrationForm.tsx` and the login component are not part of this model.
- The page's polling, rendering and popup open/close buttons are not modelled, and neither is the `mockMongoDB` helper's own behaviour. Each of its calls is an input that either returns or throws.
- App.Page.HandleGenerateCoverLetter: the `createdAt` date of the stored letter is not recorded in the write log.
- `Server.UpdatePlanStatus`'s update branch is not executable in the model. The lemma `Server.PlanStatusNeverWrites` proves that it never fires.
