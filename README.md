# Credit purchase handlers of iconyx, modelled in Dafny

The iconyx back end is a handful of serverless HTTP handlers. Users buy credit
packs through Stripe and spend them one at a time; the balances live in a
Supabase `profiles` table. This project models the decision logic of four of
those handlers:

- **`api/stripe-checkout.js`** (module `StripeCheckout`). It lower-cases the
  requested plan and looks it up in a three-entry price map built from the
  environment. It checks the `price_` prefix, then builds the Stripe session
  request: payment mode, one line item, redirect URLs, and metadata naming the
  buyer and the plan. On a Stripe failure it picks the error message to return.
- **`api/stripe-webhook.js`** (module `StripeWebhook`). It checks, in order, the
  method, the `stripe-signature` header, the body read, the signature
  verification, the event type, the metadata and the plan→credits table
  (starter 50, pro 150, studio 400). It then calls `add_credits` once and maps
  the reply to a status. `Dispatch` is the pure decision chain. `HandleWebhook`
  is the imperative handler. It updates a `CreditStore` object whose `balances`
  map stands for the data store's balances.
- **`api/me.js`** (module `Me`). It checks the method, configuration and bearer
  token, asks the identity service about the token, then reads the profile
  row's credits. Credits default to 0.
- **`api/api/credits-spend.js`** (module `CreditsSpend`). It performs the same
  guards, then calls `spend_credit` once with the caller's token and relays
  the outcome.

Shared pieces:

- `Js` holds the JavaScript value rules the handlers use: truthiness, `||`,
  `toLowerCase`, `startsWith`, and property lookup on an object literal.
- `Config` holds the environment as one record.
- `Bearer` holds the token extraction that `me.js` and `credits-spend.js`
  write identically.
- `Purchase` states what the two Stripe endpoints must agree on.

Every external call is an oracle passed in as a function. These are Stripe's
signature check and session creation, the identity service, the profiles
query and the two remote procedures. Each handler returns its response
together with the trace of external calls it made. So "the profile is never
queried" or "`spend_credit` is called once, with the caller's token" are
statements about that trace.

Four behaviours of the code are worth stating:

- The code keeps no idempotency key. A redelivered event is credited again
  (`StripeWebhook.Redeliver`).
- A malformed configured price is a 500, not an invalid-plan 400.
- Any non-ok `spend_credit` reply is a 400 carrying the reply text.
- A missing `userId` is written into the session metadata as `""`. It is not
  refused.

## Model

| member | source | states |
|---|---|---|
| `StripeWebhook.Dispatch` | api/stripe-webhook.js:19-73 | A non-POST request gets 405 and a missing signature gets 400, both before the body is read or verified. A body read that fails gets 500 "Server error" after the read and before verification. A rejected signature gets 400 with "Webhook Error: " and the verifier's message (or "Bad signature"), and nothing is dispatched. An authentic event is decided after exactly the body read and the verification. An authentic event that is not a completed checkout with a user, a plan and a known plan is acknowledged with 200. An authentic creditable event gets 500 "Server error" when the data-store client cannot be built. A grant is decided exactly for an authentic creditable event with a buildable client, with the metadata's user and the amount for the lower-cased plan. A 500 comes only from a failed body read or an unbuildable client. The decision never touches the ledger. |
| `StripeWebhook.DispatchAsWritten` | api/stripe-webhook.js:19-79 | The handler as written, with `creditsByPlan[key] \|\| 0` evaluated as the source does. A ledger call never carries the amount 0 and happens only with a buildable client. |
| `StripeWebhook.DispatchAsWrittenAgrees` | api/stripe-webhook.js:58-79 | Unless an authentic event's plan lower-cases to an inherited member name, the handler as written answers as `Dispatch` does, and calls `add_credits` exactly where `Dispatch` grants, with the same user and amount. |
| `StripeWebhook.ConstructorEventReachesLedger` | api/stripe-webhook.js:64-79 | An authentic completed event for a user with plan "constructor" reaches `add_credits` as written, with a function as its amount. `Dispatch` acknowledges the same delivery as an unknown plan. |
| `StripeWebhook.AmountAsWritten` | api/stripe-webhook.js:58-65 | The source's amount is 0 exactly for keys that are neither plan keys nor inherited member names. Any number it yields equals `CreditsFor`. A non-number comes only where `CreditsFor` is 0. |
| `StripeWebhook.CreditsFor` | api/stripe-webhook.js:58-65 | The amount is positive exactly for starter, pro and studio, with 50, 150 and 400. Every other key gives 0. |
| `StripeWebhook.AmountAsWrittenAgrees` | api/stripe-webhook.js:58-65 | The source's `creditsByPlan[key] \|\| 0` equals `CreditsFor` on every key that is not an inherited member name. It yields a non-number on those names. |
| `StripeWebhook.ConstructorPlanReachesLedger` | api/stripe-webhook.js:64-65 | Plan "constructor" survives lower-casing and passes the `!addCredits` guard as written, although no credits are defined for it. |
| `StripeWebhook.Credited` | api/stripe-webhook.js:75-79 | After a grant, the user's balance has risen by exactly `amount`. Every other user's balance is unchanged. |
| `StripeWebhook.CreditedTwice` | api/stripe-webhook.js:75-79 | Two grants of the same amount to the same user add twice the amount. The ledger does not deduplicate. |
| `StripeWebhook.CreditStore.AddCredits` | api/stripe-webhook.js:76-79 | A successful `add_credits` changes the store's balances to `Credited` of the old balances. |
| `StripeWebhook.HandleWebhook` | api/stripe-webhook.js:19-94 | When the decision is a response, that response is returned, the calls are the decision's and the balances are unchanged. On a grant, `add_credits` is appended to the calls exactly once with the user and amount. An applied reply gives 200 and credits that user. A failed reply gives 500 and leaves the balances unchanged. The trace holds one ledger call on a grant and none otherwise. |
| `StripeWebhook.Redeliver` | api/stripe-webhook.js:75-89 | Handling the same creditable delivery twice acknowledges both and raises the buyer's balance by twice the amount. |
| `StripeCheckout.PlanKey` | api/stripe-checkout.js:25 | The plan key is the plan as sent (or "" when falsy) with every character lower-cased. It has the same length and no upper-case ASCII letter. |
| `StripeCheckout.SiteUrl` | api/stripe-checkout.js:44 | The site URL is `SITE_URL` when that is set and non-empty, else "https://iconyx.vercel.app". It is never empty. |
| `StripeCheckout.SessionFor` | api/stripe-checkout.js:46-56 | The session request has payment mode and exactly one line item, the given price with quantity 1. The email is omitted exactly when falsy. The metadata holds the plan key and `userId`, which is "" exactly when falsy. The redirect URLs are the site URL followed by `/?success=1` and `/?canceled=1`. |
| `StripeCheckout.CheckPlanAsWritten` | api/stripe-checkout.js:26-42 | The source's lookup agrees with `CheckPlan` on every key that is not an inherited member name. Every inherited member name is a malformed price, the member printed as a string. |
| `StripeCheckout.PriceMap` | api/stripe-checkout.js:19-23 | The price map's own keys are exactly starter, pro and studio. They hold `ICONYX_PRICE_STARTER`, `ICONYX_PRICE_PRO` and `ICONYX_PRICE_STUDIO` respectively. |
| `StripeCheckout.CheckPlan` | api/stripe-checkout.js:25-42 | A key is an unknown plan exactly when it is not a plan key or its configured price is unset or empty. It resolves exactly when the price starts with `price_`, and the resolved price is the configured one. |
| `StripeCheckout.InheritedKeyMisreported` | api/stripe-checkout.js:26-42 | As written, every name a plain object inherits passes the truthiness test and fails the `price_` test, giving 500. The corrected lookup treats it as an unknown plan. |
| `StripeCheckout.ConstructorPlanMisreported` | api/stripe-checkout.js:25-42 | As written, plan "constructor" is reported as a malformed price (500). The corrected lookup reports it as an unknown plan. |
| `StripeCheckout.ProviderMessage` | api/stripe-checkout.js:62-66 | The message is `raw.message` if truthy, else `message` if truthy, else "Stripe checkout failed". It is never empty. |
| `StripeCheckout.Checkout` | api/stripe-checkout.js:3-67 | A non-POST request gets 405 and a missing secret key gets 500, both before any plan handling and without a session. At most one session is requested, exactly when the plan key resolves. An unknown plan gets 400 "Invalid plan. Use starter, pro, or studio." echoing the plan as sent. The session request has payment mode and one line item of the configured `price_` price with quantity 1. Its metadata is the plan key (one of the three) and `userId`, or "" when that is falsy. The email is omitted when falsy. The redirect URLs are the site URL plus `/?success=1` and `/?canceled=1`. The response is 200 with the URL exactly when Stripe creates the session. A Stripe failure gives 500 with the chosen message and `type`/`code` or null. A configured price without the `price_` prefix gives 500 "Invalid price id" with the plan key and that price, and no session. |
| `StripeCheckout.CheckoutAsWritten` | api/stripe-checkout.js:3-67 | The handler as written, with the source's lookup. Any session it requests is for a POST with a secret key, for one of the three plan keys, with the configured `price_` price. |
| `StripeCheckout.CheckoutAsWrittenAgrees` | api/stripe-checkout.js:25-42 | Unless the plan lower-cases to an inherited member name, the handler as written and `Checkout` give the same response and the same session requests. |
| `StripeCheckout.ConstructorCheckoutMisreported` | api/stripe-checkout.js:25-42 | A POST for plan "constructor" gets 500 "Invalid price id" from the handler as written. `Checkout` gets 400 "Invalid plan" echoing the plan. Neither requests a session. |
| `Me.CreditsOf` | api/me.js:54 | The credits are the first row's value when there is one and it is not null. Otherwise they are 0. |
| `Me.Handle` | api/me.js:1-59 | A non-GET request gets 405 and missing configuration gets 500, both before the token is examined. The response is 401 without any call exactly when the token is unusable. A usable token always reaches the identity service. The identity service is asked only about the caller's token. The profile is queried, once, exactly when the identity service accepted a user with an id, and for that id. Otherwise a parsed rejection gets 401 "Invalid session". A failed profile query gets 500 echoing its body. An identity request that throws, or whose reply does not decode, gets 500 with the exception's text, and the profile is not queried. A profile query that throws or does not decode gets 500 with the exception's text. The response is 200 exactly when the profile query succeeded, with the user's id and email and `CreditsOf` the rows. |
| `Bearer.Token` | api/me.js:14-15 | A token exists exactly when the header starts with "Bearer ". Prefix plus token is then the header. |
| `Bearer.TokenOfBearer` | api/api/credits-spend.js:13-14 | The header "Bearer t" yields exactly the token t. |
| `Bearer.UsableToken` | api/api/credits-spend.js:13-18 | A token is truthy exactly when the header is "Bearer " followed by at least one character. |
| `CreditsSpend.Handle` | api/api/credits-spend.js:1-43 | A non-POST request gets 405 and missing configuration gets 500, both before the token. Without a usable token the response is 401 and `spend_credit` is never called. Otherwise it is called exactly once, with the caller's token. A non-ok reply gives 400 with the reply text. The response is 200 with the decoded balance exactly when the reply is ok and decodes. A request that throws, or an ok reply that does not decode, gets 500 with the exception's text. |
| `CreditsSpend.SpendsWithSentToken` | api/api/credits-spend.js:20-29 | A client sending "Bearer t" with non-empty t causes exactly one `spend_credit` call, with t. |
| `Purchase.AcceptedPlansAreCredited` | api/stripe-checkout.js:19-28 | Every plan key checkout accepts gets a positive amount in the webhook's table. The keys the webhook credits are exactly the price map's keys. |
| `Purchase.CheckoutThenWebhook` | api/stripe-checkout.js:46-56 | Take a session checkout requested and deliver its completed event authentically. If the buyer sent a `userId`, the webhook grants that user the credits of the plan key. If not, the metadata's "" makes the webhook acknowledge without crediting. The decision never calls the ledger itself. |
| `Js.Lookup` | api/stripe-checkout.js:26 | Looking up a key on an object literal finds the own field exactly when the key is one. Otherwise it finds an inherited member exactly when the key names one, and nothing else. |
| `Js.Lower` | api/stripe-webhook.js:64 | Lower-casing keeps the length and lowers every character. |
| `Js.LowerIdempotent` | api/stripe-checkout.js:25 | Lower-casing an already lower-cased plan key changes nothing. So the webhook's second lower-casing of the metadata plan is harmless. |

## Findings

| source | as written | input that shows it | evidently intended | confidence | as-written member | corrected member |
|---|---|---|---|---|---|---|
| api/stripe-checkout.js:26-42 | `priceMap[planKey]` on an object literal also finds the members every object inherits. A truthy function then fails the `price_` prefix test. | plan "constructor" (or "__proto__") | 400 "Invalid plan", the same as any other unknown key | medium; not executed | `StripeCheckout.CheckoutAsWritten` and `StripeCheckout.CheckPlanAsWritten`, exhibited by `StripeCheckout.ConstructorCheckoutMisreported`, `StripeCheckout.ConstructorPlanMisreported` and `StripeCheckout.InheritedKeyMisreported` | `StripeCheckout.CheckPlan` |
| api/stripe-webhook.js:64-65 | `creditsByPlan[key] \|\| 0` yields an inherited function for the same names, which passes `!addCredits`. `add_credits` is then called with a non-numeric amount. | an authentic completed event with metadata plan "constructor" | acknowledged as an unknown plan, without calling `add_credits` | medium; not executed; this checkout never creates such a session | `StripeWebhook.DispatchAsWritten` and `StripeWebhook.AmountAsWritten`, exhibited by `StripeWebhook.ConstructorEventReachesLedger` and `StripeWebhook.ConstructorPlanReachesLedger` | `StripeWebhook.CreditsFor` |

## Left out

- StripeCheckout.Checkout: uses the corrected `CheckPlan`, so a plan that lower-cases to an inherited member name ("constructor" or "__proto__", the only two a lower-cased key can spell) gets 400 where the code gives 500. `StripeCheckout.CheckoutAsWritten` is the code's behaviour. `StripeCheckout.CheckoutAsWrittenAgrees` shows the two agree on every other plan.
- StripeWebhook.Dispatch: uses the corrected `CreditsFor`, so an authentic completed event whose plan lower-cases to an inherited member name is acknowledged where the code calls `add_credits` with a non-numeric amount. `StripeWebhook.DispatchAsWritten` is the code's behaviour. `StripeWebhook.DispatchAsWrittenAgrees` shows the two agree on every other event.
- The 500 body for a malformed price carries the price as the string the prefix test saw. For an inherited member the code's JSON body instead omits the function or prints the prototype object as `{}`.

- Stripe's signature verification (`constructEvent`) is an oracle. So is its session creation. Both take the inputs the source passes them.
- The raw-body stream reader `buffer` is left out. Its outcome is an input: the bytes, or a stream error that the handler turns into 500.
- The SQL bodies of `add_credits` and `spend_credit` are not part of this model.
  - A failed `add_credits` is taken to leave the balances unchanged.
  - A user without a balance entry is taken to hold 0.
  - The model states no atomicity and no floor at zero.
  - `spend_credit`'s effect on the balance is not modelled. Only its reply is.
- There is no idempotency on redelivery, because the source has none. `StripeWebhook.Redeliver` shows the double credit.
- Concurrency between handler instances is left out. The handlers share no in-process state.
- `toLowerCase` is modelled on ASCII letters only. Outside ASCII, only two characters lower-case into ASCII letters. U+0130 becomes "i" followed by the combining mark U+0307, and the mark stops any match. The Kelvin sign U+212A becomes "k", which no plan key contains. So plan matching is unaffected.
- Request-body fields that are not strings (numbers, objects) are left out. `plan`, `userId`, `email` and the metadata values are strings or absent.
- `spend_credit`'s JSON reply is modelled as an integer or a parse failure.
- The identity and profile replies are modelled only by the fields the handler reads.
- `createClient` is modelled as throwing only when the URL or the service key is falsy. Its rejection of a malformed URL is left out.
- `new Stripe(key)` is taken not to throw.
- Exception texts (`String(err)`) and JSON decoding errors are opaque strings carried by the oracle replies.
- The webhook's rejection text `err?.message` is modelled as a string-or-absent.
- URLs, request headers (`apikey`, `Authorization`) and bodies of the outbound `fetch` calls are left out. Only the token or user id each call is about is recorded.
- Logging, JSON serialisation of responses and the constant `ok` field of the balance and spend responses are left out. So is the `bodyParser: false` setting.
- `api/contact.js` and `api/public-config.js` are not part of this model: the first writes one row after a truthiness check, the second echoes two variables.
