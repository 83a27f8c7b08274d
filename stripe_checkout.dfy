/** The checkout endpoint: it validates the requested plan against the
    configured Stripe prices and asks Stripe for a payment session whose
    metadata names the buyer and the plan. */
module StripeCheckout {
  import opened Js
  import opened Config

  /** The request's method and the `plan`, `userId` and `email` fields of
      its JSON body (each absent when the body or the field is). */
  datatype Request = Request(httpMethod: string, plan: Option<string>, userId: Option<string>, email: Option<string>)

  datatype LineItem = LineItem(price: string, quantity: nat)
  datatype Metadata = Metadata(userId: string, plan: string)

  /** The parameters handed to `stripe.checkout.sessions.create`;
      `customerEmail` is None where the source passes `undefined`. */
  datatype SessionRequest = SessionRequest(
    mode: string,
    customerEmail: Option<string>,
    lineItems: seq<LineItem>,
    successUrl: string,
    cancelUrl: string,
    metadata: Metadata)

  /** What a thrown Stripe error carries: `raw.message`, `message`, `type`, `code`. */
  datatype ProviderError = ProviderError(rawMessage: Option<string>, message: Option<string>, errorType: Option<string>, code: Option<string>)

  /** The reply of session creation: the session's URL, or the error thrown. */
  datatype CreateReply = Created(url: string) | Failed(error: ProviderError)

  type SessionCreator = SessionRequest -> CreateReply

  datatype Body =
    | Error(message: string)
    | InvalidPlan(message: string, got: Option<string>)
    // the source's `priceId` is whatever the lookup found; for an inherited
    // member (see CheckPlanAsWritten) JSON.stringify drops a function and
    // prints the prototype object as {}, so `priceId` here is the string the
    // prefix test saw, not the JSON the client receives
    | InvalidPriceId(message: string, plan: string, priceId: string)
    | SessionUrl(url: string)
    | ProviderFailure(message: string, errorType: Option<string>, code: Option<string>)

  datatype Response = Response(status: int, body: Body)

  /** The response and the session requests sent to Stripe (at most one). */
  datatype Outcome = Outcome(response: Response, sessions: seq<SessionRequest>)

  const DefaultSiteUrl := "https://iconyx.vercel.app"
  const PriceIdPrefix := "price_"
  const FallbackMessage := "Stripe checkout failed"

  /** `String(plan || "").toLowerCase()`: the plan as sent, lower-cased,
      or "" when it is falsy. */
  function PlanKey(plan: Option<string>): (k: string)
    ensures |k| == |Or(plan, "")|
    ensures forall i :: 0 <= i < |k| ==> k[i] == LowerChar(Or(plan, "")[i])
    ensures forall i :: 0 <= i < |k| ==> !('A' <= k[i] <= 'Z')
    ensures !Truthy(plan) ==> k == ""
  {
    Lower(Or(plan, ""))
  }

  /** The own fields of the `priceMap` literal. */
  function PriceMap(env: Env): (m: map<string, Option<string>>)
    ensures m.Keys == PlanKeys
    ensures m["starter"] == env.priceStarter && m["pro"] == env.pricePro && m["studio"] == env.priceStudio
  {
    map["starter" := env.priceStarter, "pro" := env.pricePro, "studio" := env.priceStudio]
  }

  /** How a plan key fares against the price map. */
  datatype PlanCheck = UnknownPlan | MalformedPrice(priceId: string) | Priced(priceId: string)

  /** The plan key resolves only through an own field of the price map that
      holds a non-empty value; that value must carry the `price_` prefix. */
  function CheckPlan(env: Env, planKey: string): (c: PlanCheck)
    ensures c == UnknownPlan <==> planKey !in PlanKeys || !Truthy(PriceMap(env)[planKey])
    ensures c.Priced? <==> planKey in PlanKeys && Truthy(PriceMap(env)[planKey]) && StartsWith(PriceMap(env)[planKey].value, PriceIdPrefix)
    ensures !c.UnknownPlan? ==> c.priceId != "" && PriceMap(env)[planKey] == Some(c.priceId)
  {
    if planKey !in PriceMap(env) then UnknownPlan
    else
      var price := PriceMap(env)[planKey];
      if !Truthy(price) then UnknownPlan
      else if StartsWith(price.value, PriceIdPrefix) then Priced(price.value)
      else MalformedPrice(price.value)
  }

  /** Lines 26-42 as written: `priceMap[planKey]` also finds the members
      every object inherits, which are truthy and do not print as `price_`.
      It agrees with CheckPlan except on those names, which it reports as
      malformed prices. */
  function CheckPlanAsWritten(env: Env, planKey: string): (c: PlanCheck)
    ensures planKey !in ObjectPrototypeMembers ==> c == CheckPlan(env, planKey)
    ensures planKey in ObjectPrototypeMembers ==> c == MalformedPrice(InheritedToString(planKey))
  {
    match Lookup(PriceMap(env), planKey)
    case Own(price) =>
      if !Truthy(price) then UnknownPlan
      else if StartsWith(price.value, PriceIdPrefix) then Priced(price.value)
      else MalformedPrice(price.value)
    case Inherited(name) =>
      var shown := InheritedToString(name);
      InheritedNotPrefixed(name, PriceIdPrefix);
      if StartsWith(shown, PriceIdPrefix) then Priced(shown) else MalformedPrice(shown)
    case Missing => UnknownPlan
  }

  /** As written, every inherited member name is reported as a server-side
      price misconfiguration (500) rather than an invalid plan (400). */
  lemma InheritedKeyMisreported(env: Env, planKey: string)
    requires planKey in ObjectPrototypeMembers
    ensures CheckPlanAsWritten(env, planKey).MalformedPrice?
    ensures CheckPlan(env, planKey) == UnknownPlan
  {
  }

  /** The plan "constructor" is such a name and survives lower-casing. */
  lemma ConstructorPlanMisreported(env: Env)
    ensures PlanKey(Some("constructor")) == "constructor"
    ensures CheckPlanAsWritten(env, PlanKey(Some("constructor"))).MalformedPrice?
    ensures CheckPlan(env, PlanKey(Some("constructor"))) == UnknownPlan
  {
    LowerOfLower("constructor");
    InheritedKeyMisreported(env, "constructor");
  }

  /** `process.env.SITE_URL || "https://iconyx.vercel.app"`: the configured
      site when it is set and non-empty, the deployed one otherwise. */
  function SiteUrl(env: Env): (u: string)
    ensures u != ""
    ensures Truthy(env.siteUrl) ==> u == env.siteUrl.value
    ensures !Truthy(env.siteUrl) ==> u == DefaultSiteUrl
  {
    Or(env.siteUrl, DefaultSiteUrl)
  }

  /** The session request built for a resolved price: one payment of one
      unit, the buyer's email only when given, redirects back to the site,
      and the buyer and plan key as metadata. */
  function SessionFor(env: Env, req: Request, planKey: string, priceId: string): (s: SessionRequest)
    ensures s.mode == "payment"
    ensures s.lineItems == [LineItem(priceId, 1)]
    ensures s.customerEmail.None? <==> !Truthy(req.email)
    ensures Truthy(req.email) ==> s.customerEmail == req.email
    ensures s.metadata.plan == planKey
    ensures s.metadata.userId == "" <==> !Truthy(req.userId)
    ensures Truthy(req.userId) ==> s.metadata.userId == req.userId.value
    ensures StartsWith(s.successUrl, SiteUrl(env)) && StartsWith(s.cancelUrl, SiteUrl(env))
    ensures s.successUrl[|SiteUrl(env)|..] == "/?success=1" && s.cancelUrl[|SiteUrl(env)|..] == "/?canceled=1"
  {
    SessionRequest(
      "payment",
      OrNull(req.email),
      [LineItem(priceId, 1)],
      SiteUrl(env) + "/?success=1",
      SiteUrl(env) + "/?canceled=1",
      Metadata(Or(req.userId, ""), planKey))
  }

  /** `err?.raw?.message || err?.message || "Stripe checkout failed"` */
  function ProviderMessage(e: ProviderError): (m: string)
    ensures m != ""
    ensures Truthy(e.rawMessage) ==> m == e.rawMessage.value
    ensures !Truthy(e.rawMessage) && Truthy(e.message) ==> m == e.message.value
    ensures !Truthy(e.rawMessage) && !Truthy(e.message) ==> m == FallbackMessage
  {
    if Truthy(e.rawMessage) then e.rawMessage.value
    else Or(e.message, FallbackMessage)
  }

  /** The handler, with session creation as an oracle. */
  function Checkout(req: Request, env: Env, create: SessionCreator): (o: Outcome)
    // a non-POST request is refused, and no session is requested
    ensures req.httpMethod != "POST" ==> o == Outcome(Response(405, Error("Method not allowed")), [])
    // a missing secret key is a 500 whatever the plan
    ensures req.httpMethod == "POST" && !Truthy(env.stripeSecretKey) ==>
      o == Outcome(Response(500, Error("Missing STRIPE_SECRET_KEY")), [])
    // at most one session is requested, and only for a plan key that resolves
    ensures |o.sessions| <= 1
    ensures o.sessions != [] <==>
      req.httpMethod == "POST" && Truthy(env.stripeSecretKey) && CheckPlan(env, PlanKey(req.plan)).Priced?
    // an unknown plan (or one without a price) is a 400 echoing the plan as sent
    ensures o.response.status == 400 <==>
      req.httpMethod == "POST" && Truthy(env.stripeSecretKey) && CheckPlan(env, PlanKey(req.plan)) == UnknownPlan
    ensures o.response.status == 400 ==> o.response.body.InvalidPlan? && o.response.body.got == req.plan
    ensures o.response.status == 400 ==> o.response.body == InvalidPlan(InvalidPlanMessage, req.plan)
    // the request sent: one payment of one unit at the resolved price, with
    // the buyer and the plan key as metadata
    ensures o.sessions != [] ==>
      var s := o.sessions[0];
      && s.mode == "payment"
      && |s.lineItems| == 1
      && s.lineItems[0].quantity == 1
      && Some(s.lineItems[0].price) == PriceMap(env)[PlanKey(req.plan)]
      && StartsWith(s.lineItems[0].price, PriceIdPrefix)
      && s.metadata.plan == PlanKey(req.plan)
      && s.metadata.plan in PlanKeys
      && (s.metadata.userId == "" <==> !Truthy(req.userId))
      && (Truthy(req.userId) ==> s.metadata.userId == req.userId.value)
      && (s.customerEmail.None? <==> !Truthy(req.email))
      && (Truthy(req.email) ==> s.customerEmail == req.email)
      && s.successUrl == SiteUrl(env) + "/?success=1"
      && s.cancelUrl == SiteUrl(env) + "/?canceled=1"
    // 200 with the session URL exactly when Stripe creates the session
    ensures o.response.status == 200 <==> o.sessions != [] && create(o.sessions[0]).Created?
    ensures o.response.status == 200 ==> o.response.body == SessionUrl(create(o.sessions[0]).url)
    // a Stripe failure is a 500 carrying its message, type and code
    ensures o.sessions != [] && create(o.sessions[0]).Failed? ==>
      var e := create(o.sessions[0]).error;
      o.response == Response(500, ProviderFailure(ProviderMessage(e), OrNull(e.errorType), OrNull(e.code)))
    // a configured price without the `price_` prefix is a 500 naming the plan
    // key and the price, and no session is requested
    ensures
      (&& req.httpMethod == "POST" && Truthy(env.stripeSecretKey)
       && CheckPlan(env, PlanKey(req.plan)).MalformedPrice?) ==>
      o == Outcome(Response(500, InvalidPriceId(InvalidPriceMessage, PlanKey(req.plan), CheckPlan(env, PlanKey(req.plan)).priceId)), [])
  {
    CheckoutWith(req, env, create, CheckPlan(env, PlanKey(req.plan)))
  }

  /** The handler as written: the same steps, with the plan checked by the
      source's own lookup. Any session it requests is for a `price_` price. */
  function CheckoutAsWritten(req: Request, env: Env, create: SessionCreator): (o: Outcome)
    ensures o.sessions != [] ==>
      && req.httpMethod == "POST" && Truthy(env.stripeSecretKey)
      && PlanKey(req.plan) in PlanKeys
      && |o.sessions[0].lineItems| == 1
      && PriceMap(env)[PlanKey(req.plan)] == Some(o.sessions[0].lineItems[0].price)
      && StartsWith(o.sessions[0].lineItems[0].price, PriceIdPrefix)
  {
    CheckoutWith(req, env, create, CheckPlanAsWritten(env, PlanKey(req.plan)))
  }

  /** Apart from plans that lower-case to an inherited member's name, the
      handler as written and Checkout answer alike. */
  lemma CheckoutAsWrittenAgrees(req: Request, env: Env, create: SessionCreator)
    requires PlanKey(req.plan) !in ObjectPrototypeMembers
    ensures CheckoutAsWritten(req, env, create) == Checkout(req, env, create)
  {
  }

  /** A POST for plan "constructor" gets 500 "Invalid price id" from the
      handler as written, where Checkout answers 400 "Invalid plan"; neither
      requests a session. */
  lemma ConstructorCheckoutMisreported(env: Env, create: SessionCreator, userId: Option<string>, email: Option<string>)
    requires Truthy(env.stripeSecretKey)
    ensures var req := Request("POST", Some("constructor"), userId, email);
      && CheckoutAsWritten(req, env, create) ==
           Outcome(Response(500, InvalidPriceId(InvalidPriceMessage, "constructor", InheritedToString("constructor"))), [])
      && Checkout(req, env, create) == Outcome(Response(400, InvalidPlan(InvalidPlanMessage, Some("constructor"))), [])
  {
    ConstructorPlanMisreported(env);
  }

  const InvalidPlanMessage := "Invalid plan. Use starter, pro, or studio."
  const InvalidPriceMessage := "Invalid price id in env var (must start with price_)"

  /** Lines 3-67 with the plan key's check supplied: `check` is how
      `PlanKey(req.plan)` fares against the price map. */
  function CheckoutWith(req: Request, env: Env, create: SessionCreator, check: PlanCheck): Outcome {
    if req.httpMethod != "POST" then
      Outcome(Response(405, Error("Method not allowed")), [])
    else if !Truthy(env.stripeSecretKey) then
      Outcome(Response(500, Error("Missing STRIPE_SECRET_KEY")), [])
    else
      var planKey := PlanKey(req.plan);
      match check
      case UnknownPlan =>
        Outcome(Response(400, InvalidPlan(InvalidPlanMessage, req.plan)), [])
      case MalformedPrice(priceId) =>
        Outcome(Response(500, InvalidPriceId(InvalidPriceMessage, planKey, priceId)), [])
      case Priced(priceId) =>
        var session := SessionFor(env, req, planKey, priceId);
        match create(session)
        case Created(url) => Outcome(Response(200, SessionUrl(url)), [session])
        case Failed(e) =>
          Outcome(Response(500, ProviderFailure(ProviderMessage(e), OrNull(e.errorType), OrNull(e.code))), [session])
  }
}
