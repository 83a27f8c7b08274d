/** The payment-notification endpoint: it acknowledges or rejects a Stripe
    webhook delivery and, for a completed checkout of a known plan, adds
    that plan's credits to the buyer's balance through the `add_credits`
    remote procedure. */
module StripeWebhook {
  import opened Js
  import opened Config

  newtype Byte = x: int | 0 <= x < 256

  const CompletedType := "checkout.session.completed"

  /** An inbound delivery: method, `stripe-signature` header, and the raw
      body as the request stream yields it (None when the stream fails). */
  datatype Request = Request(httpMethod: string, signature: Option<string>, body: Option<seq<Byte>>)

  /** The fields of a decoded event the handler reads: its type and the
      `user_id` and `plan` entries of the session's metadata. */
  datatype Event = Event(eventType: string, userId: Option<string>, plan: Option<string>)

  /** The outcome of Stripe's signature check over (raw body, signature,
      webhook secret): the decoded event, or the message it threw. */
  datatype Verification = Verified(event: Event) | Rejected(message: Option<string>)

  type Verifier = (seq<Byte>, string, Option<string>) -> Verification

  /** The external calls the handler makes, in order. */
  datatype Call = ReadBody | VerifySignature(body: seq<Byte>, signature: string) | AddCredits(userId: string, amount: int)

  datatype Body = Error(message: string) | Received | Text(text: string)
  datatype Response = Response(status: int, body: Body)

  /** `200 {received: true}` */
  const Ack := Response(200, Received)

  /** What the decision chain arrives at: a response, or a grant to apply. */
  datatype Next = Done(response: Response) | Grant(userId: string, amount: int)
  datatype Decision = Decision(calls: seq<Call>, next: Next)

  /** The reply of the `add_credits` remote procedure. */
  datatype LedgerReply = Applied | Failed

  /** The own fields of the `creditsByPlan` literal. */
  const CreditsByPlan: map<string, nat> := map["starter" := 50, "pro" := 150, "studio" := 400]

  /** Credits granted for a lower-cased plan key; 0 for anything else. */
  function CreditsFor(planKey: string): (n: nat)
    ensures n > 0 <==> planKey in PlanKeys
    ensures planKey == "starter" ==> n == 50
    ensures planKey == "pro" ==> n == 150
    ensures planKey == "studio" ==> n == 400
  {
    if planKey in CreditsByPlan then CreditsByPlan[planKey] else 0
  }

  /** The amount `creditsByPlan[key] || 0` as the source evaluates it: an
      inherited member is a function, not a number. */
  datatype Amount = Number(n: int) | NonNumber(member: string)

  /** Lines 58-64 as written: the lookup also finds inherited members. It
      is zero exactly where CreditsFor is zero and no inherited member is
      found, and any number it yields is the one CreditsFor gives. */
  function AmountAsWritten(planKey: string): (a: Amount)
    ensures a == Number(0) <==> planKey !in PlanKeys && planKey !in ObjectPrototypeMembers
    ensures a.Number? ==> a.n == CreditsFor(planKey)
    ensures a.NonNumber? ==> CreditsFor(planKey) == 0
  {
    match Lookup(CreditsByPlan, planKey)
    case Own(n) => Number(n)
    case Inherited(name) => NonNumber(name)
    case Missing => Number(0)
  }

  /** As written, the lookup agrees with CreditsFor on every key that is not
      the name of an inherited member, and reaches the ledger with a
      non-number for the two inherited names a lower-cased key can spell. */
  lemma AmountAsWrittenAgrees(planKey: string)
    ensures planKey !in ObjectPrototypeMembers ==> AmountAsWritten(planKey) == Number(CreditsFor(planKey))
    ensures planKey in ObjectPrototypeMembers ==> AmountAsWritten(planKey) == NonNumber(planKey) && CreditsFor(planKey) == 0
  {
  }

  /** Plan "constructor" passes the `!addCredits` guard as written, so
      `add_credits` is called with a function as its amount. */
  lemma ConstructorPlanReachesLedger()
    ensures Lower("constructor") == "constructor"
    ensures AmountAsWritten(Lower("constructor")) == NonNumber("constructor")
    ensures AmountAsWritten(Lower("constructor")) != Number(0)
    ensures CreditsFor(Lower("constructor")) == 0
  {
    LowerOfLower("constructor");
    assert "constructor" in ObjectPrototypeMembers;
    AmountAsWrittenAgrees("constructor");
  }

  /** `createClient` throws unless both the URL and the service key are set. */
  predicate ClientConfigured(env: Env) {
    Truthy(env.supabaseUrl) && Truthy(env.supabaseServiceRoleKey)
  }

  /** The event a POST delivery carries when its signature checks out. */
  function AuthenticEvent(req: Request, env: Env, verify: Verifier): Option<Event> {
    if req.httpMethod == "POST" && Truthy(req.signature) && req.body.Some? then
      match verify(req.body.value, req.signature.value, env.stripeWebhookSecret)
      case Verified(e) => Some(e)
      case Rejected(_) => None
    else None
  }

  /** A completed checkout whose metadata names a user and a known plan. */
  predicate Creditable(e: Event) {
    && e.eventType == CompletedType
    && Truthy(e.userId)
    && Truthy(e.plan)
    && CreditsFor(Lower(e.plan.value)) > 0
  }

  /** The response to an exception inside the handler's `try`. */
  const ServerError := Response(500, Error("Server error"))

  /** Where the chain stands after the metadata check: answered, or holding
      the metadata's user and plan. */
  datatype Stage = Answered(response: Response) | HasMetadata(userId: string, plan: string)
  datatype Progress = Progress(calls: seq<Call>, stage: Stage)

  /** Lines 20-56: method, signature header, body, verification, event
      type and metadata, in that order. */
  function Screen(req: Request, env: Env, verify: Verifier): Progress {
    if req.httpMethod != "POST" then
      Progress([], Answered(Response(405, Error("Method not allowed"))))
    else if !Truthy(req.signature) then
      Progress([], Answered(Response(400, Error("Missing stripe-signature header"))))
    else if req.body.None? then
      Progress([ReadBody], Answered(ServerError))
    else
      var sig, raw := req.signature.value, req.body.value;
      var calls := [ReadBody, VerifySignature(raw, sig)];
      match verify(raw, sig, env.stripeWebhookSecret)
      case Rejected(m) =>
        Progress(calls, Answered(Response(400, Text("Webhook Error: " + Or(m, "Bad signature")))))
      case Verified(e) =>
        if e.eventType != CompletedType then Progress(calls, Answered(Ack))
        else if !Truthy(e.userId) || !Truthy(e.plan) then Progress(calls, Answered(Ack))
        else Progress(calls, HasMetadata(e.userId.value, e.plan.value))
  }

  /** The handler's decision chain up to (not including) `add_credits`,
      with the plan table read through its own fields only. */
  function Dispatch(req: Request, env: Env, verify: Verifier): (d: Decision)
    // a non-POST request is refused before anything else happens
    ensures req.httpMethod != "POST" ==> d == Decision([], Done(Response(405, Error("Method not allowed"))))
    // a missing signature is refused before the body is read or verified
    ensures req.httpMethod == "POST" && !Truthy(req.signature) ==>
      d == Decision([], Done(Response(400, Error("Missing stripe-signature header"))))
    // a body stream that fails is an exception: 500, before verification
    ensures req.httpMethod == "POST" && Truthy(req.signature) && req.body.None? ==>
      d == Decision([ReadBody], Done(ServerError))
    // a failed verification is a 400 and nothing is dispatched
    ensures
      (&& req.httpMethod == "POST" && Truthy(req.signature) && req.body.Some?
       && verify(req.body.value, req.signature.value, env.stripeWebhookSecret).Rejected?) ==>
      d.next.Done? && d.next.response.status == 400 &&
      d.calls == [ReadBody, VerifySignature(req.body.value, req.signature.value)]
    ensures
      (&& req.httpMethod == "POST" && Truthy(req.signature) && req.body.Some?
       && verify(req.body.value, req.signature.value, env.stripeWebhookSecret).Rejected?) ==>
      var m := verify(req.body.value, req.signature.value, env.stripeWebhookSecret).message;
      d.next == Done(Response(400, Text("Webhook Error: " + Or(m, "Bad signature"))))
    // an authentic event is decided after exactly the body read and the verification
    ensures AuthenticEvent(req, env, verify).Some? ==>
      d.calls == [ReadBody, VerifySignature(req.body.value, req.signature.value)]
    // an authentic event that cannot be credited is acknowledged with 200
    ensures AuthenticEvent(req, env, verify).Some? && !Creditable(AuthenticEvent(req, env, verify).value) ==>
      d.next == Done(Ack)
    // a creditable event with a data-store client that cannot be built is an exception: 500
    ensures
      (&& AuthenticEvent(req, env, verify).Some? && Creditable(AuthenticEvent(req, env, verify).value)
       && !ClientConfigured(env)) ==>
      d.next == Done(ServerError)
    // a grant is decided exactly for an authentic, creditable event
    ensures d.next.Grant? <==>
      AuthenticEvent(req, env, verify).Some? && Creditable(AuthenticEvent(req, env, verify).value) && ClientConfigured(env)
    ensures d.next.Grant? ==>
      var e := AuthenticEvent(req, env, verify).value;
      d.next.userId == e.userId.value && d.next.amount == CreditsFor(Lower(e.plan.value)) && d.next.amount > 0
    // a 500 comes only from a failed body read or a client that cannot be built
    ensures d.next.Done? && d.next.response.status == 500 ==>
      req.body.None? || !ClientConfigured(env)
    // the decision itself never touches the ledger
    ensures forall c :: c in d.calls ==> !c.AddCredits?
  {
    var p := Screen(req, env, verify);
    match p.stage
    case Answered(r) => Decision(p.calls, Done(r))
    case HasMetadata(userId, plan) =>
      var amount := CreditsFor(Lower(plan));
      if amount == 0 then Decision(p.calls, Done(Ack))
      else if !ClientConfigured(env) then Decision(p.calls, Done(ServerError))
      else Decision(p.calls, Grant(userId, amount))
  }

  /** Where the chain as written arrives: a response, or an `add_credits`
      call whose amount may be a non-number. */
  datatype NextAsWritten = Answer(response: Response) | LedgerCall(userId: string, amount: Amount)

  /** Lines 20-73 as written, with `creditsByPlan[key] || 0` evaluated as
      the source does. A ledger call never carries the amount 0. */
  function DispatchAsWritten(req: Request, env: Env, verify: Verifier): (n: NextAsWritten)
    ensures n.LedgerCall? ==> n.amount != Number(0) && ClientConfigured(env)
  {
    var p := Screen(req, env, verify);
    match p.stage
    case Answered(r) => Answer(r)
    case HasMetadata(userId, plan) =>
      var amount := AmountAsWritten(Lower(plan));
      if amount == Number(0) then Answer(Ack)
      else if !ClientConfigured(env) then Answer(ServerError)
      else LedgerCall(userId, amount)
  }

  /** The metadata plan of an authentic event lower-cases to the name of an
      inherited member. */
  predicate PlanNamesInherited(req: Request, env: Env, verify: Verifier) {
    var e := AuthenticEvent(req, env, verify);
    e.Some? && Truthy(e.value.plan) && Lower(e.value.plan.value) in ObjectPrototypeMembers
  }

  /** Apart from plans that name inherited members, the handler as written
      and Dispatch decide the same. */
  lemma DispatchAsWrittenAgrees(req: Request, env: Env, verify: Verifier)
    requires !PlanNamesInherited(req, env, verify)
    ensures match Dispatch(req, env, verify).next
      case Done(r) => DispatchAsWritten(req, env, verify) == Answer(r)
      case Grant(userId, amount) => DispatchAsWritten(req, env, verify) == LedgerCall(userId, Number(amount))
  {
  }

  /** An authentic completed checkout for plan "constructor" reaches
      `add_credits` as written, with a function for its amount, where
      Dispatch acknowledges it as an unknown plan. */
  lemma ConstructorEventReachesLedger(req: Request, env: Env, verify: Verifier, userId: string)
    requires AuthenticEvent(req, env, verify) == Some(Event(CompletedType, Some(userId), Some("constructor")))
    requires userId != "" && ClientConfigured(env)
    ensures DispatchAsWritten(req, env, verify) == LedgerCall(userId, NonNumber("constructor"))
    ensures Dispatch(req, env, verify).next == Done(Ack)
  {
    ConstructorPlanReachesLedger();
  }

  /** A user's balance; a user with no entry holds 0. */
  function Balance(balances: map<string, int>, userId: string): int {
    if userId in balances then balances[userId] else 0
  }

  /** The balances after `amount` is added to one user's balance. */
  function Credited(balances: map<string, int>, userId: string, amount: int): (r: map<string, int>)
    ensures Balance(r, userId) == Balance(balances, userId) + amount
    ensures forall v :: v != userId ==> Balance(r, v) == Balance(balances, v)
    ensures r.Keys == balances.Keys + {userId}
  {
    balances[userId := Balance(balances, userId) + amount]
  }

  /** Credits granted twice add up: the ledger keeps no record of which
      grants it has applied. */
  lemma CreditedTwice(balances: map<string, int>, userId: string, amount: int)
    ensures Balance(Credited(Credited(balances, userId, amount), userId, amount), userId)
         == Balance(balances, userId) + 2 * amount
  {
  }

  /** Number of `add_credits` calls in a trace. */
  function LedgerCalls(calls: seq<Call>): (n: nat)
    ensures n <= |calls|
    ensures n == 0 <==> forall c :: c in calls ==> !c.AddCredits?
  {
    if calls == [] then 0
    else LedgerCalls(calls[..|calls| - 1]) + (if calls[|calls| - 1].AddCredits? then 1 else 0)
  }

  /** The data store's credit balances, changed only by `add_credits`. */
  class CreditStore {
    var balances: map<string, int>

    constructor (initial: map<string, int>)
      ensures balances == initial
    {
      balances := initial;
    }

    /** A successful `add_credits(p_user_id, p_amount)`. */
    method AddCredits(userId: string, amount: int)
      modifies this
      ensures balances == Credited(old(balances), userId, amount)
    {
      balances := Credited(balances, userId, amount);
    }
  }

  /** The whole handler: the decision chain, then at most one `add_credits`
      whose reply decides between 200 and 500. */
  method HandleWebhook(store: CreditStore, req: Request, env: Env, verify: Verifier, ledger: LedgerReply)
    returns (response: Response, calls: seq<Call>)
    modifies store
    ensures var d := Dispatch(req, env, verify);
      match d.next
      case Done(r) =>
        response == r && calls == d.calls && store.balances == old(store.balances)
      case Grant(userId, amount) =>
        && calls == d.calls + [AddCredits(userId, amount)]
        && (ledger == Applied ==> response == Ack && store.balances == Credited(old(store.balances), userId, amount))
        && (ledger == Failed ==> response == Response(500, Error("Credits update failed")) && store.balances == old(store.balances))
    ensures LedgerCalls(calls) == if Dispatch(req, env, verify).next.Grant? then 1 else 0
  {
    var d := Dispatch(req, env, verify);
    match d.next
    case Done(r) =>
      response, calls := r, d.calls;
    case Grant(userId, amount) =>
      calls := d.calls + [AddCredits(userId, amount)];
      assert calls[..|calls| - 1] == d.calls;
      if ledger == Applied {
        store.AddCredits(userId, amount);
        response := Ack;
      } else {
        response := Response(500, Error("Credits update failed"));
      }
  }

  /** The same authentic delivery handled twice, both ledger calls
      succeeding: the buyer is credited twice. */
  method Redeliver(store: CreditStore, req: Request, env: Env, verify: Verifier)
    returns (first: Response, second: Response)
    requires Dispatch(req, env, verify).next.Grant?
    modifies store
    ensures first == Ack && second == Ack
    ensures var g := Dispatch(req, env, verify).next;
      Balance(store.balances, g.userId) == Balance(old(store.balances), g.userId) + 2 * g.amount
  {
    var calls;
    first, calls := HandleWebhook(store, req, env, verify, Applied);
    second, calls := HandleWebhook(store, req, env, verify, Applied);
  }
}
