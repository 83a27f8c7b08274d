/** The purchase flow across the two Stripe endpoints: the session the
    checkout endpoint requests is what the webhook later reads back, so the
    plan keys and the metadata written by one must be understood by the
    other. */
module Purchase {
  import opened Js
  import opened Config
  import Checkout = StripeCheckout
  import Webhook = StripeWebhook

  /** Every plan key checkout accepts is one the webhook credits with a
      positive amount, and the two tables have the same keys. */
  lemma AcceptedPlansAreCredited(env: Env, planKey: string)
    ensures Checkout.CheckPlan(env, planKey).Priced? ==> Webhook.CreditsFor(planKey) > 0
    ensures Webhook.CreditsFor(planKey) > 0 <==> planKey in Checkout.PriceMap(env)
  {
  }

  /** The completed-checkout event Stripe sends for a session: the
      metadata comes back as it was sent. */
  function CompletedEvent(s: Checkout.SessionRequest): Webhook.Event {
    Webhook.Event(Webhook.CompletedType, Some(s.metadata.userId), Some(s.metadata.plan))
  }

  /** A paid checkout comes back through an authentic webhook delivery as
      a grant of the plan's credits to the buyer; a checkout without a
      userId comes back as an acknowledgement that credits no one. */
  lemma CheckoutThenWebhook(
    creq: Checkout.Request, env: Env, create: Checkout.SessionCreator,
    wreq: Webhook.Request, verify: Webhook.Verifier)
    requires Checkout.Checkout(creq, env, create).sessions != []
    requires wreq.httpMethod == "POST" && Truthy(wreq.signature) && wreq.body.Some?
    requires verify(wreq.body.value, wreq.signature.value, env.stripeWebhookSecret)
      == Webhook.Verified(CompletedEvent(Checkout.Checkout(creq, env, create).sessions[0]))
    requires Webhook.ClientConfigured(env)
    ensures var d := Webhook.Dispatch(wreq, env, verify);
      && (Truthy(creq.userId) ==>
            d.next == Webhook.Grant(creq.userId.value, Webhook.CreditsFor(Checkout.PlanKey(creq.plan)))
            && d.next.amount > 0)
      && (!Truthy(creq.userId) ==> d.next == Webhook.Done(Webhook.Ack))
      && (forall c :: c in d.calls ==> !c.AddCredits?)
  {
    // the metadata plan is already lower-cased, so the webhook's second
    // lower-casing finds the same key
    LowerIdempotent(Or(creq.plan, ""));
  }
}
