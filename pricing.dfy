/**
 * The public pricing page (app/pricing/page.tsx): the plan buttons, which
 * send a visitor without a session to sign up and a signed-in one to the
 * product or to the payment provider's checkout.
 */
module Pricing {
  import opened Wrappers
  import opened Web

  /** The body of a successful `POST /billing/checkout`. */
  datatype CheckoutBody = CheckoutBody(checkoutUrl: Option<string>)

  /** The checkout request, authorised with the stored token as it is. */
  function CheckoutRequest(token: string): Request {
    Request(POST, Api("/billing/checkout"), Some("Bearer " + token), Some(JObject([("plan", JString("PRO"))])))
  }

  /** Where the free-plan button leads: into the product with a session, to sign-up without one. */
  function FreePlanTarget(hasToken: bool): (path: string)
    ensures path == "/employees" <==> hasToken
    ensures path == "/signup" <==> !hasToken
  {
    if hasToken then "/employees" else "/signup"
  }

  class PricingPage {
    var loading: bool
    const window: Browser

    constructor (window: Browser)
      ensures this.window == window && !loading
    {
      this.window := window;
      loading := false;
    }

    /**
     * `handleUpgrade`, with `reply` the outcome of the checkout request.
     * Without a token the visitor goes to /signup and nothing is sent.
     * Otherwise the checkout is requested; a success opens its URL, and a
     * failure is only logged, so the page stays as it was with the button
     * enabled again.
     */
    method HandleUpgrade(reply: Fetched<CheckoutBody>)
      modifies this, window
      ensures window.storage == old(window.storage)
      ensures !old(window.HasToken()) ==>
        && window.history == old(window.history) + [Push("/signup")]
        && window.requests == old(window.requests) && loading == old(loading)
      ensures old(window.HasToken()) ==>
        && window.requests == old(window.requests) + [CheckoutRequest(old(window.GetItem(TokenKey)).value)]
        && !loading
        && window.history == old(window.history)
             + if reply.IsOk() && reply.body.Parsed? then [Assign(AsString(reply.body.data.checkoutUrl))] else []
    {
      var token := window.GetItem(TokenKey);
      if !(token.Some? && token.value != "") {
        window.Navigate(Push("/signup"));
        return;
      }
      loading := true;
      window.Send(CheckoutRequest(token.value));
      if reply.IsOk() && reply.body.Parsed? {
        window.Navigate(Assign(AsString(reply.body.data.checkoutUrl)));
      }
      loading := false;
    }

    /** `handleFreePlan`. */
    method HandleFreePlan()
      modifies window
      ensures window.history == old(window.history) + [Push(FreePlanTarget(window.HasToken()))]
      ensures window.storage == old(window.storage) && window.requests == old(window.requests)
    {
      window.Navigate(Push(FreePlanTarget(window.HasToken())));
    }
  }

  /**
   * The header the checkout sends is the one every other page builds from
   * storage, so a signed-in visitor is authorised the same way here.
   */
  lemma CheckoutUsesStoredToken(w: Browser)
    requires w.HasToken()
    ensures CheckoutRequest(w.GetItem(TokenKey).value).authorization == Some(w.Authorization())
  {
  }
}
