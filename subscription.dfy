/**
 * The billing page (app/subscription/page.tsx): which plan the company is
 * entitled to, how the current-plan card shows it, and the load, upgrade and
 * cancel handlers.
 */
module Subscription {
  import opened Wrappers
  import opened Web

  datatype Plan = FREE | PRO
  datatype Status = ACTIVE | CANCELLED | FAILED

  datatype Subscription = Subscription(id: string, companyId: string, plan: Plan, status: Status, createdAt: string)

  /** `isPro`: a PRO plan that is active. */
  predicate IsPro(s: Option<Subscription>) {
    s.Some? && s.value.plan == PRO && s.value.status == ACTIVE
  }

  /** The plan heading: "PRO" for a PRO plan, "Gratuito" otherwise, also before anything is loaded. */
  function PlanLabel(s: Option<Subscription>): (l: string)
    ensures l == "PRO" <==> s.Some? && s.value.plan == PRO
    ensures l == "Gratuito" <==> !(s.Some? && s.value.plan == PRO)
  {
    if s.Some? && s.value.plan == PRO then "PRO" else "Gratuito"
  }

  /** The status badge: "Ativo", "Cancelado", and "Falhou" for anything else, including no subscription. */
  function StatusLabel(s: Option<Subscription>): (l: string)
    ensures l == "Ativo" <==> s.Some? && s.value.status == ACTIVE
    ensures l == "Cancelado" <==> s.Some? && s.value.status == CANCELLED
    ensures l == "Falhou" <==> s.None? || s.value.status == FAILED
  {
    match s
    case Some(sub) =>
      (match sub.status
       case ACTIVE => "Ativo"
       case CANCELLED => "Cancelado"
       case FAILED => "Falhou")
    case None => "Falhou"
  }

  /** The action the page offers under the card. */
  datatype Action = CancelSubscription | UpgradeToPro

  /** What the current-plan card shows: the plan heading, the status badge, the benefits, the price line and the action. */
  datatype Card = Card(plan: string, status: string, benefits: seq<string>, price: string, action: Action)

  const ProBenefits := ["Funcionários ilimitados", "Auto-geração de escala", "Suporte prioritário"]
  const FreeBenefits := ["Até 5 funcionários", "Escala manual", "Suporte básico"]

  function CardOf(s: Option<Subscription>): Card {
    if IsPro(s) then Card(PlanLabel(s), StatusLabel(s), ProBenefits, "R$ 29/mês", CancelSubscription)
    else Card(PlanLabel(s), StatusLabel(s), FreeBenefits, "R$ 0/mês", UpgradeToPro)
  }

  /** The card shows the Pro price, benefits and cancel action exactly when the heading reads PRO and the badge Ativo. */
  lemma CardShowsEntitlement(s: Option<Subscription>)
    ensures IsPro(s) <==> CardOf(s).plan == "PRO" && CardOf(s).status == "Ativo"
    ensures CardOf(s).action == CancelSubscription <==> IsPro(s)
    ensures CardOf(s).price == "R$ 29/mês" <==> IsPro(s)
    ensures CardOf(s).price == "R$ 0/mês" <==> CardOf(s).action == UpgradeToPro
    ensures |CardOf(s).benefits| == 3
  {
  }

  /** A PRO plan that is cancelled or failed is not Pro: it still reads PRO but is offered the upgrade. */
  lemma LapsedProIsNotPro(s: Subscription)
    requires s.plan == PRO && s.status != ACTIVE
    ensures !IsPro(Some(s)) && PlanLabel(Some(s)) == "PRO" && CardOf(Some(s)).action == UpgradeToPro
    ensures StatusLabel(Some(s)) == if s.status == CANCELLED then "Cancelado" else "Falhou"
  {
  }

  /** Before a subscription is loaded the card is the free one, badge "Falhou". */
  lemma NoSubscriptionCard()
    ensures CardOf(None) == Card("Gratuito", "Falhou", FreeBenefits, "R$ 0/mês", UpgradeToPro)
  {
  }

  /** The body of a successful `POST /billing/checkout`. */
  datatype CheckoutBody = CheckoutBody(checkoutUrl: Option<string>)

  const LoadError := "Erro ao carregar informações da assinatura"
  const UpgradeError := "Erro ao processar upgrade"
  const CancelFallback := "Erro ao cancelar assinatura"

  function StatusRequest(authorization: string): Request {
    Request(GET, Api("/billing/status"), Some(authorization), None)
  }

  /** `{ plan: "PRO" }`, the body of a checkout request. */
  const CheckoutJson := JObject([("plan", JString("PRO"))])

  function CheckoutRequest(authorization: string): Request {
    Request(POST, Api("/billing/checkout"), Some(authorization), Some(CheckoutJson))
  }

  function CancelRequest(authorization: string): Request {
    Request(DELETE, Api("/billing/subscription"), Some(authorization), None)
  }

  class SubscriptionPage {
    var subscription: Option<Subscription>
    var loading: bool
    var upgrading: bool
    var cancelling: bool
    var error: string
    const window: Browser

    constructor (window: Browser)
      ensures this.window == window
      ensures subscription == None && loading && !upgrading && !cancelling && error == ""
    {
      this.window := window;
      subscription := None;
      loading := true;
      upgrading := false;
      cancelling := false;
      error := "";
    }

    /** What the page holds once `fetchSubscription` has had `reply`. */
    predicate LoadedFrom(reply: Fetched<Subscription>, prevSubscription: Option<Subscription>, prevError: string)
      reads this
    {
      && !loading
      && if reply.HasStatus(401) then subscription == prevSubscription && error == prevError
         else if reply.IsOk() && reply.body.Parsed? then subscription == Some(reply.body.data) && error == prevError
         else subscription == prevSubscription && error == LoadError
    }

    /** The mount effect: without a token, replace the page by /signup; otherwise load the subscription. */
    method Mount(reply: Fetched<Subscription>)
      modifies this, window
      ensures !old(window.HasToken()) ==>
        window.history == old(window.history) + [Replace("/signup")] && window.requests == old(window.requests)
        && window.storage == old(window.storage) && subscription == old(subscription) && loading == old(loading)
        && error == old(error)
      ensures old(window.HasToken()) ==>
        window.requests == old(window.requests) + [StatusRequest(old(window.Authorization()))]
        && LoadedFrom(reply, old(subscription), old(error))
        && window.history == old(window.history) + (if reply.HasStatus(401) then [Push("/signup")] else [])
        && window.storage == if reply.HasStatus(401) then old(window.storage) - {TokenKey} else old(window.storage)
      ensures upgrading == old(upgrading) && cancelling == old(cancelling)
    {
      if !window.HasToken() {
        window.Navigate(Replace("/signup"));
        return;
      }
      FetchSubscription(reply);
    }

    /** `fetchSubscription`: a 401 drops the token and goes to /signup; otherwise the subscription, or an error. */
    method FetchSubscription(reply: Fetched<Subscription>)
      modifies this, window
      ensures window.requests == old(window.requests) + [StatusRequest(old(window.Authorization()))]
      ensures LoadedFrom(reply, old(subscription), old(error))
      ensures window.history == old(window.history) + (if reply.HasStatus(401) then [Push("/signup")] else [])
      ensures window.storage == if reply.HasStatus(401) then old(window.storage) - {TokenKey} else old(window.storage)
      ensures upgrading == old(upgrading) && cancelling == old(cancelling)
    {
      loading := true;
      window.Send(StatusRequest(window.Authorization()));
      if reply.HasStatus(401) {
        window.RemoveItem(TokenKey);
        window.Navigate(Push("/signup"));
      } else if reply.IsOk() && reply.body.Parsed? {
        subscription := Some(reply.body.data);
      } else {
        error := LoadError;
      }
      loading := false;
    }

    /** `handleUpgrade`: POST `{ plan: "PRO" }` to /billing/checkout and open the checkout URL it answers with. */
    method HandleUpgrade(reply: Fetched<CheckoutBody>)
      modifies this, window
      ensures window.requests == old(window.requests) + [CheckoutRequest(old(window.Authorization()))]
      ensures !upgrading && window.storage == old(window.storage)
      ensures reply.IsOk() && reply.body.Parsed? ==>
        window.history == old(window.history) + [Assign(AsString(reply.body.data.checkoutUrl))] && error == old(error)
      ensures !(reply.IsOk() && reply.body.Parsed?) ==>
        window.history == old(window.history) && error == UpgradeError
      ensures subscription == old(subscription) && loading == old(loading) && cancelling == old(cancelling)
    {
      upgrading := true;
      window.Send(CheckoutRequest(window.Authorization()));
      if reply.IsOk() && reply.body.Parsed? {
        window.Navigate(Assign(AsString(reply.body.data.checkoutUrl)));
      } else {
        error := UpgradeError;
      }
      upgrading := false;
    }

    /**
     * `handleCancel`: DELETE /billing/subscription; on success reload the
     * subscription with `refetch` as its outcome, otherwise show the failure.
     */
    method HandleCancel(reply: Fetched<ErrorBody>, refetch: Fetched<Subscription>)
      modifies this, window
      ensures !cancelling && upgrading == old(upgrading)
      ensures !reply.IsOk() ==>
        window.requests == old(window.requests) + [CancelRequest(old(window.Authorization()))]
        && error == FailureMessage(reply, CancelFallback) && subscription == old(subscription)
        && loading == old(loading) && window.history == old(window.history) && window.storage == old(window.storage)
      ensures reply.IsOk() ==>
        window.requests == old(window.requests) + [CancelRequest(old(window.Authorization())), StatusRequest(old(window.Authorization()))]
        && LoadedFrom(refetch, old(subscription), old(error))
        && window.history == old(window.history) + (if refetch.HasStatus(401) then [Push("/signup")] else [])
        && window.storage == if refetch.HasStatus(401) then old(window.storage) - {TokenKey} else old(window.storage)
    {
      cancelling := true;
      window.Send(CancelRequest(window.Authorization()));
      if reply.IsOk() {
        FetchSubscription(refetch);
      } else {
        error := FailureMessage(reply, CancelFallback);
      }
      cancelling := false;
    }
  }
}
