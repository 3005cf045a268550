/**
 * The upgrade dialog shown when a free plan hits a limit
 * (components/paywall-modal.tsx): the text it shows for each reason, the
 * Pro plan it advertises, and what its buttons and its close gesture do.
 */
module Paywall {
  import opened Wrappers
  import opened Web

  /** Why the dialog is shown. */
  datatype PaywallType = PLAN_LIMIT_REACHED | FEATURE_NOT_AVAILABLE

  datatype Content = Content(title: string, description: string)

  const LimitTitle := "Limite do plano gratuito atingido"
  const LimitDescription :=
    "Seu plano Free permite até 5 funcionários. Faça upgrade para o Pro e libere todo o potencial do EscalaPronta."
  const FeatureTitle := "Recurso exclusivo do Pro"
  const FeatureDescription :=
    "A geração automática de escalas está disponível apenas no plano Pro. Economize tempo toda semana."

  const ProPlanPrice := "R$ 29"

  const ProBenefits := [
    "Geração automática ilimitada de escalas",
    "Funcionários ilimitados",
    "Edição manual de escalas",
    "Suporte prioritário"]

  /** `content[type]`: the record has one entry for each type, so the lookup always succeeds. */
  function ContentOf(t: PaywallType): (c: Content)
    ensures t == PLAN_LIMIT_REACHED ==>
      c.title == "Limite do plano gratuito atingido" && c.description == LimitDescription
    ensures t == FEATURE_NOT_AVAILABLE ==>
      c.title == "Recurso exclusivo do Pro" && c.description == FeatureDescription
    ensures c.title != "" && c.description != ""
  {
    match t
    case PLAN_LIMIT_REACHED => Content(LimitTitle, LimitDescription)
    case FEATURE_NOT_AVAILABLE => Content(FeatureTitle, FeatureDescription)
  }

  /** Which reason a dialog title belongs to, if any. */
  function TypeOfTitle(title: string): (t: Option<PaywallType>)
    ensures t.Some? <==> title == LimitTitle || title == FeatureTitle
  {
    if title == LimitTitle then Some(PLAN_LIMIT_REACHED)
    else if title == FeatureTitle then Some(FEATURE_NOT_AVAILABLE)
    else None
  }

  /** Each reason has its own title, so the title tells which reason the dialog was opened for. */
  lemma TitleIdentifiesType(t: PaywallType)
    ensures TypeOfTitle(ContentOf(t).title) == Some(t)
    ensures forall u :: ContentOf(u) == ContentOf(t) ==> u == t
  {
  }

  /** What the dialog asks of its surroundings: a router navigation, or a call of the `onClose` prop. */
  datatype Effect = Navigated(to: Navigation) | Closed

  /** `handleUpgrade`: go to the pricing page, then ask to be closed. */
  function HandleUpgrade(): (effects: seq<Effect>)
    ensures |effects| == 2 && effects[0] == Navigated(Push("/pricing")) && effects[1] == Closed
  {
    [Navigated(Push("/pricing")), Closed]
  }

  /** The Agora não button: `onClose` alone. */
  function Dismiss(): (effects: seq<Effect>)
    ensures effects == [Closed]
  {
    [Closed]
  }

  /** The dialog's `onOpenChange`: `!isOpen && onClose()`. */
  function OnOpenChange(isOpen: bool): seq<Effect> {
    if isOpen then [] else [Closed]
  }

  function CountClosed(effects: seq<Effect>): nat {
    if effects == [] then 0
    else (if effects[0] == Closed then 1 else 0) + CountClosed(effects[1..])
  }

  /** Upgrading asks to be closed exactly once, after the navigation to /pricing. */
  lemma UpgradeClosesOnce()
    ensures CountClosed(HandleUpgrade()) == 1 && HandleUpgrade()[0].Navigated?
  {
    assert HandleUpgrade()[1..] == [Closed];
    assert HandleUpgrade()[1..][1..] == [];
  }

  /** A change of the open state asks to be closed when, and only when, the new state is closed; it never navigates. */
  lemma CloseOnlyWhenClosing(isOpen: bool)
    ensures Closed in OnOpenChange(isOpen) <==> !isOpen
    ensures CountClosed(OnOpenChange(isOpen)) == if isOpen then 0 else 1
    ensures forall e :: e in OnOpenChange(isOpen) ==> !e.Navigated?
  {
    if !isOpen {
      assert OnOpenChange(isOpen)[1..] == [];
    }
  }

  /** `loading` starts false and the dialog never sets it. */
  const Loading := false

  /** What the open dialog shows: its texts, the Pro plan box, and the state of the upgrade button. */
  datatype View = View(content: Content, price: string, benefits: seq<string>, upgradeDisabled: bool, upgradeLabel: string)

  function ViewOf(t: PaywallType): View {
    View(ContentOf(t), ProPlanPrice, ProBenefits, Loading, if Loading then "Processando..." else "Desbloquear Plano Pro")
  }

  /**
   * Whatever the reason, the dialog advertises Pro at "R$ 29" with the
   * same four benefits in the same order, and the upgrade button is
   * enabled and reads "Desbloquear Plano Pro".
   */
  lemma ViewAdvertisesPro(t: PaywallType)
    ensures ViewOf(t).price == "R$ 29" && |ViewOf(t).benefits| == 4
    ensures ViewOf(t).benefits[0] == "Geração automática ilimitada de escalas"
      && ViewOf(t).benefits[3] == "Suporte prioritário"
    ensures !ViewOf(t).upgradeDisabled && ViewOf(t).upgradeLabel == "Desbloquear Plano Pro"
    ensures ViewOf(t).content == ContentOf(t)
    ensures ViewOf(PLAN_LIMIT_REACHED).benefits == ViewOf(FEATURE_NOT_AVAILABLE).benefits
  {
  }
}
