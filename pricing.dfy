/**
 * The plan page of src/pages/Pricing.tsx.
 *
 * Each plan of the catalogue is shown as a card with an icon and a fixed
 * list of selling points chosen by the plan's name; the card of the plan the
 * user is on has its button disabled. Choosing a plan sends a signed-out
 * visitor to the login page and otherwise only announces that payments are
 * coming.
 */
module Pricing {
  import opened Wrappers
  import SubscriptionContext

  datatype Icon = Crown | Sparkles | Star

  /** `getTierIcon`: a crown for family, sparkles for premium, a star for anything else. */
  function TierIcon(tierName: string): (icon: Icon)
    ensures icon == Crown <==> tierName == "family"
    ensures icon == Sparkles <==> tierName == "premium"
    ensures icon == Star <==> tierName != "family" && tierName != "premium"
  {
    if tierName == "family" then Crown
    else if tierName == "premium" then Sparkles
    else Star
  }

  /** `getTierFeatures` */
  function TierFeatures(tierName: string): (features: seq<string>)
    ensures tierName == "free" ==> |features| == 5 && features[0] == "5 stories per month"
    ensures tierName == "premium" ==> |features| == 8 && features[0] == "50 stories per month"
    ensures tierName == "family" ==> |features| == 8 && features[0] == "200 stories per month"
    ensures tierName != "free" && tierName != "premium" && tierName != "family" ==> features == []
  {
    if tierName == "free" then
      ["5 stories per month",
       "Basic ElevenLabs voices",
       "Standard story themes",
       "Save up to 10 stories",
       "Community support"]
    else if tierName == "premium" then
      ["50 stories per month",
       "Premium ElevenLabs voices",
       "1 custom voice clone",
       "Custom story themes",
       "Unlimited story library",
       "Download stories as MP3",
       "Sleep timer feature",
       "Story analytics"]
    else if tierName == "family" then
      ["200 stories per month",
       "All premium voices",
       "5 custom voice clones",
       "Up to 4 family profiles",
       "Collaborative stories",
       "Advanced AI features",
       "Priority support",
       "Early access to features"]
    else []
  }

  datatype SubscribeEffect = GoToLogin | ComingSoonNotice

  /** `handleSubscribe`: the plan chosen makes no difference. */
  function Subscribe(user: Option<string>, tierName: string): (effect: SubscribeEffect)
    ensures effect == GoToLogin <==> user.None?
  {
    if user.None? then GoToLogin else ComingSoonNotice
  }

  /** `subscription?.tierName === tier.name`: never true without a subscription. */
  predicate IsCurrentPlan(subscription: Option<SubscriptionContext.Subscription>, tierName: string) {
    subscription.Some? && subscription.value.tierName == tierName
  }

  datatype PlanButton = PlanButton(disabled: bool, text: string)

  function PlanButtonFor(subscription: Option<SubscriptionContext.Subscription>, tier: SubscriptionContext.Tier)
    : (button: PlanButton)
    ensures button.disabled <==> IsCurrentPlan(subscription, tier.name)
    ensures button.disabled ==> button.text == "Current Plan"
    ensures !button.disabled ==> button.text == "Choose " + tier.displayName
  {
    if IsCurrentPlan(subscription, tier.name) then PlanButton(true, "Current Plan")
    else PlanButton(false, "Choose " + tier.displayName)
  }

  /** The cards whose button is disabled. */
  function DisabledCards(subscription: Option<SubscriptionContext.Subscription>, tiers: seq<SubscriptionContext.Tier>)
    : (cards: set<nat>)
    ensures forall i :: i in cards ==> i < |tiers|
    ensures forall i :: 0 <= i < |tiers| ==> (i in cards <==> PlanButtonFor(subscription, tiers[i]).disabled)
  {
    set i: nat | i < |tiers| && IsCurrentPlan(subscription, tiers[i].name)
  }

  /**
   * With plan names distinct, at most one card is disabled, and none at all
   * without a subscription.
   */
  lemma AtMostOneCurrentPlan(subscription: Option<SubscriptionContext.Subscription>, tiers: seq<SubscriptionContext.Tier>)
    requires forall i, j :: 0 <= i < j < |tiers| ==> tiers[i].name != tiers[j].name
    ensures |DisabledCards(subscription, tiers)| <= 1
    ensures subscription.None? ==> DisabledCards(subscription, tiers) == {}
  {
    var cards := DisabledCards(subscription, tiers);
    if cards != {} {
      var i :| i in cards;
      forall j | j in cards
        ensures j == i
      {
        assert tiers[i].name == subscription.value.tierName == tiers[j].name;
      }
      assert cards == {i};
    }
  }
}
