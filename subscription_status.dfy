/**
 * The plan and usage card of src/components/SubscriptionStatus.tsx.
 *
 * While the provider is loading the card shows a spinner; without a
 * subscription or usage it renders nothing. Otherwise it shows the stories
 * used against the plan's limit (an unlimited plan, stored as -1, shows an
 * infinity sign), a progress bar for finite limits, a warning when no story
 * is left, the voice-clone usage for plans that include cloning, and an
 * upgrade button for the free plan and for a premium plan running low.
 */
module SubscriptionStatus {
  import opened Wrappers
  import SubscriptionContext
  import Pricing

  /** Share of the month's stories already used, in percent; 0 for a limit that is not positive. */
  function StoryPercentage(storyLimit: int, remainingStories: int): (percent: real)
    ensures storyLimit > 0 ==> percent * storyLimit as real == (storyLimit - remainingStories) as real * 100.0
    ensures storyLimit <= 0 ==> percent == 0.0
  {
    if storyLimit > 0 then (storyLimit - remainingStories) as real / storyLimit as real * 100.0 else 0.0
  }

  /** With the remaining count within the limit, the bar is between empty and full, and full exactly when none is left. */
  lemma StoryPercentageBounds(storyLimit: int, remainingStories: int)
    requires 0 <= remainingStories <= storyLimit && storyLimit > 0
    ensures 0.0 <= StoryPercentage(storyLimit, remainingStories) <= 100.0
    ensures StoryPercentage(storyLimit, remainingStories) == 100.0 <==> remainingStories == 0
    ensures StoryPercentage(storyLimit, remainingStories) == 0.0 <==> remainingStories == storyLimit
  {
    var p := StoryPercentage(storyLimit, remainingStories);
    var l := storyLimit as real;
    var used := (storyLimit - remainingStories) as real;
    assert p * l == used * 100.0;
    assert 0.0 <= used <= l;
    ScaleCompare(0.0, p, l);
    assert 0.0 * l == 0.0;
    assert 0.0 <= p <==> 0.0 <= used * 100.0;
    ScaleCompare(p, 100.0, l);
    assert 100.0 * l == l * 100.0;
    assert p <= 100.0 <==> used * 100.0 <= l * 100.0;
    assert p == 100.0 <==> used * 100.0 == l * 100.0;
    assert p == 0.0 <==> used * 100.0 == 0.0;
  }

  /** Multiplying by a positive number keeps order and equality. */
  lemma ScaleCompare(a: real, b: real, l: real)
    requires l > 0.0
    ensures a * l <= b * l <==> a <= b
    ensures a * l == b * l <==> a == b
  {
    assert b * l - a * l == (b - a) * l;
  }

  /** `shouldShowUpgrade` */
  predicate ShouldShowUpgrade(tierName: string, remainingStories: int) {
    tierName == "free" || (tierName == "premium" && remainingStories < 5)
  }

  /** The family plan is never offered an upgrade; the free plan always is. */
  lemma UpgradeOffers(remainingStories: int)
    ensures !ShouldShowUpgrade("family", remainingStories)
    ensures ShouldShowUpgrade("free", remainingStories)
  {
  }

  function UpgradeText(tierName: string): (text: string)
    ensures tierName == "free" ==> text == "Upgrade for more stories"
    ensures tierName != "free" ==> text == "Running low? Upgrade to Family"
  {
    if tierName == "free" then "Upgrade for more stories" else "Running low? Upgrade to Family"
  }

  /** The story limit as shown: -1 is unlimited. */
  datatype LimitText = Infinite | Count(limit: int)

  /** What the card shows for a loaded subscription and usage. */
  datatype Card = Card(
    icon: Pricing.Icon,
    title: string,
    storiesUsed: int,
    storyLimit: LimitText,
    progress: Option<real>,
    limitReached: bool,
    voiceUsage: Option<(int, int)>,
    upgrade: Option<string>)

  datatype View = Spinner | Nothing | Shown(card: Card)

  /** The component's output. */
  function Render(isLoading: bool, subscription: Option<SubscriptionContext.Subscription>,
                  usage: Option<SubscriptionContext.Usage>): (view: View)
    ensures view == Spinner <==> isLoading
    ensures view == Nothing <==> !isLoading && (subscription.None? || usage.None?)
    ensures view.Shown? ==>
      var s, u, c := subscription.value, usage.value, view.card;
      && c.icon == Pricing.TierIcon(s.tierName)
      && c.title == s.tierDisplayName
      && c.storiesUsed == u.storyCount
      && (c.storyLimit == Infinite <==> s.storyLimit == -1)
      && (s.storyLimit != -1 ==> c.storyLimit == Count(s.storyLimit))
      && (c.progress.Some? <==> s.storyLimit > 0)
      && (c.progress.Some? ==> c.progress.value == StoryPercentage(s.storyLimit, u.remainingStories))
      && (c.limitReached <==> u.remainingStories == 0)
      && (c.voiceUsage.Some? <==> s.voiceLimit > 0)
      && (c.voiceUsage.Some? ==> c.voiceUsage.value == (u.voiceCloneCount, s.voiceLimit))
      && (c.upgrade.Some? <==> ShouldShowUpgrade(s.tierName, u.remainingStories))
      && (c.upgrade.Some? ==> c.upgrade.value == UpgradeText(s.tierName))
  {
    if isLoading then Spinner
    else if subscription.None? || usage.None? then Nothing
    else
      var s, u := subscription.value, usage.value;
      Shown(Card(
        Pricing.TierIcon(s.tierName),
        s.tierDisplayName,
        u.storyCount,
        if s.storyLimit == -1 then Infinite else Count(s.storyLimit),
        if s.storyLimit > 0 then Some(StoryPercentage(s.storyLimit, u.remainingStories)) else None,
        u.remainingStories == 0,
        if s.voiceLimit > 0 then Some((u.voiceCloneCount, s.voiceLimit)) else None,
        if ShouldShowUpgrade(s.tierName, u.remainingStories) then Some(UpgradeText(s.tierName)) else None))
  }

  /** On the free plan with the fallback usage, the story bar is empty, there is no voice section and an upgrade is offered. */
  lemma FreePlanFallbackCard()
    ensures var view := Render(false, Some(SubscriptionContext.FreePlan),
                               Some(SubscriptionContext.UsageFallback(Some(SubscriptionContext.FreePlan))));
      && view.Shown?
      && view.card.progress == Some(0.0)
      && view.card.voiceUsage.None?
      && !view.card.limitReached
      && view.card.upgrade == Some("Upgrade for more stories")
  {
  }
}
