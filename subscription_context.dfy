/**
 * The subscription provider of src/contexts/SubscriptionContext.tsx.
 *
 * The provider holds the plan catalogue, the signed-in user's subscription
 * and this month's usage. Each loader takes what the database answered (an
 * error or a list of rows) as input. A user without a subscription, or whose
 * subscription cannot be loaded, is on the free plan; usage that cannot be
 * loaded falls back to the plan's limits. Story generation and voice cloning
 * are allowed while the loaded usage leaves some of each.
 */
module SubscriptionContext {
  import opened Wrappers

  // ---------------------------------------------------------------------------
  // Plan catalogue
  // ---------------------------------------------------------------------------

  /** A plan's `features` column as stored: any key may be missing. */
  datatype FeatureRow = FeatureRow(
    maxSavedStories: Option<int>,
    basicVoices: Option<bool>,
    premiumVoices: Option<bool>,
    customThemes: Option<bool>,
    downloadMp3: Option<bool>,
    sleepTimer: Option<bool>,
    storyAnalytics: Option<bool>,
    familyProfiles: Option<int>,
    collaborativeStories: Option<bool>,
    prioritySupport: Option<bool>)

  datatype Features = Features(
    maxSavedStories: int,
    basicVoices: bool,
    premiumVoices: bool,
    customThemes: bool,
    downloadMp3: bool,
    sleepTimer: Option<bool>,
    storyAnalytics: Option<bool>,
    familyProfiles: Option<int>,
    collaborativeStories: Option<bool>,
    prioritySupport: Option<bool>)

  /** A row of the plan table; the price arrives already parsed. */
  datatype TierRow = TierRow(
    id: string, name: string, displayName: string, price: real,
    storyLimit: int, voiceLimit: int, features: FeatureRow)

  datatype Tier = Tier(
    id: string, name: string, displayName: string, price: real,
    storyLimit: int, voiceLimit: int, features: Features)

  /** `n || fallback` on a number: a missing value and 0 are both falsy. */
  function NumberOr(n: Option<int>, fallback: int): (r: int)
    ensures n.Some? && n.value != 0 ==> r == n.value
    ensures n.None? || n.value == 0 ==> r == fallback
  {
    if n.Some? && n.value != 0 then n.value else fallback
  }

  /** `b || false` on a flag: only a stored `true` is true. */
  function FlagOrFalse(b: Option<bool>): (r: bool)
    ensures r <==> b == Some(true)
  {
    b == Some(true)
  }

  /** The feature mapping of `loadSubscriptionTiers`. */
  function MapFeatures(f: FeatureRow): (m: Features)
    ensures m.maxSavedStories == NumberOr(f.maxSavedStories, 10)
    ensures m.basicVoices == FlagOrFalse(f.basicVoices) && m.premiumVoices == FlagOrFalse(f.premiumVoices)
    ensures m.customThemes == FlagOrFalse(f.customThemes) && m.downloadMp3 == FlagOrFalse(f.downloadMp3)
    ensures m.sleepTimer == f.sleepTimer && m.storyAnalytics == f.storyAnalytics
    ensures m.familyProfiles == f.familyProfiles && m.collaborativeStories == f.collaborativeStories
    ensures m.prioritySupport == f.prioritySupport
  {
    Features(
      NumberOr(f.maxSavedStories, 10),
      FlagOrFalse(f.basicVoices), FlagOrFalse(f.premiumVoices),
      FlagOrFalse(f.customThemes), FlagOrFalse(f.downloadMp3),
      f.sleepTimer, f.storyAnalytics, f.familyProfiles, f.collaborativeStories, f.prioritySupport)
  }

  /** A plan whose features object has none of its keys gets 10 saved stories and every flag off. */
  lemma EmptyFeaturesDefaults()
    ensures var m := MapFeatures(FeatureRow(None, None, None, None, None, None, None, None, None, None));
      && m.maxSavedStories == 10
      && !m.basicVoices && !m.premiumVoices && !m.customThemes && !m.downloadMp3
  {
  }

  function MapTier(row: TierRow): (t: Tier)
    ensures t.features == MapFeatures(row.features)
    ensures t == Tier(row.id, row.name, row.displayName, row.price, row.storyLimit, row.voiceLimit, t.features)
  {
    Tier(row.id, row.name, row.displayName, row.price, row.storyLimit, row.voiceLimit, MapFeatures(row.features))
  }

  function MapTiers(rows: seq<TierRow>): (tiers: seq<Tier>)
    ensures |tiers| == |rows|
    ensures forall i :: 0 <= i < |rows| ==> tiers[i] == MapTier(rows[i])
  {
    if rows == [] then [] else [MapTier(rows[0])] + MapTiers(rows[1..])
  }

  // ---------------------------------------------------------------------------
  // The user's subscription and usage
  // ---------------------------------------------------------------------------

  datatype Subscription = Subscription(
    subscriptionId: Option<string>,
    tierName: string,
    tierDisplayName: string,
    storyLimit: int,
    voiceLimit: int,
    features: Features,
    status: string,
    currentPeriodEnd: Option<string>)

  datatype Usage = Usage(storyCount: int, voiceCloneCount: int, remainingStories: int, remainingVoices: int)

  /** What a database call answered: an error, or its rows (no data counts as no rows). */
  datatype Answer<T> = Failed | Rows(rows: seq<T>)

  const FreeFeatures := Features(10, true, false, false, false, None, None, None, None, None)

  /** The plan assumed for a user without a subscription row, and after a load error. */
  const FreePlan := Subscription(None, "free", "Dream Starter", 5, 0, FreeFeatures, "active", None)

  /** The subscription `loadUserSubscription` sets for a signed-in user. */
  function LoadedSubscription(answer: Answer<Subscription>): (s: Subscription)
    ensures answer.Rows? && |answer.rows| > 0 ==> s == answer.rows[0]
    ensures answer.Failed? || answer.rows == [] ==> s == FreePlan
  {
    if answer.Rows? && |answer.rows| > 0 then answer.rows[0] else FreePlan
  }

  /** The usage assumed after a load error: nothing used, the plan's limits remaining. */
  function UsageFallback(subscription: Option<Subscription>): (u: Usage)
    ensures u.storyCount == 0 && u.voiceCloneCount == 0
    ensures u.remainingStories == NumberOr(if subscription.Some? then Some(subscription.value.storyLimit) else None, 5)
    ensures u.remainingVoices == NumberOr(if subscription.Some? then Some(subscription.value.voiceLimit) else None, 0)
  {
    var stories := if subscription.Some? then Some(subscription.value.storyLimit) else None;
    var voices := if subscription.Some? then Some(subscription.value.voiceLimit) else None;
    Usage(0, 0, NumberOr(stories, 5), NumberOr(voices, 0))
  }

  /** The usage `loadUserUsage` leaves for a signed-in user: an empty answer changes nothing. */
  function LoadedUsage(current: Option<Usage>, subscription: Option<Subscription>, answer: Answer<Usage>): (u: Option<Usage>)
    ensures answer.Failed? ==> u == Some(UsageFallback(subscription))
    ensures answer.Rows? && |answer.rows| > 0 ==> u == Some(answer.rows[0])
    ensures answer.Rows? && answer.rows == [] ==> u == current
  {
    match answer
    case Failed => Some(UsageFallback(subscription))
    case Rows(rows) => if |rows| > 0 then Some(rows[0]) else current
  }

  /** `canGenerateStory` */
  predicate CanGenerateStory(usage: Option<Usage>) {
    usage.Some? && usage.value.remainingStories > 0
  }

  /** `canCloneVoice` */
  predicate CanCloneVoice(usage: Option<Usage>) {
    usage.Some? && usage.value.remainingVoices > 0
  }

  /**
   * When neither load succeeds and the provider held no subscription (a
   * sign-in from signed out) or the free plan (a reload after a failed
   * subscription load), the user ends up on the free plan and may generate
   * stories but not clone voices.
   */
  lemma FallbackAllowsStoriesOnly(current: Option<Usage>, held: Option<Subscription>)
    requires held.None? || held == Some(FreePlan)
    ensures var usage := LoadedUsage(current, held, Failed);
      && LoadedSubscription(Failed) == FreePlan
      && usage == Some(Usage(0, 0, 5, 0))
      && CanGenerateStory(usage) && !CanCloneVoice(usage)
  {
  }

  /**
   * The fallback reads the subscription held before the change of user: when
   * both loads fail for the new user and the previous plan's limits are both
   * non-zero, the new user is shown the free plan but keeps that plan's
   * allowance, voice cloning included.
   */
  lemma SwitchKeepsPreviousAllowance(current: Option<Usage>, previous: Subscription)
    requires previous.storyLimit != 0 && previous.voiceLimit != 0
    ensures var usage := LoadedUsage(current, Some(previous), Failed);
      && LoadedSubscription(Failed) == FreePlan
      && usage == Some(Usage(0, 0, previous.storyLimit, previous.voiceLimit))
      && (previous.voiceLimit > 0 <==> CanCloneVoice(usage))
  {
  }

  /**
   * The fallback reads the limits with `||`: a plan whose story limit is -1
   * (shown as unlimited) keeps -1 remaining stories, so story generation is
   * refused after a usage load error.
   */
  lemma UnlimitedPlanFallbackRefusesStories(s: Subscription)
    requires s.storyLimit == -1
    ensures UsageFallback(Some(s)).remainingStories == -1
    ensures !CanGenerateStory(Some(UsageFallback(Some(s))))
  {
  }

  // ---------------------------------------------------------------------------
  // The provider's state
  // ---------------------------------------------------------------------------

  datatype Action = StoryGenerated | VoiceCloned | StoryPlayed

  class Provider {
    /** `useAuth().user`, by id. */
    var user: Option<string>
    var subscription: Option<Subscription>
    var usage: Option<Usage>
    var tiers: seq<Tier>
    var isLoading: bool

    constructor ()
      ensures user.None? && subscription.None? && usage.None? && tiers == [] && isLoading
    {
      user := None;
      subscription := None;
      usage := None;
      tiers := [];
      isLoading := true;
    }

    /** `loadSubscriptionTiers`: an error keeps the old catalogue. */
    method LoadTiers(answer: Answer<TierRow>)
      modifies this
      ensures answer.Failed? ==> tiers == old(tiers)
      ensures answer.Rows? ==> tiers == MapTiers(answer.rows)
      ensures user == old(user) && subscription == old(subscription) && usage == old(usage)
      ensures isLoading == old(isLoading)
    {
      if answer.Rows? {
        tiers := MapTiers(answer.rows);
      }
    }

    /** `loadUserSubscription`: without a user it returns before clearing the loading flag. */
    method LoadSubscription(answer: Answer<Subscription>)
      modifies this
      ensures old(user).None? ==> unchanged(this)
      ensures old(user).Some? ==> subscription == Some(LoadedSubscription(answer)) && !isLoading
      ensures user == old(user) && usage == old(usage) && tiers == old(tiers)
    {
      if user.None? {
        return;
      }
      subscription := Some(LoadedSubscription(answer));
      isLoading := false;
    }

    /** `loadUserUsage`: the fallback reads the subscription this provider currently holds. */
    method LoadUsage(answer: Answer<Usage>)
      modifies this
      ensures old(user).None? ==> unchanged(this)
      ensures old(user).Some? ==> usage == LoadedUsage(old(usage), old(subscription), answer)
      ensures user == old(user) && subscription == old(subscription) && tiers == old(tiers)
      ensures isLoading == old(isLoading)
    {
      if user.None? {
        return;
      }
      usage := LoadedUsage(usage, subscription, answer);
    }

    /**
     * The effect on a change of user. Both loads start together; the usage
     * fallback sees the subscription from before the change, so the usage
     * load is taken first.
     */
    method UserChanged(newUser: Option<string>, subscriptionAnswer: Answer<Subscription>, usageAnswer: Answer<Usage>)
      modifies this
      ensures user == newUser && tiers == old(tiers)
      ensures newUser.None? ==> subscription.None? && usage.None? && !isLoading
      ensures newUser.Some? ==>
        && subscription == Some(LoadedSubscription(subscriptionAnswer))
        && usage == LoadedUsage(old(usage), old(subscription), usageAnswer)
        && !isLoading
    {
      user := newUser;
      if newUser.Some? {
        LoadUsage(usageAnswer);
        LoadSubscription(subscriptionAnswer);
      } else {
        subscription := None;
        usage := None;
        isLoading := false;
      }
    }

    /** `trackUsage`: log the action and reload usage; a failed insert is swallowed. */
    method TrackUsage(action: Action, inserted: bool, usageAnswer: Answer<Usage>)
      modifies this
      ensures old(user).None? || !inserted ==> unchanged(this)
      ensures old(user).Some? && inserted ==> usage == LoadedUsage(old(usage), old(subscription), usageAnswer)
      ensures user == old(user) && subscription == old(subscription) && tiers == old(tiers)
      ensures isLoading == old(isLoading)
    {
      if user.None? || !inserted {
        return;
      }
      LoadUsage(usageAnswer);
    }
  }
}
