/**
 * The story form of src/components/StoryGenerator.tsx.
 *
 * Generation needs an API key and the child's name, then a story left in
 * this month's allowance. The prompt is the user's own when given, otherwise
 * a fixed template naming the child and, when one is chosen, the theme. The
 * story reply is sent back with its first 200 characters to ask for a
 * title, from which quotes are stripped; the generation is then logged
 * against the allowance and handed to the page.
 */
module StoryGenerator {
  import opened Wrappers
  import opened Strings
  import SubscriptionContext

  const PromptOpening := "Write a gentle, magical bedtime story for a child named "
  const PromptClosing := ". The story should be warm, comforting, and appropriate for bedtime. Include positive themes like friendship, kindness, or adventure. Make it about 200-300 words long with simple, beautiful language that flows well when read aloud. End with a peaceful, sleepy conclusion."
  const TitleRequestOpening := "Create a short, magical title (3-6 words) for this bedtime story: "
  const ExcerptLength := 200

  /** `${storyTheme ? ` about ${storyTheme}` : ''}` */
  function ThemeClause(theme: string): (clause: string)
    ensures theme == [] ==> clause == []
    ensures theme != [] ==> clause == " about " + theme
  {
    if theme == [] then [] else " about " + theme
  }

  /** The user's own prompt when there is one, otherwise the template. */
  function BuildPrompt(customPrompt: string, childName: string, theme: string): (prompt: string)
    ensures customPrompt != [] ==> prompt == customPrompt
    ensures customPrompt == [] ==> prompt == PromptOpening + childName + ThemeClause(theme) + PromptClosing
  {
    if customPrompt != [] then customPrompt
    else PromptOpening + childName + ThemeClause(theme) + PromptClosing
  }

  /**
   * The template names the child right after its opening words and, when a
   * theme is chosen, the theme right after the name.
   */
  lemma TemplateNamesChildAndTheme(childName: string, theme: string)
    ensures var prompt := BuildPrompt("", childName, theme);
      && StartsWith(prompt, PromptOpening)
      && OccursAt(prompt, childName, |PromptOpening|)
      && (theme != [] ==> OccursAt(prompt, " about " + theme, |PromptOpening| + |childName|))
      && (theme == [] ==> OccursAt(prompt, PromptClosing, |PromptOpening| + |childName|))
  {
    var prompt := BuildPrompt("", childName, theme);
    var clause := ThemeClause(theme);
    var n, c := |PromptOpening|, |childName|;
    assert prompt == PromptOpening + childName + clause + PromptClosing;
    assert prompt[..n] == PromptOpening;
    assert prompt[n..n + c] == childName;
    assert prompt[n + c..n + c + |clause|] == clause;
    assert prompt[n + c + |clause|..] == PromptClosing;
  }

  /** The request for a title: the opening words, at most 200 characters of the story, and "...". */
  function TitleRequest(story: string): (request: string)
    ensures request == TitleRequestOpening + Prefix(story, ExcerptLength) + "..."
  {
    TitleRequestOpening + Prefix(story, ExcerptLength) + "..."
  }

  /** Only the story's first 200 characters reach the title request. */
  lemma TitleRequestExcerpt(story: string)
    ensures var excerpt := TitleRequest(story)[|TitleRequestOpening|..|TitleRequest(story)| - 3];
      && StartsWith(story, excerpt)
      && |excerpt| == (if |story| < ExcerptLength then |story| else ExcerptLength)
  {
    var request := TitleRequest(story);
    var excerpt := Prefix(story, ExcerptLength);
    assert request[|TitleRequestOpening|..|request| - 3] == excerpt;
  }

  /** The apostrophe (U+0027) and the double quote (U+0022). */
  const Quotes: set<char> := {'\U{27}', '\U{22}'}

  /** The title reply with every apostrophe and double quote removed. */
  function CleanTitle(reply: string): (title: string)
    ensures forall i :: 0 <= i < |title| ==> title[i] !in Quotes
    ensures forall c :: c in title <==> c in reply && c !in Quotes
  {
    RemoveChars(reply, Quotes)
  }

  /** Cleaning keeps the other characters in their order: it works piece by piece. */
  lemma CleanTitleAppend(a: string, b: string)
    ensures CleanTitle(a + b) == CleanTitle(a) + CleanTitle(b)
  {
    RemoveCharsAppend(a, b, Quotes);
  }

  /** On one character: a quote goes, anything else stays. */
  lemma CleanTitleOne(c: char)
    ensures CleanTitle([c]) == if c in Quotes then [] else [c]
  {
    assert [c][1..] == [];
  }

  /** A title without quotes comes back unchanged, so cleaning twice changes nothing. */
  lemma CleanTitleIdempotent(reply: string)
    ensures CleanTitle(CleanTitle(reply)) == CleanTitle(reply)
  {
    RemoveCharsKeepsClean(CleanTitle(reply), Quotes);
  }

  /** The low-allowance notice: the number left, the right noun, and an upgrade hint on the free plan. */
  datatype UsageAlert = UsageAlert(remaining: int, noun: string, upgradeHint: bool)

  function UsageAlertFor(usage: Option<SubscriptionContext.Usage>, subscription: Option<SubscriptionContext.Subscription>)
    : (alert: Option<UsageAlert>)
    ensures alert.Some? <==> usage.Some? && 0 < usage.value.remainingStories <= 3
    ensures alert.Some? ==>
      && alert.value.remaining == usage.value.remainingStories
      && (alert.value.noun == "story" <==> usage.value.remainingStories == 1)
      && (alert.value.noun != "story" ==> alert.value.noun == "stories")
      && (alert.value.upgradeHint <==> subscription.Some? && subscription.value.tierName == "free")
  {
    if usage.Some? && 0 < usage.value.remainingStories <= 3 then
      var n := usage.value.remainingStories;
      Some(UsageAlert(n, if n == 1 then "story" else "stories",
                      subscription.Some? && subscription.value.tierName == "free"))
    else None
  }

  /** The button's `disabled` condition. */
  predicate GenerateDisabled(apiKey: string, childName: string, isGenerating: bool, canGenerate: bool) {
    apiKey == [] || childName == [] || isGenerating || !canGenerate
  }

  /** What a chat-completion call produced: an error, or the message content. */
  datatype Completion = CompletionFailed | Completed(content: string)

  datatype Outcome = MissingInformation | LimitReached | GenerationFailed | Generated(story: string, title: string)

  class Generator {
    var isGenerating: bool

    constructor ()
      ensures !isGenerating
    {
      isGenerating := false;
    }

    /**
     * `generateStory`. Returns the outcome (a `Generated` outcome is what the
     * page's callback receives, story first) and the prompts sent, in order.
     */
    method Generate(provider: SubscriptionContext.Provider,
                    apiKey: string, childName: string, theme: string, customPrompt: string,
                    storyReply: Completion, titleReply: Completion,
                    logged: bool, usageAnswer: SubscriptionContext.Answer<SubscriptionContext.Usage>)
      returns (outcome: Outcome, sent: seq<string>)
      modifies this, provider
      ensures !isGenerating || (outcome in {MissingInformation, LimitReached} && isGenerating == old(isGenerating))
      ensures apiKey == [] || childName == [] ==>
        outcome == MissingInformation && sent == [] && unchanged(provider)
      ensures apiKey != [] && childName != [] && !SubscriptionContext.CanGenerateStory(old(provider.usage)) ==>
        outcome == LimitReached && sent == [] && unchanged(provider)
      ensures apiKey != [] && childName != [] && SubscriptionContext.CanGenerateStory(old(provider.usage)) ==>
        && |sent| >= 1 && sent[0] == BuildPrompt(customPrompt, childName, theme)
        && !isGenerating
        && (storyReply.CompletionFailed? ==> outcome == GenerationFailed && |sent| == 1 && unchanged(provider))
        && (storyReply.Completed? ==> sent == [sent[0], TitleRequest(storyReply.content)])
        && (storyReply.Completed? && titleReply.CompletionFailed? ==>
              outcome == GenerationFailed && unchanged(provider))
        && (storyReply.Completed? && titleReply.Completed? ==>
              && outcome == Generated(storyReply.content, CleanTitle(titleReply.content))
              && provider.user == old(provider.user) && provider.subscription == old(provider.subscription)
              && provider.tiers == old(provider.tiers) && provider.isLoading == old(provider.isLoading)
              && (old(provider.user).Some? && logged ==>
                    provider.usage == SubscriptionContext.LoadedUsage(old(provider.usage), old(provider.subscription), usageAnswer))
              && (old(provider.user).None? || !logged ==> provider.usage == old(provider.usage)))
    {
      sent := [];
      if apiKey == [] || childName == [] {
        return MissingInformation, [];
      }
      if !SubscriptionContext.CanGenerateStory(provider.usage) {
        return LimitReached, [];
      }
      isGenerating := true;
      var prompt := BuildPrompt(customPrompt, childName, theme);
      sent := [prompt];
      if storyReply.CompletionFailed? {
        outcome := GenerationFailed;
      } else {
        var story := storyReply.content;
        sent := sent + [TitleRequest(story)];
        if titleReply.CompletionFailed? {
          outcome := GenerationFailed;
        } else {
          var title := CleanTitle(titleReply.content);
          provider.TrackUsage(SubscriptionContext.StoryGenerated, logged, usageAnswer);
          outcome := Generated(story, title);
        }
      }
      isGenerating := false;
    }
  }
}
