# Somni bedtime stories: a Dafny model of the core

Somni writes bedtime stories for children with a language model, reads them
aloud with an ElevenLabs voice and highlights each word as it is spoken. This
project models the parts of the app that decide things, file by file:

- the story-generation library (`src/lib/openai.ts`). It covers the age-group
  guidelines, the naming instruction, and the parser that takes the title and
  the text out of the model's reply. The `TITLE:` regular expression is
  modelled as an explicit backtracking search.
- the story and voice API routes (`src/app/api/stories/route.ts`,
  `src/app/api/voices/route.ts`). These cover the request checks in their
  order, the records created and then finished, and the status codes.
- the route guard (`src/proxy.ts`).
- the browser-side player, generator, voice picker and library
  (`StoryPlayer.tsx`, `StoryGenerator.tsx`, `VoiceCloning.tsx`,
  `StoryLibrary.tsx`).
- the local login page (`src/pages/Login.tsx`).
- the auth and subscription providers (`AuthContext.tsx`,
  `SubscriptionContext.tsx`).
- the plan card and the plan page (`SubscriptionStatus.tsx`, `Pricing.tsx`).
- the single-page app that wires these together (`src/pages/Index.tsx`).

Pure code is modelled as datatypes, functions and lemmas. Components and
handlers that update state step by step are classes whose methods state the
new state. What a service answered is passed in as a value: the language
model, ElevenLabs, Supabase, Prisma and the session lookup. `Strings` holds
the JavaScript string operations the code relies on: `\s`, `split(/\s+/)`,
`trim`, `toLowerCase`, `indexOf` and `startsWith`.

The word highlighted during playback is found by dividing the audio's duration
evenly among the words (`StoryPlayer.tsx:79-84`). Punctuation does not weight
the timing, and no offset is applied.

## Model

| member | source | states |
|---|---|---|
| OpenAI.AgeGroupLabel | src/lib/openai.ts:71 | the age group shown in the system prompt is its name with the underscore replaced by a space, and contains no underscore |
| OpenAI.Guidelines | src/lib/openai.ts:20-53 | every age group has six guideline bullets, the fifth being "Story length: " and that group's length |
| OpenAI.StoryLengthsDiffer | src/lib/openai.ts:20-53 | no two age groups are asked for the same story length |
| OpenAI.NameInstruction | src/lib/openai.ts:60-62 | a missing or empty child name asks for a made-up character; otherwise the instruction names the child in quotes |
| OpenAI.Title | src/lib/openai.ts:98-99 | the title is the trimmed lazy capture after `TITLE:`; it never contains a line terminator, and is "A Magical Story" when the reply has no `TITLE:` |
| OpenAI.MarkerAfter | src/lib/openai.ts:98 | `TITLE:` cannot overlap itself, so a marker right after marker-free text is the first one |
| OpenAI.TitleAt | src/lib/openai.ts:98-99 | with the first `TITLE:` at p, white space, then a one-line title t ended by `\n` or by `---`, the title is t |
| OpenAI.TitleAfterMarker | src/lib/openai.ts:98-99 | `pre + "TITLE:" + ws + t + "\n" + rest` has title t, for every marker-free `pre`, white space `ws` and plain title `t` |
| OpenAI.TitleBeforeSeparator | src/lib/openai.ts:98-99 | `pre + "TITLE:" + ws + t + "---" + rest` has title t, for every marker-free `pre`, white space `ws` and plain title `t` not ending in `-` |
| OpenAI.TitleWithoutTerminator | src/lib/openai.ts:98-99 | a reply with neither `\n` nor `---` anywhere from its first `TITLE:` on gets "A Magical Story" |
| OpenAI.Content | src/lib/openai.ts:101-104 | the text is the trimmed rest after the first `---`; without `---`, the reply minus its title line, trimmed; without `---` and `TITLE:`, the whole reply trimmed |
| OpenAI.TitleLineUnique | src/lib/openai.ts:104 | `TITLE:.*\n?` at a given marker ends at one place only |
| OpenAI.RemoveTitleLine | src/lib/openai.ts:104 | nothing changes without a `TITLE:`; otherwise exactly the first `TITLE:`, the rest of its line and the `\n` ending it (if that ends it) are cut out, and the reply gets shorter |
| OpenAI.RemoveTitleLineOf | src/lib/openai.ts:104 | `pre + "TITLE:" + line + "\n" + rest` loses exactly `"TITLE:" + line + "\n"` when `pre` has no marker |
| OpenAI.RemoveLastTitleLine | src/lib/openai.ts:104 | a title line at the very end is cut out up to the end |
| OpenAI.ContentWithoutSeparator | src/lib/openai.ts:101-104 | a reply without `---` has as text the parts before and after its title line, joined and trimmed |
| OpenAI.ParseStory | src/lib/openai.ts:95-106 | a missing reply parses as ("A Magical Story", ""); every parsed title is a single line |
| OpenAI.ParseEmptyReply | src/lib/openai.ts:95-106 | an empty reply gives the default title and empty text |
| OpenAI.FormatTitle | src/lib/openai.ts:81-84 | a reply laid out as the prompt asks gives back its title |
| OpenAI.FormatContent | src/lib/openai.ts:81-84 | a reply laid out as the prompt asks gives back its body, trimmed |
| OpenAI.ParseFormatRoundTrip | src/lib/openai.ts:81-106 | parsing the requested layout `TITLE: t\n---\nbody` returns (t, trimmed body) for every one-line title |
| StoriesRoute.ParseAgeGroup | src/app/api/stories/route.ts:10 | a name is read as an age group only when it is that group's wire name |
| StoriesRoute.ParseAgeGroupName | src/app/api/stories/route.ts:10 | the schema's enum accepts exactly the four age-group names, each naming its own group |
| StoriesRoute.Validate | src/app/api/stories/route.ts:7-12 | a body is accepted iff the prompt is text of at least 10 characters and the optional fields have the right types; the age group defaults to PRESCHOOL; a missing prompt and a short one are rejected with their own issue |
| StoriesRoute.MinimalBodyAccepted | src/app/api/stories/route.ts:7-12 | a body holding only a long enough prompt is accepted with all defaults |
| StoriesRoute.RejectionBody | src/app/api/stories/route.ts:100-104 | a short prompt is answered with the schema's custom message; other issues with the first issue |
| StoriesRoute.NonEmpty | src/app/api/stories/route.ts:58-60 | `value \|\| null`: a value is kept iff it is present and non-empty |
| StoriesRoute.Pending | src/app/api/stories/route.ts:54-65 | the created record is GENERATING, titled "Generating...", empty, and has empty child name and voice stored as null |
| StoriesRoute.EstimatedDuration | src/app/api/stories/route.ts:76-77 | the duration is the word count halved and rounded up (120 words a minute): at least one second, and `2*s` is the word count or one more |
| StoriesRoute.Finish | src/app/api/stories/route.ts:80-97 | success makes the record READY with the parsed title and text and their duration; failure makes it DRAFT and changes nothing else |
| StoriesRoute.FinishSettles | src/app/api/stories/route.ts:80-97 | no record is left GENERATING once the handler is done |
| StoriesRoute.StoryStore.Post | src/app/api/stories/route.ts:42-112 | 401 without a user id; 500 for a body that is not JSON; 400 for a JSON value that is not an object and for a rejected body; no record is written on any of these paths; otherwise exactly one finished record is appended, answered with 201, or with 500 when generation failed |
| VoicesRoute.NameAcceptable | src/app/api/voices/route.ts:40 | a name passes iff it is present and has at least two characters |
| VoicesRoute.AudioPresent | src/app/api/voices/route.ts:38-47 | the audio passes iff the field is a file or a non-empty text value |
| VoicesRoute.EmailText | src/app/api/voices/route.ts:69 | the email appears as it is, and a missing one as "undefined" |
| VoicesRoute.CloneRequestFor | src/app/api/voices/route.ts:67-69 | the clone is named after the voice with " - Somni" appended, and described with the user's email |
| VoicesRoute.Finish | src/app/api/voices/route.ts:73-88 | the voice is READY with the service's voice id exactly when the clone succeeded, FAILED otherwise |
| VoicesRoute.VoiceStore.Post | src/app/api/voices/route.ts:30-95 | the checks run in order: 401, a body that is not a form (500), a name under two characters, missing audio; none of these writes a record; only after all three is a record created, the clone requested and the record finished, answered with 201 or 500 |
| Proxy.SomePrefix | src/proxy.ts:9-14 | a path matches iff it starts with one of the listed prefixes |
| Proxy.IsProtected | src/proxy.ts:9-10 | a path is protected iff it starts with /dashboard, /create, /stories or /voices |
| Proxy.IsAuthPath | src/proxy.ts:13-14 | a path is an auth page iff it starts with /login or /register |
| Proxy.Decide | src/proxy.ts:17-28 | a signed-out request to a protected path is sent to login with itself as callback; a signed-in request to a login or register page goes to the dashboard; everything else passes |
| Proxy.ProtectedAndAuthDisjoint | src/proxy.ts:9-14 | no path is both protected and an auth page |
| Proxy.AtMostOneRedirect | src/proxy.ts:17-28 | a protected path is never sent to the dashboard, and an auth page never to login |
| Proxy.PrefixMatchIsLoose | src/proxy.ts:9-14 | the prefix test also guards paths that merely start like a protected one ("/createx") |
| StoryPlayer.Words | src/components/StoryPlayer.tsx:27 | the story splits into at least one piece, none containing white space |
| StoryPlayer.HighlightIndex | src/components/StoryPlayer.tsx:79-84 | the highlighted word is at most the last, never negative once playback started, and the last from the end of the audio on |
| StoryPlayer.HighlightMonotone | src/components/StoryPlayer.tsx:79-84 | later playback positions never highlight an earlier word |
| StoryPlayer.HighlightSlot | src/components/StoryPlayer.tsx:79-84 | within the audio, word i is highlighted iff the position lies in the i-th of n equal slices |
| StoryPlayer.ForwardPlayback | src/components/StoryPlayer.tsx:81-85 | a run of increasing time updates highlights words in non-decreasing order |
| StoryPlayer.StyleOf | src/components/StoryPlayer.tsx:195-208 | a word is highlighted, already read or not yet read exactly as its index is equal to, below or above the current one |
| StoryPlayer.ShowsReadingAloud | src/components/StoryPlayer.tsx:212 | the reading badge shows iff a word is highlighted |
| StoryPlayer.DisplayTitle | src/components/StoryPlayer.tsx:142 | the heading is never empty and is the title when there is one |
| StoryPlayer.Player.constructor | src/components/StoryPlayer.tsx:14-24 | a new player is idle, has no audio and highlights no word |
| StoryPlayer.Player.GenerateSpeech | src/components/StoryPlayer.tsx:30-66 | speech is requested iff both the key and the voice are set; otherwise nothing changes; loaded audio starts at position 0 |
| StoryPlayer.Player.TimeUpdate | src/components/StoryPlayer.tsx:81-85 | the current word becomes the highlight index for the new position, and the reading badge shows |
| StoryPlayer.Player.Ended | src/components/StoryPlayer.tsx:87-90 | the end of the audio stops playback and clears the highlight |
| StoryPlayer.Player.Play | src/components/StoryPlayer.tsx:107-112 | play does nothing without audio and otherwise sets playing |
| StoryPlayer.Player.Pause | src/components/StoryPlayer.tsx:114-119 | pause does nothing without audio and otherwise clears playing |
| StoryPlayer.Player.Stop | src/components/StoryPlayer.tsx:121-128 | stop does nothing without audio and otherwise rewinds to 0, stops and clears the highlight |
| StoryGenerator.BuildPrompt | src/components/StoryGenerator.tsx:47 | the user's own prompt wins; otherwise the fixed template with the child's name and the theme clause |
| StoryGenerator.TemplateNamesChildAndTheme | src/components/StoryGenerator.tsx:47 | the template names the child right after its opening and, when a theme is set, " about <theme>" right after the name |
| StoryGenerator.TitleRequest | src/components/StoryGenerator.tsx:92 | the title request is the fixed opening, the story's first 200 characters and "..." |
| StoryGenerator.TitleRequestExcerpt | src/components/StoryGenerator.tsx:92 | the excerpt in the title request is a prefix of the story of length min(200, story length) |
| StoryGenerator.CleanTitle | src/components/StoryGenerator.tsx:101 | the title has no quote or apostrophe, and keeps every other character of the reply |
| StoryGenerator.CleanTitleAppend | src/components/StoryGenerator.tsx:101 | cleaning works piece by piece: cleaning `a + b` is cleaning `a`, then `b`, so the kept characters stay in order |
| StoryGenerator.CleanTitleOne | src/components/StoryGenerator.tsx:101 | one quote or apostrophe is dropped; any other character is kept |
| StoryGenerator.CleanTitleIdempotent | src/components/StoryGenerator.tsx:101 | stripping quotes twice is the same as once |
| StoryGenerator.GenerateDisabled | src/components/StoryGenerator.tsx:228 | the button is disabled without a key or a name, while generating, or when no story may be generated |
| StoryGenerator.UsageAlertFor | src/components/StoryGenerator.tsx:151-156 | the low-allowance notice shows iff 1 to 3 stories remain, says "story" only for one, and hints at an upgrade only on the free plan |
| StoryGenerator.Generator.Generate | src/components/StoryGenerator.tsx:26-124 | a missing key or name, then a spent allowance, stop before any request; otherwise the prompt is sent, then the title request, and only a full success logs the generation and hands (story, title) on; the busy flag is cleared on every path that set it |
| VoiceCloning.DefaultVoicesDistinct | src/components/VoiceCloning.tsx:16-24 | the stock table has seven voices with pairwise distinct ids |
| VoiceCloning.Find | src/components/VoiceCloning.tsx:45 | the lookup finds a listed voice with that id, or none iff no voice has it |
| VoiceCloning.FindListed | src/components/VoiceCloning.tsx:45 | in a table with distinct ids, looking up an entry's id finds that entry |
| VoiceCloning.VoiceName | src/components/VoiceCloning.tsx:45 | the announced name is the table's name for the id, or "Selected voice" |
| VoiceCloning.VoiceNameOfListed | src/components/VoiceCloning.tsx:45 | each stock voice is announced by its own name |
| VoiceCloning.VoiceNameOfUnknown | src/components/VoiceCloning.tsx:45 | an id outside the table is announced as "Selected voice" |
| VoiceCloning.UseDisabled | src/components/VoiceCloning.tsx:177 | "Use This Voice" is disabled iff the key or the voice is missing |
| VoiceCloning.TestDisabled | src/components/VoiceCloning.tsx:158 | the preview button is also disabled while a preview runs |
| VoiceCloning.Picker.SetApiKey | src/components/VoiceCloning.tsx:128 | typing sets the key and leaves the voice and the busy flag |
| VoiceCloning.Picker.ChooseVoice | src/components/VoiceCloning.tsx:137 | choosing sets the voice and leaves the key and the busy flag |
| VoiceCloning.Picker.SelectVoice | src/components/VoiceCloning.tsx:32-50 | without a key or a voice the page is not called; otherwise it gets (voice id, key) in that order, and the notice names the voice |
| VoiceCloning.Picker.TestVoice | src/components/VoiceCloning.tsx:52-105 | the preview uses the same guard, changes nothing when refused, and ends not busy |
| StoryLibrary.Saved | src/components/StoryLibrary.tsx:56-64 | a story whose text is already saved changes nothing; otherwise it goes to the front |
| StoryLibrary.SavedKeepsContentsDistinct | src/components/StoryLibrary.tsx:56-64 | saving keeps every text saved at most once and leaves the story's text saved |
| StoryLibrary.Without | src/components/StoryLibrary.tsx:73-76 | deleting keeps exactly the stories with another id |
| StoryLibrary.WithoutUnknownId | src/components/StoryLibrary.tsx:73-76 | deleting an id that is not there changes nothing |
| StoryLibrary.WithoutAppend | src/components/StoryLibrary.tsx:73-76 | deleting from two lists joined is deleting from each |
| StoryLibrary.SaveThenDelete | src/components/StoryLibrary.tsx:44-76 | deleting a just-saved story with a fresh id restores the list |
| StoryLibrary.WithoutKeepsContentsDistinct | src/components/StoryLibrary.tsx:73-76 | deleting keeps every text saved at most once |
| StoryLibrary.StoryId | src/components/StoryLibrary.tsx:47 | a new id is "story-" followed by the clock's digits |
| StoryLibrary.StoryIdInjective | src/components/StoryLibrary.tsx:47 | the digits read back as the clock value, so saves at different instants get different ids |
| StoryLibrary.ShouldAutoSave | src/components/StoryLibrary.tsx:32 | the effect saves only a current story with both a title and text |
| StoryLibrary.Library.Load | src/components/StoryLibrary.tsx:37-42 | the list is read from storage when something was stored, and left otherwise |
| StoryLibrary.Library.Save | src/components/StoryLibrary.tsx:44-71 | the duplicate test reads the stored list; a new story is put in front of it and written to both the list and storage |
| StoryLibrary.Library.AutoSave | src/components/StoryLibrary.tsx:32-34 | only a current story with both a title and text is saved |
| StoryLibrary.Library.Delete | src/components/StoryLibrary.tsx:73-76 | the shown list loses the story with that id and is written back to storage |
| Login.FindIndex | src/pages/Login.tsx:45-48 | the index found is the first user whose email equals the given one ignoring case, and none iff there is no such user |
| Login.FindByEmail | src/pages/Login.tsx:45-48 | the user found is the first stored user with that email ignoring case (no earlier user matches); none iff there is none |
| Login.NewUser | src/pages/Login.tsx:159-164 | the new user's id is the clock in decimal, the name is trimmed and the email lower-cased and trimmed |
| Login.Registered | src/pages/Login.tsx:135-169 | as written: refused for an empty field or an email found as typed; otherwise the new user is appended |
| Login.RegisteredAllowsDuplicateEmail | src/pages/Login.tsx:145-162 | as written, signing up " ann@x.io" next to "ann@x.io" stores two accounts with one email |
| Login.PaddedEmailRegisteredTwice | src/pages/Login.tsx:145-168 | as written, any typed email that is stored as a registered one but differs from it in length passes the check and duplicates the account |
| Login.RegisteredAgreesOnUnpadded | src/pages/Login.tsx:145-162 | on every email without white space at either end, which is all the page's email field delivers, the rule as written and the corrected one give the same result |
| Login.RegisteredChecked | src/pages/Login.tsx:145-162 | corrected: the duplicate test looks up the email in the form it will be stored |
| Login.RegisteredCheckedKeepsEmailsUnique | src/pages/Login.tsx:145-169 | with the corrected test, sign-up keeps emails unique ignoring case |
| Login.RegisteredCheckedThenFound | src/pages/Login.tsx:45-48 | with the corrected test, signing in with the stored email finds the new user |
| Login.LoginPage.Restore | src/pages/Login.tsx:51-56 | a saved user becomes the session |
| Login.LoginPage.SignIn | src/pages/Login.tsx:58-116 | missing fields, an unknown email and a wrong password are told apart and change nothing; otherwise the session and the saved user become the user without the password |
| Login.LoginPage.SignUp | src/pages/Login.tsx:129-199 | refused sign-ups change nothing; a successful one appends the new user (with the corrected duplicate test of `RegisteredChecked`) and signs them in |
| Login.LoginPage.SignOut | src/pages/Login.tsx:202-204 | sign-out clears the session and the saved user |
| AuthContext.LocalPart | src/contexts/AuthContext.tsx:69 | the part before the first '@': a prefix without '@', followed by '@' unless it is all of the email |
| AuthContext.LocalPartWithoutAt | src/contexts/AuthContext.tsx:69 | an email without '@' is its own first part |
| AuthContext.FallbackName | src/contexts/AuthContext.tsx:73 | the name for a user without a profile is the email's part before '@' or, when that is empty or there is no email, "User" |
| AuthContext.DisplayName | src/contexts/AuthContext.tsx:69 | the profile's full name when non-empty, else the fallback name; never empty |
| AuthContext.DisplayNameFallbacks | src/contexts/AuthContext.tsx:69 | an empty full name falls back to the email's first part, and "@x.io" leaves "User" |
| AuthContext.Checked | src/contexts/AuthContext.tsx:54-95 | a user results iff the session has one; it keeps the session's id and email ("" for none) and gets the profile's display name, or the fallback name without a profile; the name is never empty |
| AuthContext.CheckInserts | src/contexts/AuthContext.tsx:71-78 | at most one profile row is inserted, exactly when a session user has no profile, with that user's id and email and the name the user gets |
| AuthContext.SignUpRows | src/contexts/AuthContext.tsx:131-138 | a created user gets one profile row with its id, its email and the typed full name; no created user, no row |
| AuthContext.Provider.IsAuthenticated | src/contexts/AuthContext.tsx:158 | authenticated iff there is a user |
| AuthContext.Provider.CheckUser | src/contexts/AuthContext.tsx:54-95 | the user becomes `Checked` of the session and profile, the inserted rows grow by `CheckInserts`, and loading always ends |
| AuthContext.Provider.OnAuthEvent | src/contexts/AuthContext.tsx:43-49 | SIGNED_IN and TOKEN_REFRESHED set the user to `Checked` of the new session and profile, SIGNED_OUT clears the user, other events change nothing |
| AuthContext.Provider.SignIn | src/contexts/AuthContext.tsx:97-113 | an error is returned without touching the state, with a default message for a thrown error without one; success sets the user to `Checked` of the new session and profile |
| AuthContext.Provider.SignUp | src/contexts/AuthContext.tsx:115-145 | errors as for sign-in; success appends the `SignUpRows` profile for a created user, then sets the user to `Checked` of the new session and profile |
| AuthContext.Provider.SignOut | src/contexts/AuthContext.tsx:147-150 | sign-out leaves nobody authenticated |
| SubscriptionContext.NumberOr | src/contexts/SubscriptionContext.tsx:114 | `n \|\| d` on numbers: a missing value and 0 both give the fallback |
| SubscriptionContext.MapFeatures | src/contexts/SubscriptionContext.tsx:113-124 | saved-story limit defaults to 10, the four flags to false, the rest are copied |
| SubscriptionContext.EmptyFeaturesDefaults | src/contexts/SubscriptionContext.tsx:114-118 | a plan whose features object has none of its keys gets 10 saved stories and every flag off |
| SubscriptionContext.MapTiers | src/contexts/SubscriptionContext.tsx:106-125 | each plan row maps to one plan, in order |
| SubscriptionContext.LoadedSubscription | src/contexts/SubscriptionContext.tsx:133-191 | the user's first subscription row, or the free plan when there is none or the query failed |
| SubscriptionContext.UsageFallback | src/contexts/SubscriptionContext.tsx:214-219 | after a usage error nothing is used and the plan's limits remain, 5 stories and 0 voices by default |
| SubscriptionContext.LoadedUsage | src/contexts/SubscriptionContext.tsx:193-221 | the first usage row, the fallback after an error, or the old usage when no row came back |
| SubscriptionContext.CanGenerateStory | src/contexts/SubscriptionContext.tsx:252 | a story may be generated iff usage is loaded with stories remaining |
| SubscriptionContext.CanCloneVoice | src/contexts/SubscriptionContext.tsx:253 | a voice may be cloned iff usage is loaded with voices remaining |
| SubscriptionContext.FallbackAllowsStoriesOnly | src/contexts/SubscriptionContext.tsx:171-219 | when both loads fail after a sign-in from signed out, or on a reload after a failed subscription load, the user is on the free plan with 5 stories and no voices: stories allowed, cloning not |
| SubscriptionContext.SwitchKeepsPreviousAllowance | src/contexts/SubscriptionContext.tsx:85-88 | when both loads fail after a change from one signed-in user to another, for a previous plan with non-zero story and voice limits, the new user is shown the free plan but keeps that plan's allowance, and may clone voices iff that plan allowed them |
| SubscriptionContext.UnlimitedPlanFallbackRefusesStories | src/contexts/SubscriptionContext.tsx:214-219 | a plan stored as unlimited (-1) keeps -1 remaining after a usage error, which refuses story generation |
| SubscriptionContext.Provider.LoadTiers | src/contexts/SubscriptionContext.tsx:96-131 | a failed query keeps the catalogue; otherwise it becomes the mapped rows |
| SubscriptionContext.Provider.LoadSubscription | src/contexts/SubscriptionContext.tsx:133-191 | without a user nothing changes, not even the loading flag; otherwise the loaded subscription is set and loading ends |
| SubscriptionContext.Provider.LoadUsage | src/contexts/SubscriptionContext.tsx:193-221 | without a user nothing changes; otherwise the usage becomes the loaded usage |
| SubscriptionContext.Provider.UserChanged | src/contexts/SubscriptionContext.tsx:85-93 | signing out clears subscription and usage; a new user gets the loaded subscription, with the usage fallback read from the subscription held before |
| SubscriptionContext.Provider.TrackUsage | src/contexts/SubscriptionContext.tsx:223-242 | a logged action reloads usage for a signed-in user; otherwise nothing changes |
| SubscriptionStatus.StoryPercentage | src/components/SubscriptionStatus.tsx:48-50 | the bar's percentage times the limit is 100 times the stories used; 0 for a limit that is not positive |
| SubscriptionStatus.StoryPercentageBounds | src/components/SubscriptionStatus.tsx:48-50 | with usage within the limit the bar is between 0 and 100, full iff none remain and empty iff none used |
| SubscriptionStatus.ShouldShowUpgrade | src/components/SubscriptionStatus.tsx:52-53 | the upgrade is offered to the free plan, and to premium with fewer than five stories left |
| SubscriptionStatus.UpgradeOffers | src/components/SubscriptionStatus.tsx:52-53 | the family plan is never offered an upgrade, the free plan always |
| SubscriptionStatus.UpgradeText | src/components/SubscriptionStatus.tsx:143-145 | the upgrade button text depends only on whether the plan is free |
| SubscriptionStatus.Render | src/components/SubscriptionStatus.tsx:14-145 | a spinner while loading, nothing without subscription or usage; otherwise the card's icon, counts, the stored story limit (infinity for -1), bar for positive limits, limit warning at 0 remaining, voice usage for plans with voices, and upgrade offer |
| SubscriptionStatus.FreePlanFallbackCard | src/components/SubscriptionStatus.tsx:14-145 | the free plan with fallback usage shows an empty bar, no voice section and the upgrade offer |
| Pricing.TierIcon | src/pages/Pricing.tsx:30-39 | a crown for family, sparkles for premium, a star for every other plan |
| Pricing.TierFeatures | src/pages/Pricing.tsx:41-76 | the selling points per plan: 5 for free, 8 for premium and family, none for an unknown plan |
| Pricing.Subscribe | src/pages/Pricing.tsx:17-28 | a signed-out visitor is sent to login; everyone else only sees the coming-soon notice |
| Pricing.IsCurrentPlan | src/pages/Pricing.tsx:94 | a plan is current iff there is a subscription with that plan's name |
| Pricing.PlanButtonFor | src/pages/Pricing.tsx:141-143 | the button is disabled and reads "Current Plan" iff the plan is the user's |
| Pricing.DisabledCards | src/pages/Pricing.tsx:141-143 | the disabled cards are exactly those whose button is disabled |
| Pricing.AtMostOneCurrentPlan | src/pages/Pricing.tsx:94 | with distinct plan names at most one card is disabled, none without a subscription |
| IndexPage.Page.VoiceCloned | src/pages/Index.tsx:15-17 | only the voice id is kept; the key passed with it is dropped |
| IndexPage.Page.StoryGenerated | src/pages/Index.tsx:19-21 | the current story becomes (title, story), the arguments swapped into place |
| IndexPage.Page.StorySelected | src/pages/Index.tsx:23-25 | the current story becomes exactly the selected title and text |
| IndexPage.Page.ShowsPlayer | src/pages/Index.tsx:90 | the player tab shows the player iff the current story has text |
| IndexPage.Page.LibraryStory | src/pages/Index.tsx:113 | the library is handed the current story iff it has text |
| IndexPage.Page.LibrarySavesWhatIsPlayed | src/pages/Index.tsx:90-113 | the library auto-saves the played story exactly when it also has a title |
| IndexPage.Page.OpenPlayer | src/pages/Index.tsx:90-96 | the player appears only for a story with text, gets the page's voice and an empty key, and so never requests speech |

## Left out

- Network and service calls are not modelled; their answers are inputs. This covers OpenAI, ElevenLabs, Supabase queries and auth, Prisma, and the session lookup.
- Prisma writes are assumed to succeed. A failed write in the stories or voices route is not modelled.
- The GET handlers of both routes and the `[id]` routes are not part of this model. They only read records.
- Async interleavings are not modelled. Each handler runs to completion. For the subscription provider's two parallel loads, the order taken is the one in which the usage fallback sees the old subscription.
- Toasts and timers are not modelled; their text is not state. Navigation and spinners are modelled only where a member returns them (`Proxy.Decide`, `Pricing.Subscribe`, `SubscriptionStatus.Render`). CSS classes, tier colours, the tier badge's text (the upper-cased tier name), feature badges and the renewal date are not modelled.
- JSON (de)serialisation of local storage is not modelled. The stored lists are values.
- `ToLower` lower-cases ASCII letters only. JavaScript's full Unicode case mapping is not modelled.
- Lengths count code points, not UTF-16 units. This matters for `substring(0, 200)`, for the zod `min(10)` and for the voice name's `length < 2` (src/app/api/voices/route.ts:40), only on text outside the Basic Multilingual Plane.
- VoicesRoute.NameAcceptable: counts the name in code points, so it refuses a name made of one character outside the Basic Multilingual Plane (such as an emoji), whose UTF-16 `length` is 2 and which the route accepts.
- A `features` column that is null is not modelled: `TierRow` always holds a features object. For a null column the mapping throws and the catch keeps the previous catalogue (src/contexts/SubscriptionContext.tsx:114, 128-130).
- Floating point is modelled by exact reals. This affects the highlight index (`Math.floor`) and the bar percentage. NaN (a zero-length audio) and the rounding of `Math.ceil` on floats are not modelled.
- The regular expressions are modelled by hand-written matchers. `\s` is the ECMAScript white-space set, and `.` matches anything but the four line terminators.
- The plan price's `parseFloat` is not modelled: the price arrives already parsed.
- Of the zod schema's own messages, only which issue comes first is modelled. The wording of its default messages is not.
- A file sent in the voice form's name field is not modelled: the name is text or missing.
- `VoicesRoute.EmailText`: a null email is shown as "undefined". The rendering "null" is not modelled.
- `StoryPlayer.Player`: the audio element is a value (duration and position). Its events arrive as method calls in any order the page allows.
- The password is compared as typed. The page stores it unhashed, and the model does too.

## Findings

| source | as written | input that shows it | evidently intended | confidence | as-written member | corrected member |
|---|---|---|---|---|---|---|
| src/pages/Login.tsx:145-162 | sign-up looks up the email as typed, but stores it lower-cased and trimmed; latent, since the page's email field (src/pages/Login.tsx:297-327) strips and validates the address, so the page never hands the handler a padded email | the handler is given " ann@x.io" while an account "ann@x.io" exists | refuse an email that, once stored, would equal a registered one | not executed | Login.RegisteredAllowsDuplicateEmail | Login.RegisteredCheckedKeepsEmailsUnique |

The inconsistency is latent in the handler, not reachable through the page. `Login.Registered` is the rule as written. `Login.RegisteredChecked` is the corrected rule, and `Login.LoginPage.SignUp` uses it. `Login.RegisteredAgreesOnUnpadded` proves the two agree on every email without white space at either end, which is every email the page's email field can deliver. So the corrected sign-up behaves as the program does on all real input. Two more lemmas are proved about the corrected rule: `Login.RegisteredCheckedKeepsEmailsUnique` (emails stay unique) and `Login.RegisteredCheckedThenFound` (the new user can sign in).
