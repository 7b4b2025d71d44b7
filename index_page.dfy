/**
 * The single-page app of src/pages/Index.tsx.
 *
 * The page keeps the chosen voice id, an ElevenLabs key and the current
 * story. The voice picker, the story form and the library each set one of
 * them; the player is shown for a story with content and the library is
 * handed the current story only then. Nothing on the page ever sets the key,
 * so the player it builds always has an empty key and never asks for speech.
 */
module IndexPage {
  import opened Wrappers
  import VoiceCloning
  import StoryLibrary
  import StoryPlayer

  class Page {
    var clonedVoiceId: string
    var elevenLabsApiKey: string
    var currentStory: StoryLibrary.StoryInput

    /** The key starts empty and no handler sets it. */
    ghost predicate Valid()
      reads this
    {
      elevenLabsApiKey == []
    }

    constructor ()
      ensures Valid()
      ensures clonedVoiceId == [] && currentStory == StoryLibrary.StoryInput([], [])
    {
      clonedVoiceId := [];
      elevenLabsApiKey := [];
      currentStory := StoryLibrary.StoryInput([], []);
    }

    /** `handleVoiceCloned`: keeps the voice id; the key handed along with it is dropped. */
    method VoiceCloned(selection: VoiceCloning.Selection)
      requires Valid()
      modifies this
      ensures Valid()
      ensures clonedVoiceId == selection.voiceId
      ensures elevenLabsApiKey == old(elevenLabsApiKey) && currentStory == old(currentStory)
    {
      clonedVoiceId := selection.voiceId;
    }

    /** `handleStoryGenerated`: the generator passes the story before its title. */
    method StoryGenerated(story: string, title: string)
      requires Valid()
      modifies this
      ensures Valid()
      ensures currentStory.title == title && currentStory.content == story
      ensures clonedVoiceId == old(clonedVoiceId) && elevenLabsApiKey == old(elevenLabsApiKey)
    {
      currentStory := StoryLibrary.StoryInput(title, story);
    }

    /** `handleStorySelected` */
    method StorySelected(title: string, content: string)
      requires Valid()
      modifies this
      ensures Valid()
      ensures currentStory.title == title && currentStory.content == content
      ensures clonedVoiceId == old(clonedVoiceId) && elevenLabsApiKey == old(elevenLabsApiKey)
    {
      currentStory := StoryLibrary.StoryInput(title, content);
    }

    /** The "Story Player" tab shows the player, rather than "No story to play", only for a story with content. */
    predicate ShowsPlayer()
      reads this
    {
      currentStory.content != []
    }

    /** The `currentStory` prop of the library: the story only when it has content. */
    function LibraryStory(): (story: Option<StoryLibrary.StoryInput>)
      reads this
      ensures story.Some? <==> currentStory.content != []
      ensures story.Some? ==> story.value == currentStory
    {
      if currentStory.content != [] then Some(currentStory) else None
    }

    /** The library auto-saves the story being played exactly when it has a title. */
    lemma LibrarySavesWhatIsPlayed()
      ensures StoryLibrary.ShouldAutoSave(LibraryStory()) <==> ShowsPlayer() && currentStory.title != []
    {
    }

    /**
     * Opens the player tab and presses play: builds the player with the
     * page's voice and key and lets it ask for speech. Since the key is
     * always empty, speech is never requested.
     */
    method OpenPlayer(speech: StoryPlayer.SpeechResult) returns (player: Option<StoryPlayer.Player>, requested: bool)
      requires Valid()
      requires speech.SpeechReady? ==> speech.duration > 0.0
      ensures player.Some? <==> ShowsPlayer()
      ensures !requested
      ensures player.Some? ==>
        && player.value.story == currentStory.content && player.value.title == currentStory.title
        && player.value.voiceId == clonedVoiceId && player.value.apiKey == []
        && player.value.audio.None? && !player.value.isPlaying
    {
      if currentStory.content == [] {
        return None, false;
      }
      var p := new StoryPlayer.Player(currentStory.content, currentStory.title, clonedVoiceId, elevenLabsApiKey);
      requested := p.GenerateSpeech(speech);
      player := Some(p);
    }
  }
}
