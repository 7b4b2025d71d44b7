/**
 * The karaoke story player of src/components/StoryPlayer.tsx.
 *
 * The story is split into words on runs of white space. Once the narration's
 * duration D is known, each `timeupdate` at playback time t highlights word
 * `min(floor(t / (D / n)), n - 1)` of the n words: every word gets the same
 * share of the audio. Play, pause, stop and the end of the audio move the
 * player between its states.
 */
module StoryPlayer {
  import opened Wrappers
  import opened Strings

  /** The words that are displayed and highlighted: `story.split(/\s+/)`. */
  function Words(story: string): (words: seq<string>)
    ensures |words| >= 1
    ensures forall i :: 0 <= i < |words| ==> NoSpace(words[i])
  {
    Split(story)
  }

  /** The word highlighted at playback time `t` of audio lasting `duration` seconds. */
  function HighlightIndex(t: real, duration: real, wordCount: nat): (i: int)
    requires duration > 0.0 && wordCount >= 1
    ensures i <= wordCount - 1
    ensures t >= 0.0 ==> i >= 0
    ensures t >= duration ==> i == wordCount - 1
  {
    var timePerWord := duration / wordCount as real;
    var slot := (t / timePerWord).Floor;
    assert timePerWord > 0.0;
    assert t >= 0.0 ==> slot >= 0 by {
      if t >= 0.0 {
        DivideMonotone(0.0, t, timePerWord);
        FloorMonotone(0.0, t / timePerWord);
      }
    }
    assert t >= duration ==> slot >= wordCount by {
      if t >= duration {
        WholeOverShare(duration, wordCount);
        DivideMonotone(duration, t, timePerWord);
        FloorMonotone(wordCount as real, t / timePerWord);
      }
    }
    if slot < wordCount - 1 then slot else wordCount - 1
  }

  /** The whole divided by one n-th share of it is n. */
  lemma WholeOverShare(d: real, n: nat)
    requires d > 0.0 && n >= 1
    ensures d / (d / n as real) == n as real
  {
    var w := d / n as real;
    assert w * n as real == d;
  }

  lemma DivideMonotone(a: real, b: real, w: real)
    requires w > 0.0 && a <= b
    ensures a / w <= b / w
  {
    assert b / w - a / w == (b - a) / w;
  }

  lemma FloorMonotone(x: real, y: real)
    requires x <= y
    ensures x.Floor <= y.Floor
  {
  }

  /** Playing forward never moves the highlight back. */
  lemma HighlightMonotone(t1: real, t2: real, duration: real, wordCount: nat)
    requires duration > 0.0 && wordCount >= 1 && t1 <= t2
    ensures HighlightIndex(t1, duration, wordCount) <= HighlightIndex(t2, duration, wordCount)
  {
    var timePerWord := duration / wordCount as real;
    DivideMonotone(t1, t2, timePerWord);
    FloorMonotone(t1 / timePerWord, t2 / timePerWord);
  }

  /** Scaling by a positive slot length keeps the order: k <= t / w iff k * w <= t. */
  lemma ScaledBelow(k: real, t: real, w: real)
    requires w > 0.0
    ensures k <= t / w <==> k * w <= t
  {
    var x := t / w;
    assert x * w == t;
    if k <= x {
      assert x * w - k * w == (x - k) * w;
    } else {
      assert k * w - x * w == (k - x) * w;
    }
  }

  /**
   * During playback (0 <= t < D), word i is highlighted exactly while t lies
   * in its own slot [i * D / n, (i + 1) * D / n).
   */
  lemma HighlightSlot(t: real, duration: real, wordCount: nat, i: nat)
    requires duration > 0.0 && wordCount >= 1 && 0.0 <= t < duration && i < wordCount
    ensures HighlightIndex(t, duration, wordCount) == i <==>
      i as real * (duration / wordCount as real) <= t < (i + 1) as real * (duration / wordCount as real)
  {
    var w := duration / wordCount as real;
    var x := t / w;
    ScaledBelow(i as real, t, w);
    ScaledBelow((i + 1) as real, t, w);
    ScaledBelow(wordCount as real, t, w);
    assert wordCount as real * w == duration;
    assert x < wordCount as real;
    assert x.Floor == i <==> i as real <= x < (i + 1) as real;
  }

  /** Over any run of forward playback times the highlighted indices never decrease. */
  lemma {:induction false} ForwardPlayback(times: seq<real>, duration: real, wordCount: nat)
    requires duration > 0.0 && wordCount >= 1
    requires forall j :: 0 < j < |times| ==> times[j - 1] <= times[j]
    ensures forall j, k :: 0 <= j <= k < |times| ==>
      HighlightIndex(times[j], duration, wordCount) <= HighlightIndex(times[k], duration, wordCount)
    decreases |times|
  {
    if |times| > 1 {
      var init := times[..|times| - 1];
      ForwardPlayback(init, duration, wordCount);
      var last := |times| - 1;
      HighlightMonotone(times[last - 1], times[last], duration, wordCount);
      forall j, k | 0 <= j <= k < |times|
        ensures HighlightIndex(times[j], duration, wordCount) <= HighlightIndex(times[k], duration, wordCount)
      {
        if k < last {
          assert times[j] == init[j] && times[k] == init[k];
        } else if j < last {
          assert times[j] == init[j] && times[last - 1] == init[last - 1];
        }
      }
    }
  }

  // ---------------------------------------------------------------------------
  // Rendering decisions
  // ---------------------------------------------------------------------------

  datatype WordStyle = Highlighted | AlreadyRead | NotYetRead

  /** How word `i` is styled while word `current` is highlighted (-1: none). */
  function StyleOf(i: nat, current: int): (style: WordStyle)
    ensures style == Highlighted <==> i == current
    ensures style == AlreadyRead <==> i < current
    ensures style == NotYetRead <==> i > current
  {
    if i == current then Highlighted
    else if i < current then AlreadyRead
    else NotYetRead
  }

  /** The "Reading aloud..." indicator. */
  predicate ShowsReadingAloud(current: int) {
    current >= 0
  }

  /** The card's heading: the title, or "Your Bedtime Story" when it is empty. */
  function DisplayTitle(title: string): (heading: string)
    ensures heading != []
    ensures title != [] ==> heading == title
  {
    if title == [] then "Your Bedtime Story" else title
  }

  // ---------------------------------------------------------------------------
  // Player state
  // ---------------------------------------------------------------------------

  /** The loaded narration: its duration and the element's current time. */
  datatype Audio = Audio(duration: real, position: real)

  /** What the text-to-speech request and the metadata load produce. */
  datatype SpeechResult = SpeechFailed | SpeechReady(duration: real)

  class Player {
    const story: string
    const title: string
    const voiceId: string
    const apiKey: string
    var isPlaying: bool
    var isLoading: bool
    var currentWordIndex: int
    /** `audioRef.current` (and, with it, `audioUrl`): `None` until speech is generated. */
    var audio: Option<Audio>

    ghost predicate Valid()
      reads this
    {
      && -1 <= currentWordIndex < |Words(story)|
      && (audio.Some? ==> audio.value.duration > 0.0 && audio.value.position >= 0.0)
    }

    constructor (story: string, title: string, voiceId: string, apiKey: string)
      ensures Valid()
      ensures this.story == story && this.title == title && this.voiceId == voiceId && this.apiKey == apiKey
      ensures !isPlaying && !isLoading && currentWordIndex == -1 && audio.None?
    {
      this.story := story;
      this.title := title;
      this.voiceId := voiceId;
      this.apiKey := apiKey;
      isPlaying := false;
      isLoading := false;
      currentWordIndex := -1;
      audio := None;
    }

    /**
     * `generateSpeech`: without an API key or a voice it stops before the
     * loading flag is set and nothing changes; otherwise it loads the audio
     * when synthesis succeeds, and the loading flag is down again afterwards.
     */
    method GenerateSpeech(result: SpeechResult) returns (requested: bool)
      requires Valid()
      requires result.SpeechReady? ==> result.duration > 0.0
      modifies this
      ensures Valid()
      ensures requested <==> apiKey != [] && voiceId != []
      ensures !requested ==> unchanged(this)
      ensures requested ==> !isLoading
      ensures requested ==> audio == (if result.SpeechReady? then Some(Audio(result.duration, 0.0)) else old(audio))
      ensures isPlaying == old(isPlaying) && currentWordIndex == old(currentWordIndex)
    {
      if apiKey == [] || voiceId == [] {
        return false;
      }
      isLoading := true;
      if result.SpeechReady? {
        audio := Some(Audio(result.duration, 0.0));
      }
      isLoading := false;
      return true;
    }

    /** The `timeupdate` listener: highlight the word for the element's current time. */
    method TimeUpdate(t: real)
      requires Valid() && audio.Some? && t >= 0.0
      modifies this
      ensures Valid()
      ensures currentWordIndex == HighlightIndex(t, old(audio.value.duration), |Words(story)|)
      ensures ShowsReadingAloud(currentWordIndex)
      ensures audio == Some(Audio(old(audio.value.duration), t))
      ensures isPlaying == old(isPlaying) && isLoading == old(isLoading)
    {
      currentWordIndex := HighlightIndex(t, audio.value.duration, |Words(story)|);
      audio := Some(audio.value.(position := t));
    }

    /** The `ended` listener. */
    method Ended()
      requires Valid() && audio.Some?
      modifies this
      ensures Valid()
      ensures !isPlaying && currentWordIndex == -1 && !ShowsReadingAloud(currentWordIndex)
      ensures audio == old(audio) && isLoading == old(isLoading)
    {
      isPlaying := false;
      currentWordIndex := -1;
    }

    /** `playStory`: only with audio loaded. */
    method Play()
      requires Valid()
      modifies this
      ensures Valid()
      ensures old(audio).None? ==> unchanged(this)
      ensures old(audio).Some? ==> isPlaying
      ensures audio == old(audio) && currentWordIndex == old(currentWordIndex) && isLoading == old(isLoading)
    {
      if audio.Some? {
        isPlaying := true;
      }
    }

    /** `pauseStory`: only with audio loaded; the position and highlight stay. */
    method Pause()
      requires Valid()
      modifies this
      ensures Valid()
      ensures old(audio).None? ==> unchanged(this)
      ensures old(audio).Some? ==> !isPlaying
      ensures audio == old(audio) && currentWordIndex == old(currentWordIndex) && isLoading == old(isLoading)
    {
      if audio.Some? {
        isPlaying := false;
      }
    }

    /** `stopStory`: rewind to the start and clear the highlight, only with audio loaded. */
    method Stop()
      requires Valid()
      modifies this
      ensures Valid()
      ensures old(audio).None? ==> unchanged(this)
      ensures old(audio).Some? ==>
        && !isPlaying && currentWordIndex == -1
        && audio == Some(Audio(old(audio.value.duration), 0.0))
      ensures isLoading == old(isLoading)
    {
      if audio.Some? {
        isPlaying := false;
        audio := Some(audio.value.(position := 0.0));
        currentWordIndex := -1;
      }
    }
  }
}
