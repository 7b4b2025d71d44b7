/**
 * The voice picker of src/components/VoiceCloning.tsx.
 *
 * The user enters an ElevenLabs key and picks one of seven stock voices.
 * "Use This Voice" hands the voice id and the key to the page and names the
 * voice in a notice; "Test Voice" plays a preview. Both require a key and a
 * voice, and the preview button is also disabled while a preview is loading.
 */
module VoiceCloning {
  import opened Wrappers

  datatype Voice = Voice(id: string, name: string, description: string)

  /** `DEFAULT_VOICES` */
  const DefaultVoices: seq<Voice> := [
    Voice("21m00Tcm4TlvDq8ikWAM", "Rachel", "Calm and soothing female voice"),
    Voice("EXAVITQu4vr4xnSDxMaL", "Bella", "Warm and friendly female voice"),
    Voice("ErXwobaYiN019PkySvjV", "Antoni", "Gentle male voice"),
    Voice("VR6AewLTigWG4xSOukaG", "Arnold", "Deep and reassuring male voice"),
    Voice("pNInz6obpgDQGcFmaJgB", "Adam", "Clear and articulate male voice"),
    Voice("Yko7PKHZNXotIFUBG7I9", "Domi", "Young and energetic female voice"),
    Voice("zrHiDhphv9ZnVXBqCLjz", "Mimi", "Childlike and playful female voice")
  ]

  const FallbackName := "Selected voice"

  predicate DistinctIds(voices: seq<Voice>) {
    forall i, j :: 0 <= i < j < |voices| ==> voices[i].id != voices[j].id
  }

  /** The table lists seven voices, no id twice. */
  lemma DefaultVoicesDistinct()
    ensures |DefaultVoices| == 7 && DistinctIds(DefaultVoices)
  {
    var v := DefaultVoices;
    // Ids are told apart by their first two characters.
    assert v[0].id[0] == '2' && v[1].id[0] == 'E' && v[2].id[0] == 'E' && v[3].id[0] == 'V';
    assert v[4].id[0] == 'p' && v[5].id[0] == 'Y' && v[6].id[0] == 'z';
    assert v[1].id[1] == 'X' && v[2].id[1] == 'r';
    forall i, j | 0 <= i < j < |v|
      ensures v[i].id != v[j].id
    {
      assert v[i].id[0] != v[j].id[0] || v[i].id[1] != v[j].id[1];
    }
  }

  /** `voices.find(v => v.id === id)` */
  function Find(voices: seq<Voice>, id: string): (found: Option<Voice>)
    ensures found.None? <==> forall i :: 0 <= i < |voices| ==> voices[i].id != id
    ensures found.Some? ==> found.value in voices && found.value.id == id
  {
    if voices == [] then None
    else if voices[0].id == id then Some(voices[0])
    else Find(voices[1..], id)
  }

  /** With distinct ids, the voice found for an entry's id is that entry. */
  lemma {:induction false} FindListed(voices: seq<Voice>, k: nat)
    requires DistinctIds(voices) && k < |voices|
    ensures Find(voices, voices[k].id) == Some(voices[k])
  {
    if k > 0 {
      assert voices[0].id != voices[k].id;
      assert voices[1..][k - 1] == voices[k];
      FindListed(voices[1..], k - 1);
    }
  }

  /** `find(...)?.name || 'Selected voice'`: an empty name also falls back. */
  function VoiceName(id: string): (name: string)
    ensures Find(DefaultVoices, id).Some? && Find(DefaultVoices, id).value.name != [] ==>
      name == Find(DefaultVoices, id).value.name
    ensures Find(DefaultVoices, id).None? ==> name == FallbackName
    ensures name != []
  {
    match Find(DefaultVoices, id)
    case Some(v) => if v.name != [] then v.name else FallbackName
    case None => FallbackName
  }

  /** Every listed voice is announced by its own name. */
  lemma VoiceNameOfListed(k: nat)
    requires k < |DefaultVoices|
    ensures VoiceName(DefaultVoices[k].id) == DefaultVoices[k].name
  {
    DefaultVoicesDistinct();
    FindListed(DefaultVoices, k);
  }

  /** An id that is not in the table is announced as "Selected voice". */
  lemma VoiceNameOfUnknown()
    ensures VoiceName("custom") == FallbackName
  {
    var v := DefaultVoices;
    forall i | 0 <= i < |v|
      ensures v[i].id != "custom"
    {
      assert |v[i].id| == 20;
    }
  }

  /** Both handlers and the "Use This Voice" button need a key and a voice. */
  predicate Ready(apiKey: string, selectedVoice: string) {
    apiKey != [] && selectedVoice != []
  }

  predicate UseDisabled(apiKey: string, selectedVoice: string) {
    !Ready(apiKey, selectedVoice)
  }

  predicate TestDisabled(apiKey: string, selectedVoice: string, isTestingVoice: bool) {
    !Ready(apiKey, selectedVoice) || isTestingVoice
  }

  /** What the page's `onVoiceCloned` callback receives. */
  datatype Selection = Selection(voiceId: string, apiKey: string)

  class Picker {
    var apiKey: string
    var selectedVoice: string
    var isTestingVoice: bool

    constructor ()
      ensures apiKey == [] && selectedVoice == [] && !isTestingVoice
    {
      apiKey := [];
      selectedVoice := [];
      isTestingVoice := false;
    }

    /** The key field's `onChange`: the key becomes what was typed. */
    method SetApiKey(key: string)
      modifies this
      ensures apiKey == key
      ensures selectedVoice == old(selectedVoice) && isTestingVoice == old(isTestingVoice)
    {
      apiKey := key;
    }

    /** The voice list's `onValueChange`: the chosen voice's id becomes the selection. */
    method ChooseVoice(id: string)
      modifies this
      ensures selectedVoice == id
      ensures apiKey == old(apiKey) && isTestingVoice == old(isTestingVoice)
    {
      selectedVoice := id;
    }

    /**
     * `handleVoiceSelection`: the selection handed to the page, if any, and
     * the name the notice gives.
     */
    method SelectVoice() returns (callback: Option<Selection>, shownName: Option<string>)
      ensures callback.None? <==> !Ready(apiKey, selectedVoice)
      ensures callback.Some? ==> callback.value == Selection(selectedVoice, apiKey)
      ensures shownName.Some? <==> callback.Some?
      ensures shownName.Some? ==> shownName.value == VoiceName(selectedVoice)
    {
      if apiKey == [] || selectedVoice == [] {
        return None, None;
      }
      callback := Some(Selection(selectedVoice, apiKey));
      shownName := Some(VoiceName(selectedVoice));
    }

    /**
     * `testVoice`: returns whether a preview request was sent. Whether the
     * preview played or failed only changes the notice shown, so it is not
     * an input here.
     */
    method TestVoice() returns (requested: bool)
      modifies this
      ensures requested <==> Ready(old(apiKey), old(selectedVoice))
      ensures !isTestingVoice || (!requested && unchanged(this))
      ensures apiKey == old(apiKey) && selectedVoice == old(selectedVoice)
      ensures !requested ==> unchanged(this)
    {
      if apiKey == [] || selectedVoice == [] {
        return false;
      }
      isTestingVoice := true;
      isTestingVoice := false;
      requested := true;
    }
  }
}
