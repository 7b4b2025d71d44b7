/**
 * `POST /api/voices` of src/app/api/voices/route.ts.
 *
 * The handler checks the session, then the voice name, then the audio file,
 * creates a voice record in status PROCESSING, asks the voice service to
 * clone the voice and moves the record to READY (with the service's voice id)
 * or to FAILED. The database is a sequence of records; the session, the form
 * fields and the clone outcome are inputs.
 */
module VoicesRoute {
  import opened Wrappers

  /** A multipart form value: an uploaded file or a text field. */
  datatype FormValue = FileValue(size: nat) | TextValue(text: string)

  /** The two form fields the handler reads; `None` is a missing field. */
  datatype VoiceForm = VoiceForm(name: Option<string>, audio: Option<FormValue>)

  /** The signed-in user as the session carries it. */
  datatype SessionUser = SessionUser(id: Option<string>, email: Option<string>)

  datatype VoiceStatus = Processing | Ready | Failed

  datatype VoiceRecord = VoiceRecord(
    id: nat,
    userId: string,
    name: string,
    status: VoiceStatus,
    elevenLabsId: Option<string>)

  /** What is sent to the voice service. */
  datatype CloneRequest = CloneRequest(name: string, description: string)

  /** What the voice service answered: an error, or the new voice's id. */
  datatype CloneOutcome = CloneFailed | Cloned(voiceId: string)

  datatype Body = ErrorText(message: string) | VoiceBody(voice: VoiceRecord)
  datatype Response = Response(status: nat, body: Body)

  const NameTooShortMessage := "Voice name must be at least 2 characters"
  const AudioRequiredMessage := "Audio file is required"

  predicate SignedIn(session: Option<SessionUser>) {
    session.Some? && session.value.id.Some? && session.value.id.value != []
  }

  /** `!name || name.length < 2`: a missing or one-character name is refused. */
  predicate NameAcceptable(name: Option<string>) {
    name.Some? && |name.value| >= 2
  }

  /** `!audioFile`: a missing field or an empty text value is refused; any file passes. */
  predicate AudioPresent(audio: Option<FormValue>) {
    audio.Some? && (audio.value.FileValue? || audio.value.text != [])
  }

  /** A template literal renders a missing email as "undefined". */
  function EmailText(email: Option<string>): (shown: string)
    ensures email.Some? ==> shown == email.value
  {
    email.GetOr("undefined")
  }

  function CloneRequestFor(name: string, email: Option<string>): (request: CloneRequest)
    ensures request.name == name + " - Somni"
    ensures request.description == "Voice cloned for Somni bedtime stories - " + EmailText(email)
  {
    CloneRequest(name + " - Somni", "Voice cloned for Somni bedtime stories - " + EmailText(email))
  }

  /** The record after cloning: READY with the service's id, or FAILED. */
  function Finish(pending: VoiceRecord, outcome: CloneOutcome): (r: VoiceRecord)
    requires pending.status == Processing
    ensures outcome.Cloned? <==> r.status == Ready
    ensures outcome.Cloned? ==> r == pending.(status := Ready, elevenLabsId := Some(outcome.voiceId))
    ensures outcome.CloneFailed? ==> r == pending.(status := Failed)
  {
    match outcome
    case Cloned(voiceId) => pending.(status := Ready, elevenLabsId := Some(voiceId))
    case CloneFailed => pending.(status := Failed)
  }

  /** A record the handler has finished with: never left PROCESSING, an id exactly when READY. */
  predicate Settled(r: VoiceRecord) {
    && r.status != Processing
    && (r.status == Ready <==> r.elevenLabsId.Some?)
    && |r.name| >= 2
  }

  class VoiceStore {
    /** The voice table; a record's id is its position. */
    var records: seq<VoiceRecord>

    ghost predicate Valid()
      reads this
    {
      forall i :: 0 <= i < |records| ==> records[i].id == i && Settled(records[i])
    }

    constructor ()
      ensures Valid() && records == []
    {
      records := [];
    }

    /**
     * Returns the response and, when the checks pass, the request sent to the
     * voice service. `parsed` is `None` when the body cannot be read as a
     * form (`request.formData()` throws).
     */
    method Post(session: Option<SessionUser>, parsed: Option<VoiceForm>, outcome: CloneOutcome)
      returns (response: Response, sent: Option<CloneRequest>)
      requires Valid()
      modifies this
      ensures Valid()
      ensures !SignedIn(session) ==>
        response == Response(401, ErrorText("Unauthorized")) && sent.None? && records == old(records)
      ensures SignedIn(session) && parsed.None? ==>
        response == Response(500, ErrorText("Failed to clone voice")) && sent.None? && records == old(records)
      ensures parsed.Some? ==> var form := parsed.value;
        && (SignedIn(session) && !NameAcceptable(form.name) ==>
          response == Response(400, ErrorText(NameTooShortMessage)) && sent.None? && records == old(records))
        && (SignedIn(session) && NameAcceptable(form.name) && !AudioPresent(form.audio) ==>
          response == Response(400, ErrorText(AudioRequiredMessage)) && sent.None? && records == old(records))
        && (SignedIn(session) && NameAcceptable(form.name) && AudioPresent(form.audio) ==>
          var voice := Finish(VoiceRecord(|old(records)|, session.value.id.value, form.name.value, Processing, None), outcome);
          && sent == Some(CloneRequestFor(form.name.value, session.value.email))
          && records == old(records) + [voice]
          && response == (if outcome.Cloned? then Response(201, VoiceBody(voice))
                          else Response(500, ErrorText("Failed to clone voice"))))
    {
      sent := None;
      if !SignedIn(session) {
        return Response(401, ErrorText("Unauthorized")), None;
      }
      if parsed.None? {
        return Response(500, ErrorText("Failed to clone voice")), None;
      }
      var form := parsed.value;
      if !NameAcceptable(form.name) {
        return Response(400, ErrorText(NameTooShortMessage)), None;
      }
      if !AudioPresent(form.audio) {
        return Response(400, ErrorText(AudioRequiredMessage)), None;
      }
      var id := |records|;
      var pending := VoiceRecord(id, session.value.id.value, form.name.value, Processing, None);
      records := records + [pending];
      sent := Some(CloneRequestFor(form.name.value, session.value.email));
      var voice := Finish(pending, outcome);
      records := records[..id] + [voice];
      if outcome.Cloned? {
        response := Response(201, VoiceBody(voice));
      } else {
        response := Response(500, ErrorText("Failed to clone voice"));
      }
    }
  }

}
