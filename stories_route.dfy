/**
 * `POST /api/stories` of src/app/api/stories/route.ts.
 *
 * The handler checks the session, validates the JSON body against the
 * story schema, creates a story record in status GENERATING, asks the model
 * for the story and then moves the record to READY (with title, content and
 * an estimated reading time) or, when generation fails, to DRAFT.
 * The database is a sequence of records; the session's user id, the request
 * body and the outcome of generation are inputs.
 */
module StoriesRoute {
  import opened Wrappers
  import opened Strings
  import OpenAI

  // ---------------------------------------------------------------------------
  // Request validation
  // ---------------------------------------------------------------------------

  /** A field of the JSON body: a string, or any other JSON value. */
  datatype Json = JString(text: string) | JOther

  /** The fields the schema looks at; `None` is an absent key. */
  datatype RequestBody = RequestBody(
    prompt: Option<Json>,
    childName: Option<Json>,
    ageGroup: Option<Json>,
    voiceId: Option<Json>)

  /**
   * What `request.json()` gives: a body that is not JSON at all (the call
   * throws), a JSON value that is not an object (an array, a string, null, ...),
   * or an object with these fields.
   */
  datatype JsonBody = Unparsable | NotAnObject | Object(fields: RequestBody)

  /** The schema's first complaint, in the order the schema lists its keys. */
  datatype Issue =
    | BodyNotObject      // the schema expects an object: the schema library's own message
    | PromptNotText      // absent or not a string: the schema library's own message
    | PromptTooShort     // fewer than 10 characters: the schema's own message
    | ChildNameNotText
    | AgeGroupInvalid
    | VoiceIdNotText

  datatype CreateStory = CreateStory(
    prompt: string,
    childName: Option<string>,
    ageGroup: OpenAI.AgeGroup,
    voiceId: Option<string>)

  datatype Validation = Rejected(issue: Issue) | Accepted(request: CreateStory)

  const MinPromptLength := 10
  const PromptTooShortMessage := "Please describe your story idea in more detail"

  /** The enum's wire names back to age groups. */
  function ParseAgeGroup(name: string): (a: Option<OpenAI.AgeGroup>)
    ensures a.Some? ==> OpenAI.AgeGroupName(a.value) == name
  {
    if name == "TODDLER" then Some(OpenAI.Toddler)
    else if name == "PRESCHOOL" then Some(OpenAI.Preschool)
    else if name == "EARLY_READER" then Some(OpenAI.EarlyReader)
    else if name == "CHAPTER_BOOK" then Some(OpenAI.ChapterBook)
    else None
  }

  /** Every age group's wire name is accepted and read back as that group. */
  lemma ParseAgeGroupName(a: OpenAI.AgeGroup)
    ensures ParseAgeGroup(OpenAI.AgeGroupName(a)) == Some(a)
  {
  }

  /** An optional string field: absent, or a string. */
  predicate OptionalText(f: Option<Json>) {
    f.None? || f.value.JString?
  }

  function OptionalValue(f: Option<Json>): (v: Option<string>)
    requires OptionalText(f)
    ensures v.Some? <==> f.Some?
  {
    match f
    case None => None
    case Some(j) => Some(j.text)
  }

  predicate AgeGroupAcceptable(f: Option<Json>) {
    f.None? || (f.value.JString? && ParseAgeGroup(f.value.text).Some?)
  }

  /** `createStorySchema.parse(body)`, reporting the first issue. */
  function Validate(body: RequestBody): (v: Validation)
    ensures v.Accepted? <==>
      && body.prompt.Some? && body.prompt.value.JString? && |body.prompt.value.text| >= MinPromptLength
      && OptionalText(body.childName) && AgeGroupAcceptable(body.ageGroup) && OptionalText(body.voiceId)
    ensures v.Accepted? ==>
      && Some(JString(v.request.prompt)) == body.prompt
      && v.request.childName == OptionalValue(body.childName)
      && v.request.voiceId == OptionalValue(body.voiceId)
      && (body.ageGroup.None? ==> v.request.ageGroup == OpenAI.Preschool)
      && (body.ageGroup.Some? ==> body.ageGroup == Some(JString(OpenAI.AgeGroupName(v.request.ageGroup))))
    ensures body.prompt.Some? && body.prompt.value.JString? && |body.prompt.value.text| < MinPromptLength ==>
      v == Rejected(PromptTooShort)
    ensures body.prompt.None? || body.prompt.value.JOther? ==> v == Rejected(PromptNotText)
  {
    if body.prompt.None? || body.prompt.value.JOther? then Rejected(PromptNotText)
    else if |body.prompt.value.text| < MinPromptLength then Rejected(PromptTooShort)
    else if !OptionalText(body.childName) then Rejected(ChildNameNotText)
    else if !AgeGroupAcceptable(body.ageGroup) then Rejected(AgeGroupInvalid)
    else if !OptionalText(body.voiceId) then Rejected(VoiceIdNotText)
    else
      var ageGroup := if body.ageGroup.None? then OpenAI.Preschool else ParseAgeGroup(body.ageGroup.value.text).value;
      Accepted(CreateStory(body.prompt.value.text, OptionalValue(body.childName), ageGroup, OptionalValue(body.voiceId)))
  }

  /** A prompt of at least ten characters with every optional field left out is accepted as a preschool story. */
  lemma MinimalBodyAccepted(prompt: string)
    requires |prompt| >= MinPromptLength
    ensures Validate(RequestBody(Some(JString(prompt)), None, None, None))
      == Accepted(CreateStory(prompt, None, OpenAI.Preschool, None))
  {
  }

  // ---------------------------------------------------------------------------
  // Story records and their lifecycle
  // ---------------------------------------------------------------------------

  datatype StoryStatus = Draft | Generating | Ready

  datatype StoryRecord = StoryRecord(
    id: nat,
    userId: string,
    prompt: string,
    childName: Option<string>,
    ageGroup: OpenAI.AgeGroup,
    voiceId: Option<string>,
    title: string,
    content: string,
    duration: Option<nat>,
    status: StoryStatus)

  const PendingTitle := "Generating..."

  /** JavaScript's `value || null` on an optional string: the empty string is stored as null. */
  function NonEmpty(o: Option<string>): (r: Option<string>)
    ensures r.Some? <==> o.Some? && o.value != []
    ensures r.Some? ==> r == o
  {
    if o.Some? && o.value != [] then o else None
  }

  /** The record created before generation starts. */
  function Pending(id: nat, userId: string, request: CreateStory): (r: StoryRecord)
    ensures r.status == Generating && r.title == PendingTitle && r.content == [] && r.duration.None?
    ensures r.id == id && r.userId == userId && r.prompt == request.prompt && r.ageGroup == request.ageGroup
    ensures r.childName == NonEmpty(request.childName) && r.voiceId == NonEmpty(request.voiceId)
  {
    StoryRecord(id, userId, request.prompt, NonEmpty(request.childName), request.ageGroup,
      NonEmpty(request.voiceId), PendingTitle, "", None, Generating)
  }

  /** Reading time in seconds at 120 words a minute, rounded up: ceil(words / 2). */
  function EstimatedDuration(content: string): (seconds: nat)
    ensures 2 * seconds >= |Split(content)|
    ensures 2 * seconds < |Split(content)| + 2
    ensures seconds >= 1
  {
    (|Split(content)| + 1) / 2
  }

  /** What `generateStory` produced: a thrown error, or the model's reply. */
  datatype Generation = GenerationFailed | Generated(reply: Option<string>)

  /** The record after generation: READY with the parsed story, or DRAFT when generation failed. */
  function Finish(pending: StoryRecord, generation: Generation): (r: StoryRecord)
    ensures generation.GenerationFailed? ==> r == pending.(status := Draft)
    ensures generation.Generated? ==>
      && r.status == Ready
      && OpenAI.StoryText(r.title, r.content) == OpenAI.ParseStory(generation.reply)
      && r.duration == Some(EstimatedDuration(r.content))
      && r == pending.(title := r.title, content := r.content, duration := r.duration, status := Ready)
  {
    match generation
    case GenerationFailed => pending.(status := Draft)
    case Generated(reply) =>
      var story := OpenAI.ParseStory(reply);
      pending.(title := story.title, content := story.content,
               duration := Some(EstimatedDuration(story.content)), status := Ready)
  }

  /** A record the handler has finished with: never left GENERATING. */
  predicate Settled(r: StoryRecord) {
    && r.status != Generating
    && (r.status == Ready ==>
          r.duration == Some(EstimatedDuration(r.content)) && OpenAI.NoLineTerminator(r.title))
    && (r.status == Draft ==> r.title == PendingTitle && r.content == [] && r.duration.None?)
  }

  /** Every request that reaches generation leaves its record settled. */
  lemma FinishSettles(id: nat, userId: string, request: CreateStory, generation: Generation)
    ensures Settled(Finish(Pending(id, userId, request), generation))
  {
  }

  // ---------------------------------------------------------------------------
  // The handler
  // ---------------------------------------------------------------------------

  datatype Body = ErrorText(message: string) | SchemaIssue(issue: Issue) | StoryBody(story: StoryRecord)
  datatype Response = Response(status: nat, body: Body)

  /** `!session?.user?.id` fails for a missing and for an empty id. */
  predicate SignedIn(userId: Option<string>) {
    userId.Some? && userId.value != []
  }

  /** The 400 body: the schema's own message for a short prompt, the library's message otherwise. */
  function RejectionBody(issue: Issue): (b: Body)
    ensures issue == PromptTooShort ==> b == ErrorText(PromptTooShortMessage)
    ensures issue != PromptTooShort ==> b == SchemaIssue(issue)
  {
    if issue == PromptTooShort then ErrorText(PromptTooShortMessage) else SchemaIssue(issue)
  }

  class StoryStore {
    /** The story table; a record's id is its position. */
    var records: seq<StoryRecord>

    ghost predicate Valid()
      reads this
    {
      forall i :: 0 <= i < |records| ==> records[i].id == i && Settled(records[i])
    }

    constructor ()
      ensures Valid() && records == []
    {
      records := [];
    }

    method Post(userId: Option<string>, json: JsonBody, generation: Generation) returns (response: Response)
      requires Valid()
      modifies this
      ensures Valid()
      ensures !SignedIn(userId) ==>
        response == Response(401, ErrorText("Unauthorized")) && records == old(records)
      ensures SignedIn(userId) && json.Unparsable? ==>
        response == Response(500, ErrorText("Failed to create story")) && records == old(records)
      ensures SignedIn(userId) && json.NotAnObject? ==>
        response == Response(400, SchemaIssue(BodyNotObject)) && records == old(records)
      ensures SignedIn(userId) && json.Object? && Validate(json.fields).Rejected? ==>
        response == Response(400, RejectionBody(Validate(json.fields).issue)) && records == old(records)
      ensures SignedIn(userId) && json.Object? && Validate(json.fields).Accepted? ==>
        var story := Finish(Pending(|old(records)|, userId.value, Validate(json.fields).request), generation);
        && records == old(records) + [story]
        && response == (if generation.Generated? then Response(201, StoryBody(story))
                        else Response(500, ErrorText("Failed to create story")))
    {
      if !SignedIn(userId) {
        return Response(401, ErrorText("Unauthorized"));
      }
      if json.Unparsable? {
        return Response(500, ErrorText("Failed to create story"));
      }
      if json.NotAnObject? {
        return Response(400, SchemaIssue(BodyNotObject));
      }
      var validation := Validate(json.fields);
      if validation.Rejected? {
        return Response(400, RejectionBody(validation.issue));
      }
      var id := |records|;
      var pending := Pending(id, userId.value, validation.request);
      records := records + [pending];
      var story := Finish(pending, generation);
      records := records[..id] + [story];
      FinishSettles(id, userId.value, validation.request, generation);
      if generation.Generated? {
        response := Response(201, StoryBody(story));
      } else {
        response := Response(500, ErrorText("Failed to create story"));
      }
    }
  }
}
