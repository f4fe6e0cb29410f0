/** The record types of the propaganda schema, with the validation that
    constructing them performs. Missing fields arrive as `None`. */
module Schema {
  import opened Wrappers

  /** A radio host: exactly a name and a gender, both strings. */
  datatype Speaker = Speaker(name: string, gender: string)

  /** The request body for creating a mission. */
  datatype PropagandaCreate = PropagandaCreate(topic: string)

  /** A generated propaganda piece. */
  datatype Propaganda = Propaganda(
    summary: string,
    speakers: seq<Speaker>,
    initialListeners: int,
    awakenedListeners: int)

  /** One line of generated dialogue. The type is used by the services but
      its declaration is not part of this model; these are the two fields
      they read. */
  datatype DialogueLine = DialogueLine(speakerName: string, line: string)

  /** The structured stage-one result. Its declaration is not part of this
      model; the services only read these two fields. */
  datatype PropagandaGenerationResult = PropagandaGenerationResult(
    speakers: seq<Speaker>,
    proofSentences: seq<string>)

  /** A stored mission, as the game session reads it: the stage-two prompt
      (possibly unset) and the stage-one result. */
  datatype PropagandaMission = PropagandaMission(
    dialogueGeneratorPrompt: Option<string>,
    generationResult: PropagandaGenerationResult)

  /** A validation failure names the fields that failed, in declaration
      order. */
  datatype ValidationError = ValidationError(fields: seq<string>)

  const MIN_SPEAKERS: nat := 1
  const MAX_SPEAKERS: nat := 4

  /** The field constraint on `Propaganda.speakers`. */
  predicate SpeakerCountOk(speakers: seq<Speaker>) {
    MIN_SPEAKERS <= |speakers| <= MAX_SPEAKERS
  }

  predicate ValidPropaganda(p: Propaganda) {
    SpeakerCountOk(p.speakers)
  }

  /** Building a `Speaker`: both fields are required. */
  function NewSpeaker(name: Option<string>, gender: Option<string>): (r: Result<Speaker, ValidationError>)
    ensures r.Success? <==> name.Some? && gender.Some?
    ensures r.Success? ==> r.value.name == name.value && r.value.gender == gender.value
    ensures r.Failure? ==> (("name" in r.error.fields <==> name.None?) &&
                            ("gender" in r.error.fields <==> gender.None?))
  {
    if name.Some? && gender.Some? then Success(Speaker(name.value, gender.value))
    else Failure(ValidationError(
      (if name.None? then ["name"] else []) + (if gender.None? then ["gender"] else [])))
  }

  /** Building a `PropagandaCreate`: `topic` has no default. */
  function NewPropagandaCreate(topic: Option<string>): (r: Result<PropagandaCreate, ValidationError>)
    ensures r.Success? <==> topic.Some?
    ensures r.Success? ==> r.value.topic == topic.value
    ensures r.Failure? ==> r.error.fields == ["topic"]
  {
    match topic
    case Some(t) => Success(PropagandaCreate(t))
    case None => Failure(ValidationError(["topic"]))
  }

  /** The fields of `Propaganda` whose values are missing or break the
      speaker-count bound, in declaration order. */
  function PropagandaProblems(summary: Option<string>, speakers: Option<seq<Speaker>>,
                              initialListeners: Option<int>): seq<string>
  {
    (if summary.None? then ["summary"] else []) +
    (if speakers.None? || !SpeakerCountOk(speakers.value) then ["speakers"] else []) +
    (if initialListeners.None? then ["initial_listeners"] else [])
  }

  /** Building a `Propaganda`: three required fields, one to four speakers,
      and `awakened_listeners` defaulting to 0. */
  function NewPropaganda(summary: Option<string>, speakers: Option<seq<Speaker>>,
                         initialListeners: Option<int>, awakenedListeners: Option<int>)
    : (r: Result<Propaganda, ValidationError>)
    ensures r.Success? <==> summary.Some? && speakers.Some? && initialListeners.Some?
                            && 1 <= |speakers.value| <= 4
    ensures r.Success? ==> ValidPropaganda(r.value)
    ensures r.Success? ==> (r.value.summary == summary.value &&
                            r.value.speakers == speakers.value &&
                            r.value.initialListeners == initialListeners.value)
    ensures r.Success? && awakenedListeners.None? ==> r.value.awakenedListeners == 0
    ensures r.Success? && awakenedListeners.Some? ==> r.value.awakenedListeners == awakenedListeners.value
    ensures r.Failure? ==> |r.error.fields| > 0 &&
                           ("speakers" in r.error.fields <==>
                              speakers.None? || |speakers.value| < 1 || 4 < |speakers.value|)
  {
    var problems := PropagandaProblems(summary, speakers, initialListeners);
    if problems == [] then
      Success(Propaganda(summary.value, speakers.value, initialListeners.value,
                         awakenedListeners.GetOr(0)))
    else
      Failure(ValidationError(problems))
  }
}
