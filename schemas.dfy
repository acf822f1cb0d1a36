/**
 * The three entity schemas (Gesture, VoiceCommand, Workflow) as validation
 * functions: a request body either normalises to a record with its defaults
 * filled in, or is rejected with one error per failing field, in the order
 * the fields are declared. Keys the schema does not declare are ignored.
 */
module Schemas {
  import opened Wrappers
  import opened Values

  datatype Problem = Missing | WrongType | OutOfRange
  datatype FieldError = FieldError(field: string, problem: Problem)

  /** Default detection sensitivity of a gesture. */
  const DefaultSensitivity: real := 0.7
  /** Default language of a voice command. */
  const DefaultLanguage: string := "en"

  datatype Gesture = Gesture(
    name: string,
    intent: string,
    app: Option<string>,
    sensitivity: Option<real>,
    metadata: Option<Doc>)

  datatype VoiceCommand = VoiceCommand(
    phrase: string,
    intent: string,
    language: Option<string>,
    app: Option<string>,
    context: Option<Doc>)

  datatype Workflow = Workflow(
    name: string,
    steps: seq<Doc>,
    trigger: Option<string>)

  // ---------------------------------------------------------------------
  // Collection names

  datatype Entity = GestureEntity | VoiceCommandEntity | WorkflowEntity

  function ClassName(e: Entity): string {
    match e
    case GestureEntity => "Gesture"
    case VoiceCommandEntity => "VoiceCommand"
    case WorkflowEntity => "Workflow"
  }

  function LowerChar(c: char): char {
    if 'A' <= c <= 'Z' then (c as int + 32) as char else c
  }

  /** ASCII lower-casing, enough for the class names above. */
  function Lower(s: string): string {
    seq(|s|, i requires 0 <= i < |s| => LowerChar(s[i]))
  }

  /** The collection an entity is stored in: the lowercase of its class name. */
  function CollectionName(e: Entity): (c: string)
    ensures c == Lower(ClassName(e))
  {
    match e
    case GestureEntity => "gesture"
    case VoiceCommandEntity => "voicecommand"
    case WorkflowEntity => "workflow"
  }

  // ---------------------------------------------------------------------
  // Field rules

  /** A required `str` field: present and text; any text, the empty one included. */
  function RequiredText(input: Doc, key: string): (r: Result<string, FieldError>)
    ensures r.Ok? <==> key in input && input[key].Str?
    ensures r.Ok? ==> input[key] == Str(r.value)
    ensures r.Err? ==> r.error.field == key
    ensures r.Err? ==> (r.error.problem == Missing <==> key !in input)
  {
    if key !in input then Err(FieldError(key, Missing))
    else if input[key].Str? then Ok(input[key].s)
    else Err(FieldError(key, WrongType))
  }

  /** An `Optional[str]` field with a default: absent gives the default, null gives none. */
  function OptionalText(input: Doc, key: string, default: Option<string>): (r: Result<Option<string>, FieldError>)
    ensures r.Ok? <==> key !in input || input[key].Null? || input[key].Str?
    ensures key !in input ==> r == Ok(default)
    ensures key in input && input[key].Null? ==> r == Ok(None)
    ensures key in input && input[key].Str? ==> r == Ok(Some(input[key].s))
    ensures r.Err? ==> r.error == FieldError(key, WrongType)
  {
    if key !in input then Ok(default)
    else match input[key]
      case Null => Ok(None)
      case Str(s) => Ok(Some(s))
      case _ => Err(FieldError(key, WrongType))
  }

  /** An `Optional[Dict[str, Any]]` field defaulting to `{}`; its contents are not inspected. */
  function OptionalMapping(input: Doc, key: string): (r: Result<Option<Doc>, FieldError>)
    ensures r.Ok? <==> key !in input || input[key].Null? || input[key].Dict?
    ensures key !in input ==> r == Ok(Some(map[]))
    ensures key in input && input[key].Null? ==> r == Ok(None)
    ensures key in input && input[key].Dict? ==> r == Ok(Some(input[key].fields))
    ensures r.Err? ==> r.error == FieldError(key, WrongType)
  {
    if key !in input then Ok(Some(map[]))
    else match input[key]
      case Null => Ok(None)
      case Dict(m) => Ok(Some(m))
      case _ => Err(FieldError(key, WrongType))
  }

  predicate InUnitRange(x: real) {
    0.0 <= x <= 1.0
  }

  /**
   * `sensitivity: Optional[float] = 0.7` with `ge=0.0, le=1.0`: absent gives
   * 0.7, null gives none, a number is kept as it is when inside the closed
   * interval and rejected (never clamped) outside it.
   */
  function Sensitivity(input: Doc): (r: Result<Option<real>, FieldError>)
    ensures "sensitivity" !in input ==> r == Ok(Some(DefaultSensitivity))
    ensures "sensitivity" in input && input["sensitivity"].Null? ==> r == Ok(None)
    ensures "sensitivity" in input && input["sensitivity"].Num? ==>
      if InUnitRange(input["sensitivity"].r) then r == Ok(Some(input["sensitivity"].r))
      else r == Err(FieldError("sensitivity", OutOfRange))
    ensures r.Ok? <==> ("sensitivity" !in input || input["sensitivity"].Null? ||
                        (input["sensitivity"].Num? && InUnitRange(input["sensitivity"].r)))
    ensures r.Ok? && r.value.Some? ==> InUnitRange(r.value.value)
    ensures r.Err? ==> r.error.field == "sensitivity"
  {
    if "sensitivity" !in input then Ok(Some(DefaultSensitivity))
    else match input["sensitivity"]
      case Null => Ok(None)
      case Num(x) => if InUnitRange(x) then Ok(Some(x)) else Err(FieldError("sensitivity", OutOfRange))
      case _ => Err(FieldError("sensitivity", WrongType))
  }

  /** `steps: List[Dict[str, Any]]`, required: a list whose every item is a mapping. */
  function Steps(input: Doc): (r: Result<seq<Doc>, FieldError>)
    ensures r.Ok? <==> ("steps" in input && input["steps"].List? &&
                        forall i :: 0 <= i < |input["steps"].items| ==> input["steps"].items[i].Dict?)
    ensures r.Ok? ==> (|r.value| == |input["steps"].items| &&
                       forall i :: 0 <= i < |r.value| ==> input["steps"].items[i] == Dict(r.value[i]))
    ensures r.Err? ==> r.error.field == "steps"
  {
    if "steps" !in input then Err(FieldError("steps", Missing))
    else match input["steps"]
      case List(xs) =>
        if forall i :: 0 <= i < |xs| ==> xs[i].Dict? then
          Ok(seq(|xs|, i requires 0 <= i < |xs| => xs[i].fields))
        else Err(FieldError("steps", WrongType))
      case _ => Err(FieldError("steps", WrongType))
  }

  function Errors<T>(r: Result<T, FieldError>): seq<FieldError> {
    if r.Err? then [r.error] else []
  }

  // ---------------------------------------------------------------------
  // Validation of whole entities

  function ValidateGesture(input: Doc): (r: Result<Gesture, seq<FieldError>>)
    ensures r.Ok? <==> (RequiredText(input, "name").Ok? && RequiredText(input, "intent").Ok? &&
                        OptionalText(input, "app", None).Ok? && Sensitivity(input).Ok? &&
                        OptionalMapping(input, "metadata").Ok?)
    ensures r.Err? ==> (r.error == Errors(RequiredText(input, "name")) + Errors(RequiredText(input, "intent")) +
                                   Errors(OptionalText(input, "app", None)) + Errors(Sensitivity(input)) +
                                   Errors(OptionalMapping(input, "metadata")))
    ensures r.Err? ==> r.error != []
    ensures r.Ok? ==> r.value == Gesture(RequiredText(input, "name").value, RequiredText(input, "intent").value,
                                         OptionalText(input, "app", None).value, Sensitivity(input).value,
                                         OptionalMapping(input, "metadata").value)
    ensures r.Ok? ==> WellFormedGesture(r.value)
  {
    var name, intent := RequiredText(input, "name"), RequiredText(input, "intent");
    var app, sensitivity := OptionalText(input, "app", None), Sensitivity(input);
    var metadata := OptionalMapping(input, "metadata");
    if name.Ok? && intent.Ok? && app.Ok? && sensitivity.Ok? && metadata.Ok? then
      Ok(Gesture(name.value, intent.value, app.value, sensitivity.value, metadata.value))
    else
      Err(Errors(name) + Errors(intent) + Errors(app) + Errors(sensitivity) + Errors(metadata))
  }

  function ValidateVoiceCommand(input: Doc): (r: Result<VoiceCommand, seq<FieldError>>)
    ensures r.Ok? <==> (RequiredText(input, "phrase").Ok? && RequiredText(input, "intent").Ok? &&
                        OptionalText(input, "language", Some(DefaultLanguage)).Ok? &&
                        OptionalText(input, "app", None).Ok? && OptionalMapping(input, "context").Ok?)
    ensures r.Err? ==> (r.error == Errors(RequiredText(input, "phrase")) + Errors(RequiredText(input, "intent")) +
                                   Errors(OptionalText(input, "language", Some(DefaultLanguage))) +
                                   Errors(OptionalText(input, "app", None)) + Errors(OptionalMapping(input, "context")))
    ensures r.Err? ==> r.error != []
    ensures r.Ok? ==> r.value == VoiceCommand(RequiredText(input, "phrase").value, RequiredText(input, "intent").value,
                                              OptionalText(input, "language", Some(DefaultLanguage)).value,
                                              OptionalText(input, "app", None).value,
                                              OptionalMapping(input, "context").value)
  {
    var phrase, intent := RequiredText(input, "phrase"), RequiredText(input, "intent");
    var language, app := OptionalText(input, "language", Some(DefaultLanguage)), OptionalText(input, "app", None);
    var context := OptionalMapping(input, "context");
    if phrase.Ok? && intent.Ok? && language.Ok? && app.Ok? && context.Ok? then
      Ok(VoiceCommand(phrase.value, intent.value, language.value, app.value, context.value))
    else
      Err(Errors(phrase) + Errors(intent) + Errors(language) + Errors(app) + Errors(context))
  }

  function ValidateWorkflow(input: Doc): (r: Result<Workflow, seq<FieldError>>)
    ensures r.Ok? <==> RequiredText(input, "name").Ok? && Steps(input).Ok? && OptionalText(input, "trigger", None).Ok?
    ensures r.Err? ==> (r.error == Errors(RequiredText(input, "name")) + Errors(Steps(input)) +
                                   Errors(OptionalText(input, "trigger", None)))
    ensures r.Err? ==> r.error != []
    ensures r.Ok? ==> r.value == Workflow(RequiredText(input, "name").value, Steps(input).value,
                                          OptionalText(input, "trigger", None).value)
  {
    var name, steps, trigger := RequiredText(input, "name"), Steps(input), OptionalText(input, "trigger", None);
    if name.Ok? && steps.Ok? && trigger.Ok? then
      Ok(Workflow(name.value, steps.value, trigger.value))
    else
      Err(Errors(name) + Errors(steps) + Errors(trigger))
  }

  // ---------------------------------------------------------------------
  // Records as stored: the dump of a normalised record, every field present

  function TextValue(o: Option<string>): Value {
    match o
    case None => Null
    case Some(s) => Str(s)
  }

  function NumValue(o: Option<real>): Value {
    match o
    case None => Null
    case Some(x) => Num(x)
  }

  function MappingValue(o: Option<Doc>): Value {
    match o
    case None => Null
    case Some(m) => Dict(m)
  }

  /** A gesture whose sensitivity, when present, lies in [0, 1]. */
  predicate WellFormedGesture(g: Gesture) {
    g.sensitivity.Some? ==> InUnitRange(g.sensitivity.value)
  }

  function GestureDoc(g: Gesture): Doc {
    map["name" := Str(g.name), "intent" := Str(g.intent), "app" := TextValue(g.app),
        "sensitivity" := NumValue(g.sensitivity), "metadata" := MappingValue(g.metadata)]
  }

  function VoiceCommandDoc(v: VoiceCommand): Doc {
    map["phrase" := Str(v.phrase), "intent" := Str(v.intent), "language" := TextValue(v.language),
        "app" := TextValue(v.app), "context" := MappingValue(v.context)]
  }

  function WorkflowDoc(w: Workflow): Doc {
    map["name" := Str(w.name), "steps" := List(seq(|w.steps|, i requires 0 <= i < |w.steps| => Dict(w.steps[i]))),
        "trigger" := TextValue(w.trigger)]
  }

  // ---------------------------------------------------------------------
  // Properties of the schemas

  const GestureFields: set<string> := {"name", "intent", "app", "sensitivity", "metadata"}
  const VoiceCommandFields: set<string> := {"phrase", "intent", "language", "app", "context"}

  /** A gesture body without `name` or without `intent` is rejected, naming the missing field. */
  lemma GestureNeedsNameAndIntent(input: Doc)
    requires "name" !in input || "intent" !in input
    ensures ValidateGesture(input).Err?
    ensures "name" !in input ==> FieldError("name", Missing) in ValidateGesture(input).error
    ensures "intent" !in input ==> FieldError("intent", Missing) in ValidateGesture(input).error
  {
  }

  /**
   * What an accepted gesture holds: the given texts and mapping, the defaults
   * for omitted fields, and none for a field given as null.
   */
  lemma GestureNormalised(input: Doc)
    requires ValidateGesture(input).Ok?
    ensures var g := ValidateGesture(input).value;
      && input["name"] == Str(g.name) && input["intent"] == Str(g.intent)
      && ("app" !in input ==> g.app == None)
      && ("sensitivity" !in input ==> g.sensitivity == Some(0.7))
      && ("metadata" !in input ==> g.metadata == Some(map[]))
      && ("metadata" in input && input["metadata"].Dict? ==> g.metadata == Some(input["metadata"].fields))
      && ("app" in input && input["app"].Str? ==> g.app == Some(input["app"].s))
      && ("sensitivity" in input && input["sensitivity"].Null? ==> g.sensitivity == None)
      && ("metadata" in input && input["metadata"].Null? ==> g.metadata == None)
  {
  }

  /** A supplied numeric sensitivity is accepted exactly when 0 <= x <= 1, and then kept unclamped. */
  lemma GestureSensitivityBounds(input: Doc, x: real)
    requires "sensitivity" in input && input["sensitivity"] == Num(x)
    ensures ValidateGesture(input).Ok? ==> InUnitRange(x) && ValidateGesture(input).value.sensitivity == Some(x)
    ensures !InUnitRange(x) ==> ValidateGesture(input).Err? &&
                                FieldError("sensitivity", OutOfRange) in ValidateGesture(input).error
  {
  }

  /** Keys the gesture schema does not declare have no effect on validation. */
  lemma GestureIgnoresUndeclared(input: Doc, k: string, v: Value)
    requires k !in GestureFields
    ensures ValidateGesture(input[k := v]) == ValidateGesture(input)
  {
    assert forall f :: f in GestureFields ==> (f in input[k := v] <==> f in input);
    assert forall f :: f in GestureFields && f in input ==> input[k := v][f] == input[f];
  }

  /** A voice command body without `phrase` or without `intent` is rejected. */
  lemma VoiceCommandNeedsPhraseAndIntent(input: Doc)
    requires "phrase" !in input || "intent" !in input
    ensures ValidateVoiceCommand(input).Err?
    ensures "phrase" !in input ==> FieldError("phrase", Missing) in ValidateVoiceCommand(input).error
    ensures "intent" !in input ==> FieldError("intent", Missing) in ValidateVoiceCommand(input).error
  {
  }

  /**
   * What an accepted voice command holds: the given texts and mapping;
   * language "en", no app and an empty context when omitted; none when null.
   */
  lemma VoiceCommandNormalised(input: Doc)
    requires ValidateVoiceCommand(input).Ok?
    ensures var v := ValidateVoiceCommand(input).value;
      && input["phrase"] == Str(v.phrase) && input["intent"] == Str(v.intent)
      && ("language" !in input ==> v.language == Some("en"))
      && ("app" !in input ==> v.app == None)
      && ("context" !in input ==> v.context == Some(map[]))
      && ("context" in input && input["context"].Dict? ==> v.context == Some(input["context"].fields))
      && ("language" in input && input["language"].Str? ==> v.language == Some(input["language"].s))
      && ("app" in input && input["app"].Str? ==> v.app == Some(input["app"].s))
      && ("language" in input && input["language"].Null? ==> v.language == None)
      && ("context" in input && input["context"].Null? ==> v.context == None)
  {
  }

  /** A workflow needs `name` and `steps`, keeps both and every step's mapping; `trigger` defaults to none. */
  lemma WorkflowRules(input: Doc)
    ensures ("name" !in input || "steps" !in input) ==> ValidateWorkflow(input).Err?
    ensures ValidateWorkflow(input).Ok? ==> input["name"] == Str(ValidateWorkflow(input).value.name)
    ensures ValidateWorkflow(input).Ok? && "trigger" !in input ==> ValidateWorkflow(input).value.trigger == None
    ensures ValidateWorkflow(input).Ok? && "trigger" in input && input["trigger"].Str? ==>
      ValidateWorkflow(input).value.trigger == Some(input["trigger"].s)
    ensures ValidateWorkflow(input).Ok? ==>
      var steps := ValidateWorkflow(input).value.steps;
      && |steps| == |input["steps"].items|
      && forall i :: 0 <= i < |steps| ==> input["steps"].items[i] == Dict(steps[i])
  {
  }

  /** Required text fields carry no length constraint: empty strings validate. */
  lemma EmptyTextAccepted()
    ensures ValidateGesture(map["name" := Str(""), "intent" := Str("")]).Ok?
    ensures ValidateVoiceCommand(map["phrase" := Str(""), "intent" := Str("")]).Ok?
    ensures ValidateWorkflow(map["name" := Str(""), "steps" := List([])]).Ok?
  {
  }

  /** The body {"name": "Wave", "intent": "mute"} normalises with every default filled in. */
  lemma WaveExample()
    ensures ValidateGesture(map["name" := Str("Wave"), "intent" := Str("mute")]) ==
            Ok(Gesture("Wave", "mute", None, Some(0.7), Some(map[])))
  {
  }

  /** Validating the stored dump of a well-formed gesture gives that gesture back. */
  lemma GestureDocRoundTrip(g: Gesture)
    requires WellFormedGesture(g)
    ensures ValidateGesture(GestureDoc(g)) == Ok(g)
  {
  }

  /** Validating the stored dump of a voice command gives that voice command back. */
  lemma VoiceCommandDocRoundTrip(v: VoiceCommand)
    ensures ValidateVoiceCommand(VoiceCommandDoc(v)) == Ok(v)
  {
  }

  /** Validating the stored dump of a workflow gives that workflow back. */
  lemma WorkflowDocRoundTrip(w: Workflow)
    ensures ValidateWorkflow(WorkflowDoc(w)) == Ok(w)
  {
    var d := WorkflowDoc(w);
    var steps := Steps(d);
    assert steps.Ok?;
    assert |steps.value| == |w.steps|;
    assert forall i :: 0 <= i < |w.steps| ==> steps.value[i] == w.steps[i];
    assert steps.value == w.steps;
  }
}
