/**
 * The create, list and suggestions endpoints, over an injected document
 * store. Each endpoint is a function of the request and of the store's
 * answers. It returns the reply together with the store calls it made, so
 * the trace shows which calls happened and which did not.
 */
module Handlers {
  import opened Wrappers
  import opened Values
  import opened Schemas
  import opened Serialization
  import opened Suggestions

  /**
   * The document store: `create_document(collection, record)` gives the new
   * identifier, and `get_documents(collection, limit)` gives the recent
   * records. Either call can fail with a message.
   */
  datatype Store = Store(
    insert: (string, Doc) -> Result<Value, string>,
    fetch: (string, int) -> Result<seq<Doc>, string>)

  datatype Call = Insert(collection: string, record: Doc) | Fetch(collection: string, limit: int)

  datatype Reply =
    | Success(body: Value)                    // status 200; the create endpoints set no other
    | Unprocessable(errors: seq<FieldError>)  // status 422: request validation failed
    | ServerError(detail: string)             // status 500: the store raised; detail is its message

  datatype Exchange = Exchange(reply: Reply, calls: seq<Call>)

  /** Records returned by a list endpoint when the query has no `limit`. */
  const DefaultLimit: int := 20
  /** Records of each kind read by the suggestions endpoint. */
  const SuggestionFetchLimit: int := 3

  /** `{"id": inserted_id, "ok": True}`. */
  function CreatedBody(id: Value): Value {
    Dict(map["id" := id, "ok" := Bool(true)])
  }

  /** Insert one validated record and reply with its identifier, or with the store's error. */
  function Create(store: Store, collection: string, record: Doc): Exchange {
    var reply := match store.insert(collection, record)
      case Ok(id) => Success(CreatedBody(id))
      case Err(message) => ServerError(message);
    Exchange(reply, [Insert(collection, record)])
  }

  /** Fetch records and reply with the serialised form of each, or with the store's error. */
  function ListCollection(render: Render, store: Store, collection: string, limit: Option<int>): Exchange {
    var n := limit.GetOr(DefaultLimit);
    var reply := match store.fetch(collection, n)
      case Ok(docs) => Success(List(seq(|docs|, i requires 0 <= i < |docs| => Dict(Serialized(render, docs[i])))))
      case Err(message) => ServerError(message);
    Exchange(reply, [Fetch(collection, n)])
  }

  // ---------------------------------------------------------------------
  // POST /gestures and POST /voices

  /**
   * POST /gestures: the body is validated before anything else; a rejected
   * body makes no store call. A valid one is inserted, normalised, into the
   * "gesture" collection.
   */
  function CreateGesture(store: Store, body: Doc): (x: Exchange)
    ensures ValidateGesture(body).Err? ==> x == Exchange(Unprocessable(ValidateGesture(body).error), [])
    ensures ValidateGesture(body).Ok? ==>
      x.calls == [Insert(Lower("Gesture"), GestureDoc(ValidateGesture(body).value))]
    ensures forall c :: c in x.calls ==> c.Insert? && ValidateGesture(c.record) == ValidateGesture(body)
    ensures x.reply.Success? <==> ValidateGesture(body).Ok? && x.calls != [] &&
                                  store.insert(x.calls[0].collection, x.calls[0].record).Ok?
    ensures x.reply.Success? ==>
      x.reply.body == CreatedBody(store.insert(x.calls[0].collection, x.calls[0].record).value)
    ensures x.reply.ServerError? ==>
      x.calls != [] && store.insert(x.calls[0].collection, x.calls[0].record) == Err(x.reply.detail)
    ensures x.reply.ServerError? <==> ValidateGesture(body).Ok? && x.calls != [] &&
                                      store.insert(x.calls[0].collection, x.calls[0].record).Err?
  {
    match ValidateGesture(body)
    case Err(errors) => Exchange(Unprocessable(errors), [])
    case Ok(g) =>
      GestureDocRoundTrip(g);
      Create(store, CollectionName(GestureEntity), GestureDoc(g))
  }

  /** POST /voices: as POST /gestures, with the "voicecommand" collection. */
  function CreateVoice(store: Store, body: Doc): (x: Exchange)
    ensures ValidateVoiceCommand(body).Err? ==> x == Exchange(Unprocessable(ValidateVoiceCommand(body).error), [])
    ensures ValidateVoiceCommand(body).Ok? ==>
      x.calls == [Insert(Lower("VoiceCommand"), VoiceCommandDoc(ValidateVoiceCommand(body).value))]
    ensures forall c :: c in x.calls ==> c.Insert? && ValidateVoiceCommand(c.record) == ValidateVoiceCommand(body)
    ensures x.reply.Success? <==> ValidateVoiceCommand(body).Ok? && x.calls != [] &&
                                  store.insert(x.calls[0].collection, x.calls[0].record).Ok?
    ensures x.reply.Success? ==>
      x.reply.body == CreatedBody(store.insert(x.calls[0].collection, x.calls[0].record).value)
    ensures x.reply.ServerError? ==>
      x.calls != [] && store.insert(x.calls[0].collection, x.calls[0].record) == Err(x.reply.detail)
    ensures x.reply.ServerError? <==> ValidateVoiceCommand(body).Ok? && x.calls != [] &&
                                      store.insert(x.calls[0].collection, x.calls[0].record).Err?
  {
    match ValidateVoiceCommand(body)
    case Err(errors) => Exchange(Unprocessable(errors), [])
    case Ok(v) =>
      VoiceCommandDocRoundTrip(v);
      Create(store, CollectionName(VoiceCommandEntity), VoiceCommandDoc(v))
  }

  // ---------------------------------------------------------------------
  // GET /gestures and GET /voices

  /**
   * GET /gestures: one fetch from "gesture" with the given limit (20 when
   * omitted); the reply lists the serialised form of every fetched record,
   * in fetch order, or carries the store's error.
   */
  function ListGestures(render: Render, store: Store, limit: Option<int>): (x: Exchange)
    ensures x.calls == [Fetch(Lower("Gesture"), if limit.Some? then limit.value else 20)]
    ensures var fetched := store.fetch(x.calls[0].collection, x.calls[0].limit);
      && (fetched.Err? <==> x.reply.ServerError?)
      && (fetched.Err? ==> x.reply.detail == fetched.error)
      && (fetched.Ok? ==>
            && x.reply.Success? && x.reply.body.List?
            && |x.reply.body.items| == |fetched.value|
            && forall i :: 0 <= i < |fetched.value| ==> x.reply.body.items[i] == Dict(Serialized(render, fetched.value[i])))
  {
    ListCollection(render, store, CollectionName(GestureEntity), limit)
  }

  /** GET /voices: as GET /gestures, with the "voicecommand" collection. */
  function ListVoices(render: Render, store: Store, limit: Option<int>): (x: Exchange)
    ensures x.calls == [Fetch(Lower("VoiceCommand"), if limit.Some? then limit.value else 20)]
    ensures var fetched := store.fetch(x.calls[0].collection, x.calls[0].limit);
      && (fetched.Err? <==> x.reply.ServerError?)
      && (fetched.Err? ==> x.reply.detail == fetched.error)
      && (fetched.Ok? ==>
            && x.reply.Success? && x.reply.body.List?
            && |x.reply.body.items| == |fetched.value|
            && forall i :: 0 <= i < |fetched.value| ==> x.reply.body.items[i] == Dict(Serialized(render, fetched.value[i])))
  {
    ListCollection(render, store, CollectionName(VoiceCommandEntity), limit)
  }

  /** A store that honours the limit makes a list reply no longer than the limit. */
  lemma ListWithinLimit(render: Render, store: Store, n: int)
    requires forall c: string :: store.fetch(c, n).Ok? ==> |store.fetch(c, n).value| <= n
    ensures ListGestures(render, store, Some(n)).reply.Success? ==>
      |ListGestures(render, store, Some(n)).reply.body.items| <= n
    ensures ListVoices(render, store, Some(n)).reply.Success? ==>
      |ListVoices(render, store, Some(n)).reply.body.items| <= n
  {
    assert store.fetch("gesture", n).Ok? ==> |store.fetch("gesture", n).value| <= n;
    assert store.fetch("voicecommand", n).Ok? ==> |store.fetch("voicecommand", n).value| <= n;
  }

  /** A listed record carries `id` and no `_id`, and no date/time value. */
  lemma ListedRecordsSerialised(render: Render, store: Store, limit: Option<int>, i: int)
    requires ListGestures(render, store, limit).reply.Success?
    requires 0 <= i < |ListGestures(render, store, limit).reply.body.items|
    ensures var item := ListGestures(render, store, limit).reply.body.items[i];
      && item.Dict? && "_id" !in item.fields
      && (forall k :: k in item.fields ==> !HasIsoformat(item.fields[k]))
  {
  }

  // ---------------------------------------------------------------------
  // GET /suggestions

  /**
   * The guarded block of the endpoint: fetch three gestures, then three
   * voice commands. The first failure stops the block and discards both
   * lists.
   */
  function FetchRecent(store: Store): (out: (Option<(seq<Doc>, seq<Doc>)>, seq<Call>))
    ensures 1 <= |out.1| <= 2 && out.1[0] == Fetch(Lower("Gesture"), 3)
    ensures |out.1| == 2 <==> store.fetch("gesture", 3).Ok?
    ensures |out.1| == 2 ==> out.1[1] == Fetch(Lower("VoiceCommand"), 3)
    ensures out.0.Some? <==> store.fetch("gesture", 3).Ok? && store.fetch("voicecommand", 3).Ok?
    ensures out.0.Some? ==> out.0.value == (store.fetch("gesture", 3).value, store.fetch("voicecommand", 3).value)
  {
    var gestureCall := Fetch(CollectionName(GestureEntity), SuggestionFetchLimit);
    var voiceCall := Fetch(CollectionName(VoiceCommandEntity), SuggestionFetchLimit);
    match store.fetch(gestureCall.collection, gestureCall.limit)
    case Err(_) => (None, [gestureCall])
    case Ok(gestures) =>
      match store.fetch(voiceCall.collection, voiceCall.limit)
      case Err(_) => (None, [gestureCall, voiceCall])
      case Ok(voices) => (Some((gestures, voices)), [gestureCall, voiceCall])
  }

  function SuggestionValue(s: Suggestion): Value {
    Dict(map["title" := Str(s.title), "category" := s.category])
  }

  /** `{"suggestions": [...]}`. */
  function SuggestionsBody(suggestions: seq<Suggestion>): Value {
    Dict(map["suggestions" := List(seq(|suggestions|, i requires 0 <= i < |suggestions| => SuggestionValue(suggestions[i])))])
  }

  /**
   * GET /suggestions never fails. A failure of either fetch gives the
   * fallback list, even when the gesture fetch had already succeeded.
   */
  function GetSuggestions(render: Render, store: Store): (x: Exchange)
    ensures x.reply.Success?
    ensures 1 <= |x.calls| <= 2 && x.calls[0] == Fetch(Lower("Gesture"), 3)
    ensures |x.calls| == 2 <==> store.fetch("gesture", 3).Ok?
    ensures |x.calls| == 2 ==> x.calls[1] == Fetch(Lower("VoiceCommand"), 3)
    ensures store.fetch("gesture", 3).Ok? && store.fetch("voicecommand", 3).Ok? ==>
      x.reply.body == SuggestionsBody(SuggestionsOf(render, Some((store.fetch("gesture", 3).value,
                                                                  store.fetch("voicecommand", 3).value))))
    ensures store.fetch("gesture", 3).Err? || store.fetch("voicecommand", 3).Err? ==>
      x.reply.body == SuggestionsBody(Base)
  {
    var (fetched, calls) := FetchRecent(store);
    FetchFailureGivesBase(render);
    Exchange(Success(SuggestionsBody(SuggestionsOf(render, fetched))), calls)
  }
}
