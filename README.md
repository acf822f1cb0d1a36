# GestureAI backend: a Dafny model of its request pipeline

The GestureAI backend is a small HTTP service. It stores custom hand gestures
and voice commands in a document database. It lists them back, and derives a
short list of suggestions from the most recent ones. This project models the
parts of it that hold logic:

- **Record serialiser** (`serialize_doc`, module `Serialization`). A stored
  document loses its store-native `_id` key and gains a text `id`. Every
  top-level date/time value is replaced by its ISO-8601 text. The
  imperative loop (`SerializeDoc`) is proved equal to a specification
  function (`Serialized`). Its key set, values, fixpoint and idempotence are
  stated and proved.
- **Entity schemas** (`Gesture`, `VoiceCommand`, `Workflow`, module
  `Schemas`). Each schema is a validation function. A body either
  normalises to a record with its defaults filled in, or is rejected with one
  error per failing field. The model also proves that each collection name
  is the lowercase of the class name, and that validating a stored record
  gives the record back.
- **Suggestions** (`suggestions`, module `Suggestions`). The two
  appending loops (`Suggest`) are proved equal to `SuggestionsOf`, which is
  a function of the fetched data. The fetched data is `None` when the store
  failed. The result is `(dynamic or base)[:6]`: it is never a mix of
  dynamic and fallback entries.
- **Endpoints** (module `Handlers`). `POST`/`GET /gestures`, `POST`/`GET
  /voices` and `GET /suggestions` run over an injected store. The store is
  two functions that can fail with a message. Each endpoint returns its
  reply together with the trace of store calls it made. So "a rejected body
  never reaches the store" and "the record is written to collection
  `gesture`" are statements about that trace.

Values are one datatype (`Values.Value`): null, booleans, numbers as `real`,
text, ObjectIds, date/time values, lists and mappings. Python's `str()` of
numbers, ObjectIds, containers and dates, and `isoformat()`, belong to
foreign libraries. They enter every function as the two uninterpreted
fields of a `Render` value, so every property holds for any formatting. Only
`str()` of text, `None` and booleans is fixed, because the suggestion titles
depend on it.

Behaviour reproduced from the code:

- Required text fields have no length constraint, so `""` is a valid `name`,
  `intent` or `phrase`.
- Suggestion titles use `dict.get(key, default)`. The default applies only
  when the key is absent. A null `name` gives the title `Use 'None' ...`.
  Categories use `or`, so any falsy `app` (null, `""`, `false`, `0`, an
  empty container) gives `"Custom"`.
- The create endpoints set no status code, so a successful create replies with status 200.
- Every optional field is declared `Optional[...]`, so an explicit `null`
  is accepted and normalises to none. `"sensitivity": null` gives no
  sensitivity, and the 0.7 default applies only when the key is absent.
  `"metadata": null` likewise gives no mapping.
- A failure of either suggestion fetch discards both lists, even a gesture
  list that was already fetched.

## Model

| member | source | states |
|---|---|---|
| Serialization.Serialized | main.py:37-45 | no `_id` in the output; output keys are the input keys minus `_id`, plus `id` when `_id` was present; `id` holds `str(_id)`, overwriting an existing `id`; every other value is kept, except date/time values, which become their ISO text; no date/time value remains |
| Serialization.SerializeDoc | main.py:37-45 | the copy-pop-assign loop over a snapshot of the keys computes exactly `Serialized` of its argument; the argument is a value, so the caller's document is unchanged |
| Serialization.Converted | main.py:42-44 | a value with `isoformat` becomes its ISO text; any other value passes through unchanged; the result never has `isoformat` |
| Serialization.SerializedFixpoint | main.py:39-44 | a document with no `_id` and no date/time value serialises to itself |
| Serialization.SerializedIdempotent | main.py:37-45 | serialising a serialised document changes nothing |
| Serialization.IdOverwritten | main.py:39-40 | with both `_id` and `id` present, `id` becomes `str(_id)` and the document has one key fewer |
| Schemas.CollectionName | schemas.py:4-5 | each entity's collection name is the lowercase of its class name |
| Schemas.RequiredText | schemas.py:14-15 | a required text field is accepted exactly when present and text, of any length; the error says `Missing` exactly when absent |
| Schemas.OptionalText | schemas.py:16 | an optional text field: absent gives its default, null gives none, text is kept, anything else is a type error |
| Schemas.OptionalMapping | schemas.py:18 | an optional mapping: absent gives `{}`, null gives none, a mapping is kept as-is without inspecting its contents, anything else is a type error |
| Schemas.Sensitivity | schemas.py:17 | accepted exactly when absent, null, or a number in [0, 1]; absent gives 0.7; null gives none; an accepted number is kept unchanged; a number outside the interval is rejected as out of range, never clamped; any other value is rejected |
| Schemas.Steps | schemas.py:33 | `steps` is accepted exactly when it is a list whose every item is a mapping, and the result holds those mappings in order |
| Schemas.ValidateGesture | schemas.py:12-18 | a gesture is accepted exactly when every field rule accepts; the accepted record holds each field rule's result; a rejection lists every failing field's error, in declaration order, and is never empty; an accepted gesture is well formed |
| Schemas.ValidateVoiceCommand | schemas.py:21-27 | a voice command is accepted exactly when every field rule accepts; the accepted record holds each field rule's result; a rejection lists every failing field's error in declaration order |
| Schemas.ValidateWorkflow | schemas.py:30-34 | a workflow is accepted exactly when `name`, `steps` and `trigger` pass their rules; the accepted record holds each rule's result; a rejection lists every failing field's error |
| Schemas.GestureNeedsNameAndIntent | schemas.py:14-15 | a gesture body without `name` or `intent` is rejected, with a `Missing` error for each absent field |
| Schemas.GestureNormalised | schemas.py:14-18 | an accepted gesture holds the given name and intent, a supplied `app` and a supplied mapping as-is; `app` defaults to none, `sensitivity` to 0.7 and `metadata` to `{}`; a null `sensitivity` or `metadata` gives none |
| Schemas.GestureSensitivityBounds | schemas.py:17 | a supplied numeric sensitivity is accepted only inside the closed interval [0, 1] and is then kept unclamped; outside it, the body is rejected with `OutOfRange` |
| Schemas.GestureIgnoresUndeclared | schemas.py:12-18 | adding or changing a key the schema does not declare does not change the validation result |
| Schemas.VoiceCommandNeedsPhraseAndIntent | schemas.py:23-24 | a voice command body without `phrase` or `intent` is rejected, with a `Missing` error for each absent field |
| Schemas.VoiceCommandNormalised | schemas.py:23-27 | an accepted voice command holds the given phrase and intent, a supplied `language`, `app` and mapping; `language` defaults to "en", `app` to none and `context` to `{}`; a null `language` or `context` gives none |
| Schemas.WorkflowRules | schemas.py:32-34 | a workflow without `name` or `steps` is rejected; an accepted one keeps the given name, every step's mapping in order, and a supplied trigger; `trigger` defaults to none |
| Schemas.EmptyTextAccepted | schemas.py:14-15 | empty strings pass as the required texts of all three schemas |
| Schemas.WaveExample | schemas.py:12-18 | `{"name": "Wave", "intent": "mute"}` normalises to name Wave, intent mute, no app, sensitivity 0.7 and metadata `{}` |
| Schemas.GestureDocRoundTrip | schemas.py:12-18 | validating the stored dump of a well-formed gesture gives the same gesture back |
| Schemas.VoiceCommandDocRoundTrip | schemas.py:21-27 | validating the stored dump of a voice command gives the same voice command back |
| Schemas.WorkflowDocRoundTrip | schemas.py:30-34 | validating the stored dump of a workflow gives the same workflow back |
| Suggestions.Prefix | main.py:165 | `s[:n]` has length min(len(s), n) and is a prefix of `s` |
| Suggestions.GestureSuggestion | main.py:155-158 | the title is `Use '<name>' to trigger <intent>`, using `str()` of the stored value when the key is present and 'gesture' / 'an action' only when it is absent; the category is `app` when truthy, else "Custom" |
| Suggestions.VoiceSuggestion | main.py:160-163 | the title is `Say '<phrase>' to <intent>`, using `str()` of the stored value when the key is present and 'command' / 'do something' only when it is absent; the category is `app` when truthy, else "Custom" |
| Suggestions.SuggestionsOf | main.py:165 | at most 6 entries; exactly the fallback list when no record was fetched, and otherwise a non-empty prefix of the dynamic list, so the two are never mixed |
| Suggestions.DynamicNotBase | main.py:147-165 | a non-empty dynamic result is never equal to the fallback list |
| Suggestions.Dynamic | main.py:153-163 | one suggestion per gesture, then one per voice command, each kind in fetch order |
| Suggestions.Suggest | main.py:136-165 | the two appending loops and the final slice compute exactly `SuggestionsOf` of the fetched data |
| Suggestions.DynamicOrBase | main.py:147-165 | at most 6 entries; no fetched record gives exactly the 3 fallback entries; otherwise every entry is the suggestion of the fetched record at its position (gestures first, then voices), with length min(total, 6) |
| Suggestions.FetchFailureGivesBase | main.py:139-145 | a failed fetch yields exactly the fallback list |
| Suggestions.WithinFetchLimitsNothingDropped | main.py:141-165 | with at most 3 records of each kind and at least one record in total, the result is the whole dynamic list |
| Suggestions.FullFetchGivesSix | main.py:141-165 | three records of each kind, the most the endpoint fetches, give exactly 6 entries: the three gesture suggestions, then the three voice ones |
| Suggestions.SixDynamicFromManyRecords | main.py:153-165 | at least 4 of each kind give exactly 6 dynamic entries, the first four from gestures |
| Suggestions.TitleDefaultsOnlyWhenAbsent | main.py:154-161 | for every record, a null `name` (gesture) or `phrase` (voice command) gives a different title from an absent one: null is rendered as 'None', and only absence gives the default |
| Suggestions.CategoryRule | main.py:157 | the category is `app` when it is truthy; any falsy `app` (null, false, zero, empty text or container) and a missing `app` give "Custom" |
| Handlers.CreateGesture | main.py:96-103 | a rejected body gives a validation error and makes no store call; a valid one makes exactly one insert, into `lower("Gesture")`, of a record that validates to the same gesture; the reply is `{id, ok: true}` with the store's id exactly when the insert succeeds, and a server error carrying the store's message exactly when it fails |
| Handlers.CreateVoice | main.py:116-123 | as CreateGesture, for voice commands and `lower("VoiceCommand")`: success exactly when valid and inserted, server error with the store's message exactly when valid and the insert fails |
| Handlers.ListGestures | main.py:106-113 | exactly one fetch from `lower("Gesture")` with the given limit, or 20; on success, the serialised form of every fetched record in the same order; on a store failure, a server error carrying its message |
| Handlers.ListVoices | main.py:126-133 | as ListGestures, for `lower("VoiceCommand")` |
| Handlers.ListWithinLimit | main.py:106-133 | when the store honours the limit, a list reply has at most `limit` items |
| Handlers.ListedRecordsSerialised | main.py:111 | every listed item is a mapping with no `_id` and no date/time value |
| Handlers.FetchRecent | main.py:139-145 | the gesture fetch (limit 3) comes first, and the voice fetch (limit 3) happens only if it succeeded; the lists are kept only when both succeed, and a failure of either discards both |
| Handlers.GetSuggestions | main.py:136-165 | never fails; the first call fetches 3 from `lower("Gesture")`; the second call, made only if that succeeded, fetches 3 from `lower("VoiceCommand")`; when both succeed the body is `{"suggestions": SuggestionsOf(gestures, voices)}`; a failure of either fetch gives the fallback list |

## Left out

- FastAPI application setup, CORS middleware and route decorators: framework wiring with no logic.
- The `/`, `/api/hello` and `/test` endpoints. They return constants or run environment and database diagnostics. This is I/O against a database module that is not part of this model.
- The `database` module (`create_document`, `get_documents`) is not part of this model. It is the injected `Handlers.Store`: two total functions that can fail with a message. The model makes no assumption about ordering or limits; `ListWithinLimit` states the limit as an assumption about the store.
- `PyObjectId`: a thin wrapper over bson's ObjectId parsing, a foreign library.
- The exact text of `str()` for numbers, ObjectIds, containers and dates, and of `isoformat()`. Both stay uninterpreted functions (`Values.Render`).
- Pydantic's type coercion (for example a numeric string for `sensitivity`, or an int for a `str` field) and float representation. The model is strict: a required text field must be text, and `sensitivity` must be a number (`real`).
- Schemas.Steps: a wrong item inside `steps` is reported as one `WrongType` error on `steps`, not one error per item as pydantic reports it.
- What `create_document` adds to a record (timestamps, for instance). The model passes the dump of the normalised record: every declared field, with `null` for none.
- Failure to import the database module. Inside the suggestions endpoint it is absorbed like a fetch failure. In the other endpoints it is an unhandled error. The model has no separate case for it.
- Process startup and port selection through `uvicorn`.
- Python's distinction between `int` and `float`. Both are `Num(real)`, so a stored `intent` of `1` and one of `1.0`, which `str()` renders as "1" and "1.0", share one rendering (`render.text(Num(1.0))`) in the model.
- Serialization.SerializeDoc: Python mutates a fresh dictionary `out` in place. The model works on map values, so it cannot express aliasing. The input cannot change by construction, so the model does not prove this as a property.
