/**
 * The `/suggestions` derivation. It reads up to three recent gestures and
 * three recent voice commands, makes one titled suggestion from each, and
 * returns at most six of them. When there are none it returns a fixed list
 * of three. The two lists are never mixed.
 */
module Suggestions {
  import opened Wrappers
  import opened Values

  datatype Suggestion = Suggestion(title: string, category: Value)

  /** Most suggestions ever returned. */
  const MaxSuggestions: nat := 6

  /** The fixed fallback list. */
  const Base: seq<Suggestion> := [
    Suggestion("Wave to silence notifications", Str("Focus")),
    Suggestion("Pinch to zoom in any app", Str("Navigation")),
    Suggestion("Say \"open notes\" to start typing", Str("Voice"))
  ]

  /** Python slicing `s[:n]`. */
  function Prefix<T>(s: seq<T>, n: nat): (r: seq<T>)
    ensures |r| == if |s| <= n then |s| else n
    ensures r <= s
  {
    if |s| <= n then s else s[..n]
  }

  /** A suggestion's category: the record's `app` when truthy, else "Custom". */
  function Category(record: Doc): Value {
    Or(Get(record, "app", Null), Str("Custom"))
  }

  /**
   * The suggestion for one gesture record. A title part falls back to its
   * default only when its key is absent; a present key, even null, is
   * rendered with `str()`.
   */
  function GestureSuggestion(render: Render, g: Doc): (r: Suggestion)
    ensures r.title == "Use '" + (if "name" in g then PyStr(render, g["name"]) else "gesture") +
                       "' to trigger " + (if "intent" in g then PyStr(render, g["intent"]) else "an action")
    ensures r.category == if "app" in g && Truthy(g["app"]) then g["app"] else Str("Custom")
  {
    Suggestion(
      "Use '" + PyStr(render, Get(g, "name", Str("gesture"))) + "' to trigger " +
      PyStr(render, Get(g, "intent", Str("an action"))),
      Category(g))
  }

  /** The suggestion for one voice command record, with the same default rule. */
  function VoiceSuggestion(render: Render, v: Doc): (r: Suggestion)
    ensures r.title == "Say '" + (if "phrase" in v then PyStr(render, v["phrase"]) else "command") +
                       "' to " + (if "intent" in v then PyStr(render, v["intent"]) else "do something")
    ensures r.category == if "app" in v && Truthy(v["app"]) then v["app"] else Str("Custom")
  {
    Suggestion(
      "Say '" + PyStr(render, Get(v, "phrase", Str("command"))) + "' to " +
      PyStr(render, Get(v, "intent", Str("do something"))),
      Category(v))
  }

  /**
   * The two fetched lists; `None` stands for a store failure during either
   * fetch, which empties both, even a gesture list already fetched.
   */
  function Recent(fetched: Option<(seq<Doc>, seq<Doc>)>): (seq<Doc>, seq<Doc>) {
    match fetched
    case None => ([], [])
    case Some(lists) => lists
  }

  /** One suggestion per gesture, then one per voice command, each in fetch order. */
  function Dynamic(render: Render, gestures: seq<Doc>, voices: seq<Doc>): (d: seq<Suggestion>)
    ensures |d| == |gestures| + |voices|
    ensures forall i :: 0 <= i < |gestures| ==> d[i] == GestureSuggestion(render, gestures[i])
    ensures forall j :: 0 <= j < |voices| ==> d[|gestures| + j] == VoiceSuggestion(render, voices[j])
  {
    seq(|gestures|, i requires 0 <= i < |gestures| => GestureSuggestion(render, gestures[i])) +
    seq(|voices|, j requires 0 <= j < |voices| => VoiceSuggestion(render, voices[j]))
  }

  /**
   * `(dynamic or base)[:6]`: the specification of `Suggest`. The result is
   * either exactly the fallback list, when nothing was fetched, or a
   * non-empty prefix of the dynamic list: never a mix of the two.
   */
  function SuggestionsOf(render: Render, fetched: Option<(seq<Doc>, seq<Doc>)>): (r: seq<Suggestion>)
    ensures |r| <= MaxSuggestions
    ensures r == Base <==> |Recent(fetched).0| + |Recent(fetched).1| == 0
    ensures r != Base ==> r != [] && r <= Dynamic(render, Recent(fetched).0, Recent(fetched).1)
  {
    var (gestures, voices) := Recent(fetched);
    var dynamic := Dynamic(render, gestures, voices);
    if |dynamic| > 0 then
      DynamicNotBase(render, gestures, voices);
      Prefix(dynamic, MaxSuggestions)
    else
      Prefix(Base, MaxSuggestions)
  }

  /** No dynamic entry can be taken for the first fallback entry: their titles start differently. */
  lemma DynamicNotBase(render: Render, gestures: seq<Doc>, voices: seq<Doc>)
    requires |gestures| + |voices| > 0
    ensures Prefix(Dynamic(render, gestures, voices), MaxSuggestions) != Base
  {
    var d := Dynamic(render, gestures, voices);
    var first := Prefix(d, MaxSuggestions)[0];
    assert first == d[0];
    if |gestures| > 0 {
      assert first.title[0] == 'U';
    } else {
      assert first == VoiceSuggestion(render, voices[0]);
      assert first.title[0] == 'S';
    }
    assert Base[0].title[0] == 'W';
  }

  /** The two loops of the endpoint, appending one suggestion per record. */
  method Suggest(render: Render, fetched: Option<(seq<Doc>, seq<Doc>)>) returns (r: seq<Suggestion>)
    ensures r == SuggestionsOf(render, fetched)
  {
    var gestures: seq<Doc>, voices: seq<Doc> := [], [];
    if fetched.Some? {
      gestures, voices := fetched.value.0, fetched.value.1;
    }
    var dynamic: seq<Suggestion> := [];
    for i := 0 to |gestures|
      invariant |dynamic| == i
      invariant forall k :: 0 <= k < i ==> dynamic[k] == GestureSuggestion(render, gestures[k])
    {
      dynamic := dynamic + [GestureSuggestion(render, gestures[i])];
    }
    for j := 0 to |voices|
      invariant |dynamic| == |gestures| + j
      invariant forall k :: 0 <= k < |gestures| ==> dynamic[k] == GestureSuggestion(render, gestures[k])
      invariant forall k :: 0 <= k < j ==> dynamic[|gestures| + k] == VoiceSuggestion(render, voices[k])
    {
      dynamic := dynamic + [VoiceSuggestion(render, voices[j])];
    }
    assert dynamic == Dynamic(render, gestures, voices);
    if |dynamic| > 0 {
      r := Prefix(dynamic, MaxSuggestions);
    } else {
      r := Prefix(Base, MaxSuggestions);
    }
  }

  // ---------------------------------------------------------------------
  // Properties

  /**
   * At most six entries. With any fetched record, every entry is the
   * suggestion of a fetched record at its position (gestures first); with
   * none, the result is exactly the fallback list.
   */
  lemma DynamicOrBase(render: Render, fetched: Option<(seq<Doc>, seq<Doc>)>)
    ensures var r := SuggestionsOf(render, fetched);
      var (gestures, voices) := Recent(fetched);
      && |r| <= MaxSuggestions
      && (|gestures| + |voices| == 0 ==> r == Base)
      && (|gestures| + |voices| > 0 ==>
            && |r| == (if |gestures| + |voices| <= MaxSuggestions then |gestures| + |voices| else MaxSuggestions)
            && (forall i :: 0 <= i < |r| && i < |gestures| ==> r[i] == GestureSuggestion(render, gestures[i]))
            && (forall i :: |gestures| <= i < |r| ==> r[i] == VoiceSuggestion(render, voices[i - |gestures|])))
  {
    var (gestures, voices) := Recent(fetched);
    var dynamic := Dynamic(render, gestures, voices);
    var r := SuggestionsOf(render, fetched);
    if |dynamic| > 0 {
      assert r == Prefix(dynamic, MaxSuggestions);
      forall i | |gestures| <= i < |r|
        ensures r[i] == VoiceSuggestion(render, voices[i - |gestures|])
      {
        assert r[i] == dynamic[|gestures| + (i - |gestures|)];
      }
    }
  }

  /** A failed fetch yields exactly the fallback list. */
  lemma FetchFailureGivesBase(render: Render)
    ensures SuggestionsOf(render, None) == Base
  {
  }

  /** With at most three records per kind, no dynamic suggestion is dropped. */
  lemma WithinFetchLimitsNothingDropped(render: Render, gestures: seq<Doc>, voices: seq<Doc>)
    requires |gestures| <= 3 && |voices| <= 3 && |gestures| + |voices| > 0
    ensures SuggestionsOf(render, Some((gestures, voices))) == Dynamic(render, gestures, voices)
  {
  }

  /**
   * Three records of each kind, the most the endpoint fetches, give exactly
   * six entries: the three gesture suggestions, then the three voice ones.
   */
  lemma FullFetchGivesSix(render: Render, gestures: seq<Doc>, voices: seq<Doc>)
    requires |gestures| == 3 && |voices| == 3
    ensures var r := SuggestionsOf(render, Some((gestures, voices)));
      && |r| == 6
      && (forall i :: 0 <= i < 3 ==> r[i] == GestureSuggestion(render, gestures[i]))
      && (forall j :: 0 <= j < 3 ==> r[3 + j] == VoiceSuggestion(render, voices[j]))
  {
    WithinFetchLimitsNothingDropped(render, gestures, voices);
  }

  /**
   * Four or more records of each kind give exactly six entries, all dynamic
   * (the first six of gestures-then-voices), the first four from gestures.
   */
  lemma SixDynamicFromManyRecords(render: Render, gestures: seq<Doc>, voices: seq<Doc>)
    requires |gestures| >= 4 && |voices| >= 4
    ensures var r := SuggestionsOf(render, Some((gestures, voices)));
      && |r| == 6
      && r == Dynamic(render, gestures, voices)[..6]
      && (forall i :: 0 <= i < 4 ==> r[i] == GestureSuggestion(render, gestures[i]))
  {
  }

  /**
   * A key holding null is not an absent key: a gesture whose `name` is null is
   * titled 'None', not 'gesture', and likewise a voice command's `phrase`.
   */
  lemma TitleDefaultsOnlyWhenAbsent(render: Render, g: Doc, v: Doc)
    ensures GestureSuggestion(render, g["name" := Null]).title != GestureSuggestion(render, g - {"name"}).title
    ensures VoiceSuggestion(render, v["phrase" := Null]).title != VoiceSuggestion(render, v - {"phrase"}).title
  {
    assert GestureSuggestion(render, g["name" := Null]).title[5] == 'N';
    assert GestureSuggestion(render, g - {"name"}).title[5] == 'g';
    assert VoiceSuggestion(render, v["phrase" := Null]).title[5] == 'N';
    assert VoiceSuggestion(render, v - {"phrase"}).title[5] == 'c';
  }

  /** The category is the record's `app` when truthy; any falsy or missing `app` gives "Custom". */
  lemma CategoryRule(record: Doc)
    ensures "app" in record && Truthy(record["app"]) ==> Category(record) == record["app"]
    ensures !("app" in record && Truthy(record["app"])) ==> Category(record) == Str("Custom")
  {
  }
}
