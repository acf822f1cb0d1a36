/**
 * `serialize_doc`: turns a stored document into its transport form. The
 * store-native `_id` key is renamed to `id` holding the text of its value,
 * and every date/time value becomes its ISO-8601 text.
 */
module Serialization {
  import opened Values

  /** The wire form of one top-level value: date/time values become ISO text. */
  function Converted(render: Render, v: Value): (w: Value)
    ensures !HasIsoformat(w)
    ensures HasIsoformat(v) ==> w == Str(render.iso(v.t))
    ensures !HasIsoformat(v) ==> w == v
  {
    if HasIsoformat(v) then Str(render.iso(v.t)) else v
  }

  /** The document after the `_id` rename and before the date conversion. */
  function Renamed(render: Render, doc: Doc): Doc {
    if "_id" in doc then (doc - {"_id"})["id" := Str(PyStr(render, doc["_id"]))] else doc
  }

  /** The serialised document: the specification of `SerializeDoc`. */
  function Serialized(render: Render, doc: Doc): (out: Doc)
    ensures "_id" !in out
    ensures out.Keys == if "_id" in doc then doc.Keys - {"_id"} + {"id"} else doc.Keys
    ensures "_id" in doc ==> out["id"] == Str(PyStr(render, doc["_id"]))
    ensures forall k :: k in doc && k != "_id" && (k != "id" || "_id" !in doc) ==>
      out[k] == Converted(render, doc[k])
    ensures forall k :: k in out ==> !HasIsoformat(out[k])
  {
    var renamed := Renamed(render, doc);
    map k | k in renamed :: Converted(render, renamed[k])
  }

  /**
   * The loop of `serialize_doc`: copy the document, move `_id` to `id`, then
   * walk a snapshot of the keys and replace each date/time value in place.
   * The argument is a value, so the caller's document is never changed.
   */
  method SerializeDoc(render: Render, doc: Doc) returns (out: Doc)
    ensures out == Serialized(render, doc)
  {
    out := doc;
    if "_id" in out {
      var native := out["_id"];
      out := out - {"_id"};
      out := out["id" := Str(PyStr(render, native))];
    }
    ghost var renamed := out;
    var pending := out.Keys;
    while pending != {}
      invariant pending <= renamed.Keys
      invariant out.Keys == renamed.Keys
      invariant forall k :: k in pending ==> out[k] == renamed[k]
      invariant forall k :: k in renamed && k !in pending ==> out[k] == Converted(render, renamed[k])
      decreases pending
    {
      var k :| k in pending;
      if HasIsoformat(out[k]) {
        out := out[k := Str(render.iso(out[k].t))];
      }
      pending := pending - {k};
    }
  }

  /** A document with no `_id` and no date/time value is its own serialised form. */
  lemma SerializedFixpoint(render: Render, doc: Doc)
    requires "_id" !in doc
    requires forall k :: k in doc ==> !HasIsoformat(doc[k])
    ensures Serialized(render, doc) == doc
  {
    var out := Serialized(render, doc);
    assert out.Keys == doc.Keys;
    forall k | k in doc
      ensures out[k] == doc[k]
    {
    }
  }

  /** Serialising an already serialised document changes nothing. */
  lemma SerializedIdempotent(render: Render, doc: Doc)
    ensures Serialized(render, Serialized(render, doc)) == Serialized(render, doc)
  {
    SerializedFixpoint(render, Serialized(render, doc));
  }

  /** An existing `id` key is overwritten by the text of `_id`. */
  lemma IdOverwritten(render: Render, doc: Doc)
    requires "_id" in doc && "id" in doc
    ensures Serialized(render, doc)["id"] == Str(PyStr(render, doc["_id"]))
    ensures |Serialized(render, doc)| == |doc| - 1
  {
    var out := Serialized(render, doc);
    assert out.Keys == doc.Keys - {"_id"};
  }
}
