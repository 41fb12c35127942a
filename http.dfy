/**
 * The shapes the provider adapters exchange with the network: a decoded JSON
 * value, an outgoing POST, and what comes back. The HTTP client itself is not
 * modelled; a reply is whatever the transport hands back.
 */
module Http {
  import opened Wrappers

  /** A JSON document as `json.loads` yields it; objects keep their field order. */
  datatype Json =
    | JNull
    | JBool(b: bool)
    | JInt(i: int)
    | JFloat(f: real)
    | JStr(s: string)
    | JArr(items: seq<Json>)
    | JObj(fields: seq<(string, Json)>)

  /** One step of a Python subscript chain: `["key"]` or `[0]`. */
  datatype Step = Key(name: string) | First

  /** A POST: URL, headers in insertion order, JSON body. */
  datatype HttpRequest = HttpRequest(url: string, headers: seq<(string, string)>, body: Json)

  /**
   * What the client returns: no response at all (timeout, connection error),
   * or a status code with the raw text and, when the body parses, its JSON.
   */
  datatype HttpReply =
    | TransportFailure
    | Response(status: int, text: string, json: Option<Json>)

  /** Field lookup in a decoded object: a repeated key keeps its last value. */
  function FieldValue(fields: seq<(string, Json)>, key: string): (r: Option<Json>)
  {
    if fields == [] then None
    else if fields[|fields| - 1].0 == key then Some(fields[|fields| - 1].1)
    else
      FieldValue(fields[..|fields| - 1], key)
  }

  /**
   * Python's subscript on a decoded value. `obj["k"]` needs an object holding
   * "k"; `x[0]` gives the first element of a list or the first character of a
   * string and fails on an empty one or on an object (whose keys are strings).
   * A failing subscript raises, which is `None` here.
   */
  function Subscript(j: Json, step: Step): (r: Option<Json>)
    ensures step.Key? && r.Some? ==> j.JObj?
    ensures step.First? && j.JArr? ==> (r.Some? <==> j.items != [])
  {
    match step
    case Key(k) => if j.JObj? then FieldValue(j.fields, k) else None
    case First =>
      match j
      case JArr(items) => if items == [] then None else Some(items[0])
      case JStr(s) => if s == [] then None else Some(JStr([s[0]]))
      case _ => None
  }

  /** One more subscript in a chain `j[s0][s1]...`; once one has failed, the rest do too. */
  function At(o: Option<Json>, step: Step): (r: Option<Json>)
    ensures o.None? ==> r.None?
  {
    match o
    case None => None
    case Some(j) => Subscript(j, step)
  }

  /** A lookup succeeds exactly when some field carries the key, and then yields a value stored under it. */
  lemma {:induction false} FieldValueSpec(fields: seq<(string, Json)>, key: string)
    ensures FieldValue(fields, key).Some? <==> exists i :: 0 <= i < |fields| && fields[i].0 == key
    ensures FieldValue(fields, key).Some? ==> exists i :: 0 <= i < |fields| && fields[i] == (key, FieldValue(fields, key).value)
    decreases |fields|
  {
    if fields != [] && fields[|fields| - 1].0 != key {
      var front := fields[..|fields| - 1];
      FieldValueSpec(front, key);
      assert forall i :: 0 <= i < |front| ==> front[i] == fields[i];
    }
  }

  /** The last value written under a key is the one read back. */
  lemma {:induction false} FieldValueLast(fields: seq<(string, Json)>, key: string, v: Json)
    ensures FieldValue(fields + [(key, v)], key) == Some(v)
  {
    assert (fields + [(key, v)])[|fields|] == (key, v);
  }

  /** A field whose key is not repeated later is read back as written. */
  lemma {:induction false} FieldValueAt(fields: seq<(string, Json)>, i: nat)
    requires i < |fields|
    requires forall j :: i < j < |fields| ==> fields[j].0 != fields[i].0
    ensures FieldValue(fields, fields[i].0) == Some(fields[i].1)
    decreases |fields|
  {
    if i < |fields| - 1 {
      var front := fields[..|fields| - 1];
      assert front[i] == fields[i];
      FieldValueAt(front, i);
    }
  }
}
