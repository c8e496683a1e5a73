/**
 * The wire format of the Phoenix Channels protocol, serializer version "2.0.0":
 * every frame is the JSON array `[join_ref, ref, topic, event, payload]`.
 * JSON text itself is not modelled; a frame is the parsed `Json` array.
 */
module Serializer {
  import opened Wrappers
  import opened Json

  /** The protocol version the client announces in its endpoint URL. */
  const VSN: string := "2.0.0"

  /** A decoded message: the object `{join_ref, ref, topic, event, payload}`. */
  datatype Message = Message(joinRef: Json, ref: Json, topic: Json, event: Json, payload: Json)

  /** Array destructuring: a missing position reads as undefined. */
  function ElementAt(items: seq<Json>, i: nat): Json {
    if i < |items| then items[i] else JNull
  }

  /** `serializer.encode`: the five fields as an array, in protocol order. */
  function Encode(m: Message): (raw: Json)
    ensures raw.JArr? && |raw.items| == 5
    ensures raw.items == [m.joinRef, m.ref, m.topic, m.event, m.payload]
    ensures Decode(raw) == Some(m)
  {
    JArr([m.joinRef, m.ref, m.topic, m.event, m.payload])
  }

  /**
   * `serializer.decode`: destructures the parsed array. A string is iterable, so
   * it destructures into its first five characters; any other non-array value
   * makes the destructuring throw, which the model reports as None.
   */
  function Decode(raw: Json): (r: Option<Message>)
    ensures r.Some? <==> raw.JArr? || raw.JStr?
    ensures raw.JArr? ==> r == Some(Message(ElementAt(raw.items, 0), ElementAt(raw.items, 1),
                                            ElementAt(raw.items, 2), ElementAt(raw.items, 3),
                                            ElementAt(raw.items, 4)))
  {
    match raw
    case JArr(a) =>
      Some(Message(ElementAt(a, 0), ElementAt(a, 1), ElementAt(a, 2), ElementAt(a, 3), ElementAt(a, 4)))
    case JStr(s) =>
      var a := seq(|s|, i requires 0 <= i < |s| => JStr([s[i]]));
      Some(Message(ElementAt(a, 0), ElementAt(a, 1), ElementAt(a, 2), ElementAt(a, 3), ElementAt(a, 4)))
    case _ => None
  }

  /** Decoding a five-element frame and encoding the result gives the frame back. */
  lemma EncodeDecode(items: seq<Json>)
    requires |items| == 5
    ensures Decode(JArr(items)).Some? && Encode(Decode(JArr(items)).value) == JArr(items)
  {
    assert items == [items[0], items[1], items[2], items[3], items[4]];
  }

  /** Extra array elements beyond the fifth are ignored by the decoder. */
  lemma DecodeIgnoresExtra(items: seq<Json>, extra: seq<Json>)
    requires |items| == 5
    ensures Decode(JArr(items + extra)) == Decode(JArr(items))
  {
  }

  /** A frame shorter than five elements decodes with the missing fields undefined. */
  lemma DecodeShortFrame(items: seq<Json>)
    requires |items| < 5
    ensures Decode(JArr(items)).Some? && Decode(JArr(items)).value.payload == JNull
  {
  }

  /** `{...params, vsn: VSN}`: an existing `vsn` key keeps its place and takes the new value. */
  function WithVsn(params: seq<(string, string)>): (r: seq<(string, string)>)
    decreases |params|
  {
    if params == [] then [("vsn", VSN)]
    else if params[0].0 == "vsn" then [("vsn", VSN)] + params[1..]
    else [params[0]] + WithVsn(params[1..])
  }

  predicate DistinctKeys(params: seq<(string, string)>) {
    forall i, j :: 0 <= i < j < |params| ==> params[i].0 != params[j].0
  }

  /** Keys of `WithVsn(params)` are the old keys, plus `vsn` at the end if it was absent. */
  lemma WithVsnShape(params: seq<(string, string)>)
    requires DistinctKeys(params)
    ensures DistinctKeys(WithVsn(params))
    ensures ("vsn", VSN) in WithVsn(params)
    ensures forall e :: e in WithVsn(params) && e.0 == "vsn" ==> e.1 == VSN
    ensures forall e :: e in params && e.0 != "vsn" ==> e in WithVsn(params)
    ensures forall e :: e in WithVsn(params) && e.0 != "vsn" ==> e in params
  {
    WithVsnMembers(params);
    WithVsnDistinct(params);
  }

  /** Every entry other than `vsn` survives, nothing else is added, and `vsn` is present. */
  lemma {:induction false} WithVsnMembers(params: seq<(string, string)>)
    ensures ("vsn", VSN) in WithVsn(params)
    ensures forall e :: e in params && e.0 != "vsn" ==> e in WithVsn(params)
    ensures forall e :: e in WithVsn(params) && e.0 != "vsn" ==> e in params
    decreases |params|
  {
    if params != [] && params[0].0 != "vsn" {
      var rest := params[1..];
      WithVsnMembers(rest);
      var r := WithVsn(params);
      assert r == [params[0]] + WithVsn(rest);
      forall e | e in params && e.0 != "vsn" ensures e in r {
        if e != params[0] { assert e in rest; }
      }
      forall e | e in r && e.0 != "vsn" ensures e in params {
        if e != params[0] { assert e in rest; }
      }
    } else if params != [] {
      assert params == [params[0]] + params[1..];
    }
  }

  /** With distinct keys in, keys stay distinct and the only `vsn` entry carries VSN. */
  lemma {:induction false} WithVsnDistinct(params: seq<(string, string)>)
    requires DistinctKeys(params)
    ensures DistinctKeys(WithVsn(params))
    ensures forall e :: e in WithVsn(params) && e.0 == "vsn" ==> e.1 == VSN
    decreases |params|
  {
    if params != [] && params[0].0 != "vsn" {
      var rest := params[1..];
      assert DistinctKeys(rest) by {
        forall i, j | 0 <= i < j < |rest| ensures rest[i].0 != rest[j].0 {
          assert rest[i] == params[i + 1] && rest[j] == params[j + 1];
        }
      }
      WithVsnDistinct(rest);
      WithVsnMembers(rest);
      var r := WithVsn(params);
      assert r == [params[0]] + WithVsn(rest);
      forall i, j | 0 <= i < j < |r| ensures r[i].0 != r[j].0 {
        if i == 0 {
          assert r[j] in WithVsn(rest);
          if r[j].0 != "vsn" {
            var k :| 0 <= k < |rest| && rest[k] == r[j];
            assert params[k + 1] == r[j];
          }
        }
      }
      forall e | e in r && e.0 == "vsn" ensures e.1 == VSN {
        assert e in WithVsn(rest);
      }
    } else if params != [] {
      var r := WithVsn(params);
      var rest := params[1..];
      assert r == [("vsn", VSN)] + rest;
      forall i, j | 0 <= i < j < |r| ensures r[i].0 != r[j].0 {
        if i == 0 {
          assert r[j] == params[j];
        } else {
          assert r[i] == params[i] && r[j] == params[j];
        }
      }
      forall k | 0 <= k < |rest| ensures rest[k].0 != "vsn" {
        assert rest[k] == params[k + 1];
      }
    }
  }

  function JoinWith(parts: seq<string>, sep: string): string
    decreases |parts|
  {
    if parts == [] then "" else if |parts| == 1 then parts[0] else parts[0] + sep + JoinWith(parts[1..], sep)
  }

  /** `query string`: each entry as `key=value`, both encoded, joined with "&". */
  function QueryString(params: seq<(string, string)>, encode: string -> string): string {
    JoinWith(seq(|params|, i requires 0 <= i < |params| => encode(params[i].0) + "=" + encode(params[i].1)), "&")
  }

  /** `Socket.endPointURL()`; `encode` stands for `encodeURIComponent`. */
  function EndPointUrl(endPoint: string, params: seq<(string, string)>, encode: string -> string): (url: string)
    ensures |url| > |endPoint| && url[..|endPoint|] == endPoint
    ensures url[|endPoint|] == (if '?' in endPoint then '&' else '?')
    ensures url[|endPoint| + 1..] == QueryString(WithVsn(params), encode)
  {
    endPoint + (if '?' in endPoint then "&" else "?") + QueryString(WithVsn(params), encode)
  }

  /** With no socket parameters the URL ends in `?vsn=2.0.0` (or `&vsn=2.0.0`). */
  lemma EndPointUrlDefault(endPoint: string, encode: string -> string)
    requires encode("vsn") == "vsn" && encode(VSN) == VSN
    ensures EndPointUrl(endPoint, [], encode)
            == endPoint + (if '?' in endPoint then "&" else "?") + "vsn=2.0.0"
  {
    assert WithVsn([]) == [("vsn", VSN)];
  }
}
