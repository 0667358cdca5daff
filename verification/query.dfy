/** The query builder: `makeQuery` turns an API action and an ordered set of
    parameters into the encyclopedia API's URL, one `&key=value` segment per
    parameter (lib/wikibot.js:88-93). `encodeURIComponent` is left
    uninterpreted: it is the `encode` parameter throughout. */
module Query {
  import opened Basics

  /** A parameter value before encoding: the handler passes strings and one number. */
  datatype Value = Str(s: string) | Num(n: int)

  /** The URL-component encoder (`encodeURIComponent`, with its conversion of a number to text). */
  type Encoder = Value -> string

  /** The parameters in the order a `for...in` over the object literal visits them. */
  type Params = seq<(string, Value)>

  const Endpoint: string := "http://en.wikipedia.org/w/api.php?action="

  /** The text one parameter adds to the URL. */
  function Segment(encode: Encoder, key: string, value: Value): string
  {
    "&" + key + "=" + encode(value)
  }

  /** The segments of all parameters, in parameter order. */
  function Segments(encode: Encoder, params: Params): string
  {
    if params == [] then ""
    else Segment(encode, params[0].0, params[0].1) + Segments(encode, params[1..])
  }

  /** The URL `makeQuery` builds: the endpoint, the action, then the segments. */
  function QueryUrl(encode: Encoder, action: string, params: Params): string
  {
    Endpoint + action + Segments(encode, params)
  }

  /** Adding a parameter at the end adds exactly its segment at the end. */
  lemma {:induction false} SegmentsAppend(encode: Encoder, params: Params, key: string, value: Value)
    ensures Segments(encode, params + [(key, value)]) == Segments(encode, params) + Segment(encode, key, value)
  {
    if params == [] {
      assert params + [(key, value)] == [(key, value)];
      assert Segments(encode, []) == "";
    } else {
      assert (params + [(key, value)])[0] == params[0];
      assert (params + [(key, value)])[1..] == params[1..] + [(key, value)];
      SegmentsAppend(encode, params[1..], key, value);
    }
  }

  /** The URL-building loop of `makeQuery` (lib/wikibot.js:90-93). */
  method MakeQuery(encode: Encoder, action: string, params: Params) returns (query: string)
    ensures query == QueryUrl(encode, action, params)
  {
    query := Endpoint + action;
    for i := 0 to |params|
      invariant query == QueryUrl(encode, action, params[..i])
    {
      var (key, value) := params[i];
      SegmentsAppend(encode, params[..i], key, value);
      assert params[..i + 1] == params[..i] + [(key, value)];
      query := query + "&" + key + "=" + encode(value);
    }
    assert params[..|params|] == params;
  }

  // Reading a URL back: the decoder below is the partner of QueryUrl and shows
  // that the URL holds exactly one segment per parameter, in order, and nothing else.

  /** A key the URL can carry unambiguously. */
  predicate PlainKey(key: string)
  {
    '&' !in key && '=' !in key
  }

  /** Every key of `params` is plain. */
  predicate PlainKeys(params: Params)
  {
    forall k :: 0 <= k < |params| ==> PlainKey(params[k].0)
  }

  /** `encode` never yields the segment separator, as `encodeURIComponent` escapes `&`. */
  ghost predicate EscapesAmpersand(encode: Encoder)
  {
    forall v :: '&' !in encode(v)
  }

  /** The key and encoded value of each parameter, in order. */
  function Encoded(encode: Encoder, params: Params): (pairs: seq<(string, string)>)
    ensures |pairs| == |params|
    ensures forall k :: 0 <= k < |params| ==> pairs[k] == (params[k].0, encode(params[k].1))
  {
    if params == [] then []
    else [(params[0].0, encode(params[0].1))] + Encoded(encode, params[1..])
  }

  /** Splits a run of `&key=value` segments into its pairs; None if `s` is not such a run. */
  function DecodeSegments(s: string): Option<seq<(string, string)>>
    decreases |s|
  {
    if s == [] then Some([])
    else if s[0] != '&' then None
    else
      var body := s[1..];
      var i := IndexOf(body, '&');
      var segment := body[..i];
      var j := IndexOf(segment, '=');
      if j == |segment| then None
      else
        match DecodeSegments(body[i..])
        case None => None
        case Some(rest) => Some([(segment[..j], segment[j + 1..])] + rest)
  }

  /** The action and the key/value pairs of a URL built on the endpoint; None otherwise. */
  function DecodeQuery(url: string): Option<(string, seq<(string, string)>)>
  {
    if |url| < |Endpoint| || url[..|Endpoint|] != Endpoint then None
    else
      var tail := url[|Endpoint|..];
      var i := IndexOf(tail, '&');
      match DecodeSegments(tail[i..])
      case None => None
      case Some(pairs) => Some((tail[..i], pairs))
  }

  /** A non-empty run of segments opens with the separator `&`. */
  lemma SegmentsStart(encode: Encoder, params: Params)
    ensures Segments(encode, params) == [] || Segments(encode, params)[0] == '&'
  {
  }

  /** Decoding the segments gives back each key with its encoded value, in order. */
  lemma {:induction false} DecodeSegmentsRoundTrip(encode: Encoder, params: Params)
    requires EscapesAmpersand(encode)
    requires PlainKeys(params)
    ensures DecodeSegments(Segments(encode, params)) == Some(Encoded(encode, params))
  {
    if params != [] {
      var key, value := params[0].0, params[0].1;
      var enc := encode(value);
      var rest := Segments(encode, params[1..]);
      var s := Segments(encode, params);
      assert PlainKey(params[0].0);
      assert s == "&" + (key + "=" + enc + rest);
      var body := s[1..];
      assert body == key + "=" + enc + rest;
      // The first `&` of the body is the one that opens the next segment.
      SegmentsStart(encode, params[1..]);
      assert '&' !in key + "=" + enc;
      IndexOfAfter(key + "=" + enc, rest, '&');
      if rest != [] {
        assert IndexOf(rest, '&') == 0;
      }
      var i := IndexOf(body, '&');
      assert i == |key| + 1 + |enc|;
      var segment := body[..i];
      assert segment == key + "=" + enc;
      assert body[i..] == rest;
      // The first `=` of the segment is the one after the key.
      IndexOfDelimiter(key, enc, '=');
      assert segment == key + ['='] + enc;
      var j := IndexOf(segment, '=');
      assert j == |key|;
      assert segment[..j] == key && segment[j + 1..] == enc;
      assert PlainKeys(params[1..]) by {
        forall k | 0 <= k < |params[1..]| ensures PlainKey(params[1..][k].0) {
          assert params[1..][k] == params[k + 1];
        }
      }
      DecodeSegmentsRoundTrip(encode, params[1..]);
      assert Encoded(encode, params) == [(key, enc)] + Encoded(encode, params[1..]);
    }
  }

  /** The URL `makeQuery` builds reads back as its action and its parameters, one
      segment per parameter in parameter order, with nothing else in it. */
  lemma QueryRoundTrip(encode: Encoder, action: string, params: Params)
    requires '&' !in action
    requires EscapesAmpersand(encode)
    requires PlainKeys(params)
    ensures DecodeQuery(QueryUrl(encode, action, params)) == Some((action, Encoded(encode, params)))
  {
    var url := QueryUrl(encode, action, params);
    var segs := Segments(encode, params);
    assert url == Endpoint + (action + segs);
    assert url[..|Endpoint|] == Endpoint;
    var tail := url[|Endpoint|..];
    assert tail == action + segs;
    IndexOfAfter(action, segs, '&');
    SegmentsStart(encode, params);
    if segs != [] {
      assert IndexOf(segs, '&') == 0;
    }
    assert IndexOf(tail, '&') == |action|;
    assert tail[..|action|] == action;
    assert tail[|action|..] == segs;
    DecodeSegmentsRoundTrip(encode, params);
  }
}
