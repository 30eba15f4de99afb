/**
  `extract_json` (app.py): pulls the JSON object out of a completion reply.
  The text from the first `{` to the last `}` is decoded; on success the keys
  `company_name` and `ideal_customers` are filled in when missing, and on
  any failure the result is `None`.

  Decoding itself (`json.loads`) is a parameter of the model: a partial map
  from text to a decoded object. Only objects need modelling: the slice is
  empty, the lone `}` (when the reply has no `{` but ends in `}`), or starts
  with `{`; the first two are not JSON, and a JSON text that starts with `{`
  can only decode to an object.
 */
module Insights {
  import opened Wrappers
  import opened PyStr

  /** A decoded JSON value. Numbers keep their source text. */
  datatype Json =
    | JNull
    | JBool(b: bool)
    | JNumber(text: string)
    | JString(s: string)
    | JArray(items: seq<Json>)
    | JObject(fields: map<string, Json>)

  type JsonObject = map<string, Json>

  /** `json.loads` restricted to texts that decode to an object. */
  type Decoder = string -> Option<JsonObject>

  const DefaultCompanyName := "This Company"

  /**
    `content[content.find("{") : content.rfind("}") + 1]`, with Python's
    slice rules: a missing `{` gives the start -1, which counts from the end,
    and a `}` missing after the first `{` gives an empty slice.
   */
  function JsonSlice(content: string): (r: string)
    ensures var i, j := Find(content, '{'), RFind(content, '}');
      && (i >= 0 && j > i ==> r == content[i..j + 1] && r[0] == '{' && r[|r| - 1] == '}')
      && (i >= 0 && j < i ==> r == [])
      && (i < 0 ==> r == (if content != [] && content[|content| - 1] == '}' then "}" else []))
  {
    Slice(content, Find(content, '{'), RFind(content, '}') + 1)
  }

  /** The defaulting at app.py:36-39: two keys are added when missing, nothing else changes. */
  function WithDefaults(data: JsonObject): (r: JsonObject)
    ensures r.Keys == data.Keys + {"company_name", "ideal_customers"}
    ensures forall k :: k in data ==> r[k] == data[k]
    ensures "company_name" !in data ==> r["company_name"] == JString(DefaultCompanyName)
    ensures "ideal_customers" !in data ==> r["ideal_customers"] == JArray([])
  {
    var named := if "company_name" !in data then data["company_name" := JString(DefaultCompanyName)] else data;
    if "ideal_customers" !in named then named["ideal_customers" := JArray([])] else named
  }

  /** `extract_json(content)`, with `decode` standing for `json.loads`. */
  function ExtractJson(content: string, decode: Decoder): (r: Option<JsonObject>)
    ensures r.None? <==> decode(JsonSlice(content)).None?
    ensures r.Some? ==> r.value == WithDefaults(decode(JsonSlice(content)).value)
  {
    match decode(JsonSlice(content))
    case None => None
    case Some(data) => Some(WithDefaults(data))
  }

  /** Commentary before the first `{` and after the last `}` is ignored. */
  lemma CommentaryIgnored(pre: string, obj: string, post: string, decode: Decoder)
    requires '{' !in pre && '}' !in post
    requires |obj| >= 2 && obj[0] == '{' && obj[|obj| - 1] == '}'
    ensures JsonSlice(pre + obj + post) == obj
    ensures ExtractJson(pre + obj + post, decode) == ExtractJson(obj, decode)
  {
    var content := pre + obj + post;
    var i, j := |pre|, |pre| + |obj| - 1;
    assert content[..i] == pre;
    FindAt(content, '{', i);
    assert content[j + 1..] == post;
    RFindAt(content, '}', j);
    assert content[i..j + 1] == obj;
    FindAt(obj, '{', 0);
    RFindAt(obj, '}', |obj| - 1);
    assert obj[0..|obj|] == obj;
  }

  /**
    Without a `{`, or without a `}` after the first `{`, the slice is `"}"`
    or empty; `json.loads` rejects both, so the result is `None`.
   */
  lemma NoObjectNoInsights(content: string, decode: Decoder)
    requires decode("") == None && decode("}") == None
    requires '{' !in content || RFind(content, '}') < Find(content, '{')
    ensures ExtractJson(content, decode) == None
  {
  }

  /**
    A decoded reply keeps every key it has, gains `company_name` and
    `ideal_customers` when they are missing, and gains no other key: a reply
    without `company_summary` or `industry` yields insights without them.
   */
  lemma DefaultsOnlyTwoKeys(content: string, decode: Decoder, key: string)
    requires decode(JsonSlice(content)).Some?
    requires key != "company_name" && key != "ideal_customers"
    ensures var r := ExtractJson(content, decode);
      && r.Some?
      && (key in r.value <==> key in decode(JsonSlice(content)).value)
  {
  }
}
